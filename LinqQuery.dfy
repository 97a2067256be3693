/** A LINQ query handed to the ORM: it runs its expression through the engine's LINQ
    provider and keeps the result as a list when the result is a sequence of its element
    type. */
module LinqQueries {
  import opened Wrappers
  import opened Exceptions

  /** A CLR type: its name, whether it is a constructed generic type, and its generic
      arguments in declared order. */
  datatype TypeRep = TypeRep(name: string, isGeneric: bool, args: seq<TypeRep>)

  /** A LINQ expression tree, identified by its text, with the static type it produces. */
  datatype Expression = Expression(text: string, resultType: TypeRep)

  /** The query options passed through to the engine. */
  datatype QueryOptions = QueryOptions(id: nat)

  /** An entity or projected row, by identity. */
  type Row = nat

  /** What the database holds when a query runs, as far as a query can observe it. */
  datatype Store = Store(rows: seq<Row>)

  /** What the engine's LINQ provider returns: null, an enumerable of rows whose runtime type
      is given, or a single non-enumerable value (a count, a first element, ...). */
  datatype QueryValue =
    | NullValue
    | Sequence(runtimeType: TypeRep, items: seq<Row>)
    | Scalar(runtimeType: TypeRep, value: int)

  /** The engine's LINQ provider: the value of an expression over a store. */
  type QueryEngine = (QueryOptions, Expression, Store) -> QueryValue

  /** `EnumerableFrom(a, t)`: `IEnumerable<a>` is assignable from the type `t`. */
  type AssignabilityTest = (TypeRep, TypeRep) -> bool

  /** `value is IEnumerable<t>`: null and non-enumerable values never are. */
  predicate IsSequenceOf(value: QueryValue, t: TypeRep, enumerableFrom: AssignabilityTest) {
    value.Sequence? && enumerableFrom(t, value.runtimeType)
  }

  /** The `Result` a query holds after running to `value`: a list of the same rows in the
      same order when `value` is a sequence of the element type, else what it held before. */
  function CachedResult(before: Option<seq<Row>>, value: QueryValue, elementType: TypeRep,
                        enumerableFrom: AssignabilityTest): (r: Option<seq<Row>>)
    ensures IsSequenceOf(value, elementType, enumerableFrom) ==> r == Some(value.items)
    ensures !IsSequenceOf(value, elementType, enumerableFrom) ==> r == before
  {
    if IsSequenceOf(value, elementType, enumerableFrom) then Some(value.items) else before
  }

  /** What `Enumerate` hands back for `value`: the value itself when it is null or
      enumerable; a non-enumerable value cannot be cast and fails. */
  function AsEnumerable(value: QueryValue): (r: Result<QueryValue, Exception>)
    ensures r.Failure? <==> value.Scalar?
    ensures r.Failure? ==> r.error == InvalidCastException
    ensures r.Success? ==> r.value == value
  {
    if value.Scalar? then Failure(InvalidCastException) else Success(value)
  }

  /** `LinqQuery<T>`: `elementType` is `T`. */
  class LinqQuery {
    const elementType: TypeRep
    const options: QueryOptions
    const expression: Expression
    /** What the `RootType` property returns. */
    const rootType: TypeRep
    /** The `Result` property; `None` is null. */
    var result: Option<seq<Row>>

    /** Keeps the options, the expression and the root type; `Result` starts null. */
    constructor (elementType: TypeRep, options: QueryOptions, expression: Expression, rootType: TypeRep)
      ensures this.elementType == elementType && this.options == options
      ensures this.expression == expression && this.rootType == rootType
      ensures result == None
    {
      this.elementType := elementType;
      this.options := options;
      this.expression := expression;
      this.rootType := rootType;
      result := None;
    }

    /** Runs the expression through the engine and returns exactly what the engine returned;
        `Result` becomes a copy of the rows when they are a sequence of `T` and is left
        alone otherwise. */
    method Execute(store: Store, engine: QueryEngine, enumerableFrom: AssignabilityTest)
      returns (value: QueryValue)
      modifies this`result
      ensures value == engine(options, expression, store)
      ensures result == CachedResult(old(result), value, elementType, enumerableFrom)
    {
      value := engine(options, expression, store);
      if IsSequenceOf(value, elementType, enumerableFrom) {
        result := Some(value.items);
      }
    }

    /** Runs `Execute` and casts its value to a non-generic enumerable. */
    method Enumerate(store: Store, engine: QueryEngine, enumerableFrom: AssignabilityTest)
      returns (r: Result<QueryValue, Exception>)
      modifies this`result
      ensures r == AsEnumerable(engine(options, expression, store))
      ensures result == CachedResult(old(result), engine(options, expression, store), elementType, enumerableFrom)
    {
      var value := Execute(store, engine, enumerableFrom);
      r := AsEnumerable(value);
    }
  }

  /** Caching is idempotent: running the same query twice on the same store leaves the same
      `Result` as running it once. */
  lemma CachingTwiceIsCachingOnce(before: Option<seq<Row>>, value: QueryValue, elementType: TypeRep,
                                  enumerableFrom: AssignabilityTest)
    ensures var once := CachedResult(before, value, elementType, enumerableFrom);
      CachedResult(once, value, elementType, enumerableFrom) == once
  {
  }
}
