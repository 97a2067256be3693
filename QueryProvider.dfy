/** The LINQ provider behind `ActiveRecordLinqBase<T>.Queryable`: it either hands back a
    wrapper that runs the query each time it is enumerated, or runs the query at once. */
module QueryProviders {
  import opened Wrappers
  import opened Exceptions
  import opened LinqQueries

  /** The store a query sees when `ActiveRecordBase.ExecuteQuery` runs it: that of the
      session the framework opens for the query's root type. */
  type SessionSource = TypeRep -> Store

  /** `ActiveRecordBase.ExecuteQuery`: runs the query in the session for its root type. */
  method ExecuteQuery(query: LinqQuery, sessions: SessionSource, engine: QueryEngine,
                      enumerableFrom: AssignabilityTest)
    returns (value: QueryValue)
    modifies query`result
    ensures value == engine(query.options, query.expression, sessions(query.rootType))
    ensures query.result == CachedResult(old(query.result), value, query.elementType, enumerableFrom)
  {
    value := query.Execute(sessions(query.rootType), engine, enumerableFrom);
  }

  /** The first argument `a`, in declared order, such that `IEnumerable<a>` is assignable
      from `t`. */
  function FirstEnumerableArgument(args: seq<TypeRep>, t: TypeRep, enumerableFrom: AssignabilityTest)
    : Option<TypeRep>
  {
    if |args| == 0 then None
    else if enumerableFrom(args[0], t) then Some(args[0])
    else FirstEnumerableArgument(args[1..], t, enumerableFrom)
  }

  /** `FirstEnumerableArgument` finds nothing exactly when no argument qualifies, and what it
      finds is the earliest argument that qualifies. */
  lemma {:induction false} FirstEnumerableArgumentIsFirstMatch(args: seq<TypeRep>, t: TypeRep,
                                                               enumerableFrom: AssignabilityTest)
    ensures FirstEnumerableArgument(args, t, enumerableFrom).None? <==>
            forall i :: 0 <= i < |args| ==> !enumerableFrom(args[i], t)
    ensures FirstEnumerableArgument(args, t, enumerableFrom).Some? ==>
            exists i :: && 0 <= i < |args|
                        && args[i] == FirstEnumerableArgument(args, t, enumerableFrom).value
                        && enumerableFrom(args[i], t)
                        && forall j :: 0 <= j < i ==> !enumerableFrom(args[j], t)
  {
    if |args| > 0 && !enumerableFrom(args[0], t) {
      var rest := args[1..];
      FirstEnumerableArgumentIsFirstMatch(rest, t, enumerableFrom);
      assert forall i :: 0 < i < |args| ==> args[i] == rest[i - 1];
      if FirstEnumerableArgument(rest, t, enumerableFrom).Some? {
        var k :| && 0 <= k < |rest|
                 && rest[k] == FirstEnumerableArgument(rest, t, enumerableFrom).value
                 && enumerableFrom(rest[k], t)
                 && forall j :: 0 <= j < k ==> !enumerableFrom(rest[j], t);
        assert args[k + 1] == rest[k];
        assert forall j :: 0 <= j < k + 1 ==> !enumerableFrom(args[j], t) by {
          forall j | 0 <= j < k + 1
            ensures !enumerableFrom(args[j], t)
          {
            if j > 0 { assert args[j] == rest[j - 1]; }
          }
        }
      }
    }
  }

  /** The closing type of a generic type: its only argument, or else the first argument `a`
      such that `IEnumerable<a>` is assignable from it. */
  function ClosingType(t: TypeRep, enumerableFrom: AssignabilityTest): Option<TypeRep> {
    if |t.args| == 1 then Some(t.args[0]) else FirstEnumerableArgument(t.args, t, enumerableFrom)
  }

  /** With one argument the closing type is that argument; with any other number it is the
      first argument, in declared order, that `t` is an enumerable of, and there is none
      exactly when no argument qualifies. */
  lemma ClosingTypeIsFirstMatch(t: TypeRep, enumerableFrom: AssignabilityTest)
    ensures |t.args| == 1 ==> ClosingType(t, enumerableFrom) == Some(t.args[0])
    ensures |t.args| != 1 ==>
      (ClosingType(t, enumerableFrom).None? <==> forall i :: 0 <= i < |t.args| ==> !enumerableFrom(t.args[i], t))
    ensures |t.args| != 1 && ClosingType(t, enumerableFrom).Some? ==>
      exists i :: && 0 <= i < |t.args|
                  && t.args[i] == ClosingType(t, enumerableFrom).value
                  && enumerableFrom(t.args[i], t)
                  && forall j :: 0 <= j < i ==> !enumerableFrom(t.args[j], t)
  {
    FirstEnumerableArgumentIsFirstMatch(t.args, t, enumerableFrom);
  }

  /** Whether `Execute` defers: the experimental switch is on and the expression's type is
      a generic type with a closing type. */
  predicate Defers(experimental: bool, expression: Expression, enumerableFrom: AssignabilityTest) {
    && experimental
    && expression.resultType.isGeneric
    && ClosingType(expression.resultType, enumerableFrom).Some?
  }

  /** `GetClosingType`: the single argument, or a search over the arguments in order. */
  method GetClosingType(t: TypeRep, enumerableFrom: AssignabilityTest) returns (c: Option<TypeRep>)
    ensures c == ClosingType(t, enumerableFrom)
  {
    var arguments := t.args;
    if |arguments| == 1 {
      return Some(arguments[0]);
    }
    var i := 0;
    assert arguments[0..] == arguments;
    while i < |arguments|
      invariant 0 <= i <= |arguments|
      invariant FirstEnumerableArgument(arguments, t, enumerableFrom)
                == FirstEnumerableArgument(arguments[i..], t, enumerableFrom)
    {
      assert arguments[i..][0] == arguments[i] && arguments[i..][1..] == arguments[i + 1..];
      if enumerableFrom(arguments[i], t) {
        return Some(arguments[i]);
      }
      i := i + 1;
    }
    return None;
  }

  /** The static `Experimental` switch of `QueryProvider<T>` for one `T` (a static member of
      a generic class exists once per closed type). */
  class ExperimentalSwitch {
    var enabled: bool

    /** The static constructor turns the switch on. */
    constructor ()
      ensures enabled
    {
      enabled := true;
    }

    /** The setter of `Experimental`. */
    method Set(value: bool)
      modifies this
      ensures enabled == value
    {
      enabled := value;
    }
  }

  /** `LinqResultWrapper<T>`: `elementType` is `T`, the closing type; `rootType` is the
      provider's type; `list` is the list of the last enumeration, `None` being null. */
  class LinqResultWrapper {
    const elementType: TypeRep
    const options: QueryOptions
    const expression: Expression
    const rootType: TypeRep
    var list: Option<seq<Row>>

    /** Keeps what the query needs; nothing is run and the list is null. */
    constructor (elementType: TypeRep, options: QueryOptions, expression: Expression, rootType: TypeRep)
      ensures this.elementType == elementType && this.options == options
      ensures this.expression == expression && this.rootType == rootType
      ensures list == None
    {
      this.elementType := elementType;
      this.options := options;
      this.expression := expression;
      this.rootType := rootType;
      list := None;
    }

    /** Runs a fresh query for `T` with the wrapper's root type and replaces the list with its
        `Result`: the rows when they are a sequence of `T`, else null. */
    method Populate(sessions: SessionSource, engine: QueryEngine, enumerableFrom: AssignabilityTest)
      modifies this`list
      ensures list == CachedResult(None, engine(options, expression, sessions(rootType)), elementType, enumerableFrom)
    {
      var query := new LinqQuery(elementType, options, expression, rootType);
      var value := ExecuteQuery(query, sessions, engine, enumerableFrom);
      list := query.result;
    }

    /** Every enumeration populates the list anew and enumerates it; a null list fails. */
    method GetEnumerator(sessions: SessionSource, engine: QueryEngine, enumerableFrom: AssignabilityTest)
      returns (r: Result<seq<Row>, Exception>)
      modifies this`list
      ensures list == CachedResult(None, engine(options, expression, sessions(rootType)), elementType, enumerableFrom)
      ensures r.Success? <==> list.Some?
      ensures r.Success? ==> r.value == list.value
      ensures r.Failure? ==> r.error == NullReferenceException
    {
      Populate(sessions, engine, enumerableFrom);
      if list.None? {
        return Failure(NullReferenceException);
      }
      r := Success(list.value);
    }
  }

  /** What `QueryProvider<T>.Execute` returns: a wrapper, or the value of the query run at
      once. */
  datatype ProviderResult = Deferred(wrapper: LinqResultWrapper) | Eager(value: QueryValue)

  /** `QueryProvider<T>`: `elementType` is `T`; `experimental` is the static switch for `T`. */
  class QueryProvider {
    const elementType: TypeRep
    const options: QueryOptions
    const experimental: ExperimentalSwitch

    /** Keeps the options. */
    constructor (elementType: TypeRep, options: QueryOptions, experimental: ExperimentalSwitch)
      ensures this.elementType == elementType && this.options == options
      ensures this.experimental == experimental
    {
      this.elementType := elementType;
      this.options := options;
      this.experimental := experimental;
    }

    /** Defers to a fresh wrapper over the closing type, querying with root type `T`, when
        the switch is on and the expression's type is generic with a closing type; otherwise
        runs a query for `T` at once and returns its value. */
    method Execute(expression: Expression, sessions: SessionSource, engine: QueryEngine,
                   enumerableFrom: AssignabilityTest)
      returns (r: ProviderResult)
      ensures Defers(experimental.enabled, expression, enumerableFrom) ==>
        && r.Deferred? && fresh(r.wrapper)
        && r.wrapper.elementType == ClosingType(expression.resultType, enumerableFrom).value
        && r.wrapper.options == options && r.wrapper.expression == expression
        && r.wrapper.rootType == elementType
        && r.wrapper.list == None
      ensures !Defers(experimental.enabled, expression, enumerableFrom) ==>
        r == Eager(engine(options, expression, sessions(elementType)))
    {
      if experimental.enabled {
        var t := expression.resultType;
        if t.isGeneric {
          var closingType := GetClosingType(t, enumerableFrom);
          if closingType.Some? {
            var wrapper := new LinqResultWrapper(closingType.value, options, expression, elementType);
            return Deferred(wrapper);
          }
        }
      }
      var query := new LinqQuery(elementType, options, expression, elementType);
      var value := ExecuteQuery(query, sessions, engine, enumerableFrom);
      r := Eager(value);
    }
  }

  /** A provider on a fresh switch defers a query whose type has a single generic argument,
      whatever the engine would return; the wrapper holds no list yet. */
  method DefaultProviderDefers(elementType: TypeRep, options: QueryOptions, expression: Expression,
                               sessions: SessionSource, engine: QueryEngine,
                               enumerableFrom: AssignabilityTest)
    returns (deferred: bool, listIsNull: bool)
    requires expression.resultType.isGeneric && |expression.resultType.args| == 1
    ensures deferred && listIsNull
  {
    var switch := new ExperimentalSwitch();
    var provider := new QueryProvider(elementType, options, switch);
    var r := provider.Execute(expression, sessions, engine, enumerableFrom);
    deferred := r.Deferred?;
    listIsNull := r.Deferred? && r.wrapper.list == None;
  }

  /** With the switch turned off the provider runs the query at once against the session
      for `T`. */
  method SwitchedOffProviderRunsEagerly(elementType: TypeRep, options: QueryOptions, expression: Expression,
                                        sessions: SessionSource, engine: QueryEngine,
                                        enumerableFrom: AssignabilityTest)
    returns (r: ProviderResult)
    ensures r == Eager(engine(options, expression, sessions(elementType)))
  {
    var switch := new ExperimentalSwitch();
    switch.Set(false);
    var provider := new QueryProvider(elementType, options, switch);
    r := provider.Execute(expression, sessions, engine, enumerableFrom);
  }

  /** Enumerating one wrapper twice, with the database changed in between, sees each time
      the rows of the store at that time: the query is re-run, not replayed. */
  method WrapperSeesLatestRows(elementType: TypeRep, options: QueryOptions, expression: Expression,
                               rootType: TypeRep, before: SessionSource, after: SessionSource,
                               engine: QueryEngine, enumerableFrom: AssignabilityTest)
    returns (first: Result<seq<Row>, Exception>, second: Result<seq<Row>, Exception>)
    requires IsSequenceOf(engine(options, expression, before(rootType)), elementType, enumerableFrom)
    requires IsSequenceOf(engine(options, expression, after(rootType)), elementType, enumerableFrom)
    ensures first == Success(engine(options, expression, before(rootType)).items)
    ensures second == Success(engine(options, expression, after(rootType)).items)
  {
    var wrapper := new LinqResultWrapper(elementType, options, expression, rootType);
    first := wrapper.GetEnumerator(before, engine, enumerableFrom);
    second := wrapper.GetEnumerator(after, engine, enumerableFrom);
  }
}
