/** The attribute marking an entity's primary key, with the strategy that generates its
    values. */
module PrimaryKeyAttributes {
  import opened Wrappers
  import opened ClrTypes

  /** `PrimaryKeyType`, in declaration order. */
  datatype PrimaryKeyType =
    | Identity | Sequence | HiLo | SeqHiLo | UuidHex | UuidString | Guid | GuidComb
    | Native | Assigned | Foreign | Counter | Increment | Custom

  /** A CLR type given to the attribute (a custom identifier generator), by name. */
  datatype GeneratorClass = GeneratorClass(name: string)

  /** The generator used when none was given. */
  const DefaultPrimaryKeyType := Native

  /** `PrimaryKeyAttribute`. `generator` is the nullable backing field of `Generator`; the
      remaining fields are the auto-properties, null strings and types being `None`. */
  class PrimaryKeyAttribute {
    var generator: Option<PrimaryKeyType>
    var column: Option<string>
    var unsavedValue: Option<string>
    var sequenceName: Option<string>
    var columnType: Option<string>
    var length: int32
    var customGenerator: Option<GeneratorClass>
    var params: Option<string>
    var isOverride: bool

    /** Every auto-property at its default and the generator unset. */
    predicate Unset()
      reads this
    {
      && column == None && unsavedValue == None && sequenceName == None && columnType == None
      && length == 0 && customGenerator == None && params == None && !isOverride
    }

    /** No generator given: the generator is unset. */
    constructor ()
      ensures generator == None && Unset()
    {
      generator := None;
      column, unsavedValue, sequenceName, columnType := None, None, None, None;
      length, customGenerator, params, isOverride := 0, None, None, false;
    }

    /** A custom generator class: the generator is `Custom` and the class is kept. */
    constructor WithCustomGenerator(customGenerator: GeneratorClass)
      ensures generator == Some(Custom) && this.customGenerator == Some(customGenerator)
      ensures column == None && unsavedValue == None && sequenceName == None && columnType == None
      ensures length == 0 && params == None && !isOverride
    {
      generator := Some(Custom);
      column, unsavedValue, sequenceName, columnType := None, None, None, None;
      length, params, isOverride := 0, None, false;
      this.customGenerator := Some(customGenerator);
    }

    /** A generator: it is kept. */
    constructor WithGenerator(generator: PrimaryKeyType)
      ensures this.generator == Some(generator) && Unset()
    {
      this.generator := Some(generator);
      column, unsavedValue, sequenceName, columnType := None, None, None, None;
      length, customGenerator, params, isOverride := 0, None, None, false;
    }

    /** A generator and a column: both are kept. */
    constructor WithGeneratorAndColumn(generator: PrimaryKeyType, column: string)
      ensures this.generator == Some(generator) && this.column == Some(column)
      ensures unsavedValue == None && sequenceName == None && columnType == None
      ensures length == 0 && customGenerator == None && params == None && !isOverride
    {
      this.generator := Some(generator);
      this.column := Some(column);
      unsavedValue, sequenceName, columnType := None, None, None;
      length, customGenerator, params, isOverride := 0, None, None, false;
    }

    /** A column only: it is kept and the generator stays unset. */
    constructor WithColumn(column: string)
      ensures generator == None && this.column == Some(column)
      ensures unsavedValue == None && sequenceName == None && columnType == None
      ensures length == 0 && customGenerator == None && params == None && !isOverride
    {
      generator := None;
      this.column := Some(column);
      unsavedValue, sequenceName, columnType := None, None, None;
      length, customGenerator, params, isOverride := 0, None, None, false;
    }

    /** The `Generator` getter: the generator given, or `Native` when none was. */
    function Generator(): (g: PrimaryKeyType)
      reads this
      ensures generator.Some? ==> g == generator.value
      ensures generator.None? ==> g == Native
    {
      generator.GetOr(DefaultPrimaryKeyType)
    }

    /** `TypeSpecified`: whether a generator was given, by constructor or setter. */
    function TypeSpecified(): (b: bool)
      reads this
      ensures b <==> generator.Some?
    {
      generator.Some?
    }

    /** The `Generator` setter: the value reads back, the generator now counts as specified,
        and no auto-property changes. */
    method SetGenerator(value: PrimaryKeyType)
      modifies this`generator
      ensures Generator() == value && TypeSpecified()
    {
      generator := Some(value);
    }
  }

  /** An attribute that names only a column reads `Native` and has no generator specified;
      setting `Native` explicitly reads the same but marks the generator as specified. */
  method ExplicitNativeDiffersFromDefault(column: string)
    returns (before: PrimaryKeyType, specifiedBefore: bool, after: PrimaryKeyType, specifiedAfter: bool)
    ensures before == Native && !specifiedBefore
    ensures after == Native && specifiedAfter
  {
    var a := new PrimaryKeyAttribute.WithColumn(column);
    before, specifiedBefore := a.Generator(), a.TypeSpecified();
    a.SetGenerator(Native);
    after, specifiedAfter := a.Generator(), a.TypeSpecified();
  }

  /** The custom-generator constructor reads `Custom`, counts as specified and keeps the
      class. */
  method CustomGeneratorIsSpecified(customGenerator: GeneratorClass)
    returns (generator: PrimaryKeyType, specified: bool, kept: Option<GeneratorClass>)
    ensures generator == Custom && specified && kept == Some(customGenerator)
  {
    var a := new PrimaryKeyAttribute.WithCustomGenerator(customGenerator);
    generator, specified, kept := a.Generator(), a.TypeSpecified(), a.customGenerator;
  }
}
