/** The XML configuration source: reads the framework's settings from the attributes of the
    root element and one (type, properties) pair from each `config` child, where the
    properties are a database kind's defaults (the short form) overlaid by `add` entries. */
module XmlConfiguration {
  import opened Wrappers
  import opened Exceptions
  import opened Text
  import opened DatabaseTypes
  import opened DefaultDatabaseConfigurations

  /** A node of the configuration document: an element, or anything else (text, comments,
      processing instructions), which the source skips. */
  datatype XmlNode =
    | Element(name: string, attributes: map<string, string>, children: seq<XmlNode>)
    | Other

  /** `node.Attributes[name]`: the attribute's value, or null. */
  function Attribute(node: XmlNode, name: string): Option<string> {
    if node.Element? && name in node.attributes then Some(node.attributes[name]) else None
  }

  /** `a ?? b` on attributes. */
  function OrElse(a: Option<string>, b: Option<string>): Option<string> {
    if a.Some? then a else b
  }

  /** A CLR type as the configuration refers to it: the framework's base class, or a type
      obtained by name. */
  datatype ClrTypeHandle = ActiveRecordBase | Loaded(id: nat)

  /** `Type.GetType(name, false, false)`: the type a name denotes, or null. The loaded types
      are outside the model, so the lookup is a parameter. */
  type TypeResolver = string -> Option<ClrTypeHandle>

  /** One configured pair: the root type of a hierarchy and its engine properties. */
  datatype ConfigEntry = ConfigEntry(target: ClrTypeHandle, properties: map<string, string>)

  /** The default flush type setting: Classic when the root has no `flush` attribute,
      otherwise the attribute's raw text, which the base class interprets. */
  datatype FlushTypeSetting = Classic | Named(raw: string)

  const ConfigNodeName: string := "config"
  const ConnectionStringNameKey: string := "connection.connection_string_name"

  /** The error raised for an element child of the root that is not `config`. */
  function UnexpectedNodeMessage(found: string): string {
    "Unexpected node. Expect '" + ConfigNodeName + "' found '" + found + "'"
  }

  /** The error raised for a `type` attribute that names no loadable type. */
  function UnknownTypeMessage(typeName: string): string {
    "Could not obtain type from name '" + typeName + "'"
  }

  const ShortFormMessage: string :=
    "Using short form of configuration requires both 'database' and 'connectionStringName' "
    + "attributes to be specified."

  const AddEntryMessage: string :=
    "For each 'add' element you must specify 'key' and 'value' attributes"

  /** The list of valid database names in the error for an unknown one: each member name,
      in declaration order, quoted and preceded by a space. */
  function QuotedMemberNames(): seq<string> {
    seq(|AllDatabaseTypes|, i requires 0 <= i < |AllDatabaseTypes| =>
      " '" + Name(AllDatabaseTypes[i]) + "'")
  }

  /** The error raised for a database name that is not a member name. */
  function InvalidDatabaseMessage(name: string): string {
    "Specified value (" + name + ") is not valid for 'database' attribute. Valid values are:"
    + Concat(QuotedMemberNames()) + "."
  }

  /** The message for an unknown database name names every member, quoted. */
  lemma InvalidDatabaseMessageListsEveryMember(name: string, t: DatabaseType)
    ensures Contains(InvalidDatabaseMessage(name), "'" + Name(t) + "'")
  {
    var quoted := "'" + Name(t) + "'";
    var parts := QuotedMemberNames();
    ExactlyFourteenMembers(t);
    var i := Ordinal(t);
    assert parts[i] == " " + quoted;
    assert OccursAt(parts[i], quoted, 1) by {
      assert (" " + quoted)[1..1 + |quoted|] == quoted;
    }
    ContainsPart(parts, i, quoted);
    var prefix := "Specified value (" + name + ") is not valid for 'database' attribute. Valid values are:";
    ContainsInSuffix(prefix, Concat(parts), quoted);
    ContainsInPrefix(prefix + Concat(parts), ".", quoted);
  }

  /** `ConvertBool`: an attribute switches a flag on when it is present and reads "true"
      ignoring case. */
  function ConvertBool(attribute: Option<string>): bool {
    attribute.Some? && EqualsIgnoreCase("true", attribute.value)
  }

  /** Any letter case of "true" switches a flag on; anything else, or a missing attribute,
      leaves it off. The `isWeb` and `verifyModelsAgainstDBSchema` attributes compare
      exactly instead, so "TRUE" switches those off. */
  lemma ConvertBoolIgnoresCase(value: string)
    ensures ConvertBool(Some(value)) <==> Upper(value) == "TRUE"
    ensures !ConvertBool(None)
    ensures ConvertBool(Some("TRUE")) && ConvertBool(Some("True")) && ConvertBool(Some("true"))
    ensures !ConvertBool(Some("1")) && !ConvertBool(Some("yes"))
    ensures Some("TRUE") != Some("true")
  {
    assert Upper("true") == "TRUE";
    assert Upper("True") == "TRUE";
    assert Upper("TRUE") == "TRUE";
    assert |Upper("yes")| == 3;
  }

  /** `SetDefaults`: the defaults of the database kind named (ignoring case) by `name`, with
      the connection string name added; an unknown name is an error listing the valid
      ones. */
  function SetDefaults(name: string, connectionStringName: string)
    : (r: Result<map<string, string>, Exception>)
    ensures r.Failure? ==> r.error == ConfigurationErrorsException(InvalidDatabaseMessage(name))
    ensures r.Success? ==>
      ConnectionStringNameKey in r.value && r.value[ConnectionStringNameKey] == connectionStringName
  {
    match Parse(name)
    case None => Failure(ConfigurationErrorsException(InvalidDatabaseMessage(name)))
    case Some(t) => Success(For(t)[ConnectionStringNameKey := connectionStringName])
  }

  /** A name is accepted exactly when it is a member name ignoring case, and then the
      result is that member's defaults plus the connection string name. */
  lemma SetDefaultsAcceptsExactlyMemberNames(name: string, connectionStringName: string, t: DatabaseType)
    ensures SetDefaults(name, connectionStringName).Failure? <==>
      forall u: DatabaseType :: !EqualsIgnoreCase(Name(u), name)
    ensures EqualsIgnoreCase(Name(t), name) ==>
      SetDefaults(name, connectionStringName) ==
        Success(For(t)[ConnectionStringNameKey := connectionStringName])
  {
    ParseAcceptsExactlyMemberNames(name, t);
  }

  /** `node.SelectNodes("add")`: the element children named `add`, in document order. */
  function AddElements(nodes: seq<XmlNode>): (adds: seq<XmlNode>)
    ensures |adds| <= |nodes|
    ensures forall a | a in adds :: a.Element? && a.name == "add"
    ensures forall a | a in nodes && a.Element? && a.name == "add" :: a in adds
  {
    if |nodes| == 0 then []
    else if nodes[0].Element? && nodes[0].name == "add" then [nodes[0]] + AddElements(nodes[1..])
    else AddElements(nodes[1..])
  }

  /** An `add` element carrying both a key and a value. */
  predicate Complete(add: XmlNode) {
    Attribute(add, "key").Some? && Attribute(add, "value").Some?
  }

  /** The properties after applying `adds` in order over `dict`: each complete entry sets
      its key to its value; the first incomplete one is an error. */
  function Layered(dict: map<string, string>, adds: seq<XmlNode>): Result<map<string, string>, Exception>
  {
    if |adds| == 0 then Success(dict)
    else
      match Layered(dict, adds[..|adds| - 1])
      case Failure(e) => Failure(e)
      case Success(m) =>
        var add := adds[|adds| - 1];
        if Complete(add) then Success(m[Attribute(add, "key").value := Attribute(add, "value").value])
        else Failure(ConfigurationErrorsException(AddEntryMessage))
  }

  /** Once a prefix of the entries has failed, the whole fails with the same error. */
  lemma {:induction false} LayeredFailurePersists(dict: map<string, string>, adds: seq<XmlNode>, i: nat)
    requires i <= |adds| && Layered(dict, adds[..i]).Failure?
    ensures Layered(dict, adds) == Layered(dict, adds[..i])
  {
    if i < |adds| {
      var n := |adds| - 1;
      assert adds[..n][..i] == adds[..i];
      LayeredFailurePersists(dict, adds[..n], i);
    } else {
      assert adds[..i] == adds;
    }
  }

  /** Layering fails exactly when some `add` lacks its key or its value, and then with the
      fixed message. */
  lemma {:induction false} LayeredFailsIffSomeAddIncomplete(dict: map<string, string>, adds: seq<XmlNode>)
    ensures Layered(dict, adds).Failure? <==> exists i :: 0 <= i < |adds| && !Complete(adds[i])
    ensures Layered(dict, adds).Failure? ==>
      Layered(dict, adds).error == ConfigurationErrorsException(AddEntryMessage)
  {
    if |adds| > 0 {
      var n := |adds| - 1;
      LayeredFailsIffSomeAddIncomplete(dict, adds[..n]);
      if exists i :: 0 <= i < n && !Complete(adds[..n][i]) {
        var i :| 0 <= i < n && !Complete(adds[..n][i]);
        assert !Complete(adds[i]);
      }
      if exists i :: 0 <= i < |adds| && !Complete(adds[i]) {
        var i :| 0 <= i < |adds| && !Complete(adds[i]);
        if i < n {
          assert !Complete(adds[..n][i]);
        }
      }
    }
  }

  /** The value of the last complete `add` entry whose key is `key`, if any. */
  function LastValueFor(adds: seq<XmlNode>, key: string): (v: Option<string>)
    ensures v.Some? <==> exists i :: 0 <= i < |adds| && Complete(adds[i]) && Attribute(adds[i], "key") == Some(key)
    ensures v.Some? ==> exists i :: && 0 <= i < |adds| && Complete(adds[i])
                                  && Attribute(adds[i], "key") == Some(key)
                                  && Attribute(adds[i], "value") == v
                                  && forall j :: i < j < |adds| && Complete(adds[j]) ==>
                                       Attribute(adds[j], "key") != Some(key)
  {
    if |adds| == 0 then None
    else
      var last := adds[|adds| - 1];
      if Complete(last) && Attribute(last, "key") == Some(key) then Attribute(last, "value")
      else
        var earlier := LastValueFor(adds[..|adds| - 1], key);
        assert forall i :: 0 <= i < |adds| - 1 ==> adds[..|adds| - 1][i] == adds[i];
        earlier
  }

  /** A later `add` for a key overrides earlier ones and the defaults; a key no `add`
      mentions keeps its default, and no other key appears. */
  lemma {:induction false} LayeredLastAddWins(dict: map<string, string>, adds: seq<XmlNode>, key: string)
    requires Layered(dict, adds).Success?
    ensures LastValueFor(adds, key).Some? ==>
      key in Layered(dict, adds).value && Layered(dict, adds).value[key] == LastValueFor(adds, key).value
    ensures LastValueFor(adds, key).None? ==>
      && (key in Layered(dict, adds).value <==> key in dict)
      && (key in dict ==> Layered(dict, adds).value[key] == dict[key])
  {
    if |adds| > 0 {
      LayeredLastAddWins(dict, adds[..|adds| - 1], key);
    }
  }

  /** `BuildProperties`: the `add` entries of `node` applied in order over the defaults, or
      over an empty dictionary when there are none. */
  method BuildProperties(node: XmlNode, defaults: Option<map<string, string>>)
    returns (r: Result<map<string, string>, Exception>)
    ensures r == Layered(defaults.GetOr(map[]), AddElements(if node.Element? then node.children else []))
  {
    var initial := if defaults.Some? then defaults.value else map[];
    var dict := initial;
    var adds := AddElements(if node.Element? then node.children else []);
    var i := 0;
    while i < |adds|
      invariant 0 <= i <= |adds|
      invariant Layered(initial, adds[..i]) == Success(dict)
    {
      var key := Attribute(adds[i], "key");
      var value := Attribute(adds[i], "value");
      if key.None? || value.None? {
        assert adds[..i + 1][..i] == adds[..i];
        LayeredFailurePersists(initial, adds, i + 1);
        return Failure(ConfigurationErrorsException(AddEntryMessage));
      }
      dict := dict[key.value := value.value];
      assert adds[..i + 1][..i] == adds[..i];
      i := i + 1;
    }
    assert adds[..i] == adds;
    return Success(dict);
  }

  /** The type a `config` element configures: ActiveRecordBase without a `type` attribute,
      otherwise the type it names, which must exist. */
  function TargetType(node: XmlNode, resolveType: TypeResolver): (r: Result<ClrTypeHandle, Exception>)
    ensures Attribute(node, "type").None? ==> r == Success(ActiveRecordBase)
    ensures Attribute(node, "type").Some? && resolveType(Attribute(node, "type").value).None? ==>
      r == Failure(ConfigurationErrorsException(UnknownTypeMessage(Attribute(node, "type").value)))
    ensures Attribute(node, "type").Some? && resolveType(Attribute(node, "type").value).Some? ==>
      r == Success(resolveType(Attribute(node, "type").value).value)
  {
    match Attribute(node, "type")
    case None => Success(ActiveRecordBase)
    case Some(typeName) =>
      match resolveType(typeName)
      case None => Failure(ConfigurationErrorsException(UnknownTypeMessage(typeName)))
      case Some(t) => Success(t)
  }

  /** The short form: `database` (or `db`) together with `connectionStringName` (or `csn`)
      selects a kind's defaults; one without the other is an error; neither means no
      defaults. */
  function ShortFormDefaults(node: XmlNode): (r: Result<Option<map<string, string>>, Exception>)
  {
    var databaseName := OrElse(Attribute(node, "database"), Attribute(node, "db"));
    var connectionStringName := OrElse(Attribute(node, "connectionStringName"), Attribute(node, "csn"));
    if databaseName.Some? && connectionStringName.Some? then
      match SetDefaults(databaseName.value, connectionStringName.value)
      case Failure(e) => Failure(e)
      case Success(d) => Success(Some(d))
    else if databaseName.Some? || connectionStringName.Some? then
      Failure(ConfigurationErrorsException(ShortFormMessage))
    else
      Success(None)
  }

  /** What one element child of the root contributes: an error for a node not named
      `config`, else the configured type and properties or the first error among them. */
  function ConfigEntryOf(node: XmlNode, resolveType: TypeResolver): Result<ConfigEntry, Exception>
    requires node.Element?
  {
    if node.name != ConfigNodeName then
      Failure(ConfigurationErrorsException(UnexpectedNodeMessage(node.name)))
    else if |node.attributes| == 0 then
      match Layered(map[], AddElements(node.children))
      case Failure(e) => Failure(e)
      case Success(p) => Success(ConfigEntry(ActiveRecordBase, p))
    else
      match TargetType(node, resolveType)
      case Failure(e) => Failure(e)
      case Success(t) =>
        match ShortFormDefaults(node)
        case Failure(e) => Failure(e)
        case Success(defaults) =>
          match Layered(defaults.GetOr(map[]), AddElements(node.children))
          case Failure(e) => Failure(e)
          case Success(p) => Success(ConfigEntry(t, p))
  }

  /** The outcome of walking the children of the root: the entries added, in order, up to
      the first error, and that error if there is one. */
  function ConfigNodesOutcome(nodes: seq<XmlNode>, resolveType: TypeResolver)
    : (seq<ConfigEntry>, Option<Exception>)
  {
    if |nodes| == 0 then ([], None)
    else if !nodes[0].Element? then ConfigNodesOutcome(nodes[1..], resolveType)
    else
      match ConfigEntryOf(nodes[0], resolveType)
      case Failure(e) => ([], Some(e))
      case Success(entry) =>
        var rest := ConfigNodesOutcome(nodes[1..], resolveType);
        ([entry] + rest.0, rest.1)
  }

  /** The number of element children. */
  function ElementCount(nodes: seq<XmlNode>): nat {
    if |nodes| == 0 then 0 else (if nodes[0].Element? then 1 else 0) + ElementCount(nodes[1..])
  }

  /** When the walk succeeds, every element child is a `config` node and contributes exactly
      one entry; non-element children contribute nothing. */
  lemma {:induction false} EachConfigNodeAddsOneEntry(nodes: seq<XmlNode>, resolveType: TypeResolver)
    ensures ConfigNodesOutcome(nodes, resolveType).1.None? ==>
      && |ConfigNodesOutcome(nodes, resolveType).0| == ElementCount(nodes)
      && forall i :: 0 <= i < |nodes| && nodes[i].Element? ==> nodes[i].name == ConfigNodeName
  {
    if |nodes| > 0 {
      EachConfigNodeAddsOneEntry(nodes[1..], resolveType);
      if ConfigNodesOutcome(nodes, resolveType).1.None? {
        forall i | 0 <= i < |nodes| && nodes[i].Element?
          ensures nodes[i].name == ConfigNodeName
        {
          if i > 0 {
            assert nodes[1..][i - 1] == nodes[i];
          }
        }
      }
    }
  }

  /** An element child that is not named `config` stops the walk with an error naming
      it. */
  lemma UnexpectedNodeIsRejected(node: XmlNode, rest: seq<XmlNode>, resolveType: TypeResolver)
    requires node.Element? && node.name != ConfigNodeName
    ensures ConfigNodesOutcome([node] + rest, resolveType) ==
      ([], Some(ConfigurationErrorsException(UnexpectedNodeMessage(node.name))))
  {
    assert ([node] + rest)[0] == node;
  }

  /** Exactly one of the two short-form attributes is an error. */
  lemma ShortFormNeedsBoth(node: XmlNode, resolveType: TypeResolver)
    requires node.Element? && node.name == ConfigNodeName
    requires TargetType(node, resolveType).Success?
    requires OrElse(Attribute(node, "database"), Attribute(node, "db")).Some? !=
             OrElse(Attribute(node, "connectionStringName"), Attribute(node, "csn")).Some?
    ensures ConfigEntryOf(node, resolveType) == Failure(ConfigurationErrorsException(ShortFormMessage))
  {
  }

  /** The long attribute names win over their aliases: with `database` present, `db` is
      ignored, and with `connectionStringName` present, `csn` is ignored. */
  lemma LongAttributeNamesWin(node: XmlNode, resolveType: TypeResolver)
    requires node.Element? && "database" in node.attributes && "connectionStringName" in node.attributes
    ensures ConfigEntryOf(node, resolveType) ==
      ConfigEntryOf(node.(attributes := node.attributes - {"db", "csn"}), resolveType)
  {
    var stripped := node.(attributes := node.attributes - {"db", "csn"});
    assert "database" in stripped.attributes;
    assert Attribute(stripped, "type") == Attribute(node, "type");
    assert Attribute(stripped, "database") == Attribute(node, "database");
    assert Attribute(stripped, "connectionStringName") == Attribute(node, "connectionStringName");
  }

  /** The short form naming a member (in any letter case) and a connection string name
      yields that member's defaults with the connection string name set. */
  lemma AcceptedShortFormDefaults(node: XmlNode, t: DatabaseType)
    requires node.Element?
    requires "database" in node.attributes && "connectionStringName" in node.attributes
    requires EqualsIgnoreCase(Name(t), node.attributes["database"])
    ensures ShortFormDefaults(node) ==
      Success(Some(For(t)[ConnectionStringNameKey := node.attributes["connectionStringName"]]))
  {
    var csn := node.attributes["connectionStringName"];
    assert OrElse(Attribute(node, "database"), Attribute(node, "db")) == Some(node.attributes["database"]);
    assert OrElse(Attribute(node, "connectionStringName"), Attribute(node, "csn")) == Some(csn);
    SetDefaultsAcceptsExactlyMemberNames(node.attributes["database"], csn, t);
  }

  /** An accepted short form yields the kind's defaults with the connection string name,
      overlaid by the `add` entries, for the configured type; it fails exactly when an
      `add` entry is incomplete. */
  lemma AcceptedShortFormUsesDefaults(node: XmlNode, resolveType: TypeResolver, t: DatabaseType)
    requires node.Element? && node.name == ConfigNodeName
    requires "database" in node.attributes && "connectionStringName" in node.attributes
    requires EqualsIgnoreCase(Name(t), node.attributes["database"])
    requires TargetType(node, resolveType).Success?
    ensures var layered := Layered(For(t)[ConnectionStringNameKey := node.attributes["connectionStringName"]],
                                   AddElements(node.children));
      ConfigEntryOf(node, resolveType).Success? <==> layered.Success?
    ensures var layered := Layered(For(t)[ConnectionStringNameKey := node.attributes["connectionStringName"]],
                                   AddElements(node.children));
      layered.Success? ==>
        ConfigEntryOf(node, resolveType).value ==
          ConfigEntry(TargetType(node, resolveType).value, layered.value)
  {
    AcceptedShortFormDefaults(node, t);
    assert |node.attributes| != 0;
  }

  /** A `config` element without a `type` attribute configures ActiveRecordBase. */
  lemma DefaultTargetIsActiveRecordBase(node: XmlNode, resolveType: TypeResolver)
    requires node.Element? && Attribute(node, "type").None?
    ensures ConfigEntryOf(node, resolveType).Success? ==>
      ConfigEntryOf(node, resolveType).value.target == ActiveRecordBase
  {
  }

  /** The framework settings read from the attributes of the root element, as passed to the
      base class's setters. */
  datatype SourceSettings = SourceSettings(
    isWeb: bool,
    threadInfoType: string,
    sessionFactoryHolderType: string,
    namingStrategyType: string,
    debug: bool,
    isLazyByDefault: bool,
    pluralizeTableNames: bool,
    verifyModelsAgainstDBSchema: bool,
    defaultFlushType: FlushTypeSetting,
    searchable: bool)

  /** The settings of a source before any document is read. */
  const UnsetSettings: SourceSettings :=
    SourceSettings(false, "", "", "", false, false, false, false, Classic, false)

  /** The settings the attributes of the root element give. `isWeb` and
      `verifyModelsAgainstDBSchema` must read exactly "true"; the other flags go through
      `ConvertBool`; a missing type name reads as the empty string. */
  function SettingsFrom(section: XmlNode): SourceSettings {
    var flush := Attribute(section, "flush");
    SourceSettings(
      isWeb := Attribute(section, "isWeb") == Some("true"),
      threadInfoType := Attribute(section, "threadinfotype").GetOr(""),
      sessionFactoryHolderType := Attribute(section, "sessionfactoryholdertype").GetOr(""),
      namingStrategyType := Attribute(section, "namingstrategytype").GetOr(""),
      debug := ConvertBool(Attribute(section, "isDebug")),
      isLazyByDefault := ConvertBool(Attribute(section, "default-lazy")),
      pluralizeTableNames := ConvertBool(Attribute(section, "pluralizeTableNames")),
      verifyModelsAgainstDBSchema := Attribute(section, "verifyModelsAgainstDBSchema") == Some("true"),
      defaultFlushType := if flush.None? then Classic else Named(flush.value),
      searchable := ConvertBool(Attribute(section, "searchable")))
  }

  /** "TRUE" switches on the flags read through `ConvertBool` but not `isWeb` nor
      `verifyModelsAgainstDBSchema`, which compare exactly; "true" switches on all of
      them; a missing attribute switches none on. */
  lemma ExactFlagsDifferFromConvertedFlags(section: XmlNode, value: string)
    requires section.Element?
    requires forall name | name in {"isWeb", "isDebug", "verifyModelsAgainstDBSchema", "searchable"} ::
      name in section.attributes && section.attributes[name] == value
    ensures value == "TRUE" ==>
      && !SettingsFrom(section).isWeb && !SettingsFrom(section).verifyModelsAgainstDBSchema
      && SettingsFrom(section).debug && SettingsFrom(section).searchable
    ensures value == "true" ==>
      && SettingsFrom(section).isWeb && SettingsFrom(section).verifyModelsAgainstDBSchema
      && SettingsFrom(section).debug && SettingsFrom(section).searchable
  {
    ConvertBoolIgnoresCase(value);
  }

  /** A missing `flush` attribute selects the Classic flush type; a present one is passed
      on as written. */
  lemma FlushTypeSelection(section: XmlNode)
    ensures Attribute(section, "flush").None? ==> SettingsFrom(section).defaultFlushType == Classic
    ensures Attribute(section, "flush").Some? ==>
      SettingsFrom(section).defaultFlushType == Named(Attribute(section, "flush").value)
  {
  }

  /** One element child of the root: checks its name, resolves its type, reads the short
      form and builds its properties, failing at the first error. */
  method ReadConfigNode(node: XmlNode, resolveType: TypeResolver) returns (r: Result<ConfigEntry, Exception>)
    requires node.Element?
    ensures r == ConfigEntryOf(node, resolveType)
  {
    if node.name != ConfigNodeName {
      return Failure(ConfigurationErrorsException(UnexpectedNodeMessage(node.name)));
    }
    var targetType := ActiveRecordBase;
    var defaults: Option<map<string, string>> := None;
    if |node.attributes| != 0 {
      var typeName := Attribute(node, "type");
      if typeName.Some? {
        var resolved := resolveType(typeName.value);
        if resolved.None? {
          return Failure(ConfigurationErrorsException(UnknownTypeMessage(typeName.value)));
        }
        targetType := resolved.value;
      }
      var databaseName := OrElse(Attribute(node, "database"), Attribute(node, "db"));
      var connectionStringName := OrElse(Attribute(node, "connectionStringName"), Attribute(node, "csn"));
      if databaseName.Some? && connectionStringName.Some? {
        var d := SetDefaults(databaseName.value, connectionStringName.value);
        if d.Failure? {
          return Failure(d.error);
        }
        defaults := Some(d.value);
      } else if databaseName.Some? || connectionStringName.Some? {
        return Failure(ConfigurationErrorsException(ShortFormMessage));
      }
    }
    var properties := BuildProperties(node, defaults);
    if properties.Failure? {
      return Failure(properties.error);
    }
    r := Success(ConfigEntry(targetType, properties.value));
  }

  /** The settings an XML document gives the framework and the (type, properties) pairs it
      configures. */
  class XmlConfigurationSource {
    var settings: SourceSettings
    /** The (type, properties) pairs added so far, in order. */
    var configs: seq<ConfigEntry>

    /** A source with nothing read yet. */
    constructor ()
      ensures settings == UnsetSettings && configs == []
    {
      settings := UnsetSettings;
      configs := [];
    }

    /** `PopulateSource`: reads the settings from the attributes of the root element, then
        adds the pairs of its `config` children. */
    method PopulateSource(section: XmlNode, resolveType: TypeResolver) returns (error: Option<Exception>)
      requires section.Element?
      modifies this
      ensures settings == SettingsFrom(section)
      ensures configs == old(configs) + ConfigNodesOutcome(section.children, resolveType).0
      ensures error == ConfigNodesOutcome(section.children, resolveType).1
    {
      settings := SettingsFrom(section);
      error := PopulateConfigNodes(section, resolveType);
    }

    /** `PopulateConfigNodes`: adds one pair per `config` child, in document order, and
        stops at the first error; pairs added before the error stay added. */
    method PopulateConfigNodes(section: XmlNode, resolveType: TypeResolver) returns (error: Option<Exception>)
      requires section.Element?
      modifies this`configs
      ensures configs == old(configs) + ConfigNodesOutcome(section.children, resolveType).0
      ensures error == ConfigNodesOutcome(section.children, resolveType).1
    {
      var nodes := section.children;
      var i := 0;
      ghost var added: seq<ConfigEntry> := [];
      assert nodes[0..] == nodes;
      assert added + ConfigNodesOutcome(nodes, resolveType).0 == ConfigNodesOutcome(nodes, resolveType).0;
      while i < |nodes|
        invariant 0 <= i <= |nodes|
        invariant configs == old(configs) + added
        invariant ConfigNodesOutcome(nodes, resolveType) ==
          (added + ConfigNodesOutcome(nodes[i..], resolveType).0, ConfigNodesOutcome(nodes[i..], resolveType).1)
      {
        var node := nodes[i];
        assert nodes[i..][0] == node && nodes[i..][1..] == nodes[i + 1..];
        if !node.Element? {
          i := i + 1;
          continue;
        }
        var entry := ReadConfigNode(node, resolveType);
        if entry.Failure? {
          return Some(entry.error);
        }
        ghost var rest := ConfigNodesOutcome(nodes[i + 1..], resolveType);
        assert ConfigNodesOutcome(nodes[i..], resolveType) == ([entry.value] + rest.0, rest.1);
        assert (added + [entry.value]) + rest.0 == added + ([entry.value] + rest.0);
        configs := configs + [entry.value];
        added := added + [entry.value];
        i := i + 1;
      }
      return None;
    }
  }
}
