/** The default engine properties for each database kind: five common keys naming the
    connection provider, the second-level cache switch, the proxy factory, the dialect and
    the driver, plus a few extra keys for SQLite, SQL Server CE and Firebird. */
module DefaultDatabaseConfigurations {
  import opened Wrappers
  import opened Exceptions
  import opened DatabaseTypes
  import opened Text

  const CacheUseSecondLevelCache: string := "cache.use_second_level_cache"
  const ConnectionReleaseMode: string := "connection.release_mode"
  const ConnectionDriverClass: string := "connection.driver_class"
  const ConnectionIsolation: string := "connection.isolation"
  const ConnectionProvider: string := "connection.provider"
  const DialectKey: string := "dialect"
  const ProxyFactoryFactoryClass: string := "proxyfactory.factory_class"
  const QuerySubstitutions: string := "query.substitutions"
  const CommandTimeout: string := "command_timeout"
  const UseOuterJoin: string := "use_outer_join"

  /** The keys every default configuration holds. */
  const CommonKeys: set<string> :=
    {ConnectionProvider, CacheUseSecondLevelCache, ProxyFactoryFactoryClass, DialectKey,
     ConnectionDriverClass}

  /** The engine drivers the defaults refer to. */
  datatype Driver =
    | SqlClientDriver | SQLite20Driver | MySqlDataDriver | FirebirdDriver | NpgsqlDriver
    | SqlServerCeDriver | OracleDataClientDriver

  /** The engine dialects the defaults refer to. */
  datatype Dialect =
    | MsSql2000Dialect | MsSql2005Dialect | MsSql2008Dialect
    | SQLiteDialect
    | MySQLDialect | MySQL5Dialect
    | FirebirdDialect
    | PostgreSQLDialect | PostgreSQL81Dialect | PostgreSQL82Dialect
    | MsSqlCeDialect
    | Oracle8iDialect | Oracle9iDialect | Oracle10gDialect

  /** The types whose names are written into a configuration. */
  datatype ClrType =
    | DriverConnectionProvider
    | ProxyFactoryFactory
    | DriverType(driver: Driver)
    | DialectType(dialect: Dialect)

  /** The namespace a type is declared in. */
  function Namespace(t: ClrType): string {
    match t
    case DriverConnectionProvider => "NHibernate.Connection"
    case ProxyFactoryFactory => "Castle.ActiveRecord.ByteCode"
    case DriverType(_) => "NHibernate.Driver"
    case DialectType(_) => "NHibernate.Dialect"
  }
  /** The name of the assembly that defines a type. */
  function Assembly(t: ClrType): string {
    if t.ProxyFactoryFactory? then "Castle.ActiveRecord" else "NHibernate"
  }
  /** The simple name of a type. */
  function TypeName(t: ClrType): string {
    match t
    case DriverConnectionProvider => "DriverConnectionProvider"
    case ProxyFactoryFactory => "ProxyFactoryFactory"
    case DriverType(d) => (
      match d
      case SqlClientDriver => "SqlClientDriver"
      case SQLite20Driver => "SQLite20Driver"
      case MySqlDataDriver => "MySqlDataDriver"
      case FirebirdDriver => "FirebirdDriver"
      case NpgsqlDriver => "NpgsqlDriver"
      case SqlServerCeDriver => "SqlServerCeDriver"
      case OracleDataClientDriver => "OracleDataClientDriver")
    case DialectType(d) => (
      match d
      case MsSql2000Dialect => "MsSql2000Dialect"
      case MsSql2005Dialect => "MsSql2005Dialect"
      case MsSql2008Dialect => "MsSql2008Dialect"
      case SQLiteDialect => "SQLiteDialect"
      case MySQLDialect => "MySQLDialect"
      case MySQL5Dialect => "MySQL5Dialect"
      case FirebirdDialect => "FirebirdDialect"
      case PostgreSQLDialect => "PostgreSQLDialect"
      case PostgreSQL81Dialect => "PostgreSQL81Dialect"
      case PostgreSQL82Dialect => "PostgreSQL82Dialect"
      case MsSqlCeDialect => "MsSqlCeDialect"
      case Oracle8iDialect => "Oracle8iDialect"
      case Oracle9iDialect => "Oracle9iDialect"
      case Oracle10gDialect => "Oracle10gDialect")
  }
  /** `typeof(T).AssemblyQualifiedName`: the namespace-qualified type name, a comma and the
      name of the assembly that defines the type. */
  function LongName(t: ClrType): string {
    Namespace(t) + "." + TypeName(t) + ", " + Assembly(t)
  }

  /** Different dialects have different assembly-qualified names. */
  lemma DialectNamesDistinct(a: Dialect, b: Dialect)
    ensures LongName(DialectType(a)) == LongName(DialectType(b)) ==> a == b
  {
    var prefix := Namespace(DialectType(a)) + ".";
    var x, y := TypeName(DialectType(a)), TypeName(DialectType(b));
    if LongName(DialectType(a)) == LongName(DialectType(b)) {
      MiddleDetermined(prefix, x, y, ", ", Assembly(DialectType(a)));
      assert x == y;
    }
  }

  /** `Configure<TDriver, TDialect>(configuration)`: writes the five common keys over
      `configuration`, naming the given driver and dialect and switching the second-level
      cache off; every other entry is kept. */
  function Configure(configuration: map<string, string>, driver: Driver, dialect: Dialect)
    : (r: map<string, string>)
    ensures r.Keys == configuration.Keys + CommonKeys
    ensures r[ConnectionProvider] == LongName(DriverConnectionProvider)
    ensures r[CacheUseSecondLevelCache] == "False"
    ensures r[ProxyFactoryFactoryClass] == LongName(ProxyFactoryFactory)
    ensures r[DialectKey] == LongName(DialectType(dialect))
    ensures r[ConnectionDriverClass] == LongName(DriverType(driver))
    ensures forall k | k in configuration && k !in CommonKeys :: r[k] == configuration[k]
  {
    configuration[ConnectionProvider := LongName(DriverConnectionProvider)]
                 [CacheUseSecondLevelCache := "False"]
                 [ProxyFactoryFactoryClass := LongName(ProxyFactoryFactory)]
                 [DialectKey := LongName(DialectType(dialect))]
                 [ConnectionDriverClass := LongName(DriverType(driver))]
  }

  /** The extra properties SQLite needs: boolean literals written as 1 and 0. */
  function SQLiteExtras(): (r: map<string, string>)
    ensures r.Keys == {QuerySubstitutions}
    ensures r[QuerySubstitutions] == "true=1;false=0"
  {
    map[QuerySubstitutions := "true=1;false=0"]
  }

  /** The extra property SQL Server CE needs: connections are released only on close. */
  function MsSqlCeExtras(): (r: map<string, string>)
    ensures r.Keys == {ConnectionReleaseMode}
    ensures r[ConnectionReleaseMode] == "on_close"
  {
    map[ConnectionReleaseMode := "on_close"]
  }

  /** The extra properties Firebird needs. */
  function FirebirdExtras(): (r: map<string, string>)
    ensures r.Keys == {QuerySubstitutions, ConnectionIsolation, CommandTimeout, UseOuterJoin}
    ensures r[QuerySubstitutions] == "true 1, false 0, yes 1, no 0"
    ensures r[ConnectionIsolation] == "ReadCommitted"
    ensures r[CommandTimeout] == "444"
    ensures r[UseOuterJoin] == "True"
  {
    map[QuerySubstitutions := "true 1, false 0, yes 1, no 0",
        ConnectionIsolation := "ReadCommitted",
        CommandTimeout := "444",
        UseOuterJoin := "True"]
  }

  /** The driver `For` names for each database kind. */
  function DriverFor(db: DatabaseType): Driver {
    match db
    case MsSqlServer2000 | MsSqlServer2005 | MsSqlServer2008 => SqlClientDriver
    case SQLite => SQLite20Driver
    case MySql | MySql5 => MySqlDataDriver
    case Firebird => FirebirdDriver
    case PostgreSQL | PostgreSQL81 | PostgreSQL82 => NpgsqlDriver
    case MsSqlCe => SqlServerCeDriver
    case Oracle8i | Oracle9i | Oracle10g => OracleDataClientDriver
  }

  /** The dialect `For` names for each database kind. */
  function DialectFor(db: DatabaseType): Dialect {
    match db
    case MsSqlServer2000 => MsSql2000Dialect
    case MsSqlServer2005 => MsSql2005Dialect
    case MsSqlServer2008 => MsSql2008Dialect
    case SQLite => SQLiteDialect
    case MySql => MySQLDialect
    case MySql5 => MySQL5Dialect
    case Firebird => FirebirdDialect
    case PostgreSQL => PostgreSQLDialect
    case PostgreSQL81 => PostgreSQL81Dialect
    case PostgreSQL82 => PostgreSQL82Dialect
    case MsSqlCe => MsSqlCeDialect
    case Oracle8i => Oracle8iDialect
    case Oracle9i => Oracle9iDialect
    case Oracle10g => Oracle10gDialect
  }

  /** The properties `For` starts from before the common keys are written. */
  function ExtrasFor(db: DatabaseType): map<string, string> {
    match db
    case SQLite => SQLiteExtras()
    case MsSqlCe => MsSqlCeExtras()
    case Firebird => FirebirdExtras()
    case _ => map[]
  }

  /** The default properties of a database kind: the common keys, naming the kind's driver
      and dialect, written over the kind's extra properties. */
  function For(db: DatabaseType): (r: map<string, string>)
    ensures CommonKeys <= r.Keys
    ensures r[CacheUseSecondLevelCache] == "False"
    ensures r[ConnectionProvider] == LongName(DriverConnectionProvider)
    ensures r[ProxyFactoryFactoryClass] == LongName(ProxyFactoryFactory)
    ensures r[DialectKey] == LongName(DialectType(DialectFor(db)))
    ensures r[ConnectionDriverClass] == LongName(DriverType(DriverFor(db)))
  {
    Configure(ExtrasFor(db), DriverFor(db), DialectFor(db))
  }

  /** `For` applied to a raw enumeration value: a value that names no member raises
      ArgumentOutOfRangeException for the `databaseType` parameter. */
  function ForValue(v: int): (r: Result<map<string, string>, Exception>)
    ensures r.Failure? <==> !(0 <= v < |AllDatabaseTypes|)
    ensures r.Failure? ==> r.error == ArgumentOutOfRangeException("databaseType")
  {
    match FromOrdinal(v)
    case Some(db) => Success(For(db))
    case None => Failure(ArgumentOutOfRangeException("databaseType"))
  }

  /** Every member's value reaches its own defaults. */
  lemma ForValueOfMember(db: DatabaseType)
    ensures ForValue(Ordinal(db)) == Success(For(db))
  {
    ExactlyFourteenMembers(db);
  }

  /** Every kind but SQLite, SQL Server CE and Firebird has exactly the five common keys. */
  lemma PlainKindsHaveOnlyCommonKeys(db: DatabaseType)
    requires db !in {SQLite, MsSqlCe, Firebird}
    ensures For(db).Keys == CommonKeys
  {
    assert ExtrasFor(db) == map[];
  }

  /** SQLite adds its boolean literal substitutions to the common keys. */
  lemma SQLiteDefaults()
    ensures For(SQLite).Keys == {QuerySubstitutions} + CommonKeys
    ensures For(SQLite)[QuerySubstitutions] == "true=1;false=0"
  {
  }

  /** SQL Server CE adds the connection release mode to the common keys. */
  lemma MsSqlCeDefaults()
    ensures For(MsSqlCe).Keys == {ConnectionReleaseMode} + CommonKeys
    ensures For(MsSqlCe)[ConnectionReleaseMode] == "on_close"
  {
    assert ConnectionReleaseMode[11] != ConnectionDriverClass[11];
    assert ConnectionReleaseMode[11] != ConnectionProvider[11];
  }

  /** Firebird adds four keys to the common keys. */
  lemma FirebirdDefaults()
    ensures For(Firebird).Keys ==
      {QuerySubstitutions, ConnectionIsolation, CommandTimeout, UseOuterJoin} + CommonKeys
    ensures For(Firebird)[QuerySubstitutions] == "true 1, false 0, yes 1, no 0"
    ensures For(Firebird)[ConnectionIsolation] == "ReadCommitted"
    ensures For(Firebird)[CommandTimeout] == "444"
    ensures For(Firebird)[UseOuterJoin] == "True"
  {
  }

  /** Two results agree on every key but the dialect. */
  predicate DifferOnlyInDialect(a: map<string, string>, b: map<string, string>) {
    && a.Keys == b.Keys
    && (forall k | k in a && k != DialectKey :: a[k] == b[k])
  }

  /** Database kinds with the same driver and the same extra properties get defaults that
      differ at most in the dialect. */
  lemma SameDriverDifferOnlyInDialect(a: DatabaseType, b: DatabaseType)
    requires DriverFor(a) == DriverFor(b) && ExtrasFor(a) == ExtrasFor(b)
    ensures DifferOnlyInDialect(For(a), For(b))
  {
  }

  /** The three SQL Server versions share the SqlClient driver and differ only in the dialect. */
  lemma MsSqlServerVariantsDifferOnlyInDialect(a: DatabaseType, b: DatabaseType)
    requires a in {MsSqlServer2000, MsSqlServer2005, MsSqlServer2008}
    requires b in {MsSqlServer2000, MsSqlServer2005, MsSqlServer2008}
    ensures For(a)[ConnectionDriverClass] == LongName(DriverType(SqlClientDriver))
    ensures DifferOnlyInDialect(For(a), For(b))
  {
    assert ExtrasFor(a) == ExtrasFor(b) == map[];
    SameDriverDifferOnlyInDialect(a, b);
  }

  /** Each SQL Server version has a dialect of its own. */
  lemma MsSqlServerVariantsHaveDistinctDialects(a: DatabaseType, b: DatabaseType)
    requires a in {MsSqlServer2000, MsSqlServer2005, MsSqlServer2008}
    requires b in {MsSqlServer2000, MsSqlServer2005, MsSqlServer2008}
    ensures For(a)[DialectKey] == For(b)[DialectKey] <==> a == b
  {
    DialectNamesDistinct(DialectFor(a), DialectFor(b));
  }

  /** The three Oracle versions share the Oracle's own data driver and differ only in the dialect. */
  lemma OracleVariantsDifferOnlyInDialect(a: DatabaseType, b: DatabaseType)
    requires a in {Oracle8i, Oracle9i, Oracle10g}
    requires b in {Oracle8i, Oracle9i, Oracle10g}
    ensures For(a)[ConnectionDriverClass] == LongName(DriverType(OracleDataClientDriver))
    ensures DifferOnlyInDialect(For(a), For(b))
  {
    assert ExtrasFor(a) == ExtrasFor(b) == map[];
    SameDriverDifferOnlyInDialect(a, b);
  }

  /** Each Oracle version has a dialect of its own. */
  lemma OracleVariantsHaveDistinctDialects(a: DatabaseType, b: DatabaseType)
    requires a in {Oracle8i, Oracle9i, Oracle10g}
    requires b in {Oracle8i, Oracle9i, Oracle10g}
    ensures For(a)[DialectKey] == For(b)[DialectKey] <==> a == b
  {
    DialectNamesDistinct(DialectFor(a), DialectFor(b));
  }

  /** The three PostgreSQL versions share the Npgsql driver and differ only in the dialect. */
  lemma PostgreSqlVariantsDifferOnlyInDialect(a: DatabaseType, b: DatabaseType)
    requires a in {PostgreSQL, PostgreSQL81, PostgreSQL82}
    requires b in {PostgreSQL, PostgreSQL81, PostgreSQL82}
    ensures For(a)[ConnectionDriverClass] == LongName(DriverType(NpgsqlDriver))
    ensures DifferOnlyInDialect(For(a), For(b))
  {
    assert ExtrasFor(a) == ExtrasFor(b) == map[];
    SameDriverDifferOnlyInDialect(a, b);
  }

  /** Each PostgreSQL version has a dialect of its own. */
  lemma PostgreSqlVariantsHaveDistinctDialects(a: DatabaseType, b: DatabaseType)
    requires a in {PostgreSQL, PostgreSQL81, PostgreSQL82}
    requires b in {PostgreSQL, PostgreSQL81, PostgreSQL82}
    ensures For(a)[DialectKey] == For(b)[DialectKey] <==> a == b
  {
    DialectNamesDistinct(DialectFor(a), DialectFor(b));
  }
}
