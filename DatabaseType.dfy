/** The database kinds for which a default configuration exists, their names as the
    configuration file spells them, and case-insensitive lookup of a name. */
module DatabaseTypes {
  import opened Wrappers
  import opened Text

  /** The members of the `DatabaseType` enumeration, in declaration order. */
  datatype DatabaseType =
    | MsSqlServer2000 | MsSqlServer2005 | MsSqlServer2008
    | SQLite
    | MySql | MySql5
    | Firebird
    | PostgreSQL | PostgreSQL81 | PostgreSQL82
    | MsSqlCe
    | Oracle8i | Oracle9i | Oracle10g

  /** Every member, in declaration order (the order `Enum.GetValues` and `Enum.GetNames`
      list them in). */
  const AllDatabaseTypes: seq<DatabaseType> :=
    [MsSqlServer2000, MsSqlServer2005, MsSqlServer2008, SQLite, MySql, MySql5, Firebird,
     PostgreSQL, PostgreSQL81, PostgreSQL82, MsSqlCe, Oracle8i, Oracle9i, Oracle10g]

  /** The underlying integer value of a member: its position in the declaration. */
  function Ordinal(t: DatabaseType): (n: nat)
    ensures n < |AllDatabaseTypes| && AllDatabaseTypes[n] == t
  {
    match t
    case MsSqlServer2000 => 0
    case MsSqlServer2005 => 1
    case MsSqlServer2008 => 2
    case SQLite => 3
    case MySql => 4
    case MySql5 => 5
    case Firebird => 6
    case PostgreSQL => 7
    case PostgreSQL81 => 8
    case PostgreSQL82 => 9
    case MsSqlCe => 10
    case Oracle8i => 11
    case Oracle9i => 12
    case Oracle10g => 13
  }

  /** The member with a given integer value, if any: an enumeration variable may hold any
      integer, and only 0 to 13 name a member. */
  function FromOrdinal(v: int): (r: Option<DatabaseType>)
    ensures r.Some? <==> 0 <= v < |AllDatabaseTypes|
    ensures r.Some? ==> Ordinal(r.value) == v
  {
    if 0 <= v < |AllDatabaseTypes| then Some(AllDatabaseTypes[v]) else None
  }

  /** The name of a member (`ToString()` of the value). */
  function Name(t: DatabaseType): string {
    match t
    case MsSqlServer2000 => "MsSqlServer2000"
    case MsSqlServer2005 => "MsSqlServer2005"
    case MsSqlServer2008 => "MsSqlServer2008"
    case SQLite => "SQLite"
    case MySql => "MySql"
    case MySql5 => "MySql5"
    case Firebird => "Firebird"
    case PostgreSQL => "PostgreSQL"
    case PostgreSQL81 => "PostgreSQL81"
    case PostgreSQL82 => "PostgreSQL82"
    case MsSqlCe => "MsSqlCe"
    case Oracle8i => "Oracle8i"
    case Oracle9i => "Oracle9i"
    case Oracle10g => "Oracle10g"
  }

  /** The enumeration has exactly fourteen members, each listed once and in declaration
      order, and no two share a value. */
  lemma ExactlyFourteenMembers(t: DatabaseType)
    ensures |AllDatabaseTypes| == 14
    ensures t in AllDatabaseTypes
    ensures forall i, j :: 0 <= i < j < |AllDatabaseTypes| ==> AllDatabaseTypes[i] != AllDatabaseTypes[j]
    ensures forall i :: 0 <= i < |AllDatabaseTypes| ==> Ordinal(AllDatabaseTypes[i]) == i
  {
    assert AllDatabaseTypes[Ordinal(t)] == t;
  }

  /** The upper-cased name of each member, spelled out. */
  function FoldedName(t: DatabaseType): string {
    match t
    case MsSqlServer2000 => "MSSQLSERVER2000"
    case MsSqlServer2005 => "MSSQLSERVER2005"
    case MsSqlServer2008 => "MSSQLSERVER2008"
    case SQLite => "SQLITE"
    case MySql => "MYSQL"
    case MySql5 => "MYSQL5"
    case Firebird => "FIREBIRD"
    case PostgreSQL => "POSTGRESQL"
    case PostgreSQL81 => "POSTGRESQL81"
    case PostgreSQL82 => "POSTGRESQL82"
    case MsSqlCe => "MSSQLCE"
    case Oracle8i => "ORACLE8I"
    case Oracle9i => "ORACLE9I"
    case Oracle10g => "ORACLE10G"
  }

  lemma UpperName(t: DatabaseType)
    ensures Upper(Name(t)) == FoldedName(t)
  {
    if Ordinal(t) < 7 {
      UpperNameOfEarlyMember(t);
    } else {
      UpperNameOfLateMember(t);
    }
  }

  lemma UpperNameOfEarlyMember(t: DatabaseType)
    requires Ordinal(t) < 7
    ensures Upper(Name(t)) == FoldedName(t)
  {
  }

  lemma UpperNameOfLateMember(t: DatabaseType)
    requires Ordinal(t) >= 7
    ensures Upper(Name(t)) == FoldedName(t)
  {
  }

  lemma FoldedNamesDistinct(a: DatabaseType, b: DatabaseType)
    ensures FoldedName(a) == FoldedName(b) ==> a == b
  {
  }

  /** The member names are pairwise different even ignoring case, so a case-insensitive
      lookup of a name is unambiguous. */
  lemma NamesDistinctIgnoringCase(a: DatabaseType, b: DatabaseType)
    ensures EqualsIgnoreCase(Name(a), Name(b)) <==> a == b
  {
    UpperName(a);
    UpperName(b);
    FoldedNamesDistinct(a, b);
  }

  /** The first of `candidates` whose name equals `name` ignoring case. */
  function FirstNamed(candidates: seq<DatabaseType>, name: string): (r: Option<DatabaseType>)
    ensures r.Some? ==> r.value in candidates && EqualsIgnoreCase(Name(r.value), name)
    ensures r.None? <==> forall t | t in candidates :: !EqualsIgnoreCase(Name(t), name)
  {
    if |candidates| == 0 then None
    else if EqualsIgnoreCase(Name(candidates[0]), name) then Some(candidates[0])
    else FirstNamed(candidates[1..], name)
  }

  /** `Enum.Parse(typeof(DatabaseType), name, true)` restricted to member names: the member
      whose name equals `name` ignoring case, or nothing. */
  function Parse(name: string): Option<DatabaseType> {
    FirstNamed(AllDatabaseTypes, name)
  }

  /** A name is accepted exactly when it is some member's name ignoring case, and then it
      yields that member and no other. */
  lemma ParseAcceptsExactlyMemberNames(name: string, t: DatabaseType)
    ensures Parse(name) == Some(t) <==> EqualsIgnoreCase(Name(t), name)
    ensures Parse(name).None? <==> forall u: DatabaseType :: !EqualsIgnoreCase(Name(u), name)
  {
    ExactlyFourteenMembers(t);
    var r := Parse(name);
    if r.Some? {
      EqualsIgnoreCaseIsEquivalence(Name(t), name, Name(r.value));
      NamesDistinctIgnoringCase(t, r.value);
    }
    forall u: DatabaseType
      ensures r.None? ==> !EqualsIgnoreCase(Name(u), name)
    {
      ExactlyFourteenMembers(u);
    }
  }

  /** Every member's own name, in any letter case, parses back to it. */
  lemma ParseName(t: DatabaseType, spelled: string)
    requires EqualsIgnoreCase(spelled, Name(t))
    ensures Parse(spelled) == Some(t)
  {
    EqualsIgnoreCaseIsEquivalence(spelled, Name(t), Name(t));
    ParseAcceptsExactlyMemberNames(spelled, t);
  }
}
