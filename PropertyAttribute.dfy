/** The attribute mapping a property to a column. */
module PropertyAttributes {
  import opened Wrappers
  import opened OptionalTableAttributes
  import opened ClrTypes

  /** `PropertyAttribute`. Its `WithAccessOptionalTableAttribute` part is the object `optionalTable`;
      every other member is an auto-property, null strings being `None`. */
  class PropertyAttribute {
    const optionalTable: WithAccessOptionalTableAttribute
    var notNull: bool
    var length: int32
    var column: Option<string>
    var update: bool
    var insert: bool
    var unique: bool
    var lazy: bool
    var formula: Option<string>
    var columnType: Option<string>
    var uniqueKey: Option<string>
    var index: Option<string>
    var sqlType: Option<string>
    var check: Option<string>
    var default: Option<string>
    var isOverride: bool

    /** The auto-properties the constructors leave at their defaults: false, zero and null. */
    predicate OtherDefaults()
      reads this
    {
      && !notNull && length == 0 && !unique && !lazy && formula == None
      && uniqueKey == None && index == None && sqlType == None && check == None
      && default == None && !isOverride
    }

    /** Inserts and updates the column; no column name, type or table is given, and
        optimistic locking is on. */
    constructor ()
      ensures insert && update && column == None && columnType == None && OtherDefaults()
      ensures fresh(optionalTable) && optionalTable.table == None && optionalTable.optimisticLock
    {
      optionalTable := new WithAccessOptionalTableAttribute();
      insert, update := true, true;
      column, columnType := None, None;
      notNull, length, unique, lazy, formula := false, 0, false, false, None;
      uniqueKey, index, sqlType, check, default, isOverride := None, None, None, None, None, false;
    }

    /** As the default constructor, with the column name given. */
    constructor WithColumn(column: string)
      ensures insert && update && this.column == Some(column) && columnType == None && OtherDefaults()
      ensures fresh(optionalTable) && optionalTable.table == None && optionalTable.optimisticLock
    {
      optionalTable := new WithAccessOptionalTableAttribute();
      insert, update := true, true;
      this.column, columnType := Some(column), None;
      notNull, length, unique, lazy, formula := false, 0, false, false, None;
      uniqueKey, index, sqlType, check, default, isOverride := None, None, None, None, None, false;
    }

    /** As the column constructor, with the column type given. */
    constructor WithColumnAndType(column: string, columnType: string)
      ensures insert && update && this.column == Some(column) && this.columnType == Some(columnType)
      ensures OtherDefaults()
      ensures fresh(optionalTable) && optionalTable.table == None && optionalTable.optimisticLock
    {
      optionalTable := new WithAccessOptionalTableAttribute();
      insert, update := true, true;
      this.column, this.columnType := Some(column), Some(columnType);
      notNull, length, unique, lazy, formula := false, 0, false, false, None;
      uniqueKey, index, sqlType, check, default, isOverride := None, None, None, None, None, false;
    }
  }

  /** Setting auto-properties of a fresh property attribute: each reads back what was set
      last, and the others keep their defaults, including the table part. */
  method AutoPropertiesReadBack(name: string, size: int32)
    returns (insert: bool, update: bool, column: Option<string>, length: int32, unique: bool,
             optimisticLock: bool)
    ensures !insert && update && column == Some(name) && length == size && !unique && optimisticLock
  {
    var p := new PropertyAttribute();
    p.insert := false;
    p.length := 1;
    p.column := Some(name);
    p.length := size;
    insert, update, column, length, unique := p.insert, p.update, p.column, p.length, p.unique;
    optimisticLock := p.optionalTable.optimisticLock;
  }

  /** The table part of a property attribute is set through its own setters and does not
      disturb the property's own members. */
  method JoinedTableLeavesPropertyAlone(tableName: string, column: string)
    returns (table: Option<string>, optimisticLock: bool, kept: Option<string>, insert: bool)
    ensures table == Some(tableName) && optimisticLock && kept == Some(column) && insert
  {
    var p := new PropertyAttribute.WithColumn(column);
    p.optionalTable.SetTable(Some(tableName));
    table, optimisticLock := p.optionalTable.table, p.optionalTable.optimisticLock;
    kept, insert := p.column, p.insert;
  }
}
