/** The base of mapping attributes whose member may live in a joined table: the table name
    and whether changes to the member bump the entity's version. */
module OptionalTableAttributes {
  import opened Wrappers

  /** `WithAccessOptionalTableAttribute`; `table` is `None` when null. The access strategy
      of its own base class is not part of this model. */
  class WithAccessOptionalTableAttribute {
    var table: Option<string>
    var optimisticLock: bool

    /** The field initialisers: no table, and optimistic locking on. */
    constructor ()
      ensures table == None && optimisticLock
    {
      table := None;
      optimisticLock := true;
    }

    /** The `Table` setter: reads back the value set; optimistic locking is untouched. */
    method SetTable(value: Option<string>)
      modifies this
      ensures table == value && optimisticLock == old(optimisticLock)
    {
      table := value;
    }

    /** The `OptimisticLock` setter: reads back the value set; the table is untouched. */
    method SetOptimisticLock(value: bool)
      modifies this
      ensures optimisticLock == value && table == old(table)
    {
      optimisticLock := value;
    }
  }

  /** Setting the table of a fresh attribute and then turning optimistic locking off leaves
      both values as set. */
  method SettersAreIndependent(name: string) returns (table: Option<string>, optimisticLock: bool)
    ensures table == Some(name) && !optimisticLock
  {
    var a := new WithAccessOptionalTableAttribute();
    a.SetTable(Some(name));
    a.SetOptimisticLock(false);
    table := a.table;
    optimisticLock := a.optimisticLock;
  }
}
