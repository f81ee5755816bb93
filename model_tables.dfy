/**
 * The three tables the composition model reads and writes, each a map from
 * row id to record: Parts (keyed by PartID), Assemblies (keyed by AssemblyID)
 * and Assemblies_Parts (keyed by its ID, which SQLite assigns in increasing
 * order).
 */
module ModelTables {
  import opened Wrappers
  import opened PyValues

  /** A Parts row: PartName and ProcurementType, and the table's other columns by name. */
  datatype PartRow = PartRow(name: string, procurementType: Value, rest: map<string, Value>)

  /** An Assemblies row: AssemName and ProcurementType, and the table's other columns by name. */
  datatype AssemblyRow = AssemblyRow(name: string, procurementType: Value, rest: map<string, Value>)

  /** An Assemblies_Parts row; a column an insert leaves out is NULL (None). */
  datatype Link = Link(procurementType: Value, parentAssemblyId: int, childAssemblyId: Option<int>,
                       partId: int, quantity: int, entityType: string)

  /** The database: the three tables and the next Assemblies_Parts ID. */
  class Tables {
    var parts: map<int, PartRow>
    var assemblies: map<int, AssemblyRow>
    var links: map<int, Link>
    var nextLinkId: int

    /** Every Assemblies_Parts ID in use lies below the next one handed out. */
    ghost predicate Valid()
      reads this
    {
      forall id :: id in links ==> id < nextLinkId
    }

    constructor (parts: map<int, PartRow>, assemblies: map<int, AssemblyRow>, links: map<int, Link>, nextLinkId: int)
      requires forall id :: id in links ==> id < nextLinkId
      ensures Valid()
      ensures this.parts == parts && this.assemblies == assemblies && this.links == links && this.nextLinkId == nextLinkId
    {
      this.parts := parts;
      this.assemblies := assemblies;
      this.links := links;
      this.nextLinkId := nextLinkId;
    }
  }
}
