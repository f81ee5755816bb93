/**
 * src/models/part.py: a Part with its id, name and procurement type, read
 * from and written to the Parts table.  `db_manager` runs each statement
 * with `commit=True`, so a write reaches the table at once; the table is the
 * `parts` field of `ModelTables.Tables`.
 */
module PartModel {
  import opened Wrappers
  import opened PyValues
  import opened ModelTables

  /** The procurement type a Part keeps: a falsy one becomes "Purchase". */
  function TypeOrPurchase(t: Value): (r: Value)
    ensures Truthy(r)
    ensures Truthy(t) ==> r == t
  {
    if Truthy(t) then t else VStr("Purchase")
  }

  class Part {
    var itemId: int
    var name: string
    var procurementType: Value

    /** `Part(part_id, name, procurement_type="Purchase")`. */
    constructor (partId: int, name: string, procurementType: Value)
      ensures itemId == partId && this.name == name
      ensures this.procurementType == TypeOrPurchase(procurementType)
    {
      itemId := partId;
      this.name := name;
      this.procurementType := TypeOrPurchase(procurementType);
    }

    /** `Part.fetch_from_db(part_id)`: None when no row has that PartID, else the Part built from the row. */
    static method FetchFromDb(db: Tables, partId: int) returns (p: Option<Part>)
      ensures p == None <==> Fetched(db.parts, partId) == None
      ensures p.Some? ==> fresh(p.value)
      ensures p.Some? ==> Fetched(db.parts, partId) == Some((p.value.itemId, p.value.name, p.value.procurementType))
    {
      if partId in db.parts {
        var row := db.parts[partId];
        var part := new Part(partId, row.name, row.procurementType);
        return Some(part);
      }
      return None;
    }

    /**
     * `save_to_db()`: when a row with this PartID exists, update its name and
     * type; otherwise insert a row with the explicit id.
     */
    method SaveToDb(db: Tables)
      modifies db
      ensures db.parts == Saved(old(db.parts), itemId, name, procurementType)
      ensures db.assemblies == old(db.assemblies) && db.links == old(db.links) && db.nextLinkId == old(db.nextLinkId)
    {
      if itemId in db.parts {
        db.parts := db.parts[itemId := db.parts[itemId].(name := name, procurementType := procurementType)];
      } else {
        db.parts := db.parts[itemId := PartRow(name, procurementType, map[])];
      }
    }
  }

  /** The fields of the Part `fetch_from_db` returns for `partId`, if a row matches. */
  function Fetched(parts: map<int, PartRow>, partId: int): (r: Option<(int, string, Value)>)
    ensures r.Some? <==> partId in parts
    ensures r.Some? ==> r.value.0 == partId && r.value.1 == parts[partId].name && Truthy(r.value.2)
  {
    if partId in parts then Some((partId, parts[partId].name, TypeOrPurchase(parts[partId].procurementType))) else None
  }

  /**
   * The Parts table after `save_to_db`: the row with this id holds the name
   * and type; an existing row keeps every other column; no other row changes
   * and no other id appears.
   */
  function Saved(parts: map<int, PartRow>, id: int, name: string, t: Value): (r: map<int, PartRow>)
    ensures r.Keys == parts.Keys + {id}
    ensures r[id].name == name && r[id].procurementType == t
    ensures id in parts ==> r[id].rest == parts[id].rest
    ensures forall other :: other in parts && other != id ==> r[other] == parts[other]
  {
    if id in parts then parts[id := parts[id].(name := name, procurementType := t)]
    else parts[id := PartRow(name, t, map[])]
  }

  /** Saving a Part and fetching it again gives back its id, name and type. */
  lemma SaveFetchRoundTrip(parts: map<int, PartRow>, id: int, name: string, t: Value)
    requires Truthy(t)
    ensures Fetched(Saved(parts, id, name, t), id) == Some((id, name, t))
  {
  }

  /** Saving twice is the same as saving once: the second save finds the row and rewrites the same values. */
  lemma SaveIdempotent(parts: map<int, PartRow>, id: int, name: string, t: Value)
    ensures Saved(Saved(parts, id, name, t), id, name, t) == Saved(parts, id, name, t)
  {
    var once := Saved(parts, id, name, t);
    var twice := Saved(once, id, name, t);
    assert twice.Keys == once.Keys;
    assert twice[id] == once[id];
  }

  /** A Part built from a fetched row and saved back leaves the row as it was when its type was truthy. */
  lemma FetchSaveRestores(parts: map<int, PartRow>, id: int)
    requires id in parts && Truthy(parts[id].procurementType)
    ensures var f := Fetched(parts, id).value;
      Saved(parts, f.0, f.1, f.2) == parts
  {
    var f := Fetched(parts, id).value;
    var r := Saved(parts, f.0, f.1, f.2);
    assert r.Keys == parts.Keys;
    assert r[id] == parts[id];
  }
}
