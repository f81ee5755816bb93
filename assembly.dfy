/**
 * src/models/assembly.py: an Assembly, the roll-up of its procurement type
 * from the parts linked to it, and the links between assemblies and parts in
 * the Assemblies_Parts table.  Every statement runs with `commit=True`, so
 * each write reaches the tables of `ModelTables.Tables` at once.
 */
module AssemblyModel {
  import opened Wrappers
  import opened PyValues
  import opened ModelTables
  import opened PartModel
  import SrcValidation

  const PURCHASE: Value := VStr("Purchase")
  const MAKE: Value := VStr("Make")
  const HYBRID: Value := VStr("Hybrid")

  // ------------------------------------------------------------------ the roll-up

  /**
   * The type an assembly takes from the set of distinct types of its parts:
   * exactly {Make} gives Make, Make with anything else Hybrid, and any set
   * without Make (the empty one included) Purchase.
   */
  function Rollup(types: set<Value>): (r: Value)
    ensures r in {PURCHASE, MAKE, HYBRID}
  {
    if types == {MAKE} then MAKE
    else if MAKE in types then HYBRID
    else PURCHASE
  }

  /**
   * The roll-up as its promise reads: Make exactly when there are parts and
   * all of them are Make, Hybrid exactly when some are Make and some are not,
   * Purchase exactly when none is Make.
   */
  lemma RollupSpec(types: set<Value>)
    ensures Rollup(types) == MAKE <==> |types| > 0 && forall t :: t in types ==> t == MAKE
    ensures Rollup(types) == HYBRID <==> MAKE in types && exists t :: t in types && t != MAKE
    ensures Rollup(types) == PURCHASE <==> MAKE !in types
  {
    if |types| > 0 && forall t :: t in types ==> t == MAKE {
      var t :| t in types;
      assert types == {MAKE};
    }
    if MAKE in types && types != {MAKE} {
      var other :| other in types - {MAKE} by {
        assert types - {MAKE} != {};
      }
    }
  }

  /** The roll-up is one of the valid procurement types. */
  lemma RollupValid(types: set<Value>)
    ensures In(Rollup(types), SrcValidation.PROCUREMENT_TYPES)
  {
    var r := Rollup(types);
    var i := if r == PURCHASE then 0 else if r == MAKE then 1 else 2;
    PyEqReflexive(r);
    assert PyEq(r, SrcValidation.PROCUREMENT_TYPES[i]);
  }

  /**
   * The distinct types the roll-up query returns: the Parts.ProcurementType
   * of each Assemblies_Parts row whose ID equals the assembly id and whose
   * PartID joins a Parts row.
   */
  function LinkedTypes(links: map<int, Link>, parts: map<int, PartRow>, id: int): set<Value>
  {
    set lid | lid in links && lid == id && links[lid].partId in parts :: parts[links[lid].partId].procurementType
  }

  /** The query matches rows by their own ID, so it finds at most one row and one type. */
  lemma LinkedTypesAtMostOne(links: map<int, Link>, parts: map<int, PartRow>, id: int)
    ensures |LinkedTypes(links, parts, id)| <= 1
    ensures LinkedTypes(links, parts, id) ==
      if id in links && links[id].partId in parts then {parts[links[id].partId].procurementType} else {}
  {
    var s := LinkedTypes(links, parts, id);
    if id in links && links[id].partId in parts {
      var t := parts[links[id].partId].procurementType;
      assert t in s;
      forall v | v in s ensures v == t {
        var lid :| lid in links && lid == id && links[lid].partId in parts && v == parts[links[lid].partId].procurementType;
      }
      assert s == {t};
    } else {
      assert s == {};
    }
  }

  /** As written the roll-up can never give Hybrid. */
  lemma RollupNeverHybrid(links: map<int, Link>, parts: map<int, PartRow>, id: int)
    ensures Rollup(LinkedTypes(links, parts, id)) != HYBRID
  {
    LinkedTypesAtMostOne(links, parts, id);
  }

  /** The roll-up reads the current type of the joined part, not the type copied onto the link. */
  lemma RollupIgnoresLinkType(links: map<int, Link>, parts: map<int, PartRow>, id: int, t: Value)
    requires id in links
    ensures LinkedTypes(links[id := links[id].(procurementType := t)], parts, id) == LinkedTypes(links, parts, id)
  {
    LinkedTypesAtMostOne(links, parts, id);
    LinkedTypesAtMostOne(links[id := links[id].(procurementType := t)], parts, id);
  }

  /**
   * The evidently intended selection: the types of every part linked under
   * the assembly, that is of the rows whose ParentAssemblyID is its id.
   */
  function ChildTypes(links: map<int, Link>, parts: map<int, PartRow>, id: int): set<Value>
  {
    set lid | lid in links && links[lid].parentAssemblyId == id && links[lid].partId in parts :: parts[links[lid].partId].procurementType
  }

  /** Over the parts linked under an assembly, one Make part and one Purchase part give Hybrid. */
  lemma ChildRollupHybrid(links: map<int, Link>, parts: map<int, PartRow>, id: int, a: int, b: int)
    requires a in links && b in links
    requires links[a].parentAssemblyId == id && links[b].parentAssemblyId == id
    requires links[a].partId in parts && links[b].partId in parts
    requires parts[links[a].partId].procurementType == MAKE && parts[links[b].partId].procurementType == PURCHASE
    ensures Rollup(ChildTypes(links, parts, id)) == HYBRID
  {
    var s := ChildTypes(links, parts, id);
    assert MAKE in s && PURCHASE in s;
    assert s != {MAKE} by {
      assert PURCHASE in s && PURCHASE != MAKE;
    }
  }

  /**
   * The Assemblies table after `UPDATE Assemblies SET ProcurementType = ?
   * WHERE AssemblyID = ?`: the row with that id, if any, takes the type; no
   * other column and no other row changes.
   */
  function WithType(assemblies: map<int, AssemblyRow>, id: int, t: Value): (r: map<int, AssemblyRow>)
    ensures r.Keys == assemblies.Keys
    ensures id in r ==> r[id] == AssemblyRow(assemblies[id].name, t, assemblies[id].rest)
    ensures forall other :: other in r && other != id ==> r[other] == assemblies[other]
  {
    if id in assemblies then assemblies[id := assemblies[id].(procurementType := t)] else assemblies
  }

  // ------------------------------------------------------------------ add_part

  /** `validate_field` is given the type "text", so its float conversion is never reached. */
  function NoFloat(v: Value): Result<Value>
  {
    Err(TypeError)
  }

  /**
   * The type `add_part` gives the part: None becomes "Purchase", then
   * `validate_field` with the valid types and default "Purchase" keeps a
   * valid type and turns any other into "Purchase".
   */
  function ValidatedType(t: Value): (r: Value)
    ensures In(r, SrcValidation.PROCUREMENT_TYPES)
    ensures In(t, SrcValidation.PROCUREMENT_TYPES) ==> r == t
    ensures !In(t, SrcValidation.PROCUREMENT_TYPES) ==> r == PURCHASE
  {
    var given := if t == VNone then PURCHASE else t;
    SrcValidation.ProcurementTypeCoerced("ProcurementType", given, NoFloat);
    SrcValidation.ValidateField("ProcurementType", given, "text", SrcValidation.PROCUREMENT_TYPES, PURCHASE, NoFloat).value
  }

  /** A row linking the part to the assembly as its parent. */
  predicate Links(l: Link, parent: int, partId: int)
  {
    l.parentAssemblyId == parent && l.partId == partId
  }

  /** Whether `SELECT ID FROM Assemblies_Parts WHERE ParentAssemblyID = ? AND PartID = ?` finds a row. */
  predicate HasLink(links: map<int, Link>, parent: int, partId: int)
  {
    exists lid :: lid in links && Links(links[lid], parent, partId)
  }

  /**
   * `UPDATE Assemblies_Parts SET Quantity = Quantity + ? WHERE
   * ParentAssemblyID = ? AND PartID = ?`: every matching row gains the
   * quantity; nothing else changes.
   */
  function AddedQuantity(links: map<int, Link>, parent: int, partId: int, quantity: int): (r: map<int, Link>)
    ensures r.Keys == links.Keys
    ensures forall lid :: lid in links && Links(links[lid], parent, partId) ==>
      r[lid] == links[lid].(quantity := links[lid].quantity + quantity)
    ensures forall lid :: lid in links && !Links(links[lid], parent, partId) ==> r[lid] == links[lid]
  {
    map lid | lid in links :: if Links(links[lid], parent, partId) then links[lid].(quantity := links[lid].quantity + quantity) else links[lid]
  }

  /** The row `add_part` inserts: the validated type, the assembly as parent and child, the quantity, "Part". */
  function NewPartLink(t: Value, assemblyId: int, partId: int, quantity: int): Link
  {
    Link(t, assemblyId, Some(assemblyId), partId, quantity, "Part")
  }

  /** The links and the next ID after `add_part`: add to the existing rows, else insert one. */
  function AfterAddPart(links: map<int, Link>, next: int, assemblyId: int, partId: int, t: Value, quantity: int): (map<int, Link>, int)
  {
    if HasLink(links, assemblyId, partId) then (AddedQuantity(links, assemblyId, partId, quantity), next)
    else (links[next := NewPartLink(t, assemblyId, partId, quantity)], next + 1)
  }

  /** The rows linking the part to the assembly. */
  function LinkRows(links: map<int, Link>, parent: int, partId: int): set<int>
  {
    set lid | lid in links && Links(links[lid], parent, partId)
  }

  /**
   * `add_part` is an upsert: afterwards the part is linked to the assembly;
   * with no link before, exactly one new row holds the quantity; with links
   * before, no row is added and each of them holds the quantity more.
   */
  lemma AddPartUpserts(links: map<int, Link>, next: int, assemblyId: int, partId: int, t: Value, quantity: int)
    requires forall lid :: lid in links ==> lid < next
    ensures var (after, next') := AfterAddPart(links, next, assemblyId, partId, t, quantity);
      && HasLink(after, assemblyId, partId)
      && (forall lid :: lid in after ==> lid < next')
      && (!HasLink(links, assemblyId, partId) ==>
            LinkRows(after, assemblyId, partId) == {next} && after[next].quantity == quantity && |after| == |links| + 1)
      && (HasLink(links, assemblyId, partId) ==>
            LinkRows(after, assemblyId, partId) == LinkRows(links, assemblyId, partId) && |after| == |links|)
  {
    var (after, next') := AfterAddPart(links, next, assemblyId, partId, t, quantity);
    if HasLink(links, assemblyId, partId) {
      var lid :| lid in links && Links(links[lid], assemblyId, partId);
      assert Links(after[lid], assemblyId, partId);
      assert after.Keys == links.Keys;
    } else {
      assert Links(after[next], assemblyId, partId);
      assert next !in links;
      forall lid | lid in after ensures lid in LinkRows(after, assemblyId, partId) <==> lid == next {
        if lid != next {
          assert after[lid] == links[lid];
        }
      }
      assert LinkRows(after, assemblyId, partId) == {next};
    }
  }

  /** Adding the same part twice to an assembly that lacked it leaves one row holding both quantities. */
  lemma AddPartTwiceAccumulates(links: map<int, Link>, next: int, assemblyId: int, partId: int, t: Value, q1: int, q2: int)
    requires forall lid :: lid in links ==> lid < next
    requires !HasLink(links, assemblyId, partId)
    ensures var (once, next1) := AfterAddPart(links, next, assemblyId, partId, t, q1);
      var (twice, next2) := AfterAddPart(once, next1, assemblyId, partId, t, q2);
      LinkRows(twice, assemblyId, partId) == {next} && twice[next].quantity == q1 + q2 && next2 == next + 1
  {
    var (once, next1) := AfterAddPart(links, next, assemblyId, partId, t, q1);
    AddPartUpserts(links, next, assemblyId, partId, t, q1);
    AddPartUpserts(once, next1, assemblyId, partId, t, q2);
    assert Links(once[next], assemblyId, partId);
  }

  // ------------------------------------------------------------------ add_parts_to_assembly

  /** The row `add_parts_to_assembly` inserts: parent and part, quantity 1, "Part", no type and no child. */
  function BareLink(assemblyId: int, partId: int): Link
  {
    Link(VNone, assemblyId, None, partId, 1, "Part")
  }

  /** The links after inserting one bare row per part id, with IDs from `next` on. */
  function Appended(links: map<int, Link>, next: int, assemblyId: int, partIds: seq<int>): map<int, Link>
  {
    if |partIds| == 0 then links
    else Appended(links, next, assemblyId, partIds[..|partIds| - 1])[next + |partIds| - 1 := BareLink(assemblyId, partIds[|partIds| - 1])]
  }

  /**
   * `add_parts_to_assembly` adds one row per listed part id, repeats
   * included, each with its own new ID: the table gains exactly the IDs
   * from `next` on, one per part id.
   */
  lemma {:induction false} AppendedKeys(links: map<int, Link>, next: int, assemblyId: int, partIds: seq<int>)
    requires forall lid :: lid in links ==> lid < next
    ensures var r := Appended(links, next, assemblyId, partIds);
      && (forall lid :: lid in r <==> lid in links || next <= lid < next + |partIds|)
      && |r| == |links| + |partIds|
  {
    if |partIds| > 0 {
      var n := |partIds| - 1;
      AppendedKeys(links, next, assemblyId, partIds[..n]);
      var prev := Appended(links, next, assemblyId, partIds[..n]);
      assert next + n !in prev;
      assert Appended(links, next, assemblyId, partIds).Keys == prev.Keys + {next + n};
    }
  }

  /** The ID `add_parts_to_assembly` gives the row for the `j`-th part id. */
  function RowId(next: int, j: int): int
  {
    next + j
  }

  /** Each new row links the assembly to its part id; the existing rows are left alone. */
  lemma {:induction false} AppendedValues(links: map<int, Link>, next: int, assemblyId: int, partIds: seq<int>)
    requires forall lid :: lid in links ==> lid < next
    ensures var r := Appended(links, next, assemblyId, partIds);
      && (forall j :: 0 <= j < |partIds| ==> RowId(next, j) in r && r[RowId(next, j)] == BareLink(assemblyId, partIds[j]))
      && (forall lid :: lid in links ==> lid in r && r[lid] == links[lid])
  {
    if |partIds| > 0 {
      var n := |partIds| - 1;
      var init := partIds[..n];
      AppendedValues(links, next, assemblyId, init);
      var prev := Appended(links, next, assemblyId, init);
      var r := prev[RowId(next, n) := BareLink(assemblyId, partIds[n])];
      assert r == Appended(links, next, assemblyId, partIds);
      forall j | 0 <= j < |partIds| ensures RowId(next, j) in r && r[RowId(next, j)] == BareLink(assemblyId, partIds[j]) {
        if j < n {
          assert init[j] == partIds[j];
          assert RowId(next, j) in prev;
        }
      }
      forall lid | lid in links ensures lid in r && r[lid] == links[lid] {
        assert lid != RowId(next, n);
      }
    }
  }

  // ------------------------------------------------------------------ the Assembly

  class Assembly {
    var itemId: int
    var name: string
    var procurementType: Value

    /** `Assembly(assembly_id, name, procurement_type="Purchase")`: the type is kept as given. */
    constructor (assemblyId: int, name: string, procurementType: Value)
      ensures itemId == assemblyId && this.name == name && this.procurementType == procurementType
    {
      itemId := assemblyId;
      this.name := name;
      this.procurementType := procurementType;
    }

    /**
     * `update_procurement_type()`: the roll-up of the linked types becomes the
     * assembly's type and is written to its Assemblies row.
     */
    method UpdateProcurementType(db: Tables)
      modifies this, db
      ensures itemId == old(itemId) && name == old(name)
      ensures procurementType == Rollup(LinkedTypes(old(db.links), old(db.parts), itemId))
      ensures db.assemblies == WithType(old(db.assemblies), itemId, procurementType)
      ensures db.parts == old(db.parts) && db.links == old(db.links) && db.nextLinkId == old(db.nextLinkId)
    {
      var types := LinkedTypes(db.links, db.parts, itemId);
      procurementType := if types == {} then PURCHASE else Rollup(types);
      db.assemblies := WithType(db.assemblies, itemId, procurementType);
    }

    /**
     * `add_part(part, quantity)`: validate the part's type, then add the
     * quantity to the rows linking the part to this assembly, or insert one
     * such row.  The assembly's own type is not recomputed.
     */
    method AddPart(db: Tables, part: Part, quantity: int)
      requires db.Valid()
      modifies db, part
      ensures db.Valid()
      ensures part.itemId == old(part.itemId) && part.name == old(part.name)
      ensures part.procurementType == ValidatedType(old(part.procurementType))
      ensures (db.links, db.nextLinkId) ==
        AfterAddPart(old(db.links), old(db.nextLinkId), itemId, part.itemId, part.procurementType, quantity)
      ensures db.parts == old(db.parts) && db.assemblies == old(db.assemblies)
      ensures procurementType == old(procurementType)
    {
      if part.procurementType == VNone {
        part.procurementType := PURCHASE;
      }
      SrcValidation.ProcurementTypeCoerced("ProcurementType", part.procurementType, NoFloat);
      part.procurementType := SrcValidation.ValidateField("ProcurementType", part.procurementType, "text",
        SrcValidation.PROCUREMENT_TYPES, PURCHASE, NoFloat).value;
      if HasLink(db.links, itemId, part.itemId) {
        db.links := AddedQuantity(db.links, itemId, part.itemId, quantity);
      } else {
        db.links := db.links[db.nextLinkId := NewPartLink(part.procurementType, itemId, part.itemId, quantity)];
        db.nextLinkId := db.nextLinkId + 1;
      }
    }

    /** `list_parts()`: the (PartName, Quantity) pairs of the rows the roll-up query would read. */
    function ListParts(db: Tables): (r: seq<(string, int)>)
      reads this, db
      ensures |r| <= 1
      ensures |r| == |LinkedTypes(db.links, db.parts, itemId)|
      ensures |r| == 1 ==> itemId in db.links && r[0].1 == db.links[itemId].quantity
      ensures |r| == 1 ==> db.links[itemId].partId in db.parts && r[0].0 == db.parts[db.links[itemId].partId].name
    {
      LinkedTypesAtMostOne(db.links, db.parts, itemId);
      if itemId in db.links && db.links[itemId].partId in db.parts then
        [(db.parts[db.links[itemId].partId].name, db.links[itemId].quantity)]
      else []
    }

    /** `add_parts_to_assembly(assembly_id, part_ids)`: one bare row per part id, with no check for duplicates. */
    static method AddPartsToAssembly(db: Tables, assemblyId: int, partIds: seq<int>)
      requires db.Valid()
      modifies db
      ensures db.Valid()
      ensures db.links == Appended(old(db.links), old(db.nextLinkId), assemblyId, partIds)
      ensures db.nextLinkId == old(db.nextLinkId) + |partIds|
      ensures db.parts == old(db.parts) && db.assemblies == old(db.assemblies)
    {
      var i := 0;
      while i < |partIds|
        invariant 0 <= i <= |partIds|
        invariant db.links == Appended(old(db.links), old(db.nextLinkId), assemblyId, partIds[..i])
        invariant db.nextLinkId == old(db.nextLinkId) + i
        invariant db.Valid()
        invariant db.parts == old(db.parts) && db.assemblies == old(db.assemblies)
      {
        assert partIds[..i + 1][..i] == partIds[..i];
        db.links := db.links[db.nextLinkId := BareLink(assemblyId, partIds[i])];
        db.nextLinkId := db.nextLinkId + 1;
        i := i + 1;
      }
      assert partIds[..|partIds|] == partIds;
    }
  }
}
