/**
 * Column metadata as the configuration stores it, and the column tests that
 * the readers of `COLUMN_DEFINITIONS` share.  A column's details are a Python
 * dict read with `details.get(key, default)`, so they are modelled as a map
 * from attribute name to value; a context's columns are an ordered dict of
 * those, or (once `get_processed_columns` in src/core/view_management.py has
 * rewritten them) a list of dicts each carrying the column's name.
 */
module ColumnDefs {
  import opened Wrappers
  import opened PyValues
  import opened OrderedDict

  /** One column's details dict. */
  type ColumnDef = map<string, Value>

  /** A context's `"columns"` dict, in definition order. */
  type Defs = seq<Entry<ColumnDef>>

  /** The value of a context's `"columns"` key. */
  datatype Columns =
    | DictCols(defs: Defs)
    | ListCols(rows: seq<ColumnDef>)

  /** `COLUMN_DEFINITIONS`: context name to that context's columns. */
  type Registry = map<string, Columns>

  /** `COLUMN_DEFINITIONS.get(ctx, {}).get("columns", {})`. */
  function ColumnsOf(reg: Registry, ctx: string): (r: Columns)
    ensures ctx !in reg ==> r == DictCols([])
    ensures ctx in reg ==> r == reg[ctx]
  {
    if ctx in reg then reg[ctx] else DictCols([])
  }

  /** `not columns`: an empty dict or an empty list. */
  predicate Empty(c: Columns)
  {
    match c
    case DictCols(defs) => |defs| == 0
    case ListCols(rows) => |rows| == 0
  }

  /** `details.get(attribute)`. */
  function Attr(d: ColumnDef, attribute: string): Value
  {
    if attribute in d then d[attribute] else VNone
  }

  /** `details.get(flag, False)` used as a condition. */
  predicate Flag(d: ColumnDef, flag: string)
  {
    flag in d && Truthy(d[flag])
  }

  predicate IsPrimaryKey(d: ColumnDef) { Flag(d, "is_primary_key") }

  predicate IsAdmin(d: ColumnDef) { Flag(d, "admin") }

  predicate IsForeignKey(d: ColumnDef) { Flag(d, "foreign_key") }

  // ------------------------------------------------------------------ the shared tests

  /** "Processed": the primary key, or any column that is not hidden as admin. */
  predicate KeepProcessed(excludeHidden: bool, name: string, d: ColumnDef)
  {
    IsPrimaryKey(d) || !(excludeHidden && IsAdmin(d))
  }

  /** "Visible": not admin (the primary key stays). */
  predicate KeepVisible(name: string, d: ColumnDef)
  {
    !IsAdmin(d)
  }

  /** "Editable": neither admin nor the primary key. */
  predicate KeepEditable(name: string, d: ColumnDef)
  {
    !IsAdmin(d) && !IsPrimaryKey(d)
  }

  /** The processing test as a function value, for a fixed `exclude_hidden`. */
  function ProcessedTest(excludeHidden: bool): (string, ColumnDef) -> bool
  {
    (k, d) => KeepProcessed(excludeHidden, k, d)
  }

  /** The processed sub-dict: a filtering dict comprehension. */
  function Processed(defs: Defs, excludeHidden: bool): (r: Defs)
    ensures Selects(r, defs, ProcessedTest(excludeHidden))
    ensures UniqueKeys(defs) ==> UniqueKeys(r)
  {
    FilterSelects(defs, ProcessedTest(excludeHidden));
    FilterUniqueIf(defs, ProcessedTest(excludeHidden));
    Filter(defs, ProcessedTest(excludeHidden))
  }

  /** The visible (non-admin) sub-dict. */
  function Visible(defs: Defs): (r: Defs)
    ensures Selects(r, defs, KeepVisible)
    ensures UniqueKeys(defs) ==> UniqueKeys(r)
  {
    FilterSelects(defs, KeepVisible);
    FilterUniqueIf(defs, KeepVisible);
    Filter(defs, KeepVisible)
  }

  /** The editable sub-dict. */
  function Editable(defs: Defs): (r: Defs)
    ensures Selects(r, defs, KeepEditable)
    ensures UniqueKeys(defs) ==> UniqueKeys(r)
  {
    FilterSelects(defs, KeepEditable);
    FilterUniqueIf(defs, KeepEditable);
    Filter(defs, KeepEditable)
  }

  lemma FilterUniqueIf(d: Defs, keep: (string, ColumnDef) -> bool)
    ensures UniqueKeys(d) ==> UniqueKeys(Filter(d, keep))
  {
    if UniqueKeys(d) {
      FilterUnique(d, keep);
    }
  }

  /** Without hiding, processing keeps every column. */
  lemma ProcessedAll(defs: Defs)
    ensures Processed(defs, false) == defs
  {
    FilterAll(defs, ProcessedTest(false));
  }

  /** When no primary key is flagged admin, hiding admin columns keeps exactly the visible ones. */
  lemma {:induction false} ProcessedIsVisible(defs: Defs)
    requires forall i :: 0 <= i < |defs| && IsPrimaryKey(defs[i].val) ==> !IsAdmin(defs[i].val)
    ensures Processed(defs, true) == Visible(defs)
  {
    if |defs| > 0 {
      ProcessedIsVisible(defs[1..]);
    }
  }

  // ------------------------------------------------------------------ primary key

  /** `next((c for c, d in defs.items() if d.get("is_primary_key")), None)`: the first flagged column. */
  function FirstPrimaryKey(defs: Defs): (r: Option<string>)
    ensures r.Some? ==> exists i :: (0 <= i < |defs| && defs[i].key == r.value && IsPrimaryKey(defs[i].val)
      && forall j :: 0 <= j < i ==> !IsPrimaryKey(defs[j].val))
    ensures r.None? <==> forall i :: 0 <= i < |defs| ==> !IsPrimaryKey(defs[i].val)
  {
    if |defs| == 0 then None
    else if IsPrimaryKey(defs[0].val) then Some(defs[0].key)
    else
      var r := FirstPrimaryKey(defs[1..]);
      assert r.Some? ==> exists i :: (1 <= i < |defs| && defs[i].key == r.value && IsPrimaryKey(defs[i].val)
        && forall j :: 0 <= j < i ==> !IsPrimaryKey(defs[j].val)) by {
        if r.Some? {
          var i :| 0 <= i < |defs[1..]| && defs[1..][i].key == r.value && IsPrimaryKey(defs[1..][i].val)
            && forall j :: 0 <= j < i ==> !IsPrimaryKey(defs[1..][j].val);
          assert forall j :: 1 <= j < i + 1 ==> defs[j] == defs[1..][j - 1];
        }
      }
      r
  }

  /** A filter that keeps every primary-key column leaves the first primary key unchanged. */
  lemma {:induction false} FilterFirstPrimaryKey(defs: Defs, keep: (string, ColumnDef) -> bool)
    requires forall k, d :: IsPrimaryKey(d) ==> keep(k, d)
    ensures FirstPrimaryKey(Filter(defs, keep)) == FirstPrimaryKey(defs)
  {
    if |defs| > 0 {
      var t := Filter(defs[1..], keep);
      var f := Filter(defs, keep);
      if IsPrimaryKey(defs[0].val) {
        assert f == [defs[0]] + t;
        assert f[0] == defs[0];
      } else {
        FilterFirstPrimaryKey(defs[1..], keep);
        assert FirstPrimaryKey(defs) == FirstPrimaryKey(defs[1..]);
        if keep(defs[0].key, defs[0].val) {
          assert f == [defs[0]] + t;
          assert f[0] == defs[0] && f[1..] == t;
          assert FirstPrimaryKey(f) == FirstPrimaryKey(t);
        } else {
          assert f == t;
        }
      }
    }
  }

  /** Processing never drops a primary key, so the first one is found unchanged. */
  lemma ProcessedFirstPrimaryKey(defs: Defs, excludeHidden: bool)
    ensures FirstPrimaryKey(Processed(defs, excludeHidden)) == FirstPrimaryKey(defs)
  {
    FilterFirstPrimaryKey(defs, ProcessedTest(excludeHidden));
  }

  // ------------------------------------------------------------------ list form

  /** `{"name": key, **details}`: the details win if they also carry a "name". */
  function NamedRow(e: Entry<ColumnDef>): ColumnDef
  {
    map["name" := VStr(e.key)] + e.val
  }

  /**
   * `row` is the list entry for column `e`: the column's details unchanged, plus
   * its name under "name" unless the details already had one.
   */
  ghost predicate NamedRowOf(row: ColumnDef, e: Entry<ColumnDef>)
  {
    && row.Keys == e.val.Keys + {"name"}
    && (forall a :: a in e.val ==> row[a] == e.val[a])
    && ("name" !in e.val ==> row["name"] == VStr(e.key))
  }

  /** `[{"name": key, **value} for key, value in defs.items()]`: one entry per column, in order. */
  function ToRows(defs: Defs): (r: seq<ColumnDef>)
    ensures |r| == |defs| && forall i :: 0 <= i < |defs| ==> NamedRowOf(r[i], defs[i])
  {
    seq(|defs|, i requires 0 <= i < |defs| => NamedRow(defs[i]))
  }
}
