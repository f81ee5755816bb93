/**
 * config/refresh_database_definitions.py: rebuild the Assemblies column
 * definitions from `PRAGMA table_info` and store them in
 * `COLUMN_DEFINITIONS["Assemblies"]["columns"]`.  The PRAGMA rows are a
 * parameter: reading them from the database file is not modelled.
 */
module RefreshDefinitions {
  import opened Wrappers
  import opened PyValues
  import opened OrderedDict
  import opened ColumnDefs

  /** A row of `PRAGMA table_info`: (cid, name, type, notnull, dflt_value, pk). */
  datatype PragmaRow = PragmaRow(cid: int, name: string, declType: string, notNull: int, dfltValue: Value, pk: int)

  /** The statement run: the table is always Assemblies, whatever name is passed. */
  function PragmaQuery(tableName: string): string
  {
    var table := "Assemblies";
    "PRAGMA table_info(" + table + ");"
  }

  /** `refresh_column_definitions` introspects the same table for every argument. */
  lemma TableNameIgnored(a: string, b: string)
    ensures PragmaQuery(a) == PragmaQuery(b)
  {
  }

  /** The definition built from one row: its name as display name, its declared type, and whether `pk == 1`. */
  function RowDefinition(row: PragmaRow): (d: ColumnDef)
    ensures d.Keys == {"display_name", "type", "is_primary_key"}
    ensures IsPrimaryKey(d) <==> row.pk == 1
    ensures !IsAdmin(d)
  {
    map["display_name" := VStr(row.name), "type" := VStr(row.declType), "is_primary_key" := VBool(row.pk == 1)]
  }

  /** The entry a row contributes. */
  function RowEntry(row: PragmaRow): Entry<ColumnDef>
  {
    Entry(row.name, RowDefinition(row))
  }

  /** The dict comprehension over the rows, keyed by `row[1]`; a repeated name keeps its first place and its last row. */
  function Refreshed(rows: seq<PragmaRow>): Defs
  {
    if |rows| == 0 then []
    else
      var e := RowEntry(rows[|rows| - 1]);
      Set(Refreshed(rows[..|rows| - 1]), e.key, e.val)
  }

  /** Column names as PRAGMA lists them are distinct. */
  predicate DistinctNames(rows: seq<PragmaRow>)
  {
    forall i, j :: 0 <= i < j < |rows| ==> rows[i].name != rows[j].name
  }

  /**
   * For distinct names the refreshed columns follow the PRAGMA row order,
   * one per row, each holding that row's definition.
   */
  lemma {:induction false} RefreshedInRowOrder(rows: seq<PragmaRow>)
    requires DistinctNames(rows)
    ensures |Refreshed(rows)| == |rows|
    ensures forall i :: 0 <= i < |rows| ==> Refreshed(rows)[i] == RowEntry(rows[i])
  {
    if |rows| > 0 {
      var n := |rows| - 1;
      var init := rows[..n];
      assert DistinctNames(init);
      RefreshedInRowOrder(init);
      var prev := Refreshed(init);
      var e := RowEntry(rows[n]);
      forall j | 0 <= j < n ensures Keys(prev)[j] != e.key {
        assert prev[j] == RowEntry(init[j]);
        assert init[j] == rows[j];
      }
      assert !HasKey(prev, e.key);
      SetAbsentAppends(prev, e.key, e.val);
      var r := prev + [e];
      forall i | 0 <= i < |rows| ensures r[i] == RowEntry(rows[i]) {
        if i < n {
          assert init[i] == rows[i];
        }
      }
    }
  }

  /** Every refreshed column has exactly the three keys: admin, default and width are gone, so none is admin. */
  lemma {:induction false} RefreshedDropsCurated(rows: seq<PragmaRow>)
    ensures forall e :: e in Refreshed(rows) ==> e.val.Keys == {"display_name", "type", "is_primary_key"} && !IsAdmin(e.val)
  {
    if |rows| > 0 {
      var n := |rows| - 1;
      var prev := Refreshed(rows[..n]);
      RefreshedDropsCurated(rows[..n]);
      var e := RowEntry(rows[n]);
      SetFrom(prev, e.key, e.val);
    }
  }

  /** Every entry of `d[k] = v` is an entry of `d` or the new one. */
  lemma {:induction false} SetFrom<V>(d: seq<Entry<V>>, k: string, v: V)
    ensures forall e :: e in Set(d, k, v) ==> e in d || e == Entry(k, v)
  {
    if |d| > 0 && d[0].key != k {
      SetFrom(d[1..], k, v);
    }
  }

  /** `COLUMN_DEFINITIONS` after `COLUMN_DEFINITIONS["Assemblies"]["columns"] = ...`; KeyError without an Assemblies context. */
  function WithAssemblies(reg: Registry, rows: seq<PragmaRow>): (r: Result<Registry>)
    ensures r.Err? <==> "Assemblies" !in reg
    ensures r.Ok? ==> r.value.Keys == reg.Keys && r.value["Assemblies"] == DictCols(Refreshed(rows))
    ensures r.Ok? ==> forall ctx :: ctx in reg && ctx != "Assemblies" ==> r.value[ctx] == reg[ctx]
  {
    if "Assemblies" in reg then Ok(reg["Assemblies" := DictCols(Refreshed(rows))]) else Err(KeyError("Assemblies"))
  }

  /** The module refreshes twice with the same rows; the second refresh changes nothing. */
  lemma RefreshTwiceSame(reg: Registry, rows: seq<PragmaRow>)
    requires "Assemblies" in reg
    ensures WithAssemblies(WithAssemblies(reg, rows).value, rows) == WithAssemblies(reg, rows)
  {
    var once := WithAssemblies(reg, rows).value;
    assert once["Assemblies" := DictCols(Refreshed(rows))] == once;
  }

  /** The shared `COLUMN_DEFINITIONS` dict. */
  class ColumnConfig {
    var definitions: Registry

    constructor (definitions: Registry)
      ensures this.definitions == definitions
    {
      this.definitions := definitions;
    }

    /** The module body: refresh the Assemblies columns from the PRAGMA rows, twice. */
    method RefreshAssemblies(rows: seq<PragmaRow>) returns (r: Result<()>)
      modifies this
      ensures r.Err? <==> "Assemblies" !in old(definitions)
      ensures r.Ok? ==> definitions == WithAssemblies(old(definitions), rows).value
      ensures r.Err? ==> definitions == old(definitions)
    {
      var first := WithAssemblies(definitions, rows);
      if first.Err? {
        return Err(first.error);
      }
      definitions := first.value;
      RefreshTwiceSame(old(definitions), rows);
      definitions := WithAssemblies(definitions, rows).value;
      return Ok(());
    }
  }
}
