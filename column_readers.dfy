/**
 * The column readers that several files define word for word, each modelled
 * once here:
 *
 *  - the non-admin columns of a context: `process_column_definitions` in
 *    core/database_utils.py, src/database/database_utils.py and
 *    src/database/database_schema.py, and `get_visible_columns` in
 *    src/core/config_utils.py;
 *  - the processing filter on a columns argument:
 *    `get_processed_column_definitions` in src/core/view_management.py,
 *    src/database/database_utils.py and src/database/database_schema.py;
 *  - the attribute list of a context: `get_column_attribute_for_context` in
 *    core/config_utils.py and src/core/config_utils.py.
 *
 * Each of them starts from `COLUMN_DEFINITIONS.get(ctx, {}).get("columns", {})`
 * (`ColumnDefs.ColumnsOf`), and each calls `.items()` on it, so columns already
 * rewritten into list form raise AttributeError.
 */
module ColumnReaders {
  import opened Wrappers
  import opened PyValues
  import opened OrderedDict
  import opened ColumnDefs

  /**
   * The non-admin columns of a context, in order and with unchanged details:
   * {} for an unknown context, AttributeError for columns in list form.
   */
  function VisibleColumnsOf(reg: Registry, ctx: string): (r: Result<Defs>)
    ensures ctx !in reg ==> r == Ok([])
    ensures r.Err? <==> ColumnsOf(reg, ctx).ListCols?
    ensures r.Err? ==> r.error == AttributeError
    ensures r.Ok? ==> Selects(r.value, ColumnsOf(reg, ctx).defs, KeepVisible)
  {
    match ColumnsOf(reg, ctx)
    case ListCols(_) => Err(AttributeError)
    case DictCols(defs) => Ok(Visible(defs))
  }

  /** Dropping the admin columns twice drops nothing more. */
  lemma VisibleIdempotent(defs: Defs)
    ensures Visible(Visible(defs)) == Visible(defs)
  {
    FilterIdempotent(defs, KeepVisible);
  }

  /**
   * `get_processed_column_definitions(column_definitions, exclude_hidden)`:
   * TypeError unless the argument is a dict; otherwise the primary key and every
   * column not hidden as admin, in order and with unchanged details.  Without
   * hiding the dict comes back whole, and the first primary key is never lost.
   */
  function ProcessedOf(cols: Columns, excludeHidden: bool): (r: Result<Defs>)
    ensures r.Err? <==> cols.ListCols?
    ensures r.Err? ==> r.error == TypeError
    ensures r.Ok? ==> Selects(r.value, cols.defs, ProcessedTest(excludeHidden))
    ensures r.Ok? && !excludeHidden ==> r.value == cols.defs
    ensures r.Ok? ==> FirstPrimaryKey(r.value) == FirstPrimaryKey(cols.defs)
  {
    match cols
    case ListCols(_) => Err(TypeError)
    case DictCols(defs) =>
      ProcessedAll(defs);
      ProcessedFirstPrimaryKey(defs, excludeHidden);
      Ok(Processed(defs, excludeHidden))
  }

  /** `attribute in col_props` as a filter test. */
  function HasAttribute(attribute: string): (string, ColumnDef) -> bool
  {
    (k, d) => attribute in d
  }

  /**
   * `[col_props.get(attribute) for col_name, col_props in columns.items() if
   * attribute in col_props]`: at most one value per column, and none at all
   * exactly when no column carries the attribute.
   */
  function AttributeList(defs: Defs, attribute: string): (r: seq<Value>)
    ensures |r| <= |defs|
    ensures |r| == 0 <==> forall i :: 0 <= i < |defs| ==> attribute !in defs[i].val
  {
    if |defs| == 0 then []
    else
      var rest := AttributeList(defs[1..], attribute);
      assert forall i :: 1 <= i < |defs| ==> defs[i] == defs[1..][i - 1];
      if attribute in defs[0].val then [defs[0].val[attribute]] + rest else rest
  }

  /**
   * The attribute list is the attribute's value read off each column that has
   * it, in column order.
   */
  lemma {:induction false} AttributeListSpec(defs: Defs, attribute: string)
    ensures var f := Filter(defs, HasAttribute(attribute));
      |AttributeList(defs, attribute)| == |f|
      && forall i :: 0 <= i < |f| ==> attribute in f[i].val && AttributeList(defs, attribute)[i] == f[i].val[attribute]
  {
    if |defs| > 0 {
      AttributeListSpec(defs[1..], attribute);
      var f := Filter(defs, HasAttribute(attribute));
      var t := Filter(defs[1..], HasAttribute(attribute));
      if attribute in defs[0].val {
        assert f == [defs[0]] + t;
        assert forall i :: 1 <= i < |f| ==> f[i] == t[i - 1];
      } else {
        assert f == t;
      }
    }
  }

  /** A column list in which only the first column carries the attribute yields that one value. */
  lemma AttributeOnlyFirst(defs: Defs, attribute: string)
    requires |defs| > 0 && attribute in defs[0].val
    requires forall i :: 0 < i < |defs| ==> attribute !in defs[i].val
    ensures AttributeList(defs, attribute) == [defs[0].val[attribute]]
  {
    assert forall i :: 0 <= i < |defs[1..]| ==> attribute !in defs[1..][i].val by {
      forall i | 0 <= i < |defs[1..]| ensures attribute !in defs[1..][i].val {
        assert defs[1..][i] == defs[i + 1];
      }
    }
  }

  /**
   * `get_column_attribute_for_context(context, attribute)`: [] for an unknown
   * context, AttributeError for columns in list form, otherwise the attribute
   * list of the context's columns.
   */
  function GetColumnAttributeForContext(reg: Registry, ctx: string, attribute: string): (r: Result<seq<Value>>)
    ensures ctx !in reg ==> r == Ok([])
    ensures r.Err? <==> ColumnsOf(reg, ctx).ListCols?
    ensures r.Ok? ==> |r.value| <= |ColumnsOf(reg, ctx).defs|
    ensures r.Ok? ==> (r.value == [] <==> forall i :: 0 <= i < |ColumnsOf(reg, ctx).defs| ==> attribute !in ColumnsOf(reg, ctx).defs[i].val)
  {
    match ColumnsOf(reg, ctx)
    case ListCols(_) => Err(AttributeError)
    case DictCols(defs) => Ok(AttributeList(defs, attribute))
  }
}
