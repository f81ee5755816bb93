/**
 * src/forms/column_processor.py: a column processor fixed at construction to a
 * context of the global `COLUMN_DEFINITIONS` (the `reg` argument) and to
 * whether hidden (admin) columns are excluded.  Its fields are never updated,
 * so it is a value.
 */
module FormsColumnProcessor {
  import opened Wrappers
  import opened OrderedDict
  import opened ColumnDefs

  datatype Processor = Processor(context: string, excludeHidden: bool, columns: Columns)

  /**
   * `ColumnProcessor(context_name, exclude_hidden)`: ValueError when the context
   * is not configured; otherwise the processor holds that context's columns.
   */
  function New(reg: Registry, ctx: string, excludeHidden: bool): (r: Result<Processor>)
    ensures r.Err? <==> ctx !in reg
    ensures r.Err? ==> r.error == ValueError(UnknownContext(ctx))
    ensures r.Ok? ==> r.value.context == ctx && r.value.excludeHidden == excludeHidden && r.value.columns == reg[ctx]
  {
    if ctx !in reg then Err(ValueError(UnknownContext(ctx)))
    else Ok(Processor(ctx, excludeHidden, reg[ctx]))
  }

  /**
   * `get_processed_column_definitions()`: TypeError when the columns are not a
   * dict; otherwise the sub-dict of primary-key columns and of columns not
   * hidden as admin, in order and with unchanged details.
   */
  function ProcessedDefinitions(p: Processor): (r: Result<Defs>)
    ensures r.Err? <==> p.columns.ListCols?
    ensures r.Err? ==> r.error == TypeError
    ensures r.Ok? ==> Selects(r.value, p.columns.defs, ProcessedTest(p.excludeHidden))
    ensures r.Ok? && UniqueKeys(p.columns.defs) ==> UniqueKeys(r.value)
  {
    match p.columns
    case ListCols(_) => Err(TypeError)
    case DictCols(defs) => Ok(Processed(defs, p.excludeHidden))
  }

  /**
   * `get_processed_columns()`: the processed columns as a list, one entry per
   * column in order, each its details plus the column's name.
   */
  function ProcessedColumns(p: Processor): (r: Result<seq<ColumnDef>>)
    ensures r.Err? <==> p.columns.ListCols?
    ensures r.Ok? ==> var defs := ProcessedDefinitions(p).value;
      |r.value| == |defs| && forall i :: 0 <= i < |defs| ==> NamedRowOf(r.value[i], defs[i])
  {
    var defs :- ProcessedDefinitions(p);
    Ok(ToRows(defs))
  }
}
