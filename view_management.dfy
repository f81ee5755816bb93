/**
 * src/core/view_management.py.  Its `get_processed_column_definitions` is the
 * shared processing filter `ColumnReaders.ProcessedOf`; its
 * `get_processed_columns` rewrites a context's columns in the shared
 * configuration, in place, from dict form into a list of dicts each carrying
 * the column's name, and returns that list.
 */
module ViewManagement {
  import opened Wrappers
  import opened PyValues
  import opened OrderedDict
  import opened ColumnDefs
  import ColumnReaders
  import ConfigData

  /** The configuration after one `get_processed_columns` call, and what the call returned. */
  datatype Outcome = Outcome(registry: Registry, result: Result<seq<ColumnDef>>)

  /**
   * One `get_processed_columns(context_name)` call: ValueError and no change for
   * an unknown context; otherwise the context's columns are left in list form,
   * one named entry per column in order, every other context is untouched, and
   * that list is returned.
   */
  function ProcessedColumnsStep(reg: Registry, ctx: string): (o: Outcome)
    ensures ctx !in reg ==> o == Outcome(reg, Err(ValueError(UnknownContext(ctx))))
    ensures ctx in reg ==> o.result.Ok? && o.registry == reg[ctx := ListCols(o.result.value)]
    ensures ctx in reg && reg[ctx].DictCols? ==>
      |o.result.value| == |reg[ctx].defs| && forall i :: 0 <= i < |reg[ctx].defs| ==> NamedRowOf(o.result.value[i], reg[ctx].defs[i])
    ensures ctx in reg && reg[ctx].ListCols? ==> o == Outcome(reg, Ok(reg[ctx].rows))
  {
    if ctx !in reg then Outcome(reg, Err(ValueError(UnknownContext(ctx))))
    else
      match reg[ctx]
      case DictCols(defs) => Outcome(reg[ctx := ListCols(ToRows(defs))], Ok(ToRows(defs)))
      case ListCols(rows) =>
        assert reg[ctx := ListCols(rows)] == reg;
        Outcome(reg, Ok(rows))
  }

  /** `get_processed_columns(context_name)` on the shared configuration. */
  method GetProcessedColumns(store: ConfigData.ConfigStore, ctx: string) returns (r: Result<seq<ColumnDef>>)
    modifies store
    ensures Outcome(store.registry, r) == ProcessedColumnsStep(old(store.registry), ctx)
  {
    if ctx !in store.registry {
      return Err(ValueError(UnknownContext(ctx)));
    }
    var columns := store.registry[ctx];
    if columns.DictCols? {
      store.registry := store.registry[ctx := ListCols(ToRows(columns.defs))];
    }
    r := Ok(store.registry[ctx].rows);
  }

  /** A second call for the same context returns the list already stored and changes nothing. */
  lemma SecondCallUnchanged(reg: Registry, ctx: string)
    ensures var o := ProcessedColumnsStep(reg, ctx);
      ProcessedColumnsStep(o.registry, ctx) == o
  {
  }

  /**
   * After the rewrite, every reader that expects the dict form fails on that
   * context: the non-admin filter raises AttributeError, the processing filter
   * TypeError.
   */
  lemma RewriteBreaksDictReaders(reg: Registry, ctx: string, excludeHidden: bool)
    requires ctx in reg
    ensures var o := ProcessedColumnsStep(reg, ctx);
      && ColumnReaders.VisibleColumnsOf(o.registry, ctx) == Err(AttributeError)
      && ColumnReaders.ProcessedOf(o.registry[ctx], excludeHidden) == Err(TypeError)
  {
  }
}
