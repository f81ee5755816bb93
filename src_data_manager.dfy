/**
 * src/core/data_manager.py: `DataManager.save_data`, which picks the insert or
 * the update statement of the src/database/query_generator.py generator and
 * the parameters to go with it.  Execution is left to the executor.
 */
module SrcDataManager {
  import opened Wrappers
  import opened PyValues
  import opened OrderedDict
  import opened ColumnDefs
  import opened Sql
  import QueryGenerator
  import DatabaseServices

  /**
   * `save_data(context, data, is_add)`: the generator's errors first; then
   * StopIteration when no column is a primary key; then the insert with the
   * key's entry removed, or the update with the data as given.  Once the
   * generator is built the key lookup cannot fail, so StopIteration is never
   * raised, and an add sends what the service's `add_item` sends.
   */
  function SaveData(reg: Registry, ctx: string, data: seq<Entry<Value>>, isAdd: bool): (r: Result<Statement>)
    ensures QueryGenerator.New(reg, ctx).Err? ==> r == Err(QueryGenerator.New(reg, ctx).error)
    ensures r.Err? <==> QueryGenerator.New(reg, ctx).Err?
    ensures isAdd ==> r == DatabaseServices.AddItem(reg, ctx, data)
    ensures r.Ok? && isAdd ==> var g := QueryGenerator.New(reg, ctx).value;
      && r.value.sql == QueryGenerator.Insert(g)
      && !HasKey(r.value.params, g.primaryKey)
      && Selects(r.value.params, data, (k, v) => k != g.primaryKey)
    ensures r.Ok? && !isAdd ==> var g := QueryGenerator.New(reg, ctx).value;
      r.value.sql == QueryGenerator.Update(g) && r.value.params == data
  {
    var g :- QueryGenerator.New(reg, ctx);
    match ColumnsOf(reg, ctx)
    case ListCols(_) => Err(AttributeError)
    case DictCols(defs) =>
      match FirstPrimaryKey(defs)
      case None => Err(StopIteration)
      case Some(pk) =>
        WithoutSpec(data, pk);
        if isAdd then Ok(Statement(QueryGenerator.Insert(g), Without(data, pk)))
        else Ok(Statement(QueryGenerator.Update(g), data))
  }
}
