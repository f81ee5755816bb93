/**
 * core/data_manager.py: `save_data`, which picks the insert or the update
 * statement of core/query_builder.py's `query_generator`, with the primary key
 * taken from the definitions the caller passes; and `on_save`, which calls it
 * without those definitions.
 */
module CoreDataManager {
  import opened Wrappers
  import opened PyValues
  import opened OrderedDict
  import opened ColumnDefs
  import opened Sql
  import CoreQueryBuilder
  import ConfigData

  /**
   * `save_data(context, data, is_add, column_definitions)`: the generator's
   * errors first; then StopIteration when none of the given definitions is a
   * primary key; then the insert with the key's entry removed, or the update
   * with the data as given.
   */
  function SaveData(reg: Registry, ctx: string, data: seq<Entry<Value>>, isAdd: bool, defs: Defs): (r: Result<Statement>)
    ensures CoreQueryBuilder.QueryGenerator(reg, ctx).Err? ==> r == Err(CoreQueryBuilder.QueryGenerator(reg, ctx).error)
    ensures CoreQueryBuilder.QueryGenerator(reg, ctx).Ok? ==> (r == Err(StopIteration) <==> FirstPrimaryKey(defs).None?)
    ensures r.Ok? && isAdd ==> var pk := FirstPrimaryKey(defs).value;
      && r.value.sql == CoreQueryBuilder.QueryGenerator(reg, ctx).value.insert
      && !HasKey(r.value.params, pk)
      && Selects(r.value.params, data, (k, v) => k != pk)
    ensures r.Ok? && !isAdd ==>
      r.value.sql == CoreQueryBuilder.QueryGenerator(reg, ctx).value.update && r.value.params == data
  {
    var queries :- CoreQueryBuilder.QueryGenerator(reg, ctx);
    match FirstPrimaryKey(defs)
    case None => Err(StopIteration)
    case Some(pk) =>
      WithoutSpec(data, pk);
      if isAdd then Ok(Statement(queries.insert, Without(data, pk)))
      else Ok(Statement(queries.update, data))
  }

  /**
   * Called with a configured context and its own definitions, an add sends
   * an insert that still lists and binds the real primary key (the generator
   * drops only a column named "id") while the parameters have dropped it.
   */
  lemma AddBindsDroppedKey(ctx: string, data: seq<Entry<Value>>)
    requires ctx in ConfigData.COLUMN_DEFINITIONS
    ensures var defs := ConfigData.COLUMN_DEFINITIONS[ctx].defs;
      var r := SaveData(ConfigData.COLUMN_DEFINITIONS, ctx, data, true, defs);
      && r.Ok? && FirstPrimaryKey(defs) == Some(defs[0].key)
      && defs[0].key in CoreQueryBuilder.Writable(defs)
      && r.value.sql == InsertSql(ctx, CoreQueryBuilder.Writable(defs), Binds(CoreQueryBuilder.Writable(defs)))
      && !HasKey(r.value.params, defs[0].key)
  {
    CoreQueryBuilder.RealPrimaryKeyKept(ctx);
    ConfigData.PrimaryKeyFirstAndOnly(ctx);
  }

  /**
   * `on_save(context, form_data, is_add)`: the call leaves out the required
   * `column_definitions` argument, so it raises TypeError before anything is
   * generated.
   */
  function OnSave(ctx: string, formData: seq<Entry<Value>>, isAdd: bool): (r: Result<Statement>)
  {
    Err(TypeError)
  }

  /**
   * `on_save` never saves, even for a configured context whose save, given
   * its definitions, would succeed.
   */
  lemma OnSaveNeverSaves(ctx: string, formData: seq<Entry<Value>>, isAdd: bool)
    requires ctx in ConfigData.COLUMN_DEFINITIONS
    ensures OnSave(ctx, formData, isAdd).Err?
    ensures SaveData(ConfigData.COLUMN_DEFINITIONS, ctx, formData, isAdd, ConfigData.COLUMN_DEFINITIONS[ctx].defs).Ok?
  {
    CoreQueryBuilder.RealPrimaryKeyKept(ctx);
    ConfigData.PrimaryKeyFirstAndOnly(ctx);
  }
}
