/**
 * src/database/DatabaseManager.py: the older CRUD manager.  Its key lookup,
 * `add_item` and `delete_item` build exactly what src/database/database_services.py
 * builds (see DatabaseServices.GetPrimaryKey, AddItem and DeleteItem); what
 * differs is `update_item`, which hands the caller's data over as it is.
 *
 * Every operation ends by calling `self.db_executor`, which the constructor
 * never assigns; the model stops at the statement the call would receive.
 */
module DatabaseManagerCrud {
  import opened Wrappers
  import opened PyValues
  import opened OrderedDict
  import opened ColumnDefs
  import opened Sql
  import QueryGenerator
  import DatabaseServices

  /** `update_item(context, data)`: the generator's update, with the data untouched. */
  function UpdateItem(reg: Registry, ctx: string, data: seq<Entry<Value>>): (r: Result<Statement>)
    ensures r.Err? <==> QueryGenerator.New(reg, ctx).Err?
    ensures r.Err? ==> r.error == QueryGenerator.New(reg, ctx).error
    ensures r.Ok? ==> r.value.sql == QueryGenerator.Update(QueryGenerator.New(reg, ctx).value)
    ensures r.Ok? ==> forall k :: Get(r.value.params, k) == Get(data, k)
  {
    var g :- QueryGenerator.New(reg, ctx);
    Ok(Statement(QueryGenerator.Update(g), data))
  }

  /**
   * The two update paths send the same statement; the service's parameters
   * also carry "id" (and the caller's dict is changed), this manager's carry
   * "id" only when the caller put it there, every other key agreeing.
   */
  lemma UpdatePathsCompared(reg: Registry, ctx: string, itemId: Value, data: seq<Entry<Value>>)
    requires QueryGenerator.New(reg, ctx).Ok?
    ensures UpdateItem(reg, ctx, data).Ok?
    ensures !HasKey(data, "id") ==> !HasKey(UpdateItem(reg, ctx, data).value.params, "id")
    ensures Get(Set(data, "id", itemId), "id") == Some(itemId)
    ensures forall k :: k != "id" ==> Get(Set(data, "id", itemId), k) == Get(UpdateItem(reg, ctx, data).value.params, k)
  {
    DatabaseServices.UpdateItemWritesId(data, itemId);
  }
}
