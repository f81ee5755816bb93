/**
 * src/database/database_manager.py: the primary-key lookup shared by the
 * editable-column query generator, and the parameters `add_item` and
 * `delete_item` hand to the executor.
 */
module DatabaseManager {
  import opened Wrappers
  import opened PyValues
  import opened OrderedDict
  import opened ColumnDefs

  /**
   * `get_primary_key(context)`: the first column flagged `is_primary_key`;
   * AttributeError when the columns are in list form, ValueError when there is
   * no such column (an unknown context included) or its name is empty.
   */
  function GetPrimaryKey(reg: Registry, ctx: string): (r: Result<string>)
    ensures ColumnsOf(reg, ctx).ListCols? ==> r == Err(AttributeError)
    ensures ColumnsOf(reg, ctx).DictCols? ==>
      (r.Ok? <==> FirstPrimaryKey(ColumnsOf(reg, ctx).defs).Some? && FirstPrimaryKey(ColumnsOf(reg, ctx).defs).value != "")
    ensures r.Ok? ==> r.value != "" && FirstPrimaryKey(ColumnsOf(reg, ctx).defs) == Some(r.value)
    ensures r.Err? && ColumnsOf(reg, ctx).DictCols? ==> r.error == ValueError(NoPrimaryKey(ctx))
  {
    match ColumnsOf(reg, ctx)
    case ListCols(_) => Err(AttributeError)
    case DictCols(defs) =>
      match FirstPrimaryKey(defs)
      case Some(k) => if k == "" then Err(ValueError(NoPrimaryKey(ctx))) else Ok(k)
      case None => Err(ValueError(NoPrimaryKey(ctx)))
  }

  /** `add_item`: the data with the primary-key entry removed and every other entry kept. */
  function InsertData(reg: Registry, ctx: string, data: seq<Entry<Value>>): (r: Result<seq<Entry<Value>>>)
    ensures r.Ok? <==> GetPrimaryKey(reg, ctx).Ok?
    ensures r.Ok? ==> var pk := GetPrimaryKey(reg, ctx).value;
      !HasKey(r.value, pk) && Selects(r.value, data, (k, v) => k != pk)
  {
    var pk :- GetPrimaryKey(reg, ctx);
    WithoutSpec(data, pk);
    Ok(Without(data, pk))
  }

  /** `delete_item`: the parameters, `{"id": item_id}`. */
  function DeleteParams(itemId: Value): (r: seq<Entry<Value>>)
    ensures Keys(r) == ["id"] && Get(r, "id") == Some(itemId)
  {
    [Entry("id", itemId)]
  }

  /** The delete binding ignores the context: a primary key named other than "id" is never bound. */
  lemma DeleteKeyUnbound(reg: Registry, ctx: string, itemId: Value)
    requires GetPrimaryKey(reg, ctx).Ok? && GetPrimaryKey(reg, ctx).value != "id"
    ensures !HasKey(DeleteParams(itemId), GetPrimaryKey(reg, ctx).value)
  {
  }
}
