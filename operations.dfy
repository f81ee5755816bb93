/**
 * src/database/operations.py: the same CRUD helpers as
 * src/database/database_utils.py, with three differences the model keeps:
 * the add form shows the primary key, an update query that already has a WHERE
 * is left as it is, and delete passes the selection under "ID".  Its
 * `insert_item_in_db` parameters and `prepare_update_params` are those of
 * `SrcDatabaseUtils.InsertParams` and `SrcDatabaseUtils.PrepareUpdateParams`.
 */
module Operations {
  import opened Wrappers
  import opened Text
  import opened PyValues
  import opened OrderedDict
  import opened ColumnDefs
  import opened Sql
  import SrcDatabaseUtils

  datatype FormKind = AddForm | EditForm | CloneForm

  /** Add and edit show every non-admin column; clone only the editable ones. */
  function FormTest(kind: FormKind): (string, ColumnDef) -> bool
  {
    if kind == CloneForm then KeepEditable else KeepVisible
  }

  /** The columns a form is built from, in order and with unchanged details. */
  function FormColumns(kind: FormKind, defs: Defs): (r: Defs)
    ensures Selects(r, defs, FormTest(kind))
  {
    FilterSelects(defs, FormTest(kind));
    Filter(defs, FormTest(kind))
  }

  /** A non-admin primary key is on the add form (so a new item's key is typed in) but not on the clone form. */
  lemma AddFormKeepsPrimaryKey(defs: Defs, i: int)
    requires 0 <= i < |defs| && IsPrimaryKey(defs[i].val) && !IsAdmin(defs[i].val)
    ensures defs[i] in FormColumns(AddForm, defs)
    ensures defs[i] !in FormColumns(CloneForm, defs)
  {
    FilterMember(defs, FormTest(AddForm), defs[i]);
    FilterMember(defs, FormTest(CloneForm), defs[i]);
  }

  /** The key condition appended when the query has none. */
  function KeyClause(pk: string): string
  {
    " WHERE " + pk + " = :primary_key_value"
  }

  /**
   * `update_item_in_db`: ValueError when no column is a primary key (or its
   * name is empty) and when the form lacks it; the parameters are those of
   * src/database/database_utils.py; the key clause is appended only to a query
   * with no WHERE in any case, and any other query is passed on unchanged.
   */
  function UpdateItemInDb(ctx: string, defs: Defs, form: seq<Entry<Value>>, query: string): (r: Result<Statement>)
    ensures r.Err? <==> FirstPrimaryKey(defs).None? || FirstPrimaryKey(defs).value == "" || !HasKey(form, FirstPrimaryKey(defs).value)
    ensures r.Err? && (FirstPrimaryKey(defs).None? || FirstPrimaryKey(defs).value == "") ==> r.error == ValueError(NoPrimaryKey(ctx))
    ensures r.Ok? ==> r.value.params == SrcDatabaseUtils.UpdateItemInDb(ctx, defs, form, query).value.params
    ensures r.Ok? && Contains(Upper(query), "WHERE") ==> r.value.sql == query
    ensures r.Ok? && !Contains(Upper(query), "WHERE") ==> r.value.sql == query + KeyClause(FirstPrimaryKey(defs).value)
  {
    match FirstPrimaryKey(defs)
    case None => Err(ValueError(NoPrimaryKey(ctx)))
    case Some(pk) =>
      if pk == "" then Err(ValueError(NoPrimaryKey(ctx)))
      else if !HasKey(form, pk) then Err(ValueError(PrimaryKeyNotInForm(pk)))
      else
        var params := Set(SrcDatabaseUtils.ColumnParams(defs, form), "primary_key_value", Get(form, pk).value);
        var sql := if !Contains(Upper(query), "WHERE") then query + KeyClause(pk) else query;
        Ok(Statement(sql, params))
  }

  /**
   * The two update helpers agree on a query with no WHERE and differ on one with
   * an upper-case WHERE: database_utils replaces the condition with the key
   * clause, operations keeps the caller's condition.
   */
  lemma UpdateVariantsCompared(ctx: string, defs: Defs, form: seq<Entry<Value>>, query: string)
    requires UpdateItemInDb(ctx, defs, form, query).Ok?
    ensures SrcDatabaseUtils.UpdateItemInDb(ctx, defs, form, query).Ok?
    ensures !Contains(Upper(query), "WHERE") ==>
      UpdateItemInDb(ctx, defs, form, query) == SrcDatabaseUtils.UpdateItemInDb(ctx, defs, form, query)
    ensures Contains(query, "WHERE") ==>
      && UpdateItemInDb(ctx, defs, form, query).value.sql == query
      && SrcDatabaseUtils.UpdateItemInDb(ctx, defs, form, query).value.sql
         == query[..IndexOf(query, "WHERE").value] + SrcDatabaseUtils.KeyClause(FirstPrimaryKey(defs).value)
  {
    SrcDatabaseUtils.UpperKeepsWhere(query);
  }

  /**
   * `delete_item`'s parameters: nothing when no row is selected (the source
   * shows an error and returns), otherwise the first selected row under "ID",
   * whatever the context's primary key is called.
   */
  function DeleteParams(selection: seq<Value>): (r: Option<seq<Entry<Value>>>)
    ensures r.None? <==> |selection| == 0
    ensures r.Some? ==> Keys(r.value) == ["ID"] && Get(r.value, "ID") == Some(selection[0])
  {
    if |selection| == 0 then None else Some([Entry("ID", selection[0])])
  }
}
