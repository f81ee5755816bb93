/**
 * core/query_builder.py: statement text derived from column definitions.
 * `query_generator` reads the global `COLUMN_DEFINITIONS` (here the `reg`
 * argument) and pins every UPDATE and DELETE to a column literally named `id`;
 * the stand-alone generators take the definitions and the primary key from
 * their caller.
 */
module CoreQueryBuilder {
  import opened Wrappers
  import opened Text
  import opened PyValues
  import opened OrderedDict
  import opened ColumnDefs
  import opened Sql
  import ConfigData

  // ------------------------------------------------------------------ query_generator

  /** The insert and update filter of `query_generator`: not admin and not named "id". */
  predicate KeepWritable(name: string, d: ColumnDef)
  {
    !IsAdmin(d) && name != "id"
  }

  /** The columns `query_generator` inserts and updates (the two comprehensions agree). */
  function Writable(defs: Defs): seq<string>
  {
    KeysWhere(defs, KeepWritable)
  }

  /**
   * `query_generator(context)`: ValueError when the context is unknown or has no
   * columns, AttributeError when its columns are already in list form, and
   * otherwise the four statements, UPDATE and DELETE pinned to `id = :id`.
   */
  function QueryGenerator(reg: Registry, ctx: string): (r: Result<QuerySet>)
    ensures Empty(ColumnsOf(reg, ctx)) ==> r == Err(ValueError(UnknownContext(ctx)))
    ensures !Empty(ColumnsOf(reg, ctx)) && ColumnsOf(reg, ctx).ListCols? ==> r == Err(AttributeError)
    ensures r.Ok? <==> !Empty(ColumnsOf(reg, ctx)) && ColumnsOf(reg, ctx).DictCols?
    ensures r.Ok? ==> var defs := ColumnsOf(reg, ctx).defs;
      && r.value.fetch == SelectSql(Keys(defs), ctx)
      && r.value.insert == InsertSql(ctx, Writable(defs), Binds(Writable(defs)))
      && r.value.update == UpdateSql(ctx, NamedAssigns(Writable(defs)), "id = :id")
      && r.value.delete == DeleteSql(ctx, "id = :id")
  {
    var columns := ColumnsOf(reg, ctx);
    if Empty(columns) then Err(ValueError(UnknownContext(ctx)))
    else if columns.ListCols? then Err(AttributeError)
    else
      var defs := columns.defs;
      var writable := Writable(defs);
      Ok(QuerySet(
        SelectSql(Keys(defs), ctx),
        InsertSql(ctx, writable, Binds(writable)),
        UpdateSql(ctx, NamedAssigns(writable), "id = :id"),
        DeleteSql(ctx, "id = :id")))
  }

  /**
   * The insert and update lists hold exactly the non-admin columns other than
   * one named "id", in definition order.
   */
  lemma WritableSpec(defs: Defs)
    ensures Subsequence(Writable(defs), Keys(defs))
    ensures forall c :: c in Writable(defs) <==> exists i :: 0 <= i < |defs| && defs[i].key == c && !IsAdmin(defs[i].val) && c != "id"
  {
    KeysWhereSpec(defs, KeepWritable);
  }

  /**
   * For every configured context the statements are generated, the fetch lists
   * every column, admin ones included, and the real primary key (which is never
   * named "id") stays in both the insert and the update list.
   */
  lemma RealPrimaryKeyKept(ctx: string)
    requires ctx in ConfigData.COLUMN_DEFINITIONS
    ensures QueryGenerator(ConfigData.COLUMN_DEFINITIONS, ctx).Ok?
    ensures var defs := ConfigData.COLUMN_DEFINITIONS[ctx].defs;
      && IsPrimaryKey(defs[0].val)
      && defs[0].key in Writable(defs)
      && QueryGenerator(ConfigData.COLUMN_DEFINITIONS, ctx).value.fetch == SelectSql(Keys(defs), ctx)
  {
    ConfigData.PrimaryKeyFirstAndOnly(ctx);
    var defs := ConfigData.COLUMN_DEFINITIONS[ctx].defs;
    assert defs[0].key != "id";
    WritableSpec(defs);
  }

  // ------------------------------------------------------------------ generate_insert_query

  /** `"default" in details and details["default"] is not None`. */
  predicate HasDefault(d: ColumnDef)
  {
    "default" in d && d["default"] != VNone
  }

  /** A column the insert filter has to look at the type of: not the key, and no usable default. */
  predicate NeedsType(primaryKey: Option<string>, name: string, d: ColumnDef)
  {
    primaryKey != Some(name) && !HasDefault(d)
  }

  /** The insert filter of `generate_insert_query`, for a column whose details it can evaluate. */
  predicate KeepInsertable(primaryKey: Option<string>, name: string, d: ColumnDef)
  {
    primaryKey != Some(name) && (HasDefault(d) || ("type" in d && !In(d["type"], [VStr("int"), VStr("blob")])))
  }

  /**
   * The comprehension of `generate_insert_query`: KeyError("type") as soon as a
   * column that is not the key and has no usable default lacks a "type";
   * otherwise the columns that are not the key and either have a default or are
   * not int/blob.
   */
  function InsertableColumns(defs: Defs, primaryKey: Option<string>): (r: Result<seq<string>>)
    ensures r.Err? <==> exists i :: 0 <= i < |defs| && NeedsType(primaryKey, defs[i].key, defs[i].val) && "type" !in defs[i].val
    ensures r.Err? ==> r.error == KeyError("type")
    ensures r.Ok? ==> r.value == KeysWhere(defs, (k, d) => KeepInsertable(primaryKey, k, d))
  {
    if |defs| == 0 then Ok([])
    else
      var e := defs[0];
      if NeedsType(primaryKey, e.key, e.val) && "type" !in e.val then Err(KeyError("type"))
      else
        var rest := InsertableColumns(defs[1..], primaryKey);
        assert rest.Err? ==> exists i :: 0 <= i < |defs| && NeedsType(primaryKey, defs[i].key, defs[i].val) && "type" !in defs[i].val by {
          if rest.Err? {
            var j :| 0 <= j < |defs[1..]| && NeedsType(primaryKey, defs[1..][j].key, defs[1..][j].val) && "type" !in defs[1..][j].val;
            assert defs[j + 1] == defs[1..][j];
          }
        }
        assert (exists i :: 0 <= i < |defs| && NeedsType(primaryKey, defs[i].key, defs[i].val) && "type" !in defs[i].val) ==> rest.Err? by {
          if exists i :: 0 <= i < |defs| && NeedsType(primaryKey, defs[i].key, defs[i].val) && "type" !in defs[i].val {
            var i :| 0 <= i < |defs| && NeedsType(primaryKey, defs[i].key, defs[i].val) && "type" !in defs[i].val;
            assert i > 0;
            assert defs[1..][i - 1] == defs[i];
          }
        }
        if rest.Err? then rest
        else Ok((if KeepInsertable(primaryKey, e.key, e.val) then [e.key] else []) + rest.value)
  }

  /** `generate_insert_query(table_name, column_definitions, primary_key)`. */
  function GenerateInsertQuery(table: string, defs: Defs, primaryKey: Option<string>): (r: Result<string>)
    ensures r.Err? <==> InsertableColumns(defs, primaryKey).Err?
    ensures r.Ok? ==> var cols := InsertableColumns(defs, primaryKey).value;
      r.value == InsertSql(table, cols, Binds(cols))
  {
    var cols :- InsertableColumns(defs, primaryKey);
    Ok(InsertSql(table, cols, Binds(cols)))
  }

  /**
   * The INSERT omits the given primary key and every int or blob column without
   * a non-None default, and keeps every other column, in definition order.
   */
  lemma InsertableColumnsSpec(defs: Defs, primaryKey: Option<string>)
    requires UniqueKeys(defs) && InsertableColumns(defs, primaryKey).Ok?
    ensures var cols := InsertableColumns(defs, primaryKey).value;
      && Subsequence(cols, Keys(defs))
      && (primaryKey.Some? ==> primaryKey.value !in cols)
      && forall i :: 0 <= i < |defs| && primaryKey != Some(defs[i].key) ==>
           (defs[i].key in cols <==> HasDefault(defs[i].val) || !In(defs[i].val["type"], [VStr("int"), VStr("blob")]))
  {
    var keep := (k, d) => KeepInsertable(primaryKey, k, d);
    var cols := InsertableColumns(defs, primaryKey).value;
    KeysWhereSpec(defs, keep);
    forall i | 0 <= i < |defs| && primaryKey != Some(defs[i].key)
      ensures defs[i].key in cols <==> keep(defs[i].key, defs[i].val)
    {
      if defs[i].key in cols {
        var j :| 0 <= j < |defs| && defs[j].key == defs[i].key && keep(defs[i].key, defs[j].val);
        assert i == j;
      }
    }
  }

  // ------------------------------------------------------------------ generate_fetch_query

  /** The fetch filter: admin columns go only when they are to be excluded. */
  predicate KeepFetched(excludeAdmin: bool, name: string, d: ColumnDef)
  {
    !(excludeAdmin && IsAdmin(d))
  }

  /** `" AND ".join(f"{col} = :{col}" for col in where_conditions.keys())`. */
  function WhereClause(conditions: seq<Entry<Value>>): string
  {
    Join(NamedAssigns(Keys(conditions)), " AND ")
  }

  /**
   * `generate_fetch_query(mode, ...)`.  The conditions dict is given by its
   * entries, and a missing dict or ORDER BY (None) by the empty dict or string,
   * which the source tests the same way.
   */
  /** What follows the SELECT: nothing for "Basic", else `col = :col` per condition joined by AND, then the ORDER BY for "WhereAndSort". */
  function FetchTail(mode: string, conditions: seq<Entry<Value>>, orderBy: string): string
  {
    if mode == "Basic" then ""
    else " WHERE " + WhereClause(conditions) + (if mode == "WhereAndSort" then " ORDER BY " + orderBy else "")
  }

  function GenerateFetchQuery(mode: string, table: string, defs: Defs, conditions: seq<Entry<Value>>, orderBy: string, excludeAdmin: bool): (r: Result<string>)
    ensures mode != "Basic" && mode != "Where" && mode != "WhereAndSort" ==> r == Err(ValueError(InvalidMode(mode)))
    ensures mode == "Basic" ==> r.Ok?
    ensures mode == "Where" ==> (r.Err? <==> |conditions| == 0) && (r.Err? ==> r.error == ValueError(WhereRequired))
    ensures mode == "WhereAndSort" ==> (r.Err? <==> |conditions| == 0 || orderBy == "") && (r.Err? ==> r.error == ValueError(WhereAndOrderRequired))
    ensures r.Ok? ==> StartsWith(r.value, SelectSql(KeysWhere(defs, (k, d) => KeepFetched(excludeAdmin, k, d)), table))
    ensures r.Ok? ==>
      r.value == SelectSql(KeysWhere(defs, (k, d) => KeepFetched(excludeAdmin, k, d)), table) + FetchTail(mode, conditions, orderBy)
  {
    var base := SelectSql(KeysWhere(defs, (k, d) => KeepFetched(excludeAdmin, k, d)), table);
    match mode
    case "Basic" => Ok(base)
    case "Where" =>
      if |conditions| == 0 then Err(ValueError(WhereRequired))
      else Ok(base + " WHERE " + WhereClause(conditions))
    case "WhereAndSort" =>
      if |conditions| == 0 || orderBy == "" then Err(ValueError(WhereAndOrderRequired))
      else Ok(base + " WHERE " + WhereClause(conditions) + " ORDER BY " + orderBy)
    case _ => Err(ValueError(InvalidMode(mode)))
  }

  /**
   * The SELECT list drops admin columns only when asked to, keeps every other
   * column in definition order, and without exclusion is every column.
   */
  lemma FetchColumnsSpec(defs: Defs, excludeAdmin: bool)
    ensures var cols := KeysWhere(defs, (k, d) => KeepFetched(excludeAdmin, k, d));
      && Subsequence(cols, Keys(defs))
      && (forall c :: c in cols <==> exists i :: 0 <= i < |defs| && defs[i].key == c && !(excludeAdmin && IsAdmin(defs[i].val)))
      && (!excludeAdmin ==> cols == Keys(defs))
  {
    var keep := (k, d) => KeepFetched(excludeAdmin, k, d);
    KeysWhereSpec(defs, keep);
    if !excludeAdmin {
      FilterAll(defs, keep);
      KeysWhereFilter(defs, keep);
    }
  }

  // ------------------------------------------------------------------ update, delete, sort

  /** `generate_update_query`: every column but the key set from `?`, then `WHERE key = ?`. */
  function GenerateUpdateQuery(table: string, defs: Defs, primaryKey: string): string
  {
    UpdateSql(table, PositionalAssigns(KeysWhere(defs, (k, d) => k != primaryKey)), primaryKey + " = ?")
  }

  /**
   * The UPDATE sets every column except the key, in order, one positional
   * parameter each, and the key's parameter comes last.
   */
  lemma UpdateColumnsSpec(defs: Defs, primaryKey: string)
    ensures var cols := KeysWhere(defs, (k, d) => k != primaryKey);
      && Subsequence(cols, Keys(defs))
      && primaryKey !in cols
      && forall i :: 0 <= i < |defs| && defs[i].key != primaryKey ==> defs[i].key in cols
  {
    KeysWhereSpec(defs, (k, d) => k != primaryKey);
  }

  /** `generate_delete_query`. */
  function GenerateDeleteQuery(table: string, primaryKey: string): string
  {
    DeleteSql(table, primaryKey + " = ?")
  }

  /**
   * When no name holds a `?`, the UPDATE has one placeholder per updated column
   * plus one for the key, and the DELETE only the key's: the caller passes that
   * many positional values.
   */
  lemma PositionalPlaceholders(table: string, defs: Defs, primaryKey: string)
    requires NoQMark(table) && NoQMark(primaryKey)
    requires forall i :: 0 <= i < |defs| ==> NoQMark(defs[i].key)
    ensures QMarks(GenerateUpdateQuery(table, defs, primaryKey)) == |KeysWhere(defs, (k, d) => k != primaryKey)| + 1
    ensures QMarks(GenerateDeleteQuery(table, primaryKey)) == 1
  {
    var cols := KeysWhere(defs, (k, d) => k != primaryKey);
    KeysWhereSpec(defs, (k, d) => k != primaryKey);
    var assigns := PositionalAssigns(cols);
    forall i | 0 <= i < |assigns| ensures QMarks(assigns[i]) == 1 {
      assert cols[i] in cols;
      var j :| 0 <= j < |defs| && defs[j].key == cols[i] && cols[i] != primaryKey;
      QMarksAfterPlain(cols[i], " = ?");
      assert QMarks(" = ?") == 1;
    }
    QMarksCommaList(assigns, 1);
    var list := CommaList(assigns);
    var head := "UPDATE " + table + " SET ";
    QMarksAfterPlain(head, list);
    QMarksBeforePlain(head + list, " WHERE ");
    QMarksAfterPlain(primaryKey, " = ?");
    QMarksAppend(head + list + " WHERE ", primaryKey + " = ?");
    QMarksAfterPlain("DELETE FROM " + table + " WHERE ", primaryKey + " = ?");
  }

  /**
   * `generate_sort_query`: ValueError exactly when the column is not defined,
   * otherwise the base query followed by the ORDER BY clause.
   */
  function GenerateSortQuery(base: string, column: string, direction: string, defs: Defs): (r: Result<string>)
    ensures r.Err? <==> !HasKey(defs, column)
    ensures r.Err? ==> r.error == ValueError(InvalidSortColumn(column))
    ensures r.Ok? ==> r.value == OrderBySql(base, column, direction) && StartsWith(r.value, base)
  {
    if !HasKey(defs, column) then Err(ValueError(InvalidSortColumn(column)))
    else Ok(OrderBySql(base, column, direction))
  }
}
