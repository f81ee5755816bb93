/**
 * src/database/database_services.py: `DatabaseService`, which builds a
 * src/database/query_generator.py generator for the context on every call and
 * hands one statement with its parameters to the executor.  The executor is
 * not modelled; each operation yields the statement it would run.
 */
module DatabaseServices {
  import opened Wrappers
  import opened Text
  import opened PyValues
  import opened OrderedDict
  import opened ColumnDefs
  import opened Sql
  import QueryGenerator
  import DatabaseManager
  import ConfigData

  /**
   * `get_primary_key(context)`: the first column flagged `is_primary_key`, or
   * None (with a warning) when there is none; AttributeError for columns in
   * list form.
   */
  function GetPrimaryKey(reg: Registry, ctx: string): (r: Result<Option<string>>)
    ensures r.Err? <==> ColumnsOf(reg, ctx).ListCols?
    ensures r.Err? ==> r.error == AttributeError
    ensures r.Ok? ==> r.value == FirstPrimaryKey(ColumnsOf(reg, ctx).defs)
  {
    match ColumnsOf(reg, ctx)
    case ListCols(_) => Err(AttributeError)
    case DictCols(defs) => Ok(FirstPrimaryKey(defs))
  }

  /**
   * This lookup and the one in src/database/database_manager.py find the same
   * key; where that one raises ValueError this one answers None, or the empty
   * name.
   */
  lemma PrimaryKeyLookupsAgree(reg: Registry, ctx: string)
    ensures DatabaseManager.GetPrimaryKey(reg, ctx).Ok? ==> GetPrimaryKey(reg, ctx) == Ok(Some(DatabaseManager.GetPrimaryKey(reg, ctx).value))
    ensures DatabaseManager.GetPrimaryKey(reg, ctx).Err? ==>
      GetPrimaryKey(reg, ctx).Err? || GetPrimaryKey(reg, ctx) == Ok(None) || GetPrimaryKey(reg, ctx) == Ok(Some(""))
  {
  }

  /**
   * `add_item(context, data)`: the generator's insert, with the data minus the
   * primary-key entry, every other entry kept in order; the generator's errors
   * otherwise.  Once the generator is built, the service's own key lookup
   * answers the generator's key, so the strip uses that.
   */
  function AddItem(reg: Registry, ctx: string, data: seq<Entry<Value>>): (r: Result<Statement>)
    ensures r.Err? <==> QueryGenerator.New(reg, ctx).Err?
    ensures r.Err? ==> r.error == QueryGenerator.New(reg, ctx).error
    ensures r.Ok? ==> var g := QueryGenerator.New(reg, ctx).value;
      && r.value.sql == QueryGenerator.Insert(g)
      && !HasKey(r.value.params, g.primaryKey)
      && Selects(r.value.params, data, (k, v) => k != g.primaryKey)
  {
    var g :- QueryGenerator.New(reg, ctx);
    WithoutSpec(data, g.primaryKey);
    Ok(Statement(QueryGenerator.Insert(g), Without(data, g.primaryKey)))
  }

  /** `update_item(context, item_id, updated_data)`: the statement, and the caller's dict after the call. */
  method UpdateItem(reg: Registry, ctx: string, itemId: Value, data: Dict<Value>) returns (r: Result<Statement>)
    modifies data
    ensures QueryGenerator.New(reg, ctx).Err? ==>
      r == Err(QueryGenerator.New(reg, ctx).error) && data.items == old(data.items)
    ensures QueryGenerator.New(reg, ctx).Ok? ==>
      && data.items == Set(old(data.items), "id", itemId)
      && r == Ok(Statement(QueryGenerator.Update(QueryGenerator.New(reg, ctx).value), data.items))
  {
    var g := QueryGenerator.New(reg, ctx);
    if g.Err? {
      return Err(g.error);
    }
    data.SetItem("id", itemId);
    r := Ok(Statement(QueryGenerator.Update(g.value), data.items));
  }

  /**
   * After `update_item` the caller's dict maps "id" to the item id and keeps
   * every other entry.
   */
  lemma UpdateItemWritesId(data: seq<Entry<Value>>, itemId: Value)
    ensures Get(Set(data, "id", itemId), "id") == Some(itemId)
    ensures forall k :: k != "id" ==> Get(Set(data, "id", itemId), k) == Get(data, k)
  {
    SetGetSame(data, "id", itemId);
    forall k | k != "id" ensures Get(Set(data, "id", itemId), k) == Get(data, k) {
      SetGetOther(data, "id", itemId, k);
    }
  }

  // ------------------------------------------------------------------ clone

  /**
   * The column list `clone_item` reads back out of a fetch statement:
   * `fetch.split('SELECT ')[1].split(' FROM ')[0].split(', ')[1:]`, with
   * None where `[1]` raises IndexError: the text has no "SELECT ".
   */
  function CloneColumns(fetch: string): (r: Option<seq<string>>)
  {
    var parts := Split(fetch, "SELECT ");
    if |parts| < 2 then None
    else Some(Split(Split(parts[1], " FROM ")[0], ", ")[1..])
  }

  /** `INSERT INTO ctx (cols) SELECT cols FROM ctx WHERE id = :id`, laid out as the source's triple-quoted text. */
  function CloneSql(ctx: string, cols: seq<string>): string
  {
    "\n        INSERT INTO " + ctx + " (" + CommaList(cols) + ")\n        SELECT " + CommaList(cols) + " FROM " + ctx + "\n        WHERE id = :id\n        "
  }

  /**
   * `clone_item(context, item_id)`: the clone statement over the columns cut
   * out of the generator's fetch, bound to `{"id": item_id}`; IndexError when
   * the fetch text has no "SELECT ", which a generator's fetch always has.
   */
  function CloneItem(reg: Registry, ctx: string, itemId: Value): (r: Result<Statement>)
    ensures r.Err? <==> QueryGenerator.New(reg, ctx).Err?
    ensures r.Err? ==> r == Err(QueryGenerator.New(reg, ctx).error)
    ensures r.Ok? ==>
      var cols := CloneColumns(QueryGenerator.Fetch(QueryGenerator.New(reg, ctx).value));
      cols.Some? && r.value == Statement(CloneSql(ctx, cols.value), [Entry("id", itemId)])
  {
    var g :- QueryGenerator.New(reg, ctx);
    SelectParses(QueryGenerator.FetchColumns(g), ctx);
    match CloneColumns(QueryGenerator.Fetch(g))
    case None => Err(IndexError)
    case Some(cols) => Ok(Statement(CloneSql(ctx, cols), [Entry("id", itemId)]))
  }

  /** Every SELECT statement has the "SELECT " the clone splits at, so the column list is always found. */
  lemma SelectParses(cols: seq<string>, table: string)
    ensures CloneColumns(SelectSql(cols, table)).Some?
  {
    var rest := CommaList(cols) + " FROM " + table;
    assert SelectSql(cols, table) == "" + "SELECT " + rest;
    forall j: nat ensures !OccursAt("" + "SELECT ", "SELECT ", j) || j == 0 {
    }
    SplitFirst("", "SELECT ", rest);
  }

  /**
   * When no column name or table name spells out the keywords the parse
   * splits at, the clone copies the fetch's columns after the first one.
   */
  lemma CloneColumnsOfFetch(cols: seq<string>, table: string)
    requires |cols| > 0 && forall k :: 0 <= k < |cols| ==> NoComma(cols[k])
    requires !Contains(CommaList(cols) + " FROM " + table, "SELECT ")
    requires IndexOf(CommaList(cols) + " FROM " + table, " FROM ") == Some(|CommaList(cols)|)
    ensures CloneColumns(SelectSql(cols, table)) == Some(cols[1..])
  {
    var list := CommaList(cols);
    var rest := list + " FROM " + table;
    assert SelectSql(cols, table) == "" + "SELECT " + rest;
    forall j: nat ensures !OccursAt("" + "SELECT ", "SELECT ", j) || j == 0 {
    }
    SplitFirst("", "SELECT ", rest);
    SplitAbsent(rest, "SELECT ");
    assert Split(SelectSql(cols, table), "SELECT ") == ["", rest];
    forall j: nat ensures !OccursAt(list + " FROM ", " FROM ", j) || j == |list| {
      if OccursAt(list + " FROM ", " FROM ", j) && j != |list| {
        assert (list + " FROM ")[j..j + 6] == rest[j..j + 6];
        assert OccursAt(rest, " FROM ", j);
      }
    }
    assert rest == list + " FROM " + table;
    SplitFirst(list, " FROM ", table);
    ColumnListRoundTrip(cols);
  }

  /** When the primary key heads the processed columns and is not admin, the fetch lists it first, so the clone skips it. */
  lemma FetchStartsWithKey(g: QueryGenerator.Generator)
    requires |g.processed| > 0 && g.processed[0].key == g.primaryKey && !IsAdmin(g.processed[0].val)
    ensures |QueryGenerator.FetchColumns(g)| > 0 && QueryGenerator.FetchColumns(g)[0] == g.primaryKey
  {
    KeysWhereFilter(g.processed, KeepVisible);
    assert Filter(g.processed, KeepVisible) == [g.processed[0]] + Filter(g.processed[1..], KeepVisible);
  }

  /** On the shipped configuration the processed columns of every context start with its primary key. */
  lemma ConfiguredFetchStartsWithKey(ctx: string)
    requires ctx in ConfigData.COLUMN_DEFINITIONS
    ensures QueryGenerator.New(ConfigData.COLUMN_DEFINITIONS, ctx).Ok?
    ensures var g := QueryGenerator.New(ConfigData.COLUMN_DEFINITIONS, ctx).value;
      |QueryGenerator.FetchColumns(g)| > 0 && QueryGenerator.FetchColumns(g)[0] == g.primaryKey
  {
    ConfigData.PrimaryKeyFirstAndOnly(ctx);
    var defs := ConfigData.COLUMN_DEFINITIONS[ctx].defs;
    QueryGenerator.ConfiguredGenerator(ctx);
    var g := QueryGenerator.New(ConfigData.COLUMN_DEFINITIONS, ctx).value;
    assert Filter(defs, ProcessedTest(true)) == [defs[0]] + Filter(defs[1..], ProcessedTest(true));
    FetchStartsWithKey(g);
  }

  // ------------------------------------------------------------------ delete and fetch

  /** The generator's delete ends in the bind parameter named after the key. */
  lemma DeleteEndsWithKeyBind(g: QueryGenerator.Generator)
    ensures EndsWith(QueryGenerator.Delete(g), ":" + g.primaryKey)
  {
    QueryGenerator.StatementShapes(g);
    var head := "DELETE FROM " + g.context + " WHERE " + g.primaryKey + " = ";
    assert " = :" == " = " + ":";
    assert QueryGenerator.Delete(g) == head + (":" + g.primaryKey);
  }

  /** `delete_item(context, item_id)`: the generator's delete, bound to `{"id": item_id}`. */
  function DeleteItem(reg: Registry, ctx: string, itemId: Value): (r: Result<Statement>)
    ensures r.Err? <==> QueryGenerator.New(reg, ctx).Err?
    ensures r.Ok? ==> r.value.sql == QueryGenerator.Delete(QueryGenerator.New(reg, ctx).value)
    ensures r.Ok? ==> Keys(r.value.params) == ["id"] && Get(r.value.params, "id") == Some(itemId)
  {
    var g :- QueryGenerator.New(reg, ctx);
    Ok(Statement(QueryGenerator.Delete(g), [Entry("id", itemId)]))
  }

  /**
   * The delete statement names its parameter after the primary key, but the
   * parameters carry only "id": for any context whose key is not literally
   * "id", the statement's one parameter has no value.
   */
  lemma DeleteBindingMissing(reg: Registry, ctx: string, itemId: Value)
    requires DeleteItem(reg, ctx, itemId).Ok?
    requires QueryGenerator.New(reg, ctx).value.primaryKey != "id"
    ensures var s := DeleteItem(reg, ctx, itemId).value;
      var pk := QueryGenerator.New(reg, ctx).value.primaryKey;
      EndsWith(s.sql, ":" + pk) && !HasKey(s.params, pk)
  {
    DeleteEndsWithKeyBind(QueryGenerator.New(reg, ctx).value);
  }

  lemma AssembliesFirstColumn()
    ensures "Assemblies" in ConfigData.COLUMN_DEFINITIONS
    ensures ConfigData.COLUMN_DEFINITIONS["Assemblies"].defs[0].key == "AssemblyID"
  {
    assert ConfigData.COLUMN_DEFINITIONS["Assemblies"] == DictCols(ConfigData.ASSEMBLIES);
  }

  /** Assemblies, keyed on AssemblyID, is such a context. */
  lemma AssembliesDeleteBindingMissing(itemId: Value)
    ensures DeleteItem(ConfigData.COLUMN_DEFINITIONS, "Assemblies", itemId).Ok?
    ensures QueryGenerator.New(ConfigData.COLUMN_DEFINITIONS, "Assemblies").value.primaryKey == "AssemblyID"
    ensures !HasKey(DeleteItem(ConfigData.COLUMN_DEFINITIONS, "Assemblies", itemId).value.params, "AssemblyID")
  {
    QueryGenerator.ConfiguredGenerator("Assemblies");
    AssembliesFirstColumn();
    DeleteBindingMissing(ConfigData.COLUMN_DEFINITIONS, "Assemblies", itemId);
  }

  /** The delete as evidently intended: the item id bound under the primary key's name. */
  function DeleteItemByKey(reg: Registry, ctx: string, itemId: Value): (r: Result<Statement>)
    ensures r.Err? <==> QueryGenerator.New(reg, ctx).Err?
    ensures r.Ok? ==> var pk := QueryGenerator.New(reg, ctx).value.primaryKey;
      && EndsWith(r.value.sql, ":" + pk)
      && Keys(r.value.params) == [pk] && Get(r.value.params, pk) == Some(itemId)
  {
    var g :- QueryGenerator.New(reg, ctx);
    DeleteEndsWithKeyBind(g);
    Ok(Statement(QueryGenerator.Delete(g), [Entry(g.primaryKey, itemId)]))
  }

  /** `fetch_all(context)`: the generator's fetch with no parameters. */
  function FetchAll(reg: Registry, ctx: string): (r: Result<Statement>)
    ensures r.Err? <==> QueryGenerator.New(reg, ctx).Err?
    ensures r.Ok? ==> r.value.params == [] && StartsWith(r.value.sql, "SELECT ")
    ensures r.Ok? ==> r.value.sql == QueryGenerator.Fetch(QueryGenerator.New(reg, ctx).value)
  {
    var g :- QueryGenerator.New(reg, ctx);
    QueryGenerator.StatementShapes(g);
    Ok(Statement(QueryGenerator.Fetch(g), []))
  }
}
