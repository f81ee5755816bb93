/**
 * src/database/query_generator.py: a generator fixed at construction to a
 * context, its processed columns and its primary key, with one statement per
 * CRUD operation.  The fields are never updated, so a generator is a value.
 *
 * The source builds its processed columns with `helpers.ColumnProcessor`,
 * passing arguments that class does not take; the model uses the processing
 * of src/forms/column_processor.py with hidden columns excluded, the processor
 * those arguments fit.
 */
module QueryGenerator {
  import opened Wrappers
  import opened Text
  import opened OrderedDict
  import opened ColumnDefs
  import opened Sql
  import FormsColumnProcessor
  import ConfigData

  datatype Generator = Generator(context: string, processed: Defs, primaryKey: string)

  /**
   * `QueryGenerator(context_name)`: ValueError for an unknown context, TypeError
   * for columns in list form, ValueError when no processed column is a primary
   * key (or its name is empty); otherwise the processed columns and the first
   * primary key among them.
   */
  function New(reg: Registry, ctx: string): (r: Result<Generator>)
    ensures ctx !in reg ==> r == Err(ValueError(UnknownContext(ctx)))
    ensures ctx in reg && reg[ctx].ListCols? ==> r == Err(TypeError)
    ensures ctx in reg && reg[ctx].DictCols? ==>
      (r.Ok? <==> FirstPrimaryKey(reg[ctx].defs).Some? && FirstPrimaryKey(reg[ctx].defs).value != "")
    ensures r.Err? && ctx in reg && reg[ctx].DictCols? ==> r.error == ValueError(NoPrimaryKey(ctx))
    ensures r.Ok? ==> && r.value.context == ctx
                      && r.value.processed == Processed(reg[ctx].defs, true)
                      && Some(r.value.primaryKey) == FirstPrimaryKey(reg[ctx].defs)
  {
    var p :- FormsColumnProcessor.New(reg, ctx, true);
    var processed :- FormsColumnProcessor.ProcessedDefinitions(p);
    ProcessedFirstPrimaryKey(reg[ctx].defs, true);
    match FirstPrimaryKey(processed)
    case None => Err(ValueError(NoPrimaryKey(ctx)))
    case Some(pk) => if pk == "" then Err(ValueError(NoPrimaryKey(ctx))) else Ok(Generator(ctx, processed, pk))
  }

  // ------------------------------------------------------------------ statements

  predicate KeepInsert(primaryKey: string, name: string, d: ColumnDef)
  {
    !IsAdmin(d) && name != primaryKey
  }

  predicate KeepUpdate(primaryKey: string, name: string, d: ColumnDef)
  {
    name != primaryKey && !IsForeignKey(d)
  }

  /** The SELECT list of `generate_fetch_query`: the non-admin processed columns. */
  function FetchColumns(g: Generator): seq<string>
  {
    KeysWhere(g.processed, KeepVisible)
  }

  /** The column list of `generate_insert_query`: non-admin processed columns other than the key. */
  function InsertColumns(g: Generator): seq<string>
  {
    KeysWhere(g.processed, (k, d) => KeepInsert(g.primaryKey, k, d))
  }

  /** The SET list of `generate_update_query`: processed columns other than the key and foreign keys. */
  function UpdateColumns(g: Generator): seq<string>
  {
    KeysWhere(g.processed, (k, d) => KeepUpdate(g.primaryKey, k, d))
  }

  /** The key condition UPDATE and DELETE are pinned to: `pk = :pk`. */
  function KeyCondition(g: Generator): string
  {
    g.primaryKey + " = :" + g.primaryKey
  }

  function Fetch(g: Generator): string
  {
    SelectSql(FetchColumns(g), g.context)
  }

  function Insert(g: Generator): string
  {
    InsertSql(g.context, InsertColumns(g), Binds(InsertColumns(g)))
  }

  function Update(g: Generator): string
  {
    UpdateSql(g.context, NamedAssigns(UpdateColumns(g)), KeyCondition(g))
  }

  function Delete(g: Generator): string
  {
    DeleteSql(g.context, KeyCondition(g))
  }

  /**
   * `generate_sort_query`: ValueError exactly when the column is not a
   * processed column, otherwise the base query with the ORDER BY appended.
   */
  function Sort(g: Generator, base: string, column: string, direction: string): (r: Result<string>)
    ensures r.Err? <==> !HasKey(g.processed, column)
    ensures r.Err? ==> r.error == ValueError(InvalidSortColumn(column))
    ensures r.Ok? ==> r.value == OrderBySql(base, column, direction)
  {
    if !HasKey(g.processed, column) then Err(ValueError(InvalidSortColumn(column)))
    else Ok(OrderBySql(base, column, direction))
  }

  /** `get_all_queries()`: the four statements under their four keys. */
  function AllQueries(g: Generator): QuerySet
  {
    QuerySet(Fetch(g), Insert(g), Update(g), Delete(g))
  }

  // ------------------------------------------------------------------ what the columns are

  /**
   * Built from a context's columns, the fetch lists every non-admin column
   * (the primary key among them unless it is admin), in definition order.
   */
  lemma FetchColumnsSpec(ctx: string, defs: Defs, pk: string)
    ensures var cols := FetchColumns(Generator(ctx, Processed(defs, true), pk));
      && Subsequence(cols, Keys(Processed(defs, true)))
      && forall c :: c in cols <==> exists i :: 0 <= i < |defs| && defs[i].key == c && !IsAdmin(defs[i].val)
  {
    KeysWhereFilterSpec(defs, ProcessedTest(true), KeepVisible);
  }

  /** The insert lists every non-admin column except the primary key, in definition order. */
  lemma InsertColumnsSpec(ctx: string, defs: Defs, pk: string)
    ensures var cols := InsertColumns(Generator(ctx, Processed(defs, true), pk));
      && Subsequence(cols, Keys(Processed(defs, true)))
      && pk !in cols
      && forall c :: c in cols <==> exists i :: 0 <= i < |defs| && defs[i].key == c && !IsAdmin(defs[i].val) && c != pk
  {
    KeysWhereFilterSpec(defs, ProcessedTest(true), (k, d) => KeepInsert(pk, k, d));
  }

  /**
   * The update sets every processed column (primary key, or not admin) except
   * the primary key and the foreign-key columns, in definition order.
   */
  lemma UpdateColumnsSpec(ctx: string, defs: Defs, pk: string)
    ensures var cols := UpdateColumns(Generator(ctx, Processed(defs, true), pk));
      && Subsequence(cols, Keys(Processed(defs, true)))
      && pk !in cols
      && forall c :: c in cols <==>
           exists i :: 0 <= i < |defs| && defs[i].key == c && (IsPrimaryKey(defs[i].val) || !IsAdmin(defs[i].val)) && c != pk && !IsForeignKey(defs[i].val)
  {
    KeysWhereFilterSpec(defs, ProcessedTest(true), (k, d) => KeepUpdate(pk, k, d));
  }

  /** On the shipped configuration every context yields a generator keyed on its first column. */
  lemma ConfiguredGenerator(ctx: string)
    requires ctx in ConfigData.COLUMN_DEFINITIONS
    ensures New(ConfigData.COLUMN_DEFINITIONS, ctx).Ok?
    ensures New(ConfigData.COLUMN_DEFINITIONS, ctx).value.primaryKey == ConfigData.COLUMN_DEFINITIONS[ctx].defs[0].key
  {
    ConfigData.PrimaryKeyFirstAndOnly(ctx);
  }

  /**
   * The statements' shapes: each starts with its verb and table (as the tests
   * check for Assemblies), and DELETE pins only the primary key.
   */
  lemma StatementShapes(g: Generator)
    ensures StartsWith(Fetch(g), "SELECT ")
    ensures StartsWith(Insert(g), "INSERT INTO " + g.context + " (")
    ensures StartsWith(Update(g), "UPDATE " + g.context + " SET ")
    ensures Delete(g) == "DELETE FROM " + g.context + " WHERE " + g.primaryKey + " = :" + g.primaryKey
  {
    var i := "INSERT INTO " + g.context + " (";
    assert Insert(g) == i + (CommaList(InsertColumns(g)) + ") VALUES (" + CommaList(Binds(InsertColumns(g))) + ")");
    var u := "UPDATE " + g.context + " SET ";
    assert Update(g) == u + (CommaList(NamedAssigns(UpdateColumns(g))) + " WHERE " + KeyCondition(g));
    assert Fetch(g) == "SELECT " + (CommaList(FetchColumns(g)) + " FROM " + g.context);
  }
}
