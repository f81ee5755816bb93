/**
 * src/database/database_query_generator.py: the same statement generator as
 * src/database/query_generator.py, built on different columns: the processed
 * columns are the editable ones (neither admin nor primary key) and the
 * primary key comes from `DatabaseManager.get_primary_key`.
 *
 * The source asks src/forms/column_processor.py for `get_editable_columns`,
 * which that class does not define; the model uses the one in
 * src/database/helpers.py, which also installs its "TestContext" entry first.
 */
module DatabaseQueryGenerator {
  import opened Wrappers
  import opened OrderedDict
  import opened ColumnDefs
  import opened QueryGenerator
  import Helpers
  import DatabaseManager

  /**
   * `QueryGenerator(context_name, database_manager)`: AttributeError for columns
   * in list form, ValueError when the context has no primary key (an unknown
   * context included); otherwise the editable columns and the first primary
   * key.
   */
  function New(reg: Registry, ctx: string): (r: Result<Generator>)
    ensures var cols := ColumnsOf(Helpers.WithTestContext(reg), ctx);
      && (cols.ListCols? ==> r == Err(AttributeError))
      && (cols.DictCols? ==> (r.Ok? <==> FirstPrimaryKey(cols.defs).Some? && FirstPrimaryKey(cols.defs).value != ""))
      && (cols.DictCols? && r.Err? ==> r.error == ValueError(NoPrimaryKey(ctx)))
      && (r.Ok? ==> && r.value.context == ctx
                    && r.value.processed == Editable(cols.defs)
                    && Some(r.value.primaryKey) == FirstPrimaryKey(cols.defs))
  {
    var reg' := Helpers.WithTestContext(reg);
    var processed :- Helpers.EditableIn(reg', ctx);
    var pk :- DatabaseManager.GetPrimaryKey(reg', ctx);
    Ok(Generator(ctx, processed, pk))
  }

  /** In a dict with unique names, the primary-key column is not editable and so not processed. */
  lemma KeyNotProcessed(defs: Defs, pk: string)
    requires UniqueKeys(defs) && FirstPrimaryKey(defs) == Some(pk)
    ensures forall i :: 0 <= i < |defs| && defs[i].key == pk ==> !KeepEditable(pk, defs[i].val)
    ensures !HasKey(Editable(defs), pk)
  {
    var j :| 0 <= j < |defs| && defs[j].key == pk && IsPrimaryKey(defs[j].val);
    forall i | 0 <= i < |defs| && defs[i].key == pk ensures !KeepEditable(pk, defs[i].val) {
      assert i == j;
    }
    var e := Editable(defs);
    forall k | 0 <= k < |e| ensures e[k].key != pk {
      FilterMember(defs, KeepEditable, e[k]);
    }
  }

  /** The fetch selects exactly the editable columns, so it never selects the primary key. */
  lemma FetchOmitsKey(ctx: string, defs: Defs, pk: string)
    requires UniqueKeys(defs) && FirstPrimaryKey(defs) == Some(pk)
    ensures var cols := FetchColumns(Generator(ctx, Editable(defs), pk));
      && pk !in cols
      && forall c :: c in cols <==> exists i :: 0 <= i < |defs| && defs[i].key == c && KeepEditable(c, defs[i].val)
  {
    KeysWhereFilterSpec(defs, KeepEditable, KeepVisible);
    KeyNotProcessed(defs, pk);
  }

  /** The insert lists exactly the editable columns, each bound to its own named parameter. */
  lemma InsertIsEditable(ctx: string, defs: Defs, pk: string)
    requires UniqueKeys(defs) && FirstPrimaryKey(defs) == Some(pk)
    ensures var cols := InsertColumns(Generator(ctx, Editable(defs), pk));
      forall c :: c in cols <==> exists i :: 0 <= i < |defs| && defs[i].key == c && KeepEditable(c, defs[i].val)
  {
    KeysWhereFilterSpec(defs, KeepEditable, (k, d) => KeepInsert(pk, k, d));
    KeyNotProcessed(defs, pk);
  }

  /** The update sets the editable columns that are not foreign keys. */
  lemma UpdateIsEditableNonForeign(ctx: string, defs: Defs, pk: string)
    requires UniqueKeys(defs) && FirstPrimaryKey(defs) == Some(pk)
    ensures var cols := UpdateColumns(Generator(ctx, Editable(defs), pk));
      forall c :: c in cols <==> exists i :: 0 <= i < |defs| && defs[i].key == c && KeepEditable(c, defs[i].val) && !IsForeignKey(defs[i].val)
  {
    KeysWhereFilterSpec(defs, KeepEditable, (k, d) => KeepUpdate(pk, k, d));
    KeyNotProcessed(defs, pk);
  }

  /** Sorting on the primary key is refused, since it is not among the processed columns. */
  lemma SortOnKeyRefused(ctx: string, defs: Defs, pk: string, base: string, direction: string)
    requires UniqueKeys(defs) && FirstPrimaryKey(defs) == Some(pk)
    ensures Sort(Generator(ctx, Editable(defs), pk), base, pk, direction) == Err(Wrappers.ValueError(Wrappers.InvalidSortColumn(pk)))
  {
    KeyNotProcessed(defs, pk);
  }
}
