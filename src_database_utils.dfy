/**
 * src/database/database_utils.py: which columns the add, edit and clone forms
 * show, and the parameters and statement text that `update_item_in_db`,
 * `insert_item_in_db` and `prepare_update_params` hand to the executor.  Its
 * `process_column_definitions` and `get_processed_column_definitions` are the
 * shared readers `ColumnReaders.VisibleColumnsOf` and `ColumnReaders.ProcessedOf`.
 */
module SrcDatabaseUtils {
  import opened Wrappers
  import opened Text
  import opened PyValues
  import opened OrderedDict
  import opened ColumnDefs
  import opened Sql

  // ------------------------------------------------------------------ form columns

  datatype FormKind = AddForm | EditForm | CloneForm

  /** The column test of each form: edit shows every non-admin column, add and clone only the editable ones. */
  function FormTest(kind: FormKind): (string, ColumnDef) -> bool
  {
    if kind == EditForm then KeepVisible else KeepEditable
  }

  /**
   * The columns a form is built from: `Ok(None)` when the context has no
   * columns (the source shows a configuration error and returns),
   * AttributeError for columns in list form, otherwise the sub-dict the form's
   * test selects.
   */
  function FormColumns(kind: FormKind, cols: Columns): (r: Result<Option<Defs>>)
    ensures Empty(cols) ==> r == Ok(None)
    ensures r.Err? <==> !Empty(cols) && cols.ListCols?
    ensures r.Err? ==> r.error == AttributeError
    ensures !Empty(cols) && cols.DictCols? ==> r.Ok? && r.value.Some? && Selects(r.value.value, cols.defs, FormTest(kind))
  {
    if Empty(cols) then Ok(None)
    else match cols
      case ListCols(_) => Err(AttributeError)
      case DictCols(defs) =>
        FilterSelects(defs, FormTest(kind));
        Ok(Some(Filter(defs, FormTest(kind))))
  }

  /**
   * A non-admin primary key appears on the edit form but on neither the add nor
   * the clone form: editing can change an item's key.
   */
  lemma EditFormKeepsPrimaryKey(defs: Defs, i: int)
    requires UniqueKeys(defs) && 0 <= i < |defs| && IsPrimaryKey(defs[i].val) && !IsAdmin(defs[i].val)
    ensures HasKey(FormColumns(EditForm, DictCols(defs)).value.value, defs[i].key)
    ensures !HasKey(FormColumns(AddForm, DictCols(defs)).value.value, defs[i].key)
    ensures !HasKey(FormColumns(CloneForm, DictCols(defs)).value.value, defs[i].key)
  {
    var edit := FormColumns(EditForm, DictCols(defs)).value.value;
    FilterMember(defs, FormTest(EditForm), defs[i]);
    var k :| 0 <= k < |edit| && edit[k] == defs[i];
    assert Keys(edit)[k] == defs[i].key;
    var add := FormColumns(AddForm, DictCols(defs)).value.value;
    forall k | 0 <= k < |add| ensures add[k].key != defs[i].key {
      FilterMember(defs, FormTest(AddForm), add[k]);
    }
  }

  // ------------------------------------------------------------------ parameters

  /** `{col: form_data.get(col, None) for col in cols}`: every listed column, missing values as None. */
  function ColumnParams(defs: Defs, form: seq<Entry<Value>>): (r: seq<Entry<Value>>)
    ensures Keys(r) == Keys(defs)
    ensures forall i :: 0 <= i < |r| ==> r[i].val == GetOr(form, r[i].key, VNone)
  {
    seq(|defs|, i requires 0 <= i < |defs| => Entry(defs[i].key, GetOr(form, defs[i].key, VNone)))
  }

  /** Looking a column up in its parameters gives its form value, or None when the form lacks it. */
  lemma ColumnParamsGet(defs: Defs, form: seq<Entry<Value>>, c: string)
    requires HasKey(defs, c)
    ensures Get(ColumnParams(defs, form), c) == Some(GetOr(form, c, VNone))
  {
    var r := ColumnParams(defs, form);
    assert HasKey(r, c);
    var v := Get(r, c).value;
    var k :| 0 <= k < |r| && r[k] == Entry(c, v);
  }

  predicate KeepNonKey(name: string, d: ColumnDef) { !IsPrimaryKey(d) }

  /** `insert_item_in_db`'s parameters: every column but the primary key, missing values as None. */
  function InsertParams(defs: Defs, form: seq<Entry<Value>>): (r: seq<Entry<Value>>)
    ensures Keys(r) == KeysWhere(defs, KeepNonKey)
    ensures forall i :: 0 <= i < |r| ==> r[i].val == GetOr(form, r[i].key, VNone)
  {
    KeysWhereFilter(defs, KeepNonKey);
    ColumnParams(Filter(defs, KeepNonKey), form)
  }

  // ------------------------------------------------------------------ the key condition

  /** The condition `update_item_in_db` pins its statement to. */
  function KeyClause(pk: string): string
  {
    " WHERE " + pk + " = :primary_key_value"
  }

  /** `s.split(sep)[0]`: everything before the first occurrence of `sep`, or all of `s`. */
  function BeforeFirst(s: string, sep: string): (r: string)
    requires |sep| > 0
    ensures IndexOf(s, sep).None? ==> r == s
    ensures IndexOf(s, sep).Some? ==> r == s[..IndexOf(s, sep).value]
  {
    Split(s, sep)[0]
  }

  /** Upper-casing keeps every upper-case "WHERE" where it was. */
  lemma UpperKeepsWhere(query: string)
    ensures Contains(query, "WHERE") ==> Contains(Upper(query), "WHERE")
  {
    if Contains(query, "WHERE") {
      var i := IndexOf(query, "WHERE").value;
      assert OccursAt(Upper(query), "WHERE", i) by {
        assert query[i..i + 5] == "WHERE";
        forall j | i <= j < i + 5 ensures Upper(query)[j] == query[j] {
          assert query[j] == "WHERE"[j - i];
        }
        assert Upper(query)[i..i + 5] == query[i..i + 5];
      }
    }
  }

  /**
   * The WHERE handling as written: append the key clause when the query has no
   * WHERE in any case; otherwise cut the query at its first upper-case "WHERE"
   * and append the key clause there.
   */
  function RewriteWhere(query: string, pk: string): (r: string)
    ensures EndsWith(r, KeyClause(pk))
    ensures !Contains(Upper(query), "WHERE") ==> r == query + KeyClause(pk)
    ensures Contains(query, "WHERE") ==> r == query[..IndexOf(query, "WHERE").value] + KeyClause(pk)
  {
    UpperKeepsWhere(query);
    var r := if !Contains(Upper(query), "WHERE") then query + KeyClause(pk)
             else BeforeFirst(query, "WHERE") + KeyClause(pk);
    assert r[|r| - |KeyClause(pk)|..] == KeyClause(pk);
    r
  }

  /** A string without the letter W contains no "WHERE". */
  lemma NoWhereWithoutW(s: string)
    requires forall j :: 0 <= j < |s| ==> s[j] != 'W'
    ensures IndexOf(s, "WHERE").None?
  {
    forall i: nat ensures !OccursAt(s, "WHERE", i) {
      if i + 5 <= |s| {
        assert s[i..i + 5][0] == s[i];
      }
    }
  }

  /** The sample update with a lower-case condition: it holds no upper-case "WHERE"... */
  lemma SampleHasNoUpperWhere()
    ensures IndexOf("UPDATE t SET a = 1 where b = 2", "WHERE").None?
  {
    NoWhereWithoutW("UPDATE t SET a = 1 where b = 2");
  }

  /** ... but upper-cased it does. */
  lemma SampleUpperHasWhere()
    ensures Contains(Upper("UPDATE t SET a = 1 where b = 2"), "WHERE")
  {
    var u := Upper("UPDATE t SET a = 1 where b = 2");
    assert u[19] == 'W' && u[20] == 'H' && u[21] == 'E' && u[22] == 'R' && u[23] == 'E';
    assert u[19..24] == "WHERE";
    assert OccursAt(u, "WHERE", 19);
  }

  /**
   * A query whose only WHERE is lower case passes the case-insensitive test but
   * is not cut, so the rewritten statement carries its old WHERE clause and a
   * second one after it.
   */
  lemma LowercaseWhereKept()
    ensures var q := "UPDATE t SET a = 1 where b = 2";
      && Contains(Upper(q), "WHERE")
      && RewriteWhere(q, "id") == q + KeyClause("id")
  {
    SampleHasNoUpperWhere();
    SampleUpperHasWhere();
  }

  /**
   * The WHERE handling as evidently intended: cut the query at its first WHERE
   * in any case, so the key clause replaces an existing condition whatever its
   * spelling.
   */
  function RewriteWhereIgnoringCase(query: string, pk: string): (r: string)
    ensures IndexOf(Upper(query), "WHERE").None? ==> r == query + KeyClause(pk)
  {
    match IndexOf(Upper(query), "WHERE")
    case None => query + KeyClause(pk)
    case Some(i) => query[..i] + KeyClause(pk)
  }

  /**
   * The intended rewrite leaves exactly one WHERE: what precedes the key clause
   * is a prefix of the query with no WHERE in any case.
   */
  lemma WhereIgnoringCaseSingle(query: string, pk: string)
    ensures var r := RewriteWhereIgnoringCase(query, pk);
      && EndsWith(r, KeyClause(pk))
      && StartsWith(query, r[..|r| - |KeyClause(pk)|])
      && !Contains(Upper(r[..|r| - |KeyClause(pk)|]), "WHERE")
  {
    var r := RewriteWhereIgnoringCase(query, pk);
    var u := Upper(query);
    var prefix := match IndexOf(u, "WHERE") case None => query case Some(i) => query[..i];
    assert r == prefix + KeyClause(pk);
    assert r[..|r| - |KeyClause(pk)|] == prefix;
    assert r[|r| - |KeyClause(pk)|..] == KeyClause(pk);
    var n := |prefix|;
    assert Upper(prefix) == u[..n];
    if Contains(Upper(prefix), "WHERE") {
      var j := IndexOf(Upper(prefix), "WHERE").value;
      assert u[j..j + 5] == Upper(prefix)[j..j + 5];
      assert OccursAt(u, "WHERE", j);
    }
  }

  /**
   * `update_item_in_db(context, columns, form_data, update_query)`: ValueError
   * when no column is a primary key (or its name is empty) and when the form
   * lacks the key; otherwise the query pinned to the key and the parameters.
   */
  function UpdateItemInDb(ctx: string, defs: Defs, form: seq<Entry<Value>>, query: string): (r: Result<Statement>)
    ensures r.Err? <==> FirstPrimaryKey(defs).None? || FirstPrimaryKey(defs).value == "" || !HasKey(form, FirstPrimaryKey(defs).value)
    ensures r.Err? && (FirstPrimaryKey(defs).None? || FirstPrimaryKey(defs).value == "") ==> r.error == ValueError(NoPrimaryKey(ctx))
    ensures r.Ok? ==> r.value.sql == RewriteWhere(query, FirstPrimaryKey(defs).value)
  {
    match FirstPrimaryKey(defs)
    case None => Err(ValueError(NoPrimaryKey(ctx)))
    case Some(pk) =>
      if pk == "" then Err(ValueError(NoPrimaryKey(ctx)))
      else if !HasKey(form, pk) then Err(ValueError(PrimaryKeyNotInForm(pk)))
      else Ok(Statement(RewriteWhere(query, pk), Set(ColumnParams(defs, form), "primary_key_value", Get(form, pk).value)))
  }

  /**
   * The update's parameters: every column (other than one literally named
   * "primary_key_value") mapped to its form value or None, then the key's form
   * value under "primary_key_value", appended after the columns.
   */
  lemma UpdateItemParams(ctx: string, defs: Defs, form: seq<Entry<Value>>, query: string)
    requires UpdateItemInDb(ctx, defs, form, query).Ok?
    ensures var params := UpdateItemInDb(ctx, defs, form, query).value.params;
      && Get(params, "primary_key_value") == Get(form, FirstPrimaryKey(defs).value)
      && (forall c :: c != "primary_key_value" && HasKey(defs, c) ==> Get(params, c) == Some(GetOr(form, c, VNone)))
      && (!HasKey(defs, "primary_key_value") ==> Keys(params) == Keys(defs) + ["primary_key_value"])
  {
    var pk := FirstPrimaryKey(defs).value;
    var base := ColumnParams(defs, form);
    var v := Get(form, pk).value;
    SetGetSame(base, "primary_key_value", v);
    SetKeys(base, "primary_key_value", v);
    forall c | c != "primary_key_value" && HasKey(defs, c)
      ensures Get(Set(base, "primary_key_value", v), c) == Some(GetOr(form, c, VNone))
    {
      SetGetOther(base, "primary_key_value", v, c);
      ColumnParamsGet(defs, form, c);
    }
  }

  // ------------------------------------------------------------------ prepare_update_params

  /** `form_data` holds the column, as a filter test. */
  function InForm(form: seq<Entry<Value>>): (string, ColumnDef) -> bool
  {
    (k, d) => HasKey(form, k)
  }

  /** The dict `prepare_update_params` builds after visiting `defs` in order. */
  function UpdateParams(defs: Defs, form: seq<Entry<Value>>): seq<Entry<Value>>
  {
    if |defs| == 0 then []
    else
      var p := UpdateParams(defs[..|defs| - 1], form);
      var c := defs[|defs| - 1].key;
      match Get(form, c)
      case Some(v) => Set(p, c, Unwrapped(v))
      case None => p
  }

  /** `prepare_update_params(columns, form_data)`. */
  method PrepareUpdateParams(defs: Defs, form: seq<Entry<Value>>) returns (params: seq<Entry<Value>>)
    ensures params == UpdateParams(defs, form)
  {
    params := [];
    var i := 0;
    while i < |defs|
      invariant 0 <= i <= |defs|
      invariant params == UpdateParams(defs[..i], form)
    {
      var c := defs[i].key;
      if HasKey(form, c) {
        var value := Get(form, c).value;
        params := Set(params, c, Unwrapped(value));
      }
      assert defs[..i + 1][..i] == defs[..i];
      i := i + 1;
    }
    assert defs[..|defs|] == defs;
  }

  /**
   * A column has a parameter exactly when it is defined and the form holds it,
   * and the parameter is the form's value with any StringVar read out.
   */
  lemma {:induction false} UpdateParamsGet(defs: Defs, form: seq<Entry<Value>>, c: string)
    ensures Get(UpdateParams(defs, form), c) ==
      if HasKey(defs, c) && HasKey(form, c) then Some(Unwrapped(Get(form, c).value)) else None
  {
    if |defs| > 0 {
      var init := defs[..|defs| - 1];
      var last := defs[|defs| - 1];
      assert init + [last] == defs;
      UpdateParamsGet(init, form, c);
      assert Keys(defs) == Keys(init) + [last.key];
      assert HasKey(defs, c) <==> HasKey(init, c) || last.key == c;
      UpdateParamsStep(init, last, form, c);
    }
  }

  /** One step of the loop: the last column's entry is set if the form holds it. */
  lemma UpdateParamsStep(init: Defs, last: Entry<ColumnDef>, form: seq<Entry<Value>>, c: string)
    ensures var p := UpdateParams(init, form);
      Get(UpdateParams(init + [last], form), c) ==
        if c == last.key && HasKey(form, c) then Some(Unwrapped(Get(form, c).value)) else Get(p, c)
  {
    var d := init + [last];
    assert d[..|d| - 1] == init && d[|d| - 1] == last;
    var p := UpdateParams(init, form);
    if HasKey(form, last.key) {
      var v := Unwrapped(Get(form, last.key).value);
      if c == last.key {
        SetGetSame(p, c, v);
      } else {
        SetGetOther(p, last.key, v, c);
      }
    }
  }

  /** For a dict of columns, the parameters follow column order: the defined columns that the form holds. */
  lemma {:induction false} UpdateParamsKeys(defs: Defs, form: seq<Entry<Value>>)
    requires UniqueKeys(defs)
    ensures Keys(UpdateParams(defs, form)) == KeysWhere(defs, InForm(form))
  {
    if |defs| > 0 {
      var init := defs[..|defs| - 1];
      var last := defs[|defs| - 1];
      assert init + [last] == defs;
      assert UniqueKeys(init);
      UpdateParamsKeys(init, form);
      KeysWhereSnoc(init, last, InForm(form));
      var p := UpdateParams(init, form);
      if HasKey(form, last.key) {
        assert !HasKey(init, last.key);
        UpdateParamsGet(init, form, last.key);
        SetKeys(p, last.key, Unwrapped(Get(form, last.key).value));
      }
    }
  }
}
