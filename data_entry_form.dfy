/**
 * The two form modules src/forms/data_entry_form.py and forms/data_entry_form.py
 * carry the same `gather_form_data` and `populate_form_for_edit`, modelled
 * once here; `build_form` of forms/data_entry_form.py follows them.
 *
 * An entry widget is a tkinter StringVar; a dict of them is modelled as the
 * dict from column name to the text each variable holds.  `float()` is not
 * modelled: its outcome is the `toFloat` parameter.
 */
module DataEntryForm {
  import opened Wrappers
  import opened Text
  import opened PyValues
  import opened OrderedDict
  import opened ColumnDefs
  import ColumnReaders

  /** `col_details.get("display_name", col_name)`, as the error messages print it. */
  function DisplayName(name: string, d: ColumnDef): string
  {
    if "display_name" in d then Str(d["display_name"]) else name
  }

  /** `col_details.get("type", "text")`. */
  function TypeOf(d: ColumnDef): Value
  {
    if "type" in d then d["type"] else VStr("text")
  }

  /** `col_details.get("options", [])`. */
  function OptionsOf(d: ColumnDef): Value
  {
    if "options" in d then d["options"] else VList([])
  }

  // ------------------------------------------------------------------ gather_form_data

  /**
   * The value `gather_form_data` stores for a column whose entry holds `text`
   * (already stripped): ValueError naming the column when it is required and
   * empty; None when it is empty; `int()` of the text for "int", failing with
   * a ValueError naming the column; for "options", the text when `text in
   * options` holds (list membership, or a substring of string options), with
   * TypeError from `in` for options of any other kind;
   * the text for any other type.
   */
  function EntryValue(name: string, d: ColumnDef, text: string, toFloat: Value -> Result<Value>): (r: Result<Value>)
    ensures text == "" ==> r == if Flag(d, "required") then Err(ValueError(Required(DisplayName(name, d)))) else Ok(VNone)
    ensures text != "" && TypeOf(d) == VStr("int") ==>
      r == (if ParseInt(text).Some? then Ok(VInt(ParseInt(text).value)) else Err(ValueError(NotAnInteger(DisplayName(name, d)))))
    ensures text != "" && TypeOf(d) == VStr("options") && OptionsOf(d).VList? ==>
      r == (if In(VStr(text), OptionsOf(d).items) then Ok(VStr(text)) else Err(ValueError(InvalidOption(DisplayName(name, d)))))
    ensures text != "" && TypeOf(d) == VStr("options") && OptionsOf(d).VStr? ==>
      r == (if Contains(OptionsOf(d).s, text) then Ok(VStr(text)) else Err(ValueError(InvalidOption(DisplayName(name, d)))))
    ensures text != "" && TypeOf(d) == VStr("options") && !OptionsOf(d).VList? && !OptionsOf(d).VStr? ==> r == Err(TypeError)
    ensures text != "" && TypeOf(d) !in {VStr("int"), VStr("float"), VStr("options")} ==> r == Ok(VStr(text))
  {
    if Flag(d, "required") && text == "" then Err(ValueError(Required(DisplayName(name, d))))
    else if text == "" then Ok(VNone)
    else if TypeOf(d) == VStr("int") then
      match Int(VStr(text))
      case Ok(n) => Ok(VInt(n))
      case Err(_) => Err(ValueError(NotAnInteger(DisplayName(name, d))))
    else if TypeOf(d) == VStr("float") then
      match toFloat(VStr(text))
      case Ok(x) => Ok(x)
      case Err(e) => if e.ValueError? then Err(ValueError(NotAFloat(DisplayName(name, d)))) else Err(e)
    else if TypeOf(d) == VStr("options") then
      match InValue(VStr(text), OptionsOf(d))
      case Err(e) => Err(e)
      case Ok(found) => if found then Ok(VStr(text)) else Err(ValueError(InvalidOption(DisplayName(name, d))))
    else Ok(VStr(text))
  }

  /** One turn of the loop: columns without an entry, and the primary key, are skipped. */
  function GatherStep(acc: seq<Entry<Value>>, col: Entry<ColumnDef>, widgets: seq<Entry<string>>,
                      toFloat: Value -> Result<Value>): Result<seq<Entry<Value>>>
  {
    match Get(widgets, col.key)
    case None => Ok(acc)
    case Some(raw) =>
      if IsPrimaryKey(col.val) then Ok(acc)
      else
        match EntryValue(col.key, col.val, Strip(raw), toFloat)
        case Ok(v) => Ok(Set(acc, col.key, v))
        case Err(e) => Err(e)
  }

  /** The dict built after visiting `defs` in order, or the first error raised. */
  function Gathered(defs: Defs, widgets: seq<Entry<string>>, toFloat: Value -> Result<Value>): Result<seq<Entry<Value>>>
  {
    if |defs| == 0 then Ok([])
    else
      match Gathered(defs[..|defs| - 1], widgets, toFloat)
      case Err(e) => Err(e)
      case Ok(acc) => GatherStep(acc, defs[|defs| - 1], widgets, toFloat)
  }

  /**
   * `gather_form_data(context, entry_widgets)`: ValueError when the context
   * has no columns, AttributeError for columns in list form, otherwise the
   * loop over the columns.
   */
  function GatherOutcome(reg: Registry, ctx: string, widgets: seq<Entry<string>>, toFloat: Value -> Result<Value>): (r: Result<seq<Entry<Value>>>)
    ensures Empty(ColumnsOf(reg, ctx)) ==> r == Err(ValueError(UnknownContext(ctx)))
    ensures !Empty(ColumnsOf(reg, ctx)) && ColumnsOf(reg, ctx).ListCols? ==> r == Err(AttributeError)
    ensures r.Ok? ==> ColumnsOf(reg, ctx).DictCols? && r == Gathered(ColumnsOf(reg, ctx).defs, widgets, toFloat)
  {
    var cols := ColumnsOf(reg, ctx);
    if Empty(cols) then Err(ValueError(UnknownContext(ctx)))
    else if cols.ListCols? then Err(AttributeError)
    else Gathered(cols.defs, widgets, toFloat)
  }

  /** `gather_form_data(context, entry_widgets)`. */
  method GatherFormData(reg: Registry, ctx: string, widgets: seq<Entry<string>>, toFloat: Value -> Result<Value>)
    returns (r: Result<seq<Entry<Value>>>)
    ensures r == GatherOutcome(reg, ctx, widgets, toFloat)
  {
    var cols := ColumnsOf(reg, ctx);
    if Empty(cols) {
      return Err(ValueError(UnknownContext(ctx)));
    }
    if cols.ListCols? {
      return Err(AttributeError);
    }
    var defs := cols.defs;
    var formData: seq<Entry<Value>> := [];
    var i := 0;
    while i < |defs|
      invariant 0 <= i <= |defs|
      invariant Gathered(defs[..i], widgets, toFloat) == Ok(formData)
    {
      assert defs[..i + 1][..i] == defs[..i];
      var entryVar := Get(widgets, defs[i].key);
      if entryVar.Some? && !IsPrimaryKey(defs[i].val) {
        var value := EntryValue(defs[i].key, defs[i].val, Strip(entryVar.value), toFloat);
        if value.Err? {
          GatherFailureSticks(defs, i + 1, widgets, toFloat);
          return Err(value.error);
        }
        formData := Set(formData, defs[i].key, value.value);
      }
      i := i + 1;
    }
    assert defs[..|defs|] == defs;
    return Ok(formData);
  }

  /** Once a column raises, so does the whole loop. */
  lemma {:induction false} GatherFailureSticks(defs: Defs, n: nat, widgets: seq<Entry<string>>, toFloat: Value -> Result<Value>)
    requires n <= |defs| && Gathered(defs[..n], widgets, toFloat).Err?
    ensures Gathered(defs, widgets, toFloat) == Gathered(defs[..n], widgets, toFloat)
    decreases |defs| - n
  {
    if n < |defs| {
      assert defs[..n + 1][..n] == defs[..n];
      GatherFailureSticks(defs, n + 1, widgets, toFloat);
    } else {
      assert defs[..n] == defs;
    }
  }

  /**
   * Every gathered entry belongs to a column that is not a primary key and
   * has an entry widget, and holds what that widget's stripped text becomes.
   */
  lemma {:induction false} GatheredEntries(defs: Defs, widgets: seq<Entry<string>>, toFloat: Value -> Result<Value>, k: string)
    requires Gathered(defs, widgets, toFloat).Ok?
    requires HasKey(Gathered(defs, widgets, toFloat).value, k)
    ensures HasKey(widgets, k)
    ensures exists i :: (0 <= i < |defs| && defs[i].key == k && !IsPrimaryKey(defs[i].val)
      && EntryValue(k, defs[i].val, Strip(Get(widgets, k).value), toFloat) == Ok(Get(Gathered(defs, widgets, toFloat).value, k).value))
  {
    var n := |defs|;
    var init := defs[..n - 1];
    var last := defs[n - 1];
    var acc := Gathered(init, widgets, toFloat).value;
    var out := Gathered(defs, widgets, toFloat).value;
    if last.key == k && HasKey(widgets, k) && !IsPrimaryKey(last.val) {
      var v := EntryValue(k, last.val, Strip(Get(widgets, k).value), toFloat).value;
      SetGetSame(acc, k, v);
      assert defs[n - 1].key == k;
    } else {
      if last.key != k && HasKey(widgets, last.key) && !IsPrimaryKey(last.val) {
        SetGetOther(acc, last.key, EntryValue(last.key, last.val, Strip(Get(widgets, last.key).value), toFloat).value, k);
      }
      assert Get(out, k) == Get(acc, k);
      GatheredEntries(init, widgets, toFloat, k);
      var i :| 0 <= i < |init| && init[i].key == k && !IsPrimaryKey(init[i].val)
        && EntryValue(k, init[i].val, Strip(Get(widgets, k).value), toFloat) == Ok(Get(acc, k).value);
      assert defs[i] == init[i];
    }
  }

  /** When gathering succeeds, every required non-key column with an entry was filled in. */
  lemma {:induction false} GatheredRequiredFilled(defs: Defs, widgets: seq<Entry<string>>, toFloat: Value -> Result<Value>)
    requires Gathered(defs, widgets, toFloat).Ok?
    ensures forall i :: 0 <= i < |defs| && Flag(defs[i].val, "required") && !IsPrimaryKey(defs[i].val) && HasKey(widgets, defs[i].key) ==>
      Strip(Get(widgets, defs[i].key).value) != ""
  {
    if |defs| > 0 {
      var init := defs[..|defs| - 1];
      GatheredRequiredFilled(init, widgets, toFloat);
      forall i | 0 <= i < |defs| && Flag(defs[i].val, "required") && !IsPrimaryKey(defs[i].val) && HasKey(widgets, defs[i].key)
        ensures Strip(Get(widgets, defs[i].key).value) != ""
      {
        if i < |defs| - 1 {
          assert defs[i] == init[i];
        }
      }
    }
  }

  // ------------------------------------------------------------------ populate_form_for_edit

  /**
   * The text a stored value is shown as: None becomes "NULL" when the column
   * allows null (the default) and "" otherwise, any other falsy value "", and
   * a truthy value stays as it is.  The result is never None.
   */
  function ShownValue(value: Value, meta: ColumnDef): (r: Value)
    ensures r != VNone
    ensures Truthy(value) ==> r == value
    ensures !Truthy(value) ==> r == VStr("NULL") || r == VStr("")
    ensures r == VStr("NULL") && !Truthy(value) <==> value == VNone && (!("allow_null" in meta) || Truthy(meta["allow_null"]))
  {
    if value == VNone && Truthy(if "allow_null" in meta then meta["allow_null"] else VBool(true)) then VStr("NULL")
    else if Truthy(value) then value
    else VStr("")
  }

  /** The entry the form holds for a stored entry. */
  function ShownEntry(e: Entry<Value>, defs: Defs): Entry<Value>
  {
    Entry(e.key, ShownValue(e.val, GetOr(defs, e.key, map[])))
  }

  /** The dict `populate_form_for_edit` builds after the given entries. */
  function Populated(data: seq<Entry<Value>>, defs: Defs): seq<Entry<Value>>
  {
    if |data| == 0 then []
    else
      var last := ShownEntry(data[|data| - 1], defs);
      Set(Populated(data[..|data| - 1], defs), last.key, last.val)
  }

  /** Storing the last value under a key not yet in the form appends its entry. */
  lemma PopulatedStep(data: seq<Entry<Value>>, defs: Defs)
    requires |data| > 0
    requires !HasKey(Populated(data[..|data| - 1], defs), data[|data| - 1].key)
    ensures Populated(data, defs) == Populated(data[..|data| - 1], defs) + [ShownEntry(data[|data| - 1], defs)]
  {
    var last := ShownEntry(data[|data| - 1], defs);
    SetAbsentAppends(Populated(data[..|data| - 1], defs), last.key, last.val);
  }

  /** A form that shows the first entries of a dict with unique keys lacks the key of the next one. */
  lemma ShownLacksNextKey(data: seq<Entry<Value>>, defs: Defs, p: seq<Entry<Value>>)
    requires UniqueKeys(data) && |data| > 0 && |p| == |data| - 1
    requires forall j :: 0 <= j < |p| ==> p[j].key == data[j].key
    ensures !HasKey(p, data[|data| - 1].key)
  {
    forall j | 0 <= j < |p| ensures Keys(p)[j] != data[|data| - 1].key {
      assert data[j].key != data[|data| - 1].key;
    }
  }

  /** Appending the shown entry of the next value to the shown first entries gives the shown entries of all. */
  lemma ShownSnoc(data: seq<Entry<Value>>, defs: Defs, p: seq<Entry<Value>>, q: seq<Entry<Value>>)
    requires |data| > 0 && |p| == |data| - 1
    requires forall j :: 0 <= j < |p| ==> p[j] == ShownEntry(data[j], defs)
    requires q == p + [ShownEntry(data[|data| - 1], defs)]
    ensures |q| == |data| && forall i :: 0 <= i < |data| ==> q[i] == ShownEntry(data[i], defs)
  {
    forall i | 0 <= i < |data| ensures q[i] == ShownEntry(data[i], defs) {
      if i < |p| {
        assert q[i] == p[i];
      } else {
        assert i == |data| - 1;
      }
    }
  }

  /** For a dict of data, the form holds the same keys in the same order, each mapped to its shown value. */
  lemma {:induction false} PopulatedIsMap(data: seq<Entry<Value>>, defs: Defs)
    requires UniqueKeys(data)
    ensures var p := Populated(data, defs);
      |p| == |data| && forall i :: 0 <= i < |data| ==> p[i] == ShownEntry(data[i], defs)
  {
    if |data| > 0 {
      var n := |data| - 1;
      var init := data[..n];
      assert UniqueKeys(init);
      PopulatedIsMap(init, defs);
      var p := Populated(init, defs);
      assert forall j :: 0 <= j < n ==> p[j].key == data[j].key;
      ShownLacksNextKey(data, defs, p);
      PopulatedStep(data, defs);
      ShownSnoc(data, defs, p, Populated(data, defs));
    }
  }

  /** The hook `populate_form_for_edit` calls for a column: a hidden field for the primary key, a visible one otherwise. */
  function HookName(column: string, defs: Defs): string
  {
    if IsPrimaryKey(GetOr(defs, column, map[])) then "hide_field_in_ui" else "add_field_to_ui"
  }

  /**
   * `populate_form_for_edit(data, column_definitions)`.  After storing each
   * value it calls a UI hook its module does not import: `hide_field_in_ui`
   * lives in src/ui/ui_helpers.py and takes a third argument, and
   * `add_field_to_ui` is defined nowhere.  `uiHooks` says whether the hooks
   * resolve and accept the call.  As written they do not, so any non-empty
   * data raises NameError once the first value is stored.
   */
  method PopulateFormForEdit(data: seq<Entry<Value>>, defs: Defs, uiHooks: bool) returns (r: Result<seq<Entry<Value>>>)
    ensures |data| == 0 ==> r == Ok([])
    ensures |data| > 0 && !uiHooks ==> r == Err(NameError(HookName(data[0].key, defs)))
    ensures uiHooks ==> r == Ok(Populated(data, defs))
  {
    var formData: seq<Entry<Value>> := [];
    var i := 0;
    while i < |data|
      invariant 0 <= i <= |data|
      invariant formData == Populated(data[..i], defs)
      invariant i > 0 ==> uiHooks
    {
      var column := data[i].key;
      var meta := GetOr(defs, column, map[]);
      formData := Set(formData, column, ShownValue(data[i].val, meta));
      assert data[..i + 1][..i] == data[..i];
      if !uiHooks {
        return Err(NameError(HookName(column, defs)));
      }
      i := i + 1;
    }
    assert data[..|data|] == data;
    return Ok(formData);
  }

  // ------------------------------------------------------------------ build_form (forms/data_entry_form.py)

  /** `options[0] if options else ""` for a list or a string of options. */
  function FirstOption(options: Value): Result<Value>
  {
    if !Truthy(options) then Ok(VStr(""))
    else match options
      case VList(items) => Ok(items[0])
      case VStr(s) => Ok(VStr([s[0]]))
      case _ => Err(TypeError)
  }

  /**
   * The value a column's StringVar starts with: the initial value, else the
   * column's default; for "options" a falsy one gives way to the first
   * option, for "int" and "float" None gives "", for other types a falsy one
   * gives "".
   */
  function StartValue(name: string, d: ColumnDef, initial: seq<Entry<Value>>): (r: Result<Value>)
    ensures HasKey(initial, name) && Truthy(Get(initial, name).value) ==> r == Ok(Get(initial, name).value) || (TypeOf(d) in {VStr("int"), VStr("float")} && r == Ok(VStr(Str(Get(initial, name).value))))
    ensures HasKey(initial, name) && !Truthy(Get(initial, name).value) && TypeOf(d) !in {VStr("options"), VStr("int"), VStr("float")}
      ==> r == Ok(VStr(""))
    ensures HasKey(initial, name) && TypeOf(d) in {VStr("int"), VStr("float")}
      ==> r == Ok(if Get(initial, name).value != VNone then VStr(Str(Get(initial, name).value)) else VStr(""))
    ensures HasKey(initial, name) && !Truthy(Get(initial, name).value) && TypeOf(d) == VStr("options")
      ==> r == FirstOption(OptionsOf(d))
    ensures !HasKey(initial, name) && TypeOf(d) == VStr("options")
      ==> r == if Truthy(Attr(d, "default")) then Ok(Attr(d, "default")) else FirstOption(OptionsOf(d))
    ensures !HasKey(initial, name) && TypeOf(d) in {VStr("int"), VStr("float")}
      ==> r == Ok(if Attr(d, "default") != VNone then VStr(Str(Attr(d, "default"))) else VStr(""))
    ensures !HasKey(initial, name) && TypeOf(d) !in {VStr("options"), VStr("int"), VStr("float")}
      ==> r == Ok(if Truthy(Attr(d, "default")) then Attr(d, "default") else VStr(""))
  {
    var chosen := GetOr(initial, name, Attr(d, "default"));
    if TypeOf(d) == VStr("options") then
      if Truthy(chosen) then Ok(chosen) else FirstOption(OptionsOf(d))
    else if TypeOf(d) == VStr("int") || TypeOf(d) == VStr("float") then
      Ok(if chosen != VNone then VStr(Str(chosen)) else VStr(""))
    else Ok(if Truthy(chosen) then chosen else VStr(""))
  }

  /**
   * A column present in `initial_values` starts from that value whatever the
   * column's default is, even when the value is falsy.
   */
  lemma InitialBeatsDefault(name: string, d: ColumnDef, initial: seq<Entry<Value>>, other: Value)
    requires HasKey(initial, name)
    ensures StartValue(name, d["default" := other], initial) == StartValue(name, d, initial)
  {
    var d' := d["default" := other];
    assert TypeOf(d') == TypeOf(d) && OptionsOf(d') == OptionsOf(d);
  }

  /** The dict of entry widgets after visiting `defs`: each non-key column gets its starting text. */
  function Widgets(defs: Defs, initial: seq<Entry<Value>>): Result<seq<Entry<string>>>
  {
    if |defs| == 0 then Ok([])
    else
      match Widgets(defs[..|defs| - 1], initial)
      case Err(e) => Err(e)
      case Ok(acc) =>
        var last := defs[|defs| - 1];
        if IsPrimaryKey(last.val) then Ok(acc)
        else
          match StartValue(last.key, last.val, initial)
          case Err(e) => Err(e)
          case Ok(v) => Ok(Set(acc, last.key, Str(v)))
  }

  /** A column that gets an entry widget: not a primary key. */
  predicate KeepEntry(name: string, d: ColumnDef) { !IsPrimaryKey(d) }

  /** For a dict of columns, the widgets follow column order: exactly the non-key columns. */
  lemma {:induction false} WidgetKeys(defs: Defs, initial: seq<Entry<Value>>)
    requires UniqueKeys(defs) && Widgets(defs, initial).Ok?
    ensures Keys(Widgets(defs, initial).value) == KeysWhere(defs, KeepEntry)
  {
    if |defs| > 0 {
      var init := defs[..|defs| - 1];
      var last := defs[|defs| - 1];
      assert init + [last] == defs;
      assert UniqueKeys(init);
      WidgetKeys(init, initial);
      KeysWhereSnoc(init, last, KeepEntry);
      if !IsPrimaryKey(last.val) {
        var acc := Widgets(init, initial).value;
        KeysWhereSpec(init, KeepEntry);
        assert forall i :: 0 <= i < |init| ==> init[i] == defs[i];
        assert !HasKey(acc, last.key);
        SetKeys(acc, last.key, Str(StartValue(last.key, last.val, initial).value));
      }
    }
  }

  /**
   * `build_form(frame, context, initial_values)`: TypeError for columns in
   * list form, ValueError when no processed column is left, otherwise one
   * entry per processed column that is not the primary key, each placed on
   * the next grid row.  Labels and widget kinds are presentation and not
   * modelled.
   */
  method BuildForm(reg: Registry, ctx: string, initial: seq<Entry<Value>>) returns (r: Result<seq<Entry<string>>>)
    ensures ColumnsOf(reg, ctx).ListCols? ==> r == Err(TypeError)
    ensures ColumnsOf(reg, ctx).DictCols? && |Processed(ColumnsOf(reg, ctx).defs, true)| == 0 ==>
      r == Err(ValueError(NoFilteredColumns(ctx)))
    ensures ColumnsOf(reg, ctx).DictCols? && |Processed(ColumnsOf(reg, ctx).defs, true)| > 0 ==>
      r == Widgets(Processed(ColumnsOf(reg, ctx).defs, true), initial)
  {
    var filtered := ColumnReaders.ProcessedOf(ColumnsOf(reg, ctx), true);
    if filtered.Err? {
      return Err(filtered.error);
    }
    var defs := filtered.value;
    if |defs| == 0 {
      return Err(ValueError(NoFilteredColumns(ctx)));
    }
    var rows;
    r, rows := PlaceEntries(defs, initial);
  }

  /**
   * The loop of `build_form`: each column that is not the primary key gets
   * an entry on the next grid row; `rows` is the final row counter, one row
   * per column that is not the primary key.
   */
  method PlaceEntries(defs: Defs, initial: seq<Entry<Value>>) returns (r: Result<seq<Entry<string>>>, rows: nat)
    ensures r == Widgets(defs, initial)
    ensures r.Ok? ==> rows == |KeysWhere(defs, KeepEntry)|
  {
    var entryWidgets: seq<Entry<string>> := [];
    var rowCounter := 0;
    var i := 0;
    while i < |defs|
      invariant 0 <= i <= |defs|
      invariant Widgets(defs[..i], initial) == Ok(entryWidgets)
      invariant rowCounter == |KeysWhere(defs[..i], KeepEntry)|
    {
      assert defs[..i + 1][..i] == defs[..i];
      KeysWhereSnoc(defs[..i], defs[i], KeepEntry);
      assert defs[..i + 1] == defs[..i] + [defs[i]];
      if !IsPrimaryKey(defs[i].val) {
        var start := StartValue(defs[i].key, defs[i].val, initial);
        if start.Err? {
          WidgetsFailureSticks(defs, i + 1, initial);
          return Err(start.error), rowCounter;
        }
        entryWidgets := Set(entryWidgets, defs[i].key, Str(start.value));
        rowCounter := rowCounter + 1;
      }
      i := i + 1;
    }
    assert defs[..|defs|] == defs;
    return Ok(entryWidgets), rowCounter;
  }

  lemma {:induction false} WidgetsFailureSticks(defs: Defs, n: nat, initial: seq<Entry<Value>>)
    requires n <= |defs| && Widgets(defs[..n], initial).Err?
    ensures Widgets(defs, initial) == Widgets(defs[..n], initial)
    decreases |defs| - n
  {
    if n < |defs| {
      assert defs[..n + 1][..n] == defs[..n];
      WidgetsFailureSticks(defs, n + 1, initial);
    } else {
      assert defs[..n] == defs;
    }
  }

  /**
   * For a dict of columns, the form's entries are exactly the editable
   * columns (neither admin nor primary key), in column order.
   */
  lemma BuildFormKeys(defs: Defs, initial: seq<Entry<Value>>)
    requires UniqueKeys(defs) && Widgets(Processed(defs, true), initial).Ok?
    ensures Keys(Widgets(Processed(defs, true), initial).value) == KeysWhere(defs, KeepEditable)
  {
    WidgetKeys(Processed(defs, true), initial);
    KeysWhereOfFilter(defs, ProcessedTest(true), KeepEntry, KeepEditable);
  }
}
