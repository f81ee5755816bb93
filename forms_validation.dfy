/**
 * forms/validation.py: a `validate_field` that only accepts or raises, and a
 * `validate_form_data` that reads each column's entry widget and converts
 * numeric text.
 *
 * An entry widget is a tkinter StringVar, an object that is always truthy;
 * `entry_widgets` is modelled as the dict from column name to the text each
 * variable holds.  `float()` is not modelled: its outcome is the `toFloat`
 * parameter.
 */
module FormsValidation {
  import opened Wrappers
  import opened PyValues
  import opened OrderedDict
  import opened ColumnDefs
  import SrcValidation

  /**
   * `validate_field(field_name, value, field_type, valid_values)`: True, or
   * ValueError for a falsy required value or a value outside non-empty valid
   * values; an "int" (or "float") value that is not already one only has to
   * convert, and the conversion is thrown away.
   */
  function ValidateField(name: string, value: Value, fieldType: string, validValues: seq<Value>,
                         toFloat: Value -> Result<Value>): (r: Result<bool>)
    ensures r.Ok? ==> r.value
    ensures fieldType == "required" && !Truthy(value) ==> r == Err(ValueError(Required(name)))
    ensures r.Ok? ==> (fieldType == "required" ==> Truthy(value)) && (|validValues| == 0 || In(value, validValues))
    ensures fieldType == "int" ==>
      (r.Ok? <==> (|validValues| == 0 || In(value, validValues)) && Int(value).Ok?)
    ensures fieldType == "float" ==>
      (r.Ok? <==> (|validValues| == 0 || In(value, validValues)) && (value.VFloat? || toFloat(value).Ok?))
    ensures fieldType != "int" && fieldType != "float" ==>
      (r.Ok? <==> SrcValidation.PassesChecks(fieldType, value, validValues))
    ensures !(fieldType == "required" && !Truthy(value)) && |validValues| > 0 && !In(value, validValues)
      ==> r == Err(ValueError(InvalidValue(name)))
  {
    if fieldType == "required" && !Truthy(value) then Err(ValueError(Required(name)))
    else if |validValues| > 0 && !In(value, validValues) then Err(ValueError(InvalidValue(name)))
    else if fieldType == "int" && !(value.VInt? || value.VBool?) then
      match Int(value)
      case Ok(_) => Ok(true)
      case Err(e) => if e.ValueError? then Err(ValueError(NotAnInteger(name))) else Err(e)
    else if fieldType == "float" && !value.VFloat? then
      match toFloat(value)
      case Ok(_) => Ok(true)
      case Err(e) => if e.ValueError? then Err(ValueError(NotAFloat(name))) else Err(e)
    else Ok(true)
  }

  /**
   * Without a default, this check and the one in src/forms/validation.py
   * accept the same values of every type but "float"; where that one converts,
   * this one answers True.
   */
  lemma AgreesWithSrcValidation(name: string, value: Value, fieldType: string, validValues: seq<Value>,
                                toFloat: Value -> Result<Value>)
    requires fieldType != "float"
    ensures ValidateField(name, value, fieldType, validValues, toFloat).Ok? <==>
      SrcValidation.ValidateField(name, value, fieldType, validValues, VNone, toFloat).Ok?
  {
  }

  // ------------------------------------------------------------------ validate_form_data

  /** An element of the `columns` list: a dict, a bare name, or anything else. */
  datatype ColumnSpec = DictColumn(details: ColumnDef) | NameColumn(name: string) | OtherColumn

  /** `column.get("type", "text")`, or "text" for a bare name. */
  function TypeOf(column: ColumnSpec): Value
  {
    match column
    case DictColumn(d) => if "type" in d then d["type"] else VStr("text")
    case _ => VStr("text")
  }

  /**
   * The value stored for a column with an entry: ValueError for empty numeric
   * text, `int()` of the text for "int" (its ValueError escapes), `float()` for
   * "float", the text itself otherwise.
   */
  function FieldValue(name: string, text: string, colType: Value, toFloat: Value -> Result<Value>): (r: Result<Value>)
    ensures (colType == VStr("int") || colType == VStr("float")) && text == "" ==> r == Err(ValueError(EmptyNumeric(name)))
    ensures colType == VStr("int") ==> (r.Ok? <==> Int(VStr(text)).Ok?)
    ensures colType == VStr("int") && r.Ok? ==> r.value == VInt(Int(VStr(text)).value)
    ensures colType != VStr("int") && colType != VStr("float") ==> r == Ok(VStr(text))
  {
    if (colType == VStr("int") || colType == VStr("float")) && text == "" then
      EmptyStringNotInt();
      Err(ValueError(EmptyNumeric(name)))
    else if colType == VStr("int") then
      match Int(VStr(text))
      case Ok(n) => Ok(VInt(n))
      case Err(e) => Err(e)
    else if colType == VStr("float") then toFloat(VStr(text))
    else Ok(VStr(text))
  }

  /** One turn of the loop over `columns`, given the dict built so far. */
  function Step(acc: seq<Entry<Value>>, column: ColumnSpec, widgets: seq<Entry<string>>, toFloat: Value -> Result<Value>): Result<seq<Entry<Value>>>
  {
    match column
    case OtherColumn => Err(ValueError(InvalidColumnFormat))
    case DictColumn(d) =>
      if "name" !in d then Err(KeyError("name"))
      else if !d["name"].VStr? then Ok(acc)   // a non-string name has no widget
      else Field(acc, d["name"].s, TypeOf(column), widgets, toFloat)
    case NameColumn(n) => Field(acc, n, TypeOf(column), widgets, toFloat)
  }

  function Field(acc: seq<Entry<Value>>, name: string, colType: Value, widgets: seq<Entry<string>>, toFloat: Value -> Result<Value>): Result<seq<Entry<Value>>>
  {
    match Get(widgets, name)
    case None => Ok(acc)
    case Some(text) =>
      match FieldValue(name, text, colType, toFloat)
      case Ok(v) => Ok(Set(acc, name, v))
      case Err(e) => Err(e)
  }

  /** The dict `validate_form_data` has built after `columns`, or the first error raised. */
  function FormValues(columns: seq<ColumnSpec>, widgets: seq<Entry<string>>, toFloat: Value -> Result<Value>): Result<seq<Entry<Value>>>
  {
    if |columns| == 0 then Ok([])
    else
      match FormValues(columns[..|columns| - 1], widgets, toFloat)
      case Err(e) => Err(e)
      case Ok(acc) => Step(acc, columns[|columns| - 1], widgets, toFloat)
  }

  /** The name a column is stored under, when it has a string one. */
  function NameOf(column: ColumnSpec): Option<string>
  {
    match column
    case DictColumn(d) => if "name" in d && d["name"].VStr? then Some(d["name"].s) else None
    case NameColumn(n) => Some(n)
    case OtherColumn => None
  }

  /** `validate_form_data(columns, entry_widgets)`. */
  method ValidateFormData(columns: seq<ColumnSpec>, widgets: seq<Entry<string>>, toFloat: Value -> Result<Value>)
    returns (r: Result<seq<Entry<Value>>>)
    ensures r == FormValues(columns, widgets, toFloat)
  {
    var formData: seq<Entry<Value>> := [];
    var i := 0;
    while i < |columns|
      invariant 0 <= i <= |columns|
      invariant FormValues(columns[..i], widgets, toFloat) == Ok(formData)
    {
      assert columns[..i + 1][..i] == columns[..i];
      var next := Step(formData, columns[i], widgets, toFloat);
      if next.Err? {
        assert FormValues(columns[..i + 1], widgets, toFloat) == next;
        FailureSticks(columns, i + 1, widgets, toFloat);
        return next;
      }
      formData := next.value;
      i := i + 1;
    }
    assert columns[..|columns|] == columns;
    return Ok(formData);
  }

  /** Once a column raises, so does the whole form. */
  lemma {:induction false} FailureSticks(columns: seq<ColumnSpec>, n: nat, widgets: seq<Entry<string>>, toFloat: Value -> Result<Value>)
    requires n <= |columns| && FormValues(columns[..n], widgets, toFloat).Err?
    ensures FormValues(columns, widgets, toFloat) == FormValues(columns[..n], widgets, toFloat)
    decreases |columns| - n
  {
    if n < |columns| {
      assert columns[..n + 1][..n] == columns[..n];
      FailureSticks(columns, n + 1, widgets, toFloat);
    } else {
      assert columns[..n] == columns;
    }
  }

  /**
   * Every entry of the result belongs to a column that has a string name and
   * an entry widget, and holds that widget's text as converted for one such
   * column's type.
   */
  lemma {:induction false} FormValuesEntries(columns: seq<ColumnSpec>, widgets: seq<Entry<string>>, toFloat: Value -> Result<Value>, k: string)
    requires FormValues(columns, widgets, toFloat).Ok?
    requires HasKey(FormValues(columns, widgets, toFloat).value, k)
    ensures HasKey(widgets, k)
    ensures exists i :: (0 <= i < |columns| && NameOf(columns[i]) == Some(k)
      && FieldValue(k, Get(widgets, k).value, TypeOf(columns[i]), toFloat) == Ok(Get(FormValues(columns, widgets, toFloat).value, k).value))
  {
    var n := |columns|;
    var init := columns[..n - 1];
    var last := columns[n - 1];
    var acc := FormValues(init, widgets, toFloat).value;
    var out := FormValues(columns, widgets, toFloat).value;
    if NameOf(last) == Some(k) && HasKey(widgets, k) {
      var v := FieldValue(k, Get(widgets, k).value, TypeOf(last), toFloat).value;
      SetGetSame(acc, k, v);
      assert Get(out, k) == Some(v);
      assert NameOf(columns[n - 1]) == Some(k);
    } else {
      assert Get(out, k) == Get(acc, k) by {
        match last
        case DictColumn(d) =>
          if "name" in d && d["name"].VStr? && d["name"].s != k && HasKey(widgets, d["name"].s) {
            SetGetOther(acc, d["name"].s, FieldValue(d["name"].s, Get(widgets, d["name"].s).value, TypeOf(last), toFloat).value, k);
          }
        case NameColumn(m) =>
          if m != k && HasKey(widgets, m) {
            SetGetOther(acc, m, FieldValue(m, Get(widgets, m).value, TypeOf(last), toFloat).value, k);
          }
        case OtherColumn =>
      }
      FormValuesEntries(init, widgets, toFloat, k);
      var i :| 0 <= i < |init| && NameOf(init[i]) == Some(k)
        && FieldValue(k, Get(widgets, k).value, TypeOf(init[i]), toFloat) == Ok(Get(acc, k).value);
      assert columns[i] == init[i];
    }
  }
}
