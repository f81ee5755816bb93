/**
 * src/forms/validation.py: `validate_field`, which checks one value and falls
 * back to a default when a check fails, and `validate_form_data`, which
 * collects every required column the form leaves empty.
 *
 * `float()` is not modelled: its outcome is the `toFloat` parameter.
 * `valid_values` is a list; None and the empty list are both written `[]`,
 * since the source only tests it for truth before using it.
 */
module SrcValidation {
  import opened Wrappers
  import opened PyValues
  import opened OrderedDict
  import opened ColumnDefs

  /** `default is not None`. */
  predicate HasDefault(default: Value) { default != VNone }

  /** A failed check: the default when there is one, else ValueError for the reason given. */
  function Fallback(default: Value, reason: Reason): (r: Result<Value>)
    ensures HasDefault(default) ==> r == Ok(default)
    ensures !HasDefault(default) ==> r == Err(ValueError(reason))
  {
    if HasDefault(default) then Ok(default) else Err(ValueError(reason))
  }

  /** Neither the required check nor the membership check fails. */
  predicate PassesChecks(fieldType: string, value: Value, validValues: seq<Value>)
  {
    !(fieldType == "required" && !Truthy(value)) && (|validValues| == 0 || In(value, validValues))
  }

  /**
   * `validate_field(field_name, value, field_type, valid_values, default)`.
   * The checks run in order: required, membership, then the conversion for
   * "int" and "float"; `int()` and `float()` errors other than ValueError are
   * not caught.  A default of None counts as no default, so any failed check
   * then raises; with a default, no check raises ValueError.  A value that
   * passes is returned converted ("int", "float") or as it is.
   */
  function ValidateField(name: string, value: Value, fieldType: string, validValues: seq<Value>, default: Value,
                         toFloat: Value -> Result<Value>): (r: Result<Value>)
    ensures r.Err? && r.error.ValueError? ==> !HasDefault(default)
    ensures fieldType == "required" && !Truthy(value) ==> r == Fallback(default, Required(name))
    ensures r.Ok? && r.value != default ==> (fieldType == "required" ==> Truthy(value))
    ensures r.Ok? && r.value != default ==> |validValues| == 0 || In(value, validValues)
    ensures r.Ok? && r.value != default && fieldType == "int" ==> r.value.VInt? && Int(value) == Ok(r.value.i)
    ensures r.Ok? && r.value != default && fieldType != "int" && fieldType != "float" ==> r.value == value
    ensures !(fieldType == "required" && !Truthy(value)) && |validValues| > 0 && !In(value, validValues)
      ==> r == Fallback(default, InvalidValue(name))
    ensures PassesChecks(fieldType, value, validValues) && fieldType == "int" ==>
      r == match Int(value)
           case Ok(n) => Ok(VInt(n))
           case Err(e) => if e.ValueError? then Fallback(default, NotAnInteger(name)) else Err(e)
    ensures PassesChecks(fieldType, value, validValues) && fieldType == "float" ==>
      r == match toFloat(value)
           case Ok(x) => Ok(x)
           case Err(e) => if e.ValueError? then Fallback(default, NotAFloat(name)) else Err(e)
    ensures PassesChecks(fieldType, value, validValues) && fieldType != "int" && fieldType != "float" ==> r == Ok(value)
  {
    if fieldType == "required" && !Truthy(value) then Fallback(default, Required(name))
    else if |validValues| > 0 && !In(value, validValues) then Fallback(default, InvalidValue(name))
    else if fieldType == "int" then
      match Int(value)
      case Ok(n) => Ok(VInt(n))
      case Err(e) => if e.ValueError? then Fallback(default, NotAnInteger(name)) else Err(e)
    else if fieldType == "float" then
      match toFloat(value)
      case Ok(x) => Ok(x)
      case Err(e) => if e.ValueError? then Fallback(default, NotAFloat(name)) else Err(e)
    else Ok(value)
  }

  /** What an integer prints as, an "int" field reads back as that integer. */
  lemma IntFieldRoundTrip(name: string, n: int, default: Value, toFloat: Value -> Result<Value>)
    ensures ValidateField(name, VStr(Str(VInt(n))), "int", [], default, toFloat) == Ok(VInt(n))
  {
    IntStrRoundTrip(n);
  }

  /** The procurement types an assembly or part may have. */
  const PROCUREMENT_TYPES: seq<Value> := [VStr("Purchase"), VStr("Make"), VStr("Hybrid")]

  /**
   * With "Purchase" as default and the three procurement types as valid
   * values, a text field keeps a valid type and turns anything else into
   * "Purchase": the result is always a valid type.
   */
  lemma ProcurementTypeCoerced(name: string, value: Value, toFloat: Value -> Result<Value>)
    ensures var r := ValidateField(name, value, "text", PROCUREMENT_TYPES, VStr("Purchase"), toFloat);
      && r == Ok(if In(value, PROCUREMENT_TYPES) then value else VStr("Purchase"))
      && In(r.value, PROCUREMENT_TYPES)
  {
    PyEqReflexive(VStr("Purchase"));
    assert PyEq(VStr("Purchase"), PROCUREMENT_TYPES[0]);
  }

  // ------------------------------------------------------------------ validate_form_data

  /** A required column whose form value is missing or falsy, as a filter test. */
  function MissingIn(form: seq<Entry<Value>>): (string, ColumnDef) -> bool
  {
    (k, d) => Flag(d, "required") && !Truthy(GetOr(form, k, VNone))
  }

  /**
   * The fields `validate_form_data` reports: exactly the required columns
   * whose form value is missing or falsy, in column order; none exactly when
   * every required column is filled.
   */
  function MissingFields(defs: Defs, form: seq<Entry<Value>>): (r: seq<string>)
    ensures Subsequence(r, Keys(defs))
    ensures forall k :: k in r <==>
      exists i :: 0 <= i < |defs| && defs[i].key == k && Flag(defs[i].val, "required") && !Truthy(GetOr(form, k, VNone))
    ensures |r| == 0 <==>
      forall i :: 0 <= i < |defs| && Flag(defs[i].val, "required") ==> Truthy(GetOr(form, defs[i].key, VNone))
  {
    KeysWhereSpec(defs, MissingIn(form));
    var r := KeysWhere(defs, MissingIn(form));
    assert |r| > 0 ==> r[0] in r;
    r
  }

  /**
   * The outcome of `validate_form_data(context, form_data)`: ValueError when
   * the context has no columns (an unknown context included), AttributeError
   * for columns in list form, one ValueError listing the missing fields, or
   * True.
   */
  function FormDataVerdict(reg: Registry, ctx: string, form: seq<Entry<Value>>): (r: Result<bool>)
    ensures Empty(ColumnsOf(reg, ctx)) ==> r == Err(ValueError(UnknownContext(ctx)))
    ensures !Empty(ColumnsOf(reg, ctx)) && ColumnsOf(reg, ctx).ListCols? ==> r == Err(AttributeError)
    ensures !Empty(ColumnsOf(reg, ctx)) && ColumnsOf(reg, ctx).DictCols? ==>
      var missing := MissingFields(ColumnsOf(reg, ctx).defs, form);
      r == if |missing| > 0 then Err(ValueError(MissingRequired(missing))) else Ok(true)
  {
    var cols := ColumnsOf(reg, ctx);
    if Empty(cols) then Err(ValueError(UnknownContext(ctx)))
    else if cols.ListCols? then Err(AttributeError)
    else
      var missing := MissingFields(cols.defs, form);
      if |missing| > 0 then Err(ValueError(MissingRequired(missing))) else Ok(true)
  }

  /** The loop of `validate_form_data`: each required column without a truthy form value, appended in turn. */
  method CollectMissing(defs: Defs, form: seq<Entry<Value>>) returns (missing: seq<string>)
    ensures missing == MissingFields(defs, form)
  {
    missing := [];
    var i := 0;
    while i < |defs|
      invariant 0 <= i <= |defs|
      invariant missing == KeysWhere(defs[..i], MissingIn(form))
    {
      KeysWhereSnoc(defs[..i], defs[i], MissingIn(form));
      if Flag(defs[i].val, "required") && !Truthy(GetOr(form, defs[i].key, VNone)) {
        missing := missing + [defs[i].key];
      }
      assert defs[..i + 1] == defs[..i] + [defs[i]];
      i := i + 1;
    }
    assert defs[..|defs|] == defs;
  }

  /** `validate_form_data(context, form_data)`. */
  method ValidateFormData(reg: Registry, ctx: string, form: seq<Entry<Value>>) returns (r: Result<bool>)
    ensures r == FormDataVerdict(reg, ctx, form)
  {
    var cols := ColumnsOf(reg, ctx);
    if Empty(cols) {
      return Err(ValueError(UnknownContext(ctx)));
    }
    if cols.ListCols? {
      return Err(AttributeError);
    }
    var missing := CollectMissing(cols.defs, form);
    if |missing| > 0 {
      return Err(ValueError(MissingRequired(missing)));
    }
    return Ok(true);
  }
}
