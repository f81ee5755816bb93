/**
 * The Python values that flow through column metadata, form fields and query
 * parameters, with the three built-ins the modelled code applies to them:
 * truthiness (`if not value`), equality (`==`, `in`) and `int()`, plus `str()`.
 */
module PyValues {
  import opened Wrappers
  import opened Text

  /**
   * A Python value.  `VFloat` carries the float's `repr` (float arithmetic is
   * not modelled); `VList` is a list, tuple or set literal, used by the source
   * only for membership tests; `VVar` is a tkinter `StringVar`, identified by its
   * Tcl variable name and holding its current text.
   */
  datatype Value =
    | VNone
    | VBool(b: bool)
    | VInt(i: int)
    | VFloat(repr: string)
    | VStr(s: string)
    | VList(items: seq<Value>)
    | VVar(name: string, text: string)

  /** Python truthiness: `bool(v)`. */
  predicate Truthy(v: Value)
  {
    match v
    case VNone => false
    case VBool(b) => b
    case VInt(i) => i != 0
    case VFloat(r) => r != "0.0" && r != "-0.0"
    case VStr(s) => s != ""
    case VList(items) => |items| > 0
    case VVar(_, _) => true
  }

  /** Python `a == b`: bools compare as the ints 0 and 1; a StringVar equals one with the same name. */
  predicate PyEq(a: Value, b: Value)
  {
    match (a, b)
    case (VNone, VNone) => true
    case (VBool(x), VBool(y)) => x == y
    case (VBool(x), VInt(y)) => (if x then 1 else 0) == y
    case (VInt(x), VBool(y)) => x == (if y then 1 else 0)
    case (VInt(x), VInt(y)) => x == y
    case (VFloat(x), VFloat(y)) => x == y
    case (VStr(x), VStr(y)) => x == y
    case (VList(x), VList(y)) => |x| == |y| && forall i :: 0 <= i < |x| ==> PyEq(x[i], y[i])
    case (VVar(x, _), VVar(y, _)) => x == y
    case _ => false
  }

  /** Every value equals itself. */
  lemma {:induction false} PyEqReflexive(v: Value)
    ensures PyEq(v, v)
  {
    match v
    case VList(items) =>
      forall i | 0 <= i < |items| ensures PyEq(items[i], items[i]) {
        PyEqReflexive(items[i]);
      }
    case _ =>
  }

  /** Python `v in items` for a list, tuple or set. */
  predicate In(v: Value, items: seq<Value>)
  {
    exists i :: 0 <= i < |items| && PyEq(v, items[i])
  }

  /**
   * Python `v in collection`: element membership in a list, a substring test
   * in a string (TypeError unless `v` is a string too), and TypeError for a
   * collection that is neither.
   */
  function InValue(v: Value, collection: Value): (r: Result<bool>)
    ensures collection.VList? ==> r == Ok(In(v, collection.items))
    ensures collection.VStr? ==> (r.Ok? <==> v.VStr?) && (v.VStr? ==> r.value == Contains(collection.s, v.s))
    ensures !collection.VList? && !collection.VStr? ==> r == Err(TypeError)
  {
    match collection
    case VList(items) => Ok(In(v, items))
    case VStr(s) => if v.VStr? then Ok(Contains(s, v.s)) else Err(TypeError)
    case _ => Err(TypeError)
  }

  /** `value.get()` when the value is a StringVar, the value itself otherwise. */
  function Unwrapped(v: Value): (r: Value)
    ensures !r.VVar?
    ensures v.VVar? ==> r == VStr(v.text)
    ensures !v.VVar? ==> r == v
  {
    if v.VVar? then VStr(v.text) else v
  }

  /** Python `str(v)`. */
  function Str(v: Value): string
    decreases v, 0
  {
    match v
    case VNone => "None"
    case VBool(b) => if b then "True" else "False"
    case VInt(i) => IntToString(i)
    case VFloat(r) => r
    case VStr(s) => s
    case VList(items) => "[" + Join(seq(|items|, i requires 0 <= i < |items| => Repr(items[i])), ", ") + "]"
    case VVar(name, _) => name
  }

  /** Python `repr(v)` as it appears inside a list; strings are shown in single quotes. */
  function Repr(v: Value): string
    decreases v, 1
  {
    match v
    case VStr(s) => "'" + s + "'"
    case VList(items) => "[" + Join(seq(|items|, i requires 0 <= i < |items| => Repr(items[i])), ", ") + "]"
    case _ => Str(v)
  }

  /**
   * The integer part of a float written as `[-]digits.digits`, which is how
   * Python prints every finite float of magnitude between 1e-4 and 1e16.
   */
  function TruncFloat(r: string): Option<int>
  {
    match IndexOf(r, ".")
    case None => None
    case Some(i) =>
      var whole := r[..i];
      var frac := r[i + 1..];
      if |frac| > 0 && AllDigits(frac) && (|whole| == 0 || whole[0] != ' ') then ParseInt(whole) else None
  }

  /** Python `int(v)`. */
  function Int(v: Value): (r: Result<int>)
    ensures v.VInt? ==> r == Ok(v.i)
    ensures v.VNone? || v.VList? || v.VVar? ==> r == Err(TypeError)
    ensures v.VStr? ==> (r.Ok? <==> ParseInt(v.s).Some?)
  {
    match v
    case VBool(b) => Ok(if b then 1 else 0)
    case VInt(i) => Ok(i)
    case VFloat(repr) =>
      (match TruncFloat(repr) case Some(n) => Ok(n) case None => Err(ValueError(InvalidLiteral(repr))))
    case VStr(s) =>
      (match ParseInt(s) case Some(n) => Ok(n) case None => Err(ValueError(InvalidLiteral(s))))
    case _ => Err(TypeError)
  }

  /** `int(str(n)) == n`: what `str()` prints for an int, `int()` reads back. */
  lemma IntStrRoundTrip(n: int)
    ensures Int(VStr(Str(VInt(n)))) == Ok(n)
  {
    IntRoundTrip(n);
  }

  /** The empty string is falsy and `int("")` raises ValueError. */
  lemma EmptyStringNotInt()
    ensures !Truthy(VStr("")) && Int(VStr("")).Err? && Int(VStr("")).error.ValueError?
  {
    ParseIntNeedsDigit("");
    assert Int(VStr("")) == Err(ValueError(InvalidLiteral("")));
  }
}
