/**
 * The pieces every statement generator assembles its SQL text from: a
 * comma-separated column list, the `:col` named placeholders bound to a list of
 * columns, `col = :col` and `col = ?` assignments, and the four statement
 * shapes.  Generated text is never parsed or run; what is proved is that the
 * column lists can be read back from it.
 */
module Sql {
  import opened Text
  import opened PyValues
  import opened OrderedDict

  /** The four statements the generators return as a dict. */
  datatype QuerySet = QuerySet(fetch: string, insert: string, update: string, delete: string)

  /** A statement handed to the executor with named parameters (a dict). */
  datatype Statement = Statement(sql: string, params: seq<Entry<Value>>)

  /** A statement handed to sqlite with positional parameters (a tuple). */
  datatype PositionalStatement = PositionalStatement(sql: string, args: seq<Value>)

  /** `", ".join(cols)`. */
  function CommaList(cols: seq<string>): string
  {
    Join(cols, ", ")
  }

  /** `f":{col}" for col in cols`: one named placeholder per column. */
  function Binds(cols: seq<string>): (r: seq<string>)
    ensures |r| == |cols| && forall i :: 0 <= i < |cols| ==> r[i] == ":" + cols[i]
  {
    seq(|cols|, i requires 0 <= i < |cols| => ":" + cols[i])
  }

  /** `f"{col} = :{col}" for col in cols`: each column assigned from its own named parameter. */
  function NamedAssigns(cols: seq<string>): (r: seq<string>)
    ensures |r| == |cols| && forall i :: 0 <= i < |cols| ==> r[i] == cols[i] + " = :" + cols[i]
  {
    seq(|cols|, i requires 0 <= i < |cols| => cols[i] + " = :" + cols[i])
  }

  /** `f"{col} = ?" for col in cols`: each column assigned from the next positional parameter. */
  function PositionalAssigns(cols: seq<string>): (r: seq<string>)
    ensures |r| == |cols| && forall i :: 0 <= i < |cols| ==> r[i] == cols[i] + " = ?"
  {
    seq(|cols|, i requires 0 <= i < |cols| => cols[i] + " = ?")
  }

  /** `f"SELECT {', '.join(cols)} FROM {table}"`. */
  function SelectSql(cols: seq<string>, table: string): string
  {
    "SELECT " + CommaList(cols) + " FROM " + table
  }

  /** `f"INSERT INTO {table} ({', '.join(cols)}) VALUES ({', '.join(values)})"`. */
  function InsertSql(table: string, cols: seq<string>, values: seq<string>): string
  {
    "INSERT INTO " + table + " (" + CommaList(cols) + ") VALUES (" + CommaList(values) + ")"
  }

  /** `f"UPDATE {table} SET {', '.join(assigns)} WHERE {condition}"`. */
  function UpdateSql(table: string, assigns: seq<string>, condition: string): string
  {
    "UPDATE " + table + " SET " + CommaList(assigns) + " WHERE " + condition
  }

  /** `f"DELETE FROM {table} WHERE {condition}"`. */
  function DeleteSql(table: string, condition: string): string
  {
    "DELETE FROM " + table + " WHERE " + condition
  }

  /** `f"{base_query} ORDER BY {column} {direction}"`. */
  function OrderBySql(base: string, column: string, direction: string): (r: string)
    ensures StartsWith(r, base)
  {
    base + " ORDER BY " + column + " " + direction
  }

  /** A column name with no comma in it, as every configured name is. */
  predicate NoComma(s: string)
  {
    forall i :: 0 <= i < |s| ==> s[i] != ','
  }

  /**
   * A column list and its placeholder list can be read back from the text by
   * splitting at ", ": the generated text determines which columns, in which
   * order, a statement names and binds.
   */
  lemma ColumnListRoundTrip(cols: seq<string>)
    requires |cols| > 0 && forall k :: 0 <= k < |cols| ==> NoComma(cols[k])
    ensures Split(CommaList(cols), ", ") == cols
    ensures Split(CommaList(Binds(cols)), ", ") == Binds(cols)
  {
    SplitJoin(cols, ", ");
    var b := Binds(cols);
    forall k, c | 0 <= k < |b| && 0 <= c < |b[k]| ensures b[k][c] != ", "[0] {
      if c > 0 {
        assert b[k][c] == cols[k][c - 1];
      }
    }
    SplitJoin(b, ", ");
  }

  // ---------------------------------------------------------------- positional placeholders

  /** `["?" for _ in cols]`: one positional placeholder per column. */
  function QMarkList(n: nat): (r: seq<string>)
    ensures |r| == n && forall i :: 0 <= i < n ==> r[i] == "?"
  {
    seq(n, i => "?")
  }

  /** The number of `?` characters in a text: the positional parameters sqlite will expect. */
  function QMarks(s: string): nat
  {
    if |s| == 0 then 0 else (if s[0] == '?' then 1 else 0) + QMarks(s[1..])
  }

  /** A name with no `?` in it, as every configured name is. */
  predicate NoQMark(s: string)
  {
    forall i :: 0 <= i < |s| ==> s[i] != '?'
  }

  lemma {:induction false} QMarksAppend(a: string, b: string)
    ensures QMarks(a + b) == QMarks(a) + QMarks(b)
  {
    if |a| == 0 {
      assert a + b == b;
    } else {
      assert (a + b)[1..] == a[1..] + b;
      QMarksAppend(a[1..], b);
    }
  }

  lemma {:induction false} QMarksNone(s: string)
    requires NoQMark(s)
    ensures QMarks(s) == 0
  {
    if |s| > 0 {
      QMarksNone(s[1..]);
    }
  }

  /** Text with no placeholder in front adds none. */
  lemma QMarksAfterPlain(a: string, b: string)
    requires NoQMark(a)
    ensures QMarks(a + b) == QMarks(b)
  {
    QMarksNone(a);
    QMarksAppend(a, b);
  }

  /** Text with no placeholder behind adds none. */
  lemma QMarksBeforePlain(a: string, b: string)
    requires NoQMark(b)
    ensures QMarks(a + b) == QMarks(a)
  {
    QMarksNone(b);
    QMarksAppend(a, b);
  }

  /** A comma list of parts with `m` placeholders each holds `m` per part. */
  lemma {:induction false} QMarksCommaList(parts: seq<string>, m: nat)
    requires forall i :: 0 <= i < |parts| ==> QMarks(parts[i]) == m
    ensures QMarks(CommaList(parts)) == m * |parts|
  {
    if |parts| > 1 {
      QMarksCommaList(parts[1..], m);
      QMarksAppend(parts[0] + ", ", CommaList(parts[1..]));
      QMarksAppend(parts[0], ", ");
      assert QMarks(", ") == 0;
    }
  }
}
