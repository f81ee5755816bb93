/**
 * src/database/database_operations.py: `DatabaseOperations`, which writes its
 * own statements with positional `?` placeholders from the keys of the data
 * it is given.  The sqlite connection is not modelled: what the statement
 * does to the database is left out, and whether sqlite raised an error is a
 * parameter.
 */
module DatabaseOperations {
  import opened Wrappers
  import opened PyValues
  import opened OrderedDict
  import opened Sql

  /** What executing the statement came to: the cursor's `lastrowid`, or a `sqlite3.Error`. */
  datatype Outcome = Executed(lastRowId: int) | SqliteError

  /**
   * `add_item(table_name, data)`: an INSERT naming the data's keys in order
   * with one `?` each, run with the data's values in the same order; the new
   * row id, or -1 when sqlite raised an error.
   */
  function AddItem(table: string, data: seq<Entry<Value>>, outcome: Outcome): (r: (PositionalStatement, int))
    ensures r.0.sql == InsertSql(table, Keys(data), QMarkList(|data|))
    ensures |r.0.args| == |data| && forall i :: 0 <= i < |data| ==> r.0.args[i] == data[i].val
    ensures r.1 == (if outcome.Executed? then outcome.lastRowId else -1)
  {
    var stmt := PositionalStatement(InsertSql(table, Keys(data), QMarkList(|data|)), Values(data));
    match outcome
    case Executed(id) => (stmt, id)
    case SqliteError => (stmt, -1)
  }

  /**
   * `update_item(table_name, item_id, data)`: `k = ?` for each key in order,
   * then `WHERE id = ?`, run with the data's values followed by the item id;
   * True, or False when sqlite raised an error.
   */
  function UpdateItem(table: string, itemId: Value, data: seq<Entry<Value>>, outcome: Outcome): (r: (PositionalStatement, bool))
    ensures r.0.sql == UpdateSql(table, PositionalAssigns(Keys(data)), "id = ?")
    ensures r.0.args == Values(data) + [itemId]
    ensures r.1 <==> outcome.Executed?
  {
    (PositionalStatement(UpdateSql(table, PositionalAssigns(Keys(data)), "id = ?"), Values(data) + [itemId]), outcome.Executed?)
  }

  /** `delete_item(table_name, item_id)`: `DELETE FROM t WHERE id = ?` with the item id; True, or False on a sqlite error. */
  function DeleteItem(table: string, itemId: Value, outcome: Outcome): (r: (PositionalStatement, bool))
    ensures r.0.sql == DeleteSql(table, "id = ?") && r.0.args == [itemId]
    ensures r.1 <==> outcome.Executed?
  {
    (PositionalStatement(DeleteSql(table, "id = ?"), [itemId]), outcome.Executed?)
  }

  /** `clone_item(table_name, item_id)`: the statement is built from a `data` that is not defined there. */
  function CloneItem(table: string, itemId: Value): (r: Result<PositionalStatement>)
    ensures r.Err? && r.error.NameError?
  {
    Err(NameError("data"))
  }

  // ------------------------------------------------------------------ placeholders match arguments

  /** The names in a statement, none of which holds a `?`. */
  predicate PlainNames(table: string, data: seq<Entry<Value>>)
  {
    NoQMark(table) && forall i :: 0 <= i < |data| ==> NoQMark(data[i].key)
  }

  lemma KeysHaveNoQMark(data: seq<Entry<Value>>)
    requires forall i :: 0 <= i < |data| ==> NoQMark(data[i].key)
    ensures QMarks(CommaList(Keys(data))) == 0
  {
    forall i | 0 <= i < |Keys(data)| ensures QMarks(Keys(data)[i]) == 0 {
      QMarksNone(data[i].key);
    }
    QMarksCommaList(Keys(data), 0);
  }

  /** When no name holds a `?`, the insert has exactly as many placeholders as arguments. */
  lemma AddItemPlaceholders(table: string, data: seq<Entry<Value>>, outcome: Outcome)
    requires PlainNames(table, data)
    ensures QMarks(AddItem(table, data, outcome).0.sql) == |AddItem(table, data, outcome).0.args| == |data|
  {
    var cols := CommaList(Keys(data));
    var marks := CommaList(QMarkList(|data|));
    KeysHaveNoQMark(data);
    QMarksCommaList(QMarkList(|data|), 1);
    var head := "INSERT INTO " + table + " (";
    QMarksAfterPlain(head, cols);
    QMarksBeforePlain(head + cols, ") VALUES (");
    QMarksAppend(head + cols + ") VALUES (", marks);
    QMarksBeforePlain(head + cols + ") VALUES (" + marks, ")");
  }

  /** When no name holds a `?`, the update has one placeholder per key plus one for the id: as many as arguments. */
  lemma UpdateItemPlaceholders(table: string, itemId: Value, data: seq<Entry<Value>>, outcome: Outcome)
    requires PlainNames(table, data)
    ensures var s := UpdateItem(table, itemId, data, outcome).0;
      QMarks(s.sql) == |s.args| == |data| + 1 && s.args[|data|] == itemId
  {
    var assigns := PositionalAssigns(Keys(data));
    forall i | 0 <= i < |assigns| ensures QMarks(assigns[i]) == 1 {
      QMarksAfterPlain(data[i].key, " = ?");
      assert QMarks(" = ?") == 1;
    }
    QMarksCommaList(assigns, 1);
    var list := CommaList(assigns);
    var head := "UPDATE " + table + " SET ";
    QMarksAfterPlain(head, list);
    QMarksBeforePlain(head + list, " WHERE ");
    QMarksAppend(head + list + " WHERE ", "id = ?");
    assert QMarks("id = ?") == 1;
  }

  /** When the table name holds no `?`, the delete has the one placeholder its one argument fills. */
  lemma DeleteItemPlaceholders(table: string, itemId: Value, outcome: Outcome)
    requires NoQMark(table)
    ensures QMarks(DeleteItem(table, itemId, outcome).0.sql) == |DeleteItem(table, itemId, outcome).0.args| == 1
  {
    var head := "DELETE FROM " + table + " WHERE ";
    QMarksAfterPlain(head, "id = ?");
    assert QMarks("id = ?") == 1;
  }
}
