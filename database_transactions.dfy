/**
 * src/core/database_transactions.py: the single `DatabaseTransactionManager`
 * and its transaction flag.
 *
 * The database is two layers of statements: `committed`, which is durable,
 * and `pending`, the writes of the transaction the connection has open.  A
 * write always lands in `pending`: either a transaction was begun, or the
 * sqlite3 driver opens one implicitly before a data-changing statement.
 * `connection.commit()` moves `pending` to `committed` and
 * `connection.rollback()` drops it; the manager calls them only while its
 * `in_transaction` flag is set.  Writes pending while the flag is clear are
 * the driver's implicit transaction: an explicit BEGIN then raises.  Whether sqlite accepts a statement is not
 * modelled: it is the `fails` parameter, and a SELECT's rows are given.
 */
module DatabaseTransactions {
  import opened Wrappers
  import opened Text
  import opened PyValues
  import opened OrderedDict
  import opened ConnectionTracking

  // ------------------------------------------------------------------ statements

  /** A statement's parameters: none, a list or tuple, or a dict. */
  datatype Params = NoParams | Positional(args: seq<Value>) | Named(entries: seq<Entry<Value>>)

  /** Parameters with every StringVar replaced by its text, shape, order and keys kept. */
  function Unwrap(p: Params): (r: Params)
    ensures r.NoParams? == p.NoParams? && r.Positional? == p.Positional? && r.Named? == p.Named?
    ensures r.Positional? ==> |r.args| == |p.args| && forall i :: 0 <= i < |p.args| ==> !r.args[i].VVar? && (!p.args[i].VVar? ==> r.args[i] == p.args[i])
    ensures r.Named? ==> Keys(r.entries) == Keys(p.entries) && |r.entries| == |p.entries|
    ensures r.Named? ==> forall i :: 0 <= i < |p.entries| ==>
      !r.entries[i].val.VVar? && (!p.entries[i].val.VVar? ==> r.entries[i].val == p.entries[i].val)
  {
    match p
    case NoParams => NoParams
    case Positional(args) => Positional(seq(|args|, i requires 0 <= i < |args| => Unwrapped(args[i])))
    case Named(entries) =>
      var r := seq(|entries|, i requires 0 <= i < |entries| => Entry(entries[i].key, Unwrapped(entries[i].val)));
      assert forall i :: 0 <= i < |r| ==> Keys(r)[i] == Keys(entries)[i];
      Named(r)
  }

  /** Unwrapping twice is unwrapping once. */
  lemma UnwrapIdempotent(p: Params)
    ensures Unwrap(Unwrap(p)) == Unwrap(p)
  {
    match p
    case NoParams =>
    case Positional(args) =>
      assert Unwrap(Unwrap(p)).args == Unwrap(p).args;
    case Named(entries) =>
      assert Unwrap(Unwrap(p)).entries == Unwrap(p).entries;
  }

  /** An executed statement with its parameters. */
  datatype Write = Write(sql: string, params: Params)

  /** `query.strip().lower().startswith("select")`. */
  predicate IsSelect(sql: string)
  {
    StartsWith(Lower(Strip(sql)), "select")
  }

  // ------------------------------------------------------------------ the transaction state

  /** The manager's flag and the two layers of the database. */
  datatype TxState = TxState(inTransaction: bool, committed: seq<Write>, pending: seq<Write>)

  /**
   * The driver holds an implicit transaction the manager does not know of:
   * writes are pending while the flag is clear.
   */
  predicate DriverOpen(s: TxState)
  {
    !s.inTransaction && s.pending != []
  }

  /**
   * `begin_transaction()`: nothing while a transaction is active; otherwise
   * "BEGIN TRANSACTION;", which sqlite refuses inside the driver's implicit
   * transaction (OperationalError, the flag stays clear), else sets the flag.
   */
  function Begin(s: TxState): (Result<()>, TxState)
  {
    if s.inTransaction then (Ok(()), s)
    else if s.pending != [] then (Err(DatabaseError), s)
    else (Ok(()), s.(inTransaction := true))
  }

  /** `commit_transaction()`: when active, make the pending writes durable and clear the flag. */
  function Commit(s: TxState): TxState
  {
    if s.inTransaction then TxState(false, s.committed + s.pending, []) else s
  }

  /** `rollback_transaction()`: when active, drop the pending writes and clear the flag. */
  function Rollback(s: TxState): TxState
  {
    if s.inTransaction then s.(inTransaction := false, pending := []) else s
  }

  /**
   * Beginning fails exactly inside the driver's implicit transaction, and
   * then changes nothing; otherwise it leaves a transaction active.  Either
   * way the data is as it was, and beginning again changes nothing more.
   */
  lemma BeginIdempotent(s: TxState)
    ensures Begin(s).0.Err? <==> DriverOpen(s)
    ensures Begin(s).0.Err? ==> Begin(s).1 == s
    ensures Begin(s).0.Ok? ==> Begin(s).1.inTransaction
    ensures Begin(s).1.committed == s.committed && Begin(s).1.pending == s.pending
    ensures Begin(Begin(s).1) == Begin(s)
  {
  }

  /**
   * Commit and rollback act only while a transaction is active and always
   * leave the flag clear; commit keeps every write, rollback keeps only the
   * durable ones.
   */
  lemma CommitRollbackSpec(s: TxState)
    ensures !s.inTransaction ==> Commit(s) == s && Rollback(s) == s
    ensures !Commit(s).inTransaction && !Rollback(s).inTransaction
    ensures s.inTransaction ==> Commit(s).committed == s.committed + s.pending && Commit(s).pending == []
    ensures s.inTransaction ==> Rollback(s).committed == s.committed && Rollback(s).pending == []
  {
  }

  /** `execute_non_query`: the error it re-raises, if any, and the state it leaves. */
  function NonQuery(s: TxState, w: Write, transactional: bool, commit: bool, fails: bool): (Result<()>, TxState)
  {
    var (b, begun) := if transactional && !s.inTransaction then Begin(s) else (Ok(()), s);
    if b.Err? || fails then (Err(DatabaseError), if transactional then Rollback(begun) else begun)
    else
      var written := begun.(pending := begun.pending + [w]);
      (Ok(()), if commit then Commit(written) else written)
  }

  /**
   * A transactional write with `commit=True` ends with no transaction open
   * and the write, after whatever was pending, made durable.
   */
  lemma NonQueryCommitted(s: TxState, w: Write)
    requires !DriverOpen(s)
    ensures NonQuery(s, w, true, true, false) == (Ok(()), TxState(false, s.committed + s.pending + [w], []))
  {
    assert s.committed + (s.pending + [w]) == s.committed + s.pending + [w];
  }

  /** Without `commit=True` a transactional write is left staged in an active transaction, for a later commit or rollback. */
  lemma NonQueryStaged(s: TxState, w: Write)
    requires !DriverOpen(s)
    ensures NonQuery(s, w, true, false, false) == (Ok(()), TxState(true, s.committed, s.pending + [w]))
  {
  }

  /** A rollback after staged writes drops them: the durable data is what it was. */
  lemma RollbackUndoesStaged(s: TxState, w: Write)
    requires !DriverOpen(s)
    ensures Rollback(NonQuery(s, w, true, false, false).1) == TxState(false, s.committed, [])
  {
  }

  /** When sqlite refuses a transactional write, the manager rolls back and re-raises; nothing becomes durable. */
  lemma NonQueryFailureRollsBack(s: TxState, w: Write, commit: bool)
    requires !DriverOpen(s)
    ensures NonQuery(s, w, true, commit, true) == (Err(DatabaseError), TxState(false, s.committed, []))
  {
  }

  /**
   * A non-transactional write while idle is not made durable even with
   * `commit=True`: the flag is clear, so `commit_transaction` does nothing.
   */
  lemma NonTransactionalCommitIgnored(s: TxState, w: Write)
    requires !s.inTransaction
    ensures NonQuery(s, w, false, true, false) == (Ok(()), TxState(false, s.committed, s.pending + [w]))
  {
  }

  /** What sqlite does with a statement run by `execute_query`: refuse it, or run it and return these rows. */
  datatype Outcome = Fails | Rows(rows: seq<seq<Entry<Value>>>)

  /**
   * `execute_query`: a SELECT's rows with the transaction it began left
   * active; for any other statement None, after committing it when
   * transactional; on a refusal a rollback and the error.
   */
  function Query(s: TxState, w: Write, transactional: bool, outcome: Outcome): (Result<Option<seq<seq<Entry<Value>>>>>, TxState)
  {
    var (b, begun) := if transactional then Begin(s) else (Ok(()), s);
    if b.Err? || outcome.Fails? then (Err(DatabaseError), if transactional then Rollback(begun) else begun)
    else if IsSelect(w.sql) then (Ok(Some(outcome.rows)), begun)
    else
      var written := begun.(pending := begun.pending + [w]);
      (Ok(None), if transactional then Commit(written) else written)
  }

  /** A transactional SELECT returns its rows and leaves a transaction active, with the data unchanged. */
  lemma SelectLeavesTransactionOpen(s: TxState, w: Write, rows: seq<seq<Entry<Value>>>)
    requires IsSelect(w.sql) && !DriverOpen(s)
    ensures Query(s, w, true, Rows(rows)) == (Ok(Some(rows)), TxState(true, s.committed, s.pending))
  {
  }

  /** A transactional statement that is not a SELECT is committed at once, with whatever was pending. */
  lemma QueryCommitsOtherStatements(s: TxState, w: Write, rows: seq<seq<Entry<Value>>>)
    requires !IsSelect(w.sql) && !DriverOpen(s)
    ensures Query(s, w, true, Rows(rows)) == (Ok(None), TxState(false, s.committed + s.pending + [w], []))
  {
    assert s.committed + (s.pending + [w]) == s.committed + s.pending + [w];
  }

  /**
   * Inside the driver's implicit transaction every transactional call raises
   * at BEGIN, its rollback finds the flag clear, and the writes already
   * pending stay pending.
   */
  lemma DriverOpenRefusesTransactional(s: TxState, w: Write, commit: bool, fails: bool, outcome: Outcome)
    requires DriverOpen(s)
    ensures NonQuery(s, w, true, commit, fails) == (Err(DatabaseError), s)
    ensures Query(s, w, true, outcome) == (Err(DatabaseError), s)
  {
  }

  /**
   * A non-transactional write while idle opens the driver's transaction, so
   * the next transactional write raises and the first write is still only
   * pending.
   */
  lemma {:induction false} NonTransactionalThenTransactional(s: TxState, w1: Write, w2: Write, commit1: bool, commit2: bool)
    requires !s.inTransaction
    ensures var s1 := NonQuery(s, w1, false, commit1, false).1;
      && DriverOpen(s1)
      && NonQuery(s1, w2, true, commit2, false) == (Err(DatabaseError), TxState(false, s.committed, s.pending + [w1]))
  {
    var s1 := NonQuery(s, w1, false, commit1, false).1;
    assert s1 == TxState(false, s.committed, s.pending + [w1]);
    DriverOpenRefusesTransactional(s1, w2, commit2, false, Fails);
  }

  // ------------------------------------------------------------------ the manager

  class TransactionManager {
    const connection: Connection
    var inTransaction: bool
    var committed: seq<Write>
    var pending: seq<Write>

    function State(): TxState
      reads this
    {
      TxState(inTransaction, committed, pending)
    }

    /** `_init(db_path)`: a new connection, no transaction active. */
    constructor (connection: Connection, committed: seq<Write>)
      ensures this.connection == connection && State() == TxState(false, committed, [])
    {
      this.connection := connection;
      inTransaction := false;
      this.committed := committed;
      pending := [];
    }

    method BeginTransaction() returns (r: Result<()>)
      modifies this
      ensures (r, State()) == Begin(old(State()))
    {
      if !inTransaction {
        if pending != [] {
          return Err(DatabaseError);
        }
        inTransaction := true;
      }
      return Ok(());
    }

    method CommitTransaction()
      modifies this
      ensures State() == Commit(old(State()))
    {
      if inTransaction {
        committed := committed + pending;
        pending := [];
        inTransaction := false;
      }
    }

    method RollbackTransaction()
      modifies this
      ensures State() == Rollback(old(State()))
    {
      if inTransaction {
        pending := [];
        inTransaction := false;
      }
    }

    /** `execute_non_query(query, params, transactional, commit)`. */
    method ExecuteNonQuery(sql: string, params: Params, transactional: bool, commit: bool, fails: bool) returns (r: Result<()>)
      modifies this
      ensures (r, State()) == NonQuery(old(State()), Write(sql, Unwrap(params)), transactional, commit, fails)
    {
      var w := Write(sql, Unwrap(params));
      var b := Ok(());
      if transactional && !inTransaction {
        b := BeginTransaction();
      }
      if b.Err? || fails {
        if transactional {
          RollbackTransaction();
        }
        return Err(DatabaseError);
      }
      pending := pending + [w];
      if commit {
        CommitTransaction();
      }
      return Ok(());
    }

    /** `execute_query(query, params, transactional)`. */
    method ExecuteQuery(sql: string, params: Params, transactional: bool, outcome: Outcome)
      returns (r: Result<Option<seq<seq<Entry<Value>>>>>)
      modifies this
      ensures (r, State()) == Query(old(State()), Write(sql, Unwrap(params)), transactional, outcome)
    {
      var w := Write(sql, Unwrap(params));
      var b := Ok(());
      if transactional {
        b := BeginTransaction();
      }
      if b.Err? || outcome.Fails? {
        if transactional {
          RollbackTransaction();
        }
        return Err(DatabaseError);
      }
      if IsSelect(sql) {
        return Ok(Some(outcome.rows));
      }
      pending := pending + [w];
      if transactional {
        CommitTransaction();
      }
      return Ok(None);
    }
  }

  // ------------------------------------------------------------------ the single instance

  /** The class attributes: `_instance` and the shared `connection_tracker`. */
  class ManagerClass {
    var instance: Option<TransactionManager>
    const tracker: ConnectionTracker

    constructor (tracker: ConnectionTracker)
      ensures instance == None && this.tracker == tracker
    {
      instance := None;
      this.tracker := tracker;
    }

    /**
     * `DatabaseTransactionManager(db_path)`: the existing instance whatever
     * the path, else a new one on a new tracked connection.
     */
    method Construct(durable: seq<Write>) returns (m: TransactionManager)
      modifies this, tracker
      ensures old(instance).Some? ==>
        m == old(instance).value && instance == old(instance) && tracker.openConnections == old(tracker.openConnections)
      ensures old(instance).None? ==> fresh(m) && fresh(m.connection) && m.connection.isOpen
      ensures old(instance).None? ==> m.State() == TxState(false, durable, []) && instance == Some(m)
      ensures old(instance).None? ==> tracker.openConnections == old(tracker.openConnections) + [m.connection]
    {
      if instance.Some? {
        return instance.value;
      }
      var connection := new Connection();
      m := new TransactionManager(connection, durable);
      tracker.AddConnection(connection);
      instance := Some(m);
    }

    /** `close()`: close the connection, stop tracking it and forget the instance. */
    method Close(m: TransactionManager)
      modifies this, tracker, m.connection
      ensures !m.connection.isOpen
      ensures tracker.openConnections == RemoveFirst(old(tracker.openConnections), m.connection)
      ensures instance == None
    {
      m.connection.isOpen := false;
      tracker.RemoveConnection(m.connection);
      instance := None;
    }
  }

  // ------------------------------------------------------------------ undo_last_action

  /** What `undo_last_action` reports: nothing to undo, the refreshed rows, or a failure. */
  datatype Undo = NothingToUndo | Undone(rows: seq<seq<Entry<Value>>>) | UndoFailed

  /**
   * `undo_last_action(table, fetch_query)`: with no active transaction it
   * reports so and changes nothing; otherwise it rolls back, then re-reads the
   * table with `fetch_query` (which begins a new transaction).  A refused
   * query, or one that returns no rows list, is reported as a failure.
   */
  function UndoLast(s: TxState, fetchQuery: string, outcome: Outcome): (Undo, TxState)
  {
    if !s.inTransaction then (NothingToUndo, s)
    else
      var (r, after) := Query(Rollback(s), Write(fetchQuery, NoParams), true, outcome);
      (if r.Ok? && r.value.Some? then Undone(r.value.value) else UndoFailed, after)
  }

  /**
   * Undo drops exactly the pending writes: the durable data is kept, and a
   * successful re-read leaves the new transaction it began active and empty.
   */
  lemma UndoDropsPending(s: TxState, fetchQuery: string, rows: seq<seq<Entry<Value>>>)
    requires s.inTransaction && IsSelect(fetchQuery)
    ensures UndoLast(s, fetchQuery, Rows(rows)) == (Undone(rows), TxState(true, s.committed, []))
  {
  }

  /** With no active transaction undo rolls nothing back. */
  lemma UndoIdleNoop(s: TxState, fetchQuery: string, outcome: Outcome)
    requires !s.inTransaction
    ensures UndoLast(s, fetchQuery, outcome) == (NothingToUndo, s)
  {
  }

  method UndoLastAction(m: TransactionManager, fetchQuery: string, outcome: Outcome) returns (u: Undo)
    modifies m
    ensures (u, m.State()) == UndoLast(old(m.State()), fetchQuery, outcome)
  {
    if !m.inTransaction {
      return NothingToUndo;
    }
    m.RollbackTransaction();
    var rows := m.ExecuteQuery(fetchQuery, NoParams, true, outcome);
    if rows.Ok? && rows.value.Some? {
      return Undone(rows.value.value);
    }
    return UndoFailed;
  }
}
