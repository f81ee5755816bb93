/**
 * src/database/tracker.py, and the identical `ConnectionTracker` of
 * src/core/database_transactions.py (which differs only in debug output
 * that is switched off): a list of open connections.
 */
module ConnectionTracking {

  /** An sqlite connection, as far as the tracker sees it: open until `close()`. */
  class Connection {
    var isOpen: bool

    constructor ()
      ensures isOpen
    {
      isOpen := true;
    }
  }

  /** `lst.remove(x)` when `x in lst`: the list without its first occurrence of `x`. */
  function RemoveFirst<T(==)>(s: seq<T>, x: T): (r: seq<T>)
    ensures x !in s ==> r == s
    ensures x in s ==> |r| == |s| - 1
  {
    if |s| == 0 then []
    else if s[0] == x then s[1..]
    else [s[0]] + RemoveFirst(s[1..], x)
  }

  /** Removing takes out the first occurrence and keeps every other entry in order. */
  lemma {:induction false} RemoveFirstAt<T>(s: seq<T>, x: T, i: nat)
    requires i < |s| && s[i] == x && x !in s[..i]
    ensures RemoveFirst(s, x) == s[..i] + s[i + 1..]
  {
    if i > 0 {
      assert s[0] in s[..i];
      assert s[1..][..i - 1] == s[1..i];
      RemoveFirstAt(s[1..], x, i - 1);
      assert s[..i] == [s[0]] + s[1..i];
    }
  }

  /** Removing takes out exactly one occurrence: the multiset of entries loses one `x`. */
  lemma {:induction false} RemoveFirstCount<T>(s: seq<T>, x: T)
    requires x in s
    ensures multiset(RemoveFirst(s, x)) == multiset(s) - multiset{x}
  {
    assert s == [s[0]] + s[1..];
    if s[0] != x {
      RemoveFirstCount(s[1..], x);
    }
  }

  class ConnectionTracker {
    var openConnections: seq<Connection>

    constructor ()
      ensures openConnections == []
    {
      openConnections := [];
    }

    /** `add_connection(connection)`: appended, even when already tracked. */
    method AddConnection(connection: Connection)
      modifies this
      ensures openConnections == old(openConnections) + [connection]
    {
      openConnections := openConnections + [connection];
    }

    /** `remove_connection(connection)`: its first occurrence goes; an untracked one is ignored. */
    method RemoveConnection(connection: Connection)
      modifies this
      ensures openConnections == RemoveFirst(old(openConnections), connection)
    {
      if connection in openConnections {
        openConnections := RemoveFirst(openConnections, connection);
      }
    }

    /**
     * `force_close_all()`: close each tracked connection, in the order of a
     * copy of the list, and remove it; the list ends empty.
     */
    method ForceCloseAll()
      modifies this, set c | c in openConnections
      ensures openConnections == []
      ensures forall c :: c in old(openConnections) ==> !c.isOpen
    {
      var snapshot := openConnections;
      var i := 0;
      while i < |snapshot|
        invariant 0 <= i <= |snapshot|
        invariant openConnections == snapshot[i..]
        invariant forall j :: 0 <= j < i ==> !snapshot[j].isOpen
      {
        snapshot[i].isOpen := false;
        RemoveConnection(snapshot[i]);
        assert snapshot[i..] == [snapshot[i]] + snapshot[i + 1..];
        i := i + 1;
      }
    }
  }

  /** Adding a connection and removing it again restores the list when it was not tracked before. */
  lemma {:induction false} AddThenRemove<T>(s: seq<T>, x: T)
    requires x !in s
    ensures RemoveFirst(s + [x], x) == s
  {
    if |s| > 0 {
      assert (s + [x])[1..] == s[1..] + [x];
      AddThenRemove(s[1..], x);
    }
  }
}
