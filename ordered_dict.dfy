/**
 * A Python dict with string keys, as the sequence of its entries in insertion
 * order.  Dict order is observable everywhere in the modelled code: it fixes the
 * column order of every generated statement and of every parameter list.
 */
module OrderedDict {
  import opened Wrappers

  datatype Entry<V> = Entry(key: string, val: V)

  /** `list(d.keys())`. */
  function Keys<V>(d: seq<Entry<V>>): (r: seq<string>)
    ensures |r| == |d| && forall i :: 0 <= i < |d| ==> r[i] == d[i].key
  {
    if |d| == 0 then [] else [d[0].key] + Keys(d[1..])
  }

  /** `d.values()`, in order. */
  function Values<V>(d: seq<Entry<V>>): (r: seq<V>)
    ensures |r| == |d| && forall i :: 0 <= i < |d| ==> r[i] == d[i].val
  {
    seq(|d|, i requires 0 <= i < |d| => d[i].val)
  }

  /** A dict never holds the same key twice. */
  predicate UniqueKeys<V>(d: seq<Entry<V>>)
  {
    forall i, j :: 0 <= i < j < |d| ==> d[i].key != d[j].key
  }

  /** `k in d`. */
  predicate HasKey<V>(d: seq<Entry<V>>, k: string)
  {
    k in Keys(d)
  }

  /** `d.get(k)`: the value stored under `k`, or None. */
  function Get<V>(d: seq<Entry<V>>, k: string): (r: Option<V>)
    ensures r.Some? <==> HasKey(d, k)
    ensures r.Some? ==> Entry(k, r.value) in d
  {
    if |d| == 0 then None
    else if d[0].key == k then Some(d[0].val)
    else Get(d[1..], k)
  }

  /** In a dict with unique keys, `Get` finds the value at the key's position. */
  lemma {:induction false} GetAt<V>(d: seq<Entry<V>>, i: nat)
    requires UniqueKeys(d) && i < |d|
    ensures Get(d, d[i].key) == Some(d[i].val)
  {
    if i > 0 {
      GetAt(d[1..], i - 1);
    }
  }

  /** `d.get(k, default)`. */
  function GetOr<V>(d: seq<Entry<V>>, k: string, default: V): V
  {
    match Get(d, k)
    case Some(v) => v
    case None => default
  }

  /** `d[k] = v`: replaces the value in place when `k` is present, else appends the entry. */
  function Set<V>(d: seq<Entry<V>>, k: string, v: V): (r: seq<Entry<V>>)
  {
    if |d| == 0 then [Entry(k, v)]
    else if d[0].key == k then [Entry(k, v)] + d[1..]
    else [d[0]] + Set(d[1..], k, v)
  }

  /** After `d[k] = v`, `k` maps to `v`. */
  lemma {:induction false} SetGetSame<V>(d: seq<Entry<V>>, k: string, v: V)
    ensures Get(Set(d, k, v), k) == Some(v)
  {
    if |d| > 0 && d[0].key != k {
      SetGetSame(d[1..], k, v);
    }
  }

  /** `d[k] = v` leaves the value under every other key alone. */
  lemma {:induction false} SetGetOther<V>(d: seq<Entry<V>>, k: string, v: V, k': string)
    requires k' != k
    ensures Get(Set(d, k, v), k') == Get(d, k')
  {
    if |d| > 0 && d[0].key != k {
      SetGetOther(d[1..], k, v, k');
    } else if |d| > 0 {
      assert Set(d, k, v)[1..] == d[1..];
    }
  }

  /** `d[k] = v` keeps the key order, and appends `k` only when it was absent. */
  lemma {:induction false} SetKeys<V>(d: seq<Entry<V>>, k: string, v: V)
    ensures Keys(Set(d, k, v)) == if HasKey(d, k) then Keys(d) else Keys(d) + [k]
  {
    if |d| > 0 {
      if d[0].key != k {
        SetKeys(d[1..], k, v);
      }
    }
  }

  /** `d[k] = v` for a new key appends the entry. */
  lemma {:induction false} SetAbsentAppends<V>(d: seq<Entry<V>>, k: string, v: V)
    requires !HasKey(d, k)
    ensures Set(d, k, v) == d + [Entry(k, v)]
  {
    if |d| > 0 {
      assert Keys(d)[0] == d[0].key;
      assert Keys(d[1..]) == Keys(d)[1..];
      SetAbsentAppends(d[1..], k, v);
    }
  }

  /** `d[k] = v` keeps the keys unique. */
  lemma SetUnique<V>(d: seq<Entry<V>>, k: string, v: V)
    requires UniqueKeys(d)
    ensures UniqueKeys(Set(d, k, v))
  {
    var r := Set(d, k, v);
    SetKeys(d, k, v);
    forall i, j | 0 <= i < j < |r| ensures r[i].key != r[j].key {
      assert Keys(r)[i] == r[i].key && Keys(r)[j] == r[j].key;
      if j == |d| {
        assert !HasKey(d, k);
        assert r[i].key == d[i].key;
      } else {
        assert r[i].key == d[i].key && r[j].key == d[j].key;
      }
    }
  }

  // ------------------------------------------------------------------ filters

  /** `{k: v for k, v in d.items() if keep(k, v)}`. */
  function Filter<V>(d: seq<Entry<V>>, keep: (string, V) -> bool): (r: seq<Entry<V>>)
  {
    if |d| == 0 then []
    else (if keep(d[0].key, d[0].val) then [d[0]] else []) + Filter(d[1..], keep)
  }

  /** An entry survives the filter exactly when it was in the dict and passes the test. */
  lemma {:induction false} FilterMember<V>(d: seq<Entry<V>>, keep: (string, V) -> bool, e: Entry<V>)
    ensures e in Filter(d, keep) <==> e in d && keep(e.key, e.val)
  {
    if |d| > 0 {
      FilterMember(d[1..], keep, e);
      assert d == [d[0]] + d[1..];
    }
  }

  /** Filtering commutes with concatenation, so it keeps the relative order of the survivors. */
  lemma {:induction false} FilterAppend<V>(a: seq<Entry<V>>, b: seq<Entry<V>>, keep: (string, V) -> bool)
    ensures Filter(a + b, keep) == Filter(a, keep) + Filter(b, keep)
  {
    if |a| > 0 {
      assert (a + b)[1..] == a[1..] + b;
      FilterAppend(a[1..], b, keep);
    } else {
      assert a + b == b;
    }
  }

  /** A filter never invents keys, so it keeps them unique. */
  lemma {:induction false} FilterUnique<V>(d: seq<Entry<V>>, keep: (string, V) -> bool)
    requires UniqueKeys(d)
    ensures UniqueKeys(Filter(d, keep))
  {
    if |d| > 0 {
      FilterUnique(d[1..], keep);
      var t := Filter(d[1..], keep);
      forall j | 0 <= j < |t| ensures t[j].key != d[0].key {
        FilterMember(d[1..], keep, t[j]);
        var m :| 0 <= m < |d[1..]| && d[1..][m] == t[j];
        assert d[m + 1] == t[j];
      }
    }
  }

  /** The tail of a dict with unique keys has unique keys and lacks the head's key. */
  lemma UniqueTail<V>(d: seq<Entry<V>>)
    requires UniqueKeys(d) && |d| > 0
    ensures UniqueKeys(d[1..]) && !HasKey(d[1..], d[0].key)
  {
    forall i | 0 <= i < |d| - 1 ensures Keys(d[1..])[i] != d[0].key {
      assert d[1..][i] == d[i + 1];
    }
  }

  /** Looking a key up in a filtered dict finds its original value if it passes, and nothing otherwise. */
  lemma {:induction false} FilterGet<V>(d: seq<Entry<V>>, keep: (string, V) -> bool, k: string)
    requires UniqueKeys(d)
    ensures Get(Filter(d, keep), k) == if Get(d, k).Some? && keep(k, Get(d, k).value) then Get(d, k) else None
  {
    if |d| > 0 {
      var t := Filter(d[1..], keep);
      UniqueTail(d);
      FilterGet(d[1..], keep, k);
      if keep(d[0].key, d[0].val) {
        assert Filter(d, keep) == [d[0]] + t;
      } else {
        assert Filter(d, keep) == t;
      }
    }
  }

  /** Filtering twice with the same test is filtering once. */
  lemma {:induction false} FilterIdempotent<V>(d: seq<Entry<V>>, keep: (string, V) -> bool)
    ensures Filter(Filter(d, keep), keep) == Filter(d, keep)
  {
    if |d| > 0 {
      FilterIdempotent(d[1..], keep);
      var head := if keep(d[0].key, d[0].val) then [d[0]] else [];
      FilterAppend(head, Filter(d[1..], keep), keep);
      if keep(d[0].key, d[0].val) {
        assert Filter(head, keep) == [d[0]] + Filter(head[1..], keep);
      }
    }
  }

  /** A filter that every entry passes returns the dict unchanged. */
  lemma {:induction false} FilterAll<V>(d: seq<Entry<V>>, keep: (string, V) -> bool)
    requires forall i :: 0 <= i < |d| ==> keep(d[i].key, d[i].val)
    ensures Filter(d, keep) == d
  {
    if |d| > 0 {
      FilterAll(d[1..], keep);
    }
  }

  /** A filter whose test implies another's keeps no more than the other. */
  lemma {:induction false} FilterLength<V>(d: seq<Entry<V>>, keep: (string, V) -> bool)
    ensures |Filter(d, keep)| <= |d|
  {
    if |d| > 0 {
      FilterLength(d[1..], keep);
    }
  }

  // ------------------------------------------------------------------ sub-dicts

  /** `a` is `b` with some entries left out, the rest in their original order. */
  ghost predicate Subsequence<T>(a: seq<T>, b: seq<T>)
    decreases |b|
  {
    if |a| == 0 then true
    else if |b| == 0 then false
    else if a[0] == b[0] then Subsequence(a[1..], b[1..])
    else Subsequence(a, b[1..])
  }

  lemma {:induction false} SubsequenceMember<T>(a: seq<T>, b: seq<T>, x: T)
    requires Subsequence(a, b) && x in a
    ensures x in b
    decreases |b|
  {
    if a[0] == b[0] {
      if x != a[0] {
        assert x in a[1..];
        SubsequenceMember(a[1..], b[1..], x);
      }
    } else {
      SubsequenceMember(a, b[1..], x);
    }
  }

  /**
   * `r` is the sub-dict of `d` holding exactly the entries that pass `keep`,
   * in the order they have in `d`, with unchanged values.
   */
  ghost predicate Selects<V>(r: seq<Entry<V>>, d: seq<Entry<V>>, keep: (string, V) -> bool)
  {
    && Subsequence(r, d)
    && (forall i :: 0 <= i < |r| ==> keep(r[i].key, r[i].val))
    && (forall i :: 0 <= i < |d| && keep(d[i].key, d[i].val) ==> d[i] in r)
  }

  /** The dict comprehension selects exactly the passing entries, in order. */
  lemma {:induction false} FilterSelects<V>(d: seq<Entry<V>>, keep: (string, V) -> bool)
    ensures Selects(Filter(d, keep), d, keep)
  {
    var r := Filter(d, keep);
    forall i | 0 <= i < |r| ensures keep(r[i].key, r[i].val) {
      FilterMember(d, keep, r[i]);
    }
    forall i | 0 <= i < |d| && keep(d[i].key, d[i].val) ensures d[i] in r {
      FilterMember(d, keep, d[i]);
    }
    FilterSubsequence(d, keep);
  }

  lemma {:induction false} FilterSubsequence<V>(d: seq<Entry<V>>, keep: (string, V) -> bool)
    ensures Subsequence(Filter(d, keep), d)
  {
    if |d| > 0 {
      FilterSubsequence(d[1..], keep);
      var t := Filter(d[1..], keep);
      if keep(d[0].key, d[0].val) {
        assert Filter(d, keep) == [d[0]] + t;
        assert ([d[0]] + t)[1..] == t;
      } else {
        assert Filter(d, keep) == t;
        SubsequenceSkip(t, d);
      }
    }
  }

  /** A subsequence of the tail is a subsequence of the whole. */
  lemma {:induction false} SubsequenceSkip<T>(a: seq<T>, b: seq<T>)
    requires |b| > 0 && Subsequence(a, b[1..])
    ensures Subsequence(a, b)
    decreases |b|, |a|
  {
    if |a| > 0 && a[0] == b[0] {
      if |a| > 1 {
        assert |b[1..]| > 0;
        SubsequenceDrop(a, b[1..]);
      }
    }
  }

  /** Dropping the first element of a subsequence keeps it a subsequence. */
  lemma {:induction false} SubsequenceDrop<T>(a: seq<T>, b: seq<T>)
    requires |a| > 0 && Subsequence(a, b)
    ensures Subsequence(a[1..], b)
    decreases |b|, |a|
  {
    if a[0] == b[0] {
      if |a| > 1 {
        SubsequenceSkip(a[1..], b);
      }
    } else {
      SubsequenceDrop(a, b[1..]);
      SubsequenceSkip(a[1..], b);
    }
  }

  /**
   * The sub-dict is determined by the test: in a dict with unique keys, two
   * order-preserving selections of the same entries are equal.  So `Selects`
   * is a complete description of a filtering dict comprehension.
   */
  lemma {:induction false} SelectsUnique<V>(r1: seq<Entry<V>>, r2: seq<Entry<V>>, d: seq<Entry<V>>, keep: (string, V) -> bool)
    requires UniqueKeys(d) && Selects(r1, d, keep) && Selects(r2, d, keep)
    ensures r1 == r2
    decreases |d|
  {
    if |d| > 0 {
      UniqueTail(d);
      var tail := d[1..];
      forall i | 0 <= i < |tail| ensures tail[i] != d[0] {
        assert Keys(tail)[i] == tail[i].key;
      }
      var t1 := SelectsTail(r1, d, keep);
      var t2 := SelectsTail(r2, d, keep);
      SelectsUnique(t1, t2, tail, keep);
    }
  }

  /**
   * Peeling the head of `d` off a selection: what is left selects from the tail,
   * and the selection starts with the head exactly when the head passes.
   */
  lemma SelectsTail<V>(r: seq<Entry<V>>, d: seq<Entry<V>>, keep: (string, V) -> bool) returns (t: seq<Entry<V>>)
    requires |d| > 0 && d[0] !in d[1..] && Selects(r, d, keep)
    ensures Selects(t, d[1..], keep)
    ensures r == if keep(d[0].key, d[0].val) then [d[0]] + t else t
  {
    if keep(d[0].key, d[0].val) {
      assert d[0] in d;
      assert d[0] in r;
      if r[0] != d[0] {
        SubsequenceMember(r, d[1..], d[0]);
      }
      t := r[1..];
      assert r == [d[0]] + t;
      forall e ensures e in t <==> e in d[1..] && keep(e.key, e.val) {
        if e in t {
          assert e in r;
          SubsequenceMember(t, d[1..], e);
        }
        if e in d[1..] && keep(e.key, e.val) {
          assert e in d;
          assert e in r;
          assert e != d[0];
        }
      }
    } else {
      t := r;
      if |r| > 0 {
        assert r[0] in r;
        assert r[0] != d[0];
      }
      forall e ensures e in t <==> e in d[1..] && keep(e.key, e.val) {
        if e in t {
          SubsequenceMember(t, d[1..], e);
        }
        if e in d[1..] {
          assert e in d;
        }
      }
    }
  }

  /** The positions of `d` listed in `idx`, in that order. */
  function Pick<V>(d: seq<Entry<V>>, idx: seq<int>): (r: seq<Entry<V>>)
    requires forall j :: 0 <= j < |idx| ==> 0 <= idx[j] < |d|
    ensures |r| == |idx| && forall j :: 0 <= j < |idx| ==> r[j] == d[idx[j]]
  {
    seq(|idx|, j requires 0 <= j < |idx| => d[idx[j]])
  }

  /** Strictly increasing positions, all inside `d`. */
  ghost predicate Positions<V>(d: seq<Entry<V>>, idx: seq<int>)
  {
    && (forall j :: 0 <= j < |idx| ==> 0 <= idx[j] < |d|)
    && (forall j, j' :: 0 <= j < j' < |idx| ==> idx[j] < idx[j'])
  }

  /** Position 0 is listed exactly when it comes first. */
  lemma ZeroFirst<V>(d: seq<Entry<V>>, idx: seq<int>)
    requires Positions(d, idx)
    ensures 0 in idx <==> |idx| > 0 && idx[0] == 0
  {
    if |idx| > 0 && idx[0] != 0 {
      forall j | 0 <= j < |idx| ensures idx[j] != 0 {
        if j > 0 { assert idx[0] < idx[j]; }
      }
    }
  }

  /** The positions other than 0, in order: all of them lie in 1 .. |d| - 1. */
  lemma RestAboveZero<V>(d: seq<Entry<V>>, idx: seq<int>) returns (rest: seq<int>)
    requires Positions(d, idx)
    ensures rest == if |idx| > 0 && idx[0] == 0 then idx[1..] else idx
    ensures forall j :: 0 <= j < |rest| ==> 1 <= rest[j] < |d|
    ensures forall j, j' :: 0 <= j < j' < |rest| ==> rest[j] < rest[j']
  {
    var headKept := |idx| > 0 && idx[0] == 0;
    rest := if headKept then idx[1..] else idx;
    forall j | 0 <= j < |rest| ensures 1 <= rest[j] {
      if headKept {
        assert idx[0] < idx[j + 1];
      } else if j > 0 {
        assert idx[0] < idx[j];
      }
    }
  }

  /** Dropping the first `k` positions and moving the rest down by one moves membership down by one. */
  lemma ShiftedMembers(idx: seq<int>, k: nat, shifted: seq<int>)
    requires k <= |idx| && k <= 1
    requires k == 1 ==> idx[0] == 0
    requires forall j :: k <= j < |idx| ==> idx[j] != 0
    requires |shifted| == |idx| - k && forall j :: 0 <= j < |shifted| ==> shifted[j] == idx[j + k] - 1
    ensures forall i :: 0 <= i ==> (i + 1 in idx <==> i in shifted)
  {
    forall i | 0 <= i ensures i + 1 in idx <==> i in shifted {
      if i + 1 in idx {
        var j :| 0 <= j < |idx| && idx[j] == i + 1;
        assert shifted[j - k] == i;
      }
      if i in shifted {
        var j :| 0 <= j < |shifted| && shifted[j] == i;
        assert idx[j + k] == i + 1;
      }
    }
  }

  /** The positions of the tail of `d`, moved down by one, once position 0 is removed. */
  lemma ShiftPositions<V>(d: seq<Entry<V>>, idx: seq<int>) returns (shifted: seq<int>)
    requires |d| > 0 && Positions(d, idx)
    ensures Positions(d[1..], shifted)
    ensures forall i :: 0 <= i < |d| - 1 ==> (i + 1 in idx <==> i in shifted)
    ensures |idx| > 0 && idx[0] == 0 ==> |shifted| == |idx| - 1 && forall j :: 0 <= j < |shifted| ==> shifted[j] == idx[j + 1] - 1
    ensures !(|idx| > 0 && idx[0] == 0) ==> |shifted| == |idx| && forall j :: 0 <= j < |shifted| ==> shifted[j] == idx[j] - 1
  {
    var k: nat := if |idx| > 0 && idx[0] == 0 then 1 else 0;
    var rest := RestAboveZero(d, idx);
    assert rest == idx[k..];
    shifted := seq(|rest|, j requires 0 <= j < |rest| => rest[j] - 1);
    forall j | 0 <= j < |shifted| ensures shifted[j] == idx[j + k] - 1 && 0 <= shifted[j] < |d[1..]| {
      assert rest[j] == idx[j + k];
    }
    forall j, j' | 0 <= j < j' < |shifted| ensures shifted[j] < shifted[j'] {
      assert rest[j] < rest[j'];
    }
    forall j | k <= j < |idx| ensures idx[j] != 0 {
      assert idx[j] == rest[j - k];
    }
    ShiftedMembers(idx, k, shifted);
  }

  lemma PickShift<V>(d: seq<Entry<V>>, idx: seq<int>, shifted: seq<int>)
    requires |d| > 0 && Positions(d, idx) && Positions(d[1..], shifted)
    requires |idx| > 0 && idx[0] == 0 ==> |shifted| == |idx| - 1 && forall j :: 0 <= j < |shifted| ==> shifted[j] == idx[j + 1] - 1
    requires !(|idx| > 0 && idx[0] == 0) ==> |shifted| == |idx| && forall j :: 0 <= j < |shifted| ==> shifted[j] == idx[j] - 1
    ensures Pick(d, idx) == (if |idx| > 0 && idx[0] == 0 then [d[0]] else []) + Pick(d[1..], shifted)
  {
    var t := Pick(d[1..], shifted);
    if |idx| > 0 && idx[0] == 0 {
      assert Pick(d, idx) == [d[0]] + t;
    } else {
      assert Pick(d, idx) == t;
    }
  }

  /**
   * A filter's result read off position by position: when the passing entries
   * are exactly those at the strictly increasing positions `idx`, the filter
   * returns those entries in that order.
   */
  lemma {:induction false} FilterByIndices<V>(d: seq<Entry<V>>, keep: (string, V) -> bool, idx: seq<int>)
    requires Positions(d, idx)
    requires forall i :: 0 <= i < |d| ==> (keep(d[i].key, d[i].val) <==> i in idx)
    ensures Filter(d, keep) == Pick(d, idx)
  {
    if |d| > 0 {
      var shifted := ShiftPositions(d, idx);
      forall i | 0 <= i < |d| - 1 ensures keep(d[1..][i].key, d[1..][i].val) <==> i in shifted {
        assert d[1..][i] == d[i + 1];
      }
      FilterByIndices(d[1..], keep, shifted);
      ZeroFirst(d, idx);
      PickShift(d, idx, shifted);
    }
  }

  // ------------------------------------------------------------------ key lists

  /** `[k for k, v in d.items() if keep(k, v)]`. */
  function KeysWhere<V>(d: seq<Entry<V>>, keep: (string, V) -> bool): (r: seq<string>)
    ensures |r| <= |d|
  {
    if |d| == 0 then []
    else (if keep(d[0].key, d[0].val) then [d[0].key] else []) + KeysWhere(d[1..], keep)
  }

  /**
   * The comprehension lists exactly the keys whose entries pass `keep`, in the
   * order the dict holds them.
   */
  lemma {:induction false} KeysWhereSpec<V>(d: seq<Entry<V>>, keep: (string, V) -> bool)
    ensures Subsequence(KeysWhere(d, keep), Keys(d))
    ensures forall k :: k in KeysWhere(d, keep) <==> exists i :: 0 <= i < |d| && d[i].key == k && keep(k, d[i].val)
  {
    if |d| > 0 {
      var t := KeysWhere(d[1..], keep);
      var r := KeysWhere(d, keep);
      KeysWhereSpec(d[1..], keep);
      assert Keys(d)[1..] == Keys(d[1..]);
      if keep(d[0].key, d[0].val) {
        assert r == [d[0].key] + t;
        assert r[0] == Keys(d)[0] && r[1..] == t;
      } else {
        assert r == t;
        SubsequenceSkip(t, Keys(d));
      }
      forall k | k in r ensures exists i :: 0 <= i < |d| && d[i].key == k && keep(k, d[i].val) {
        if k != d[0].key || !keep(d[0].key, d[0].val) {
          assert k in t;
          var j :| 0 <= j < |d[1..]| && d[1..][j].key == k && keep(k, d[1..][j].val);
          assert d[j + 1] == d[1..][j];
        }
      }
      forall k | exists i :: 0 <= i < |d| && d[i].key == k && keep(k, d[i].val) ensures k in r {
        var i :| 0 <= i < |d| && d[i].key == k && keep(k, d[i].val);
        if i > 0 {
          assert d[1..][i - 1] == d[i];
        }
      }
    }
  }

  /** The list comprehension lists the keys of the matching dict comprehension. */
  lemma {:induction false} KeysWhereFilter<V>(d: seq<Entry<V>>, keep: (string, V) -> bool)
    ensures KeysWhere(d, keep) == Keys(Filter(d, keep))
  {
    if |d| > 0 {
      KeysWhereFilter(d[1..], keep);
    }
  }

  /** Listing the passing keys of a filtered dict is listing the keys that pass both tests. */
  lemma {:induction false} KeysWhereOfFilter<V>(d: seq<Entry<V>>, first: (string, V) -> bool, second: (string, V) -> bool,
                                               both: (string, V) -> bool)
    requires forall i :: 0 <= i < |d| ==> both(d[i].key, d[i].val) == (first(d[i].key, d[i].val) && second(d[i].key, d[i].val))
    ensures KeysWhere(Filter(d, first), second) == KeysWhere(d, both)
  {
    if |d| > 0 {
      assert forall i :: 0 <= i < |d[1..]| ==> d[1..][i] == d[i + 1];
      KeysWhereOfFilter(d[1..], first, second, both);
      var f := Filter(d, first);
      if first(d[0].key, d[0].val) {
        assert f == [d[0]] + Filter(d[1..], first);
        assert f[0] == d[0] && f[1..] == Filter(d[1..], first);
        assert KeysWhere(f, second) == (if second(d[0].key, d[0].val) then [d[0].key] else []) + KeysWhere(d[1..], both);
      } else {
        assert f == Filter(d[1..], first);
      }
    }
  }

  /**
   * Listing the passing keys of a filtered dict: a key is listed exactly when
   * its entry passes both tests, and the list follows the filtered dict's order.
   */
  lemma KeysWhereFilterSpec<V>(d: seq<Entry<V>>, first: (string, V) -> bool, second: (string, V) -> bool)
    ensures Subsequence(KeysWhere(Filter(d, first), second), Keys(Filter(d, first)))
    ensures forall k :: k in KeysWhere(Filter(d, first), second) <==>
      exists i :: 0 <= i < |d| && d[i].key == k && first(k, d[i].val) && second(k, d[i].val)
  {
    var f := Filter(d, first);
    var r := KeysWhere(f, second);
    KeysWhereSpec(f, second);
    forall k | k in r ensures exists i :: 0 <= i < |d| && d[i].key == k && first(k, d[i].val) && second(k, d[i].val) {
      var j :| 0 <= j < |f| && f[j].key == k && second(k, f[j].val);
      FilterMember(d, first, f[j]);
      var i :| 0 <= i < |d| && d[i] == f[j];
      assert d[i].key == k && first(k, d[i].val);
    }
    forall k | exists i :: 0 <= i < |d| && d[i].key == k && first(k, d[i].val) && second(k, d[i].val) ensures k in r {
      var i :| 0 <= i < |d| && d[i].key == k && first(k, d[i].val) && second(k, d[i].val);
      FilterMember(d, first, d[i]);
      var j :| 0 <= j < |f| && f[j] == d[i];
      assert f[j].key == k && second(k, f[j].val);
    }
  }

  /** Keys of a filtered dict grow by the new entry's key exactly when it passes. */
  lemma KeysWhereSnoc<V>(d: seq<Entry<V>>, e: Entry<V>, keep: (string, V) -> bool)
    ensures KeysWhere(d + [e], keep) == KeysWhere(d, keep) + (if keep(e.key, e.val) then [e.key] else [])
  {
    KeysWhereFilter(d + [e], keep);
    KeysWhereFilter(d, keep);
    FilterAppend(d, [e], keep);
    assert Filter([e], keep) == (if keep(e.key, e.val) then [e] else []);
    assert Keys(Filter(d, keep) + Filter([e], keep)) == Keys(Filter(d, keep)) + Keys(Filter([e], keep));
  }

  // ------------------------------------------------------------------ key removal

  /** `{k: v for k, v in d.items() if k != key}`. */
  function Without<V>(d: seq<Entry<V>>, key: string): seq<Entry<V>>
  {
    Filter(d, (k, v) => k != key)
  }

  /**
   * Removing a key drops its entry and keeps every other entry, with its value
   * and in its order.
   */
  lemma WithoutSpec<V>(d: seq<Entry<V>>, key: string)
    ensures !HasKey(Without(d, key), key)
    ensures Selects(Without(d, key), d, (k, v) => k != key)
    ensures UniqueKeys(d) ==> forall k :: k != key ==> Get(Without(d, key), k) == Get(d, k)
  {
    var keep := (k, v) => k != key;
    FilterSelects(d, keep);
    var r := Without(d, key);
    if UniqueKeys(d) {
      forall k | k != key ensures Get(r, k) == Get(d, k) {
        FilterGet(d, keep, k);
      }
    }
  }

  /** A dict object shared with the caller, which a callee may change in place. */
  class Dict<V> {
    var items: seq<Entry<V>>

    constructor (items: seq<Entry<V>>)
      ensures this.items == items
    {
      this.items := items;
    }

    /** `d[k] = v`. */
    method SetItem(k: string, v: V)
      modifies this
      ensures items == Set(old(items), k, v)
    {
      items := Set(items, k, v);
    }
  }
}
