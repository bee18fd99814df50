/** Exactly which keys the cache holds, told by a list that never forgets a key. */
module CacheHistory {
  import opened Cache

  function Last(ks: seq<string>, n: nat): seq<string> {
    if |ks| <= n then ks else ks[|ks| - n..]
  }

  /**
   Every key ever stored, by last use; a lookup counts as a use when fewer than `capacity` other
   keys were used since the key was.
   */
  function History<V>(ops: seq<Op<V>>, capacity: nat): seq<string> {
    if ops == [] then []
    else
      var h, op := History(ops[..|ops| - 1], capacity), ops[|ops| - 1];
      if op.PutOp? || op.key in Last(h, capacity) then Without(h, op.key) + [op.key] else h
  }

  ghost predicate Distinct(ks: seq<string>) {
    forall i, j :: 0 <= i < j < |ks| ==> ks[i] != ks[j]
  }

  lemma {:induction false} WithoutDistinct(ks: seq<string>, k: string)
    requires Distinct(ks)
    ensures Distinct(Without(ks, k)) && k !in Without(ks, k)
    ensures |Without(ks, k)| == |ks| - (if k in ks then 1 else 0)
  {
    WithoutMember(ks, k);
    if k in ks { WithoutListed(ks, k); } else { WithoutAbsent(ks, k); }
  }

  lemma {:induction false} WithoutConcat(a: seq<string>, b: seq<string>, k: string)
    ensures Without(a + b, k) == Without(a, k) + Without(b, k)
    decreases |a|
  {
    if a == [] {
      assert a + b == b;
    } else {
      assert (a + b)[1..] == a[1..] + b;
      WithoutConcat(a[1..], b, k);
    }
  }

  lemma {:induction false} HistoryDistinct<V>(ops: seq<Op<V>>, capacity: nat)
    ensures Distinct(History(ops, capacity))
    decreases |ops|
  {
    if ops != [] {
      HistoryDistinct(ops[..|ops| - 1], capacity);
      WithoutDistinct(History(ops[..|ops| - 1], capacity), ops[|ops| - 1].key);
    }
  }

  lemma {:induction false} HistoryKeys<V>(ops: seq<Op<V>>, capacity: nat, k: string)
    ensures k in History(ops, capacity) <==> LastPut(ops, k) > 0
    decreases |ops|
  {
    if ops != [] {
      HistoryKeys(ops[..|ops| - 1], capacity, k);
      WithoutMember(History(ops[..|ops| - 1], capacity), ops[|ops| - 1].key);
      LastWithin(History(ops[..|ops| - 1], capacity), capacity);
    }
  }

  lemma LastWithin(ks: seq<string>, n: nat)
    ensures forall k :: k in Last(ks, n) ==> k in ks
  {
  }

  lemma LastOf(a: seq<string>, b: seq<string>, n: nat)
    requires |b| == n || (a == [] && |b| <= n)
    ensures Last(a + b, n) == b
  {
    if a == [] { assert a + b == b; }
  }

  lemma LastSplit(h: seq<string>, n: nat) returns (a: seq<string>)
    ensures h == a + Last(h, n) && (|Last(h, n)| < n ==> a == []) && |Last(h, n)| <= n
    ensures Distinct(h) ==> Distinct(Last(h, n)) && forall k :: k in Last(h, n) ==> k !in a
  {
    var b := Last(h, n);
    a := h[..|h| - |b|];
    if Distinct(h) {
      forall i, j | 0 <= i < |a| && 0 <= j < |b| ensures a[i] != b[j] {
        assert h[i] == a[i] && h[|a| + j] == b[j];
      }
      forall i, j | 0 <= i < j < |b| ensures b[i] != b[j] {
        assert h[|a| + i] == b[i] && h[|a| + j] == b[j];
      }
    }
  }

  /** A key among the last ones, used again: the last ones are the same, and it comes last. */
  lemma LastTouched(h: seq<string>, k: string, n: nat)
    requires Distinct(h) && k in Last(h, n)
    ensures Last(Without(h, k) + [k], n) == Without(Last(h, n), k) + [k]
  {
    var b := Last(h, n);
    var a := LastSplit(h, n);
    hide Last, Without;
    WithoutConcat(a, b, k);
    WithoutAbsent(a, k);
    WithoutDistinct(b, k);
    assert Without(h, k) + [k] == a + (Without(b, k) + [k]);
    LastOf(a, Without(b, k) + [k], n);
  }

  /** A key that is not among the last ones comes in, and the oldest of a full list goes. */
  lemma LastAdded(h: seq<string>, k: string, n: nat)
    requires Distinct(h) && k !in Last(h, n) && n >= 1
    ensures Last(Without(h, k) + [k], n) == (if |Last(h, n)| < n then Last(h, n) else Last(h, n)[1..]) + [k]
  {
    hide Last, Without, Distinct;
    var b := Last(h, n);
    var a := LastSplit(h, n);
    WithoutConcat(a, b, k);
    WithoutAbsent(b, k);
    if |b| < n {
      WithoutAbsent([], k);
      assert [] + b == b && [] + (b + [k]) == b + [k];
      LastOf([], b + [k], n);
    } else {
      Shifted(Without(a, k), b, k);
      LastOf(Without(a, k) + [b[0]], b[1..] + [k], n);
    }
  }

  lemma Shifted(x: seq<string>, b: seq<string>, k: string)
    requires b != []
    ensures x + b + [k] == x + [b[0]] + (b[1..] + [k])
  {
  }

  /** Over every run, the cache holds exactly the last keys of the history, up to the capacity. */
  lemma {:induction false} RunsAsHistory<V>(ops: seq<Op<V>>, capacity: nat)
    requires capacity >= 1
    ensures After(ops, capacity).recency == Last(History(ops, capacity), capacity)
    decreases |ops|
  {
    if ops != [] {
      var before, op := ops[..|ops| - 1], ops[|ops| - 1];
      RunsAsHistory(before, capacity);
      RunsSorted(before, capacity);
      HistoryDistinct(before, capacity);
      var s, h := After(before, capacity), History(before, capacity);
      hide After, History, Without, Sorted, Faithful;
      StepAsHistory(ops, capacity, s, h);
    }
  }

  lemma StepAsHistory<V>(ops: seq<Op<V>>, capacity: nat, s: Lru<V>, h: seq<string>)
    requires capacity >= 1 && ops != [] && Distinct(h)
    requires s == After(ops[..|ops| - 1], capacity) && h == History(ops[..|ops| - 1], capacity)
    requires Listed(s) && s.recency == Last(h, capacity)
    ensures After(ops, capacity).recency == Last(History(ops, capacity), capacity)
  {
    hide Without;
    var k := ops[|ops| - 1].key;
    assert k in s.values <==> k in s.recency;
    if k in s.recency {
      LastTouched(h, k, capacity);
    } else {
      LastAdded(h, k, capacity);
    }
  }

  /**
   A key is cached if and only if it was stored and fewer than `capacity` other keys were used
   after it; then it holds what was last stored.
   */
  lemma CachedIff<V>(ops: seq<Op<V>>, capacity: nat, k: string)
    requires capacity >= 1
    ensures var s, h := After(ops, capacity), History(ops, capacity);
      && (k in s.values <==> exists i :: 0 <= i < |h| && h[i] == k && |h| - 1 - i < capacity)
      && (k in h <==> LastPut(ops, k) > 0)
      && (k in s.values ==> LastPut(ops, k) > 0 && s.values[k] == ops[LastPut(ops, k) - 1].value)
  {
    RunsAsHistory(ops, capacity);
    RunsSorted(ops, capacity);
    HistoryKeys(ops, capacity, k);
    hide After, History, LastPut;
    var s, h := After(ops, capacity), History(ops, capacity);
    LastIff(h, capacity, k);
  }

  lemma LastIff(h: seq<string>, n: nat, k: string)
    ensures k in Last(h, n) <==> exists i :: 0 <= i < |h| && h[i] == k && |h| - 1 - i < n
  {
    var b := Last(h, n);
    var d := |h| - |b|;
    if k in b {
      var j :| 0 <= j < |b| && b[j] == k;
      assert h[d + j] == k;
    }
    if i :| 0 <= i < |h| && h[i] == k && |h| - 1 - i < n {
      assert b[i - d] == k;
    }
  }
}
