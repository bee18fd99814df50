/** The compiled-query cache: a generation-stamped queue that behaves as a plain recency list. */
module Cache {
  import opened Common

  // ---------- The plain recency list ----------

  /** Keys from least to most recently used, and the query cached under each. */
  datatype Lru<V> = Lru(recency: seq<string>, values: map<string, V>)

  function Without(ks: seq<string>, k: string): seq<string> {
    if ks == [] then []
    else if ks[0] == k then Without(ks[1..], k)
    else [ks[0]] + Without(ks[1..], k)
  }

  function Touch<V>(s: Lru<V>, k: string): Lru<V> {
    Lru(Without(s.recency, k) + [k], s.values)
  }

  function Lookup<V>(s: Lru<V>, k: string): Lru<V> {
    if k in s.values then Touch(s, k) else s
  }

  /** A full list drops its first key before a new one is added. */
  function MakeRoom<V>(s: Lru<V>, capacity: nat): Lru<V> {
    if |s.recency| < capacity || s.recency == [] then s
    else Lru(s.recency[1..], s.values - {s.recency[0]})
  }

  function Store<V>(s: Lru<V>, k: string, v: V, capacity: nat): Lru<V> {
    if k in s.values then Touch(s, k).(values := s.values[k := v])
    else
      var r := MakeRoom(s, capacity);
      Lru(r.recency + [k], r.values[k := v])
  }

  /** Every cached key is listed once. */
  ghost predicate Listed<V>(s: Lru<V>) {
    && (forall i, j :: 0 <= i < j < |s.recency| ==> s.recency[i] != s.recency[j])
    && (forall k :: k in s.recency <==> k in s.values)
  }

  // ---------- The queue ----------

  datatype Entry<V> = Entry(query: V, generation: nat)

  predicate Current<V>(m: map<string, Entry<V>>, e: (string, nat)) {
    e.0 in m && m[e.0].generation == e.1
  }

  /** The keys of the queue entries that are not stale. */
  function Recent<V>(m: map<string, Entry<V>>, order: seq<(string, nat)>): seq<string> {
    if order == [] then []
    else if Current(m, order[0]) then [order[0].0] + Recent(m, order[1..])
    else Recent(m, order[1..])
  }

  /** What compaction keeps. */
  function Compacted<V>(m: map<string, Entry<V>>, order: seq<(string, nat)>): seq<(string, nat)> {
    if order == [] then []
    else if Current(m, order[0]) then [order[0]] + Compacted(m, order[1..])
    else Compacted(m, order[1..])
  }

  ghost predicate Rising(order: seq<(string, nat)>, top: nat) {
    && (forall i, j :: 0 <= i < j < |order| ==> order[i].1 < order[j].1)
    && (forall i :: 0 <= i < |order| ==> order[i].1 <= top)
  }

  /** Generations rise along the queue, and every cached key has an entry that is not stale. */
  ghost predicate Queued<V>(m: map<string, Entry<V>>, order: seq<(string, nat)>, top: nat) {
    Rising(order, top) && forall k :: k in m ==> (k, m[k].generation) in order
  }

  function Queries<V>(m: map<string, Entry<V>>): map<string, V> {
    map k | k in m :: m[k].query
  }

  lemma {:induction false} RecentConcat<V>(m: map<string, Entry<V>>, a: seq<(string, nat)>, b: seq<(string, nat)>)
    ensures Recent(m, a + b) == Recent(m, a) + Recent(m, b)
    ensures Compacted(m, a + b) == Compacted(m, a) + Compacted(m, b)
    decreases |a|
  {
    if a == [] {
      assert a + b == b;
    } else {
      assert (a + b)[1..] == a[1..] + b;
      RecentConcat(m, a[1..], b);
    }
  }

  lemma {:induction false} RecentMember<V>(m: map<string, Entry<V>>, order: seq<(string, nat)>, k: string)
    ensures k in Recent(m, order) <==> exists g :: (k, g) in order && Current(m, (k, g))
    decreases |order|
  {
    if order != [] {
      RecentMember(m, order[1..], k);
      assert order == [order[0]] + order[1..];
      if order[0].0 == k && Current(m, order[0]) { assert (k, order[0].1) in order; }
    }
  }

  /** Exactly one entry per cached key is current, so the list has no repetition. */
  lemma {:induction false} RecentDistinct<V>(m: map<string, Entry<V>>, order: seq<(string, nat)>, top: nat)
    requires Rising(order, top)
    ensures forall i, j :: 0 <= i < j < |Recent(m, order)| ==> Recent(m, order)[i] != Recent(m, order)[j]
    decreases |order|
  {
    if order != [] {
      RecentDistinct(m, order[1..], top);
      if Current(m, order[0]) {
        RecentMember(m, order[1..], order[0].0);
        forall g | (order[0].0, g) in order[1..] ensures !Current(m, (order[0].0, g)) {
          var i :| 0 <= i < |order[1..]| && order[1..][i] == (order[0].0, g);
          assert order[i + 1].1 > order[0].1;
        }
      }
    }
  }

  lemma QueuedListed<V>(m: map<string, Entry<V>>, order: seq<(string, nat)>, top: nat)
    requires Queued(m, order, top)
    ensures Listed(Lru(Recent(m, order), Queries(m)))
  {
    RecentDistinct(m, order, top);
    forall k ensures k in Recent(m, order) <==> k in m {
      RecentMember(m, order, k);
      if k in m { assert Current(m, (k, m[k].generation)); }
    }
  }

  lemma {:induction false} DistinctSize(ks: seq<string>, s: set<string>)
    requires (forall i, j :: 0 <= i < j < |ks| ==> ks[i] != ks[j]) && (forall k :: k in ks <==> k in s)
    ensures |s| == |ks|
    decreases |ks|
  {
    if ks == [] {
      assert s == {};
    } else {
      DistinctSize(ks[1..], s - {ks[0]});
    }
  }

  lemma ListedSize<V>(m: map<string, Entry<V>>, order: seq<(string, nat)>, top: nat)
    requires Queued(m, order, top)
    ensures |Recent(m, order)| == |m|
  {
    QueuedListed(m, order, top);
    assert forall k :: k in m.Keys <==> k in Queries(m);
    DistinctSize(Recent(m, order), m.Keys);
  }

  /** A fresh generation for a key makes its older entries stale and puts it last. */
  lemma {:induction false} RecentTouched<V>(m: map<string, Entry<V>>, order: seq<(string, nat)>, k: string, v: V,
                                            g: nat)
    requires forall i :: 0 <= i < |order| ==> order[i].1 < g
    ensures Recent(m[k := Entry(v, g)], order) == Without(Recent(m, order), k)
    decreases |order|
  {
    if order != [] {
      RecentTouched(m, order[1..], k, v, g);
      var e, r := order[0], Recent(m, order[1..]);
      assert e.1 < g;
      assert e.0 == k ==> !Current(m[k := Entry(v, g)], e);
      assert e.0 != k ==> (Current(m[k := Entry(v, g)], e) <==> Current(m, e));
      if Current(m, e) {
        assert Recent(m, order) == [e.0] + r && ([e.0] + r)[1..] == r;
      }
    }
  }

  lemma {:induction false} WithoutAbsent(ks: seq<string>, k: string)
    requires k !in ks
    ensures Without(ks, k) == ks
    decreases |ks|
  {
    if ks != [] { WithoutAbsent(ks[1..], k); }
  }

  /** Forgetting a key that no longer has a current entry in the rest of the queue. */
  lemma {:induction false} RecentForgotten<V>(m: map<string, Entry<V>>, order: seq<(string, nat)>, k: string)
    requires k !in Recent(m, order)
    ensures Recent(m - {k}, order) == Recent(m, order)
    decreases |order|
  {
    if order != [] { RecentForgotten(m, order[1..], k); }
  }

  lemma Pushed<V>(m: map<string, Entry<V>>, order: seq<(string, nat)>, g: nat, k: string, v: V)
    requires g > 0 && Queued(m, order, g - 1)
    ensures var n, q := m[k := Entry(v, g)], order + [(k, g)];
      && Queued(n, q, g) && Recent(n, q) == Without(Recent(m, order), k) + [k]
      && Queries(n) == Queries(m)[k := v] && |n| == |m| + (if k in m then 0 else 1)
  {
    var n, q := m[k := Entry(v, g)], order + [(k, g)];
    Written(m, k, Entry(v, g));
    hide Queries;
    RecentConcat(n, order, [(k, g)]);
    RecentTouched(m, order, k, v, g);
    assert Recent(n, [(k, g)]) == [k] + Recent(n, [(k, g)][1..]);
    forall j | j in n ensures (j, n[j].generation) in q {
      if j == k { assert q[|order|] == (k, g); } else { assert (j, m[j].generation) in order; }
    }
  }

  lemma Written<V>(m: map<string, Entry<V>>, k: string, e: Entry<V>)
    ensures Queries(m[k := e]) == Queries(m)[k := e.query] && |m[k := e]| == |m| + (if k in m then 0 else 1)
  {
    assert m[k := e].Keys == m.Keys + {k};
  }

  /** Compaction: only current entries stay, in order, so the list does not change. */
  lemma {:induction false} CompactedRecent<V>(m: map<string, Entry<V>>, order: seq<(string, nat)>)
    ensures Recent(m, Compacted(m, order)) == Recent(m, order) && |Compacted(m, order)| == |Recent(m, order)|
    ensures forall e :: e in Compacted(m, order) <==> e in order && Current(m, e)
    decreases |order|
  {
    if order != [] {
      CompactedRecent(m, order[1..]);
      var c := Compacted(m, order[1..]);
      if Current(m, order[0]) {
        assert ([order[0]] + c)[1..] == c;
        assert Recent(m, [order[0]] + c) == [order[0].0] + Recent(m, c);
      }
    }
  }

  lemma {:induction false} CompactedRising<V>(m: map<string, Entry<V>>, order: seq<(string, nat)>, top: nat)
    requires Rising(order, top)
    ensures Rising(Compacted(m, order), top)
    decreases |order|
  {
    if order != [] {
      CompactedRising(m, order[1..], top);
      CompactedRecent(m, order[1..]);
      var c := Compacted(m, order[1..]);
      forall i | 0 <= i < |c| ensures order[0].1 < c[i].1 {
        assert c[i] in order[1..];
      }
    }
  }

  lemma CompactedQueued<V>(m: map<string, Entry<V>>, order: seq<(string, nat)>, top: nat)
    requires Queued(m, order, top)
    ensures Queued(m, Compacted(m, order), top)
  {
    CompactedRising(m, order, top);
    CompactedRecent(m, order);
    forall k | k in m ensures (k, m[k].generation) in Compacted(m, order) {
      assert Current(m, (k, m[k].generation));
    }
  }

  // ---------- The cache ----------

  datatype Metrics = Metrics(hits: nat, misses: nat, size: nat, capacity: nat, evictions: nat)

  class CompiledQueryCache<V> {
    const capacity: nat
    var entries: map<string, Entry<V>>
    var order: seq<(string, nat)>
    var currentGen: nat
    var hits: nat
    var misses: nat
    var evictions: nat
    /** Lookups and new-key inserts since the last clear. */
    ghost var lookups: nat
    ghost var inserts: nat

    ghost predicate Valid()
      reads this
    {
      && capacity >= 1 && |entries| <= capacity
      && Queued(entries, order, currentGen)
      && hits + misses == lookups && inserts == |entries| + evictions
    }

    ghost function View(): Lru<V>
      reads this
    {
      Lru(Recent(entries, order), Queries(entries))
    }

    constructor (size: nat)
      ensures Valid() && capacity == (if size < 1 then 1 else size) && View() == Lru([], map[])
      ensures lookups == inserts == 0
    {
      capacity := if size < 1 then 1 else size;
      entries := map[];
      order := [];
      currentGen, hits, misses, evictions := 0, 0, 0, 0;
      lookups, inserts := 0, 0;
      new;
      assert Queries(entries) == map[];
    }

    method Get(key: string) returns (r: Option<V>)
      requires Valid()
      modifies this
      ensures Valid() && View() == Lookup(old(View()), key)
      ensures r == if key in old(View()).values then Some(old(View()).values[key]) else None
      ensures hits == old(hits) + (if r.Some? then 1 else 0) && misses == old(misses) + (if r.Some? then 0 else 1)
      ensures lookups == old(lookups) + 1 && inserts == old(inserts) && evictions == old(evictions)
      ensures |order| == |old(order)| + (if r.Some? then 1 else 0) && |entries| == |old(entries)|
    {
      Missed(entries, order, currentGen, key);
      hide Queued, Recent, Without, Queries;
      if key in entries {
        r := Some(entries[key].query);
        SameQuery(entries, key);
        Refresh(key, r.value);
        hits, lookups := hits + 1, lookups + 1;
        return;
      }
      currentGen, misses, lookups := currentGen + 1, misses + 1, lookups + 1;
      return None;
    }

    /** The eviction loop: stale heads go first, then the least recently used key. */
    method Evict(ghost top: nat)
      requires capacity >= 1 && |entries| <= capacity && Queued(entries, order, top)
      modifies `entries, `order, `evictions
      ensures Queued(entries, order, top) && |entries| < capacity
      ensures View() == MakeRoom(old(View()), capacity)
      ensures |entries| + evictions == |old(entries)| + old(evictions)
      ensures forall k :: k in entries ==> k in old(entries)
    {
      ListedSize(entries, order, top);
      hide Queued, Recent, Queries, MakeRoom;
      if |entries| < capacity { RoomLeft(View(), capacity); }
      while |entries| >= capacity
        invariant entries == old(entries) && evictions == old(evictions)
        invariant Queued(entries, order, top) && Recent(entries, order) == old(Recent(entries, order))
        decreases |order|
      {
        NotEmpty(entries, order, top);
        var (key, generation) := order[0];
        ghost var before, queue := entries, order;
        order := order[1..];
        if key in entries && entries[key].generation == generation {
          DroppedFirst(before, queue, top, capacity);
          entries, evictions := entries - {key}, evictions + 1;
          break;
        }
        StaleDropped(before, queue, top);
      }
    }

    method Put(key: string, query: V)
      requires Valid()
      modifies this
      ensures Valid() && View() == Store(old(View()), key, query, capacity)
      ensures hits == old(hits) && misses == old(misses) && lookups == old(lookups)
      ensures inserts == old(inserts) + (if key in old(entries) then 0 else 1)
      ensures key !in old(entries) ==> |order| <= 4 * capacity
    {
      Missed(entries, order, currentGen, key);
      hide Queued, Recent, Without, Queries;
      if key in entries {
        Refresh(key, query);
      } else {
        Insert(key, query);
      }
    }

    /** A key that is cached already: new query, new generation. */
    method Refresh(key: string, query: V)
      requires Valid() && key in entries
      modifies `entries, `order, `currentGen
      ensures Valid() && View() == Touch(old(View()), key).(values := old(View()).values[key := query])
      ensures |order| == |old(order)| + 1 && |entries| == |old(entries)|
    {
      var generation := currentGen + 1;
      Pushed(entries, order, generation, key, query);
      hide Queued, Recent, Without, Queries;
      entries, order, currentGen := entries[key := Entry(query, generation)], order + [(key, generation)], generation;
    }

    /** A new key: room is made first, and an overlong queue is compacted afterwards. */
    method Insert(key: string, query: V)
      requires Valid() && key !in entries
      modifies `entries, `order, `currentGen, `evictions, `inserts
      ensures Valid() && inserts == old(inserts) + 1 && |order| <= 4 * capacity
      ensures var r := MakeRoom(old(View()), capacity); View() == Lru(r.recency + [key], r.values[key := query])
    {
      var generation := currentGen + 1;
      hide Queued, Recent, Without, Queries;
      Evict(currentGen);
      Missed(entries, order, currentGen, key);
      Pushed(entries, order, generation, key, query);
      entries, order, currentGen := entries[key := Entry(query, generation)], order + [(key, generation)], generation;
      inserts := inserts + 1;
      if |order| > capacity * 4 {
        Compact();
      }
    }

    /** The maintenance loop, from the back of the queue to its front. */
    method Compact()
      requires capacity >= 1 && |entries| <= capacity && Queued(entries, order, currentGen)
      modifies `order
      ensures Queued(entries, order, currentGen) && View() == old(View()) && |order| == |entries|
      ensures forall e :: e in order ==> Current(entries, e)
    {
      ghost var whole := order;
      var drained, compact := order, [];
      var seen: set<string> := {};
      var i := |drained|;
      assert whole[i..] == [];
      while i > 0
        invariant 0 <= i <= |drained| && drained == whole == order
        invariant compact == Compacted(entries, whole[i..])
        invariant forall k :: k in seen <==> k in Recent(entries, whole[i..])
      {
        i := i - 1;
        assert whole[i..][1..] == whole[i + 1..];
        var (k, g) := drained[i];
        OnlyOnce(entries, whole, i, currentGen);
        if k in entries && entries[k].generation == g && k !in seen {
          seen := seen + {k};
          compact := [(k, g)] + compact;
        }
      }
      assert whole[0..] == whole;
      CompactedQueued(entries, whole, currentGen);
      CompactedRecent(entries, whole);
      ListedSize(entries, whole, currentGen);
      order := compact;
    }

    method Clear()
      modifies this
      requires Valid()
      ensures Valid() && View() == Lru([], map[])
      ensures hits == misses == evictions == lookups == inserts == 0
    {
      entries, order := map[], [];
      hits, misses, evictions, currentGen := 0, 0, 0, 0;
      lookups, inserts := 0, 0;
      assert Queries(entries) == map[];
    }

    method Snapshot() returns (m: Metrics)
      requires Valid()
      ensures m.hits + m.misses == lookups && m.size + m.evictions == inserts
      ensures m.capacity == capacity && m.size == |View().recency| <= capacity
    {
      ListedSize(entries, order, currentGen);
      return Metrics(hits, misses, |entries|, capacity, evictions);
    }
  }

  lemma SameQuery<V>(m: map<string, Entry<V>>, k: string)
    requires k in m
    ensures k in Queries(m) && Queries(m)[k] == m[k].query && Queries(m)[k := m[k].query] == Queries(m)
  {
  }

  /** Presence is the same seen from the map and from the list; a longer reign of generations is harmless. */
  lemma Missed<V>(m: map<string, Entry<V>>, order: seq<(string, nat)>, top: nat, k: string)
    requires Queued(m, order, top)
    ensures Queued(m, order, top + 1) && (k in m <==> k in Queries(m))
    ensures k !in m ==> Without(Recent(m, order), k) == Recent(m, order)
  {
    QueuedListed(m, order, top);
    if k !in m { WithoutAbsent(Recent(m, order), k); }
  }

  lemma NotEmpty<V>(m: map<string, Entry<V>>, order: seq<(string, nat)>, top: nat)
    requires Queued(m, order, top) && |m| > 0
    ensures order != []
  {
    ListedSize(m, order, top);
  }

  /** A stale head leaves the list as it was. */
  lemma StaleDropped<V>(m: map<string, Entry<V>>, order: seq<(string, nat)>, top: nat)
    requires Queued(m, order, top) && order != [] && !Current(m, order[0])
    ensures Queued(m, order[1..], top) && Recent(m, order[1..]) == Recent(m, order)
  {
    forall k | k in m ensures (k, m[k].generation) in order[1..] {
      var i :| 0 <= i < |order| && order[i] == (k, m[k].generation);
      assert i > 0 && order[1..][i - 1] == order[i];
    }
  }

  lemma RoomLeft<V>(s: Lru<V>, capacity: nat)
    requires |s.recency| < capacity
    ensures MakeRoom(s, capacity) == s
  {
  }

  /** Dropping a current head makes room in the list. */
  lemma DroppedFirst<V>(m: map<string, Entry<V>>, order: seq<(string, nat)>, top: nat, capacity: nat)
    requires Queued(m, order, top) && order != [] && Current(m, order[0]) && |m| >= capacity
    ensures var k := order[0].0;
      && Queued(m - {k}, order[1..], top) && |m - {k}| == |m| - 1
      && Lru(Recent(m - {k}, order[1..]), Queries(m - {k})) == MakeRoom(Lru(Recent(m, order), Queries(m)), capacity)
  {
    Dropped(m, order, top);
    ListedSize(m, order, top);
    assert (m - {order[0].0}).Keys == m.Keys - {order[0].0};
  }

  /** A current head is the least recently used key. */
  lemma Dropped<V>(m: map<string, Entry<V>>, order: seq<(string, nat)>, top: nat)
    requires Queued(m, order, top) && order != [] && Current(m, order[0])
    ensures var k := order[0].0;
      && Recent(m, order)[0] == k && Recent(m - {k}, order[1..]) == Recent(m, order)[1..]
      && Queued(m - {k}, order[1..], top) && Queries(m - {k}) == Queries(m) - {k}
  {
    var k := order[0].0;
    OnlyOnce(m, order, 0, top);
    RecentForgotten(m, order[1..], k);
    assert Recent(m, order) == [k] + Recent(m, order[1..]);
    forall j | j in m - {k} ensures (j, m[j].generation) in order[1..] {
      var i :| 0 <= i < |order| && order[i] == (j, m[j].generation);
      assert i > 0 && order[1..][i - 1] == order[i];
    }
    hide Recent;
    assert Rising(order[1..], top);
  }

  /** A current entry is the only current one of its key. */
  lemma OnlyOnce<V>(m: map<string, Entry<V>>, order: seq<(string, nat)>, i: nat, top: nat)
    requires Rising(order, top) && i < |order|
    ensures Current(m, order[i]) ==> order[i].0 !in Recent(m, order[i + 1..])
  {
    RecentMember(m, order[i + 1..], order[i].0);
    forall g | (order[i].0, g) in order[i + 1..] ensures order[i].1 < g {
      var j :| 0 <= j < |order[i + 1..]| && order[i + 1..][j] == (order[i].0, g);
      assert order[i + 1 + j].1 > order[i].1;
    }
  }

  // ---------- Whole runs of the recency list ----------

  datatype Op<V> = GetOp(key: string) | PutOp(key: string, value: V)

  function After<V>(ops: seq<Op<V>>, capacity: nat): Lru<V> {
    if ops == [] then Lru([], map[])
    else
      var s := After(ops[..|ops| - 1], capacity);
      match ops[|ops| - 1]
      case GetOp(k) => Lookup(s, k)
      case PutOp(k, v) => Store(s, k, v, capacity)
  }

  /** One more than the position of the last operation naming the key, zero if there is none. */
  function LastUse<V>(ops: seq<Op<V>>, k: string): nat {
    if ops == [] then 0
    else if ops[|ops| - 1].key == k then |ops|
    else LastUse(ops[..|ops| - 1], k)
  }

  /** One more than the position of the last write of the key. */
  function LastPut<V>(ops: seq<Op<V>>, k: string): (n: nat)
    ensures n <= |ops| && (n > 0 ==> ops[n - 1].PutOp? && ops[n - 1].key == k)
  {
    if ops == [] then 0
    else if ops[|ops| - 1].PutOp? && ops[|ops| - 1].key == k then |ops|
    else LastPut(ops[..|ops| - 1], k)
  }

  ghost predicate Sorted<V>(ops: seq<Op<V>>, ks: seq<string>) {
    forall i, j :: 0 <= i < j < |ks| ==> LastUse(ops, ks[i]) < LastUse(ops, ks[j])
  }

  ghost predicate Faithful<V>(ops: seq<Op<V>>, s: Lru<V>) {
    forall k :: k in s.values ==> LastPut(ops, k) > 0 && s.values[k] == ops[LastPut(ops, k) - 1].value
  }

  lemma {:induction false} WithoutMember(ks: seq<string>, k: string)
    ensures forall j :: j in Without(ks, k) <==> j in ks && j != k
    ensures |Without(ks, k)| <= |ks|
    decreases |ks|
  {
    if ks != [] { WithoutMember(ks[1..], k); }
  }

  lemma {:induction false} WithoutSorted<V>(ops: seq<Op<V>>, ks: seq<string>, k: string)
    requires Sorted(ops, ks)
    ensures Sorted(ops, Without(ks, k))
    decreases |ks|
  {
    if ks != [] {
      WithoutSorted(ops, ks[1..], k);
      WithoutMember(ks[1..], k);
      var w := Without(ks[1..], k);
      forall i | 0 <= i < |w| ensures LastUse(ops, ks[0]) < LastUse(ops, w[i]) {
        assert w[i] in ks[1..];
        var j :| 0 <= j < |ks[1..]| && ks[1..][j] == w[i];
        assert ks[j + 1] == w[i];
      }
    }
  }

  lemma {:induction false} LastUseBound<V>(ops: seq<Op<V>>, k: string)
    ensures LastUse(ops, k) <= |ops|
    decreases |ops|
  {
    if ops != [] { LastUseBound(ops[..|ops| - 1], k); }
  }

  /** Keys other than the one just named keep their order; that one comes last. */
  lemma SortedNext<V>(ops: seq<Op<V>>, ks: seq<string>, k: string)
    requires ops != [] && ops[|ops| - 1].key == k && k !in ks && Sorted(ops[..|ops| - 1], ks)
    ensures Sorted(ops, ks + [k])
  {
    var before := ops[..|ops| - 1];
    forall i | 0 <= i < |ks| ensures LastUse(ops, ks[i]) == LastUse(before, ks[i]) < |ops| {
      assert ks[i] in ks;
      LastUseBound(before, ks[i]);
    }
  }

  /**
   Over every run: the list holds each cached key once, sorted by last use, never more than
   the capacity, and each key holds what was last stored under it. In particular the first
   key, the one that makes room, is the least recently used.
   */
  lemma {:induction false} RunsSorted<V>(ops: seq<Op<V>>, capacity: nat)
    requires capacity >= 1
    ensures Kept(ops, After(ops, capacity), capacity)
    decreases |ops|
  {
    if ops != [] {
      var before, last := ops[..|ops| - 1], ops[|ops| - 1];
      RunsSorted(before, capacity);
      var s := After(before, capacity);
      if last.key in s.values {
        UseStep(ops, capacity);
      } else if last.PutOp? {
        InsertStep(ops, capacity);
      } else {
        MissStep(ops, s);
      }
    }
  }

  lemma MissStep<V>(ops: seq<Op<V>>, s: Lru<V>)
    requires ops != [] && ops[|ops| - 1].GetOp? && ops[|ops| - 1].key !in s.values && Listed(s)
    requires Sorted(ops[..|ops| - 1], s.recency) && Faithful(ops[..|ops| - 1], s)
    ensures Sorted(ops, s.recency) && Faithful(ops, s)
  {
    forall i | 0 <= i < |s.recency| ensures LastUse(ops, s.recency[i]) == LastUse(ops[..|ops| - 1], s.recency[i]) {
      assert s.recency[i] in s.recency;
    }
  }

  lemma {:induction false} WithoutListed(ks: seq<string>, k: string)
    requires k in ks && forall i, j :: 0 <= i < j < |ks| ==> ks[i] != ks[j]
    ensures |Without(ks, k)| == |ks| - 1
    ensures forall i, j :: 0 <= i < j < |Without(ks, k)| ==> Without(ks, k)[i] != Without(ks, k)[j]
    decreases |ks|
  {
    if ks[0] == k {
      WithoutAbsent(ks[1..], k);
    } else {
      assert forall i, j :: 0 <= i < j < |ks[1..]| ==> ks[1..][i] == ks[i + 1] && ks[1..][j] == ks[j + 1];
      WithoutListed(ks[1..], k);
      WithoutMember(ks[1..], k);
      var w := Without(ks[1..], k);
      assert Without(ks, k) == [ks[0]] + w;
      assert ks[0] !in w;
    }
  }

  /** The four things a run keeps. */
  ghost predicate Kept<V>(ops: seq<Op<V>>, s: Lru<V>, capacity: nat) {
    Listed(s) && Sorted(ops, s.recency) && Faithful(ops, s) && |s.recency| <= capacity
  }

  lemma UseStep<V>(ops: seq<Op<V>>, capacity: nat)
    requires ops != []
    requires Kept(ops[..|ops| - 1], After(ops[..|ops| - 1], capacity), capacity)
    requires ops[|ops| - 1].key in After(ops[..|ops| - 1], capacity).values
    ensures Kept(ops, After(ops, capacity), capacity)
  {
    var before, last := ops[..|ops| - 1], ops[|ops| - 1];
    var s, t := After(before, capacity), After(ops, capacity);
    assert t.recency == Without(s.recency, last.key) + [last.key];
    assert t.values == if last.GetOp? then s.values else s.values[last.key := last.value];
    hide After;
    WithoutListed(s.recency, last.key);
    WithoutMember(s.recency, last.key);
    WithoutSorted(before, s.recency, last.key);
    hide Without;
    SortedNext(ops, Without(s.recency, last.key), last.key);
    FaithfulNext(ops, s, t);
  }

  /** Values of keys not just written are as they were. */
  lemma FaithfulNext<V>(ops: seq<Op<V>>, s: Lru<V>, t: Lru<V>)
    requires ops != [] && Faithful(ops[..|ops| - 1], s)
    requires forall k :: k in t.values ==>
      if ops[|ops| - 1].PutOp? && ops[|ops| - 1].key == k then t.values[k] == ops[|ops| - 1].value
      else k in s.values && t.values[k] == s.values[k]
    ensures Faithful(ops, t)
  {
    forall k | k in t.values ensures LastPut(ops, k) > 0 && t.values[k] == ops[LastPut(ops, k) - 1].value {
      if !(ops[|ops| - 1].PutOp? && ops[|ops| - 1].key == k) {
        assert LastPut(ops, k) == LastPut(ops[..|ops| - 1], k);
      }
    }
  }

  lemma InsertStep<V>(ops: seq<Op<V>>, capacity: nat)
    requires ops != [] && capacity >= 1 && ops[|ops| - 1].PutOp?
    requires Kept(ops[..|ops| - 1], After(ops[..|ops| - 1], capacity), capacity)
    requires ops[|ops| - 1].key !in After(ops[..|ops| - 1], capacity).values
    ensures Kept(ops, After(ops, capacity), capacity)
  {
    var before, last := ops[..|ops| - 1], ops[|ops| - 1];
    var s, t := After(before, capacity), After(ops, capacity);
    var r := MakeRoom(s, capacity);
    assert t == Lru(r.recency + [last.key], r.values[last.key := last.value]);
    hide After;
    RoomKept(before, s, capacity);
    SortedNext(ops, r.recency, last.key);
    FaithfulNext(ops, r, t);
  }

  lemma RoomKept<V>(ops: seq<Op<V>>, s: Lru<V>, capacity: nat)
    requires Kept(ops, s, capacity) && capacity >= 1
    ensures var r := MakeRoom(s, capacity);
      Kept(ops, r, capacity) && |r.recency| < capacity && forall k :: k in r.values ==> k in s.values
  {
    var r := MakeRoom(s, capacity);
    if r != s {
      assert s.recency == [s.recency[0]] + r.recency;
      assert forall k :: k in r.recency <==> k in s.recency && k != s.recency[0];
    }
  }
}
