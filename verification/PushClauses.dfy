/** Predicate pushdown in the arena, clause by clause: the pass computes `PushMatches`. */
module PushClauses {
  import opened Common
  import opened Ast
  import opened Trees
  import opened Clauses
  import opened FoldingLimits
  import opened FoldArena
  import opened Visiting
  import opened Pushdown
  import opened PushArena

  // ---------- The node patterns of several paths and clauses ----------

  function AllNodes(st: Store, hs: seq<Handle>): seq<Handle> {
    if hs == [] then [] else NodesIn(st, hs[0]) + AllNodes(st, hs[1..])
  }

  function ClauseNodes(st: Store, m: Handle): seq<Handle> {
    if NodeAt(st, m).MatchClause? then AllNodes(st, NodeAt(st, m).paths) else []
  }

  function MatchNodes(st: Store, ms: seq<Handle>): seq<Handle> {
    if ms == [] then [] else ClauseNodes(st, ms[0]) + MatchNodes(st, ms[1..])
  }

  ghost predicate Apart(hs: seq<Handle>, ks: seq<Handle>) {
    forall h :: h in hs && h.At? ==> h !in ks
  }

  lemma DistinctParts(a: seq<Handle>, b: seq<Handle>, z: Zone)
    requires Distinct(a + b, z)
    ensures Distinct(a, z) && Distinct(b, z) && Apart(a, b) && Apart(b, a)
  {
    var all := a + b;
    assert forall i :: 0 <= i < |a| ==> all[i] == a[i];
    assert forall i :: 0 <= i < |b| ==> all[|a| + i] == b[i];
  }

  lemma {:induction false} AllNodesAt(st: Store, hs: seq<Handle>, k: nat, z: Zone)
    requires k < |hs| && Distinct(AllNodes(st, hs), z)
    ensures Distinct(NodesIn(st, hs[k]), z)
    ensures forall h :: h in NodesIn(st, hs[k]) ==> h in AllNodes(st, hs)
    ensures forall j :: 0 <= j < |hs| && j != k ==> Apart(NodesIn(st, hs[k]), NodesIn(st, hs[j]))
    decreases |hs|
  {
    DistinctParts(NodesIn(st, hs[0]), AllNodes(st, hs[1..]), z);
    if k > 0 {
      AllNodesAt(st, hs[1..], k - 1, z);
    }
    forall j | 0 <= j < |hs| && j != k
      ensures Apart(NodesIn(st, hs[k]), NodesIn(st, hs[j]))
    {
      if k == 0 {
        AllNodesAt(st, hs[1..], j - 1, z);
        assert hs[1..][j - 1] == hs[j];
      } else if j > 0 {
        assert hs[1..][j - 1] == hs[j];
      }
    }
  }

  lemma {:induction false} MatchNodesAt(st: Store, ms: seq<Handle>, k: nat, z: Zone)
    requires k < |ms| && Distinct(MatchNodes(st, ms), z)
    ensures Distinct(ClauseNodes(st, ms[k]), z)
    ensures forall h :: h in ClauseNodes(st, ms[k]) ==> h in MatchNodes(st, ms)
    ensures forall j :: 0 <= j < |ms| && j != k ==> Apart(ClauseNodes(st, ms[k]), ClauseNodes(st, ms[j]))
    decreases |ms|
  {
    DistinctParts(ClauseNodes(st, ms[0]), MatchNodes(st, ms[1..]), z);
    if k > 0 {
      MatchNodesAt(st, ms[1..], k - 1, z);
    }
    forall j | 0 <= j < |ms| && j != k
      ensures Apart(ClauseNodes(st, ms[k]), ClauseNodes(st, ms[j]))
    {
      if k == 0 {
        MatchNodesAt(st, ms[1..], j - 1, z);
        assert ms[1..][j - 1] == ms[j];
      } else if j > 0 {
        assert ms[1..][j - 1] == ms[j];
      }
    }
  }

  lemma {:induction false} MatchNodesConcat(st: Store, a: seq<Handle>, b: seq<Handle>)
    ensures MatchNodes(st, a + b) == MatchNodes(st, a) + MatchNodes(st, b)
    decreases |a|
  {
    if a == [] {
      assert a + b == b;
    } else {
      assert (a + b)[1..] == a[1..] + b;
      MatchNodesConcat(st, a[1..], b);
    }
  }

  // ---------- Hoisting into a list of paths ----------

  lemma {:induction false} HoistPathsAt(ps: seq<PathPat>, k: nat, x: string, p: Expr)
    requires k < |ps| && HoistPath(ps[k], x, p).Some?
    requires forall j :: 0 <= j < k ==> HoistPath(ps[j], x, p).None?
    ensures HoistPaths(ps, x, p) == Some(ps[k := HoistPath(ps[k], x, p).value])
    decreases k
  {
    var q := HoistPath(ps[k], x, p).value;
    if k > 0 {
      HoistPathsAt(ps[1..], k - 1, x, p);
      assert ps[1..][k - 1 := q] == ps[k := q][1..];
    }
    assert ps[k := q] == [ps[k := q][0]] + ps[k := q][1..];
  }

  lemma {:induction false} HoistPathsNone(ps: seq<PathPat>, x: string, p: Expr)
    requires forall j :: 0 <= j < |ps| ==> HoistPath(ps[j], x, p).None?
    ensures HoistPaths(ps, x, p) == None
  {
    if ps != [] { HoistPathsNone(ps[1..], x, p); }
  }

  predicate Broken(st: Store, h: Handle) {
    NodeAt(st, h).PathChain? && NodeAt(st, h).startNode.Null?
  }

  ghost predicate ArePaths(st: Store, hs: seq<Handle>) {
    forall k :: 0 <= k < |hs| ==> IsPath(st, hs[k])
  }

  ghost predicate PathsDone(a: Store, b: Store, z: Zone, hs: seq<Handle>, x: string, p: Handle, found: bool, at: nat)
    requires Wf(a) && Wf(b)
  {
    if found then
      && Hoisted(a, b, z, at, p) && At(at) in AllNodes(a, hs)
      && HoistPaths(PathsOf(a, hs), x, TreeOf(a, p)) == Some(PathsOf(b, hs))
    else
      b == a && HoistPaths(PathsOf(a, hs), x, TreeOf(a, p)) == None
  }

  /** The first path that takes the predicate. */
  method HoistToPaths(arena: QueryAstArena, hs: seq<Handle>, x: string, p: Handle, ghost z: Zone)
    returns (r: Result<bool>, ghost at: nat)
    requires Start(arena.View(), z) && ArePaths(arena.View(), hs) && Distinct(AllNodes(arena.View(), hs), z)
    requires Known(arena.View(), p) && InZone(z, p)
    modifies arena
    ensures arena.Valid()
    ensures r.Ok? ==> PathsDone(old(arena.View()), arena.View(), z, hs, x, p, r.value, at)
    ensures r.Err? ==> arena.View() == old(arena.View()) && exists h :: h in hs && Broken(old(arena.View()), h)
  {
    ghost var a := arena.View();
    hide Wf, Closed, Shaped, Distinct, NodesIn, AllNodes, TreeOf, Hoisted, HoistPath, HoistPaths;
    at := 0;
    for k := 0 to |hs|
      invariant arena.View() == a
      invariant forall j :: 0 <= j < k ==> HoistPath(PathOf(a, hs[j]), x, TreeOf(a, p)).None?
    {
      AllNodesAt(a, hs, k, z);
      r, at := HoistPredicateToPath(arena, hs[k], x, p, z);
      if r.Err? {
        assert hs[k] in hs && Broken(a, hs[k]);
        return;
      }
      if r.value {
        PathsHoisted(a, arena.View(), z, hs, k, x, p, at);
        return;
      }
    }
    HoistPathsNone(PathsOf(a, hs), x, TreeOf(a, p));
    return Ok(false), at;
  }

  lemma PathsHoisted(a: Store, b: Store, z: Zone, hs: seq<Handle>, k: nat, x: string, p: Handle, at: nat)
    requires Start(a, z) && ArePaths(a, hs) && Distinct(AllNodes(a, hs), z) && k < |hs| && Wf(b)
    requires HoistDone(a, b, z, hs[k], x, p, true, at)
    requires forall j :: 0 <= j < k ==> HoistPath(PathOf(a, hs[j]), x, TreeOf(a, p)).None?
    ensures PathsDone(a, b, z, hs, x, p, true, at)
  {
    AllNodesAt(a, hs, k, z);
    forall j | 0 <= j < |hs| && j != k ensures PathOf(b, hs[j]) == PathOf(a, hs[j]) {
      HoistedPathAway(a, b, z, at, p, hs[j]);
    }
    hide Wf, Closed, Shaped, Distinct, NodesIn, AllNodes, TreeOf, Hoisted, HoistPath, HoistPaths, PathOf;
    HoistPathsAt(PathsOf(a, hs), k, x, TreeOf(a, p));
    assert PathsOf(b, hs) == PathsOf(a, hs)[k := PathOf(b, hs[k])];
  }

  // ---------- Clauses ----------

  lemma ClauseParts(st: Store, m: Handle)
    requires Wf(st) && Shaped(st) && NodeAt(st, m).MatchClause?
    ensures Known(st, m) && ArePaths(st, NodeAt(st, m).paths) && IsWhere(st, NodeAt(st, m).mwhere)
    ensures NodeAt(st, m).mwhere.Some? ==> Known(st, NodeAt(st, m).mwhere.value)
    ensures NodeAt(st, m).mwhere.Some? ==> Known(st, NodeAt(st, NodeAt(st, m).mwhere.value).rootPredicate)
  {
    var n := st.nodes[m.index];
    assert NodeShaped(st, n) && NodeLow(st, n, st.rank[m.index]);
    forall k | 0 <= k < |n.paths| ensures IsPath(st, n.paths[k]) {
      assert n.paths[k] in n.paths;
    }
    if n.mwhere.Some? {
      assert n.mwhere.value in Handles(n);
      var w := NodeAt(st, n.mwhere.value);
      assert NodeLow(st, w, st.rank[n.mwhere.value.index]) && w.rootPredicate in Handles(w);
    }
  }

  lemma WhereFrame(a: Store, b: Store, z: Zone, o: Option<Handle>)
    requires Edited(a, b, z) && IsWhere(a, o)
    ensures IsWhere(b, o) && WhereOf(b, o) == WhereOf(a, o)
    ensures o.Some? ==> NodeAt(b, o.value) == NodeAt(a, o.value)
  {
    if o.Some? {
      var i := o.value.index;
      assert b.nodes[i] == a.nodes[i];
      assert NodeLow(a, a.nodes[i], a.rank[i]) && a.nodes[i].rootPredicate in Handles(a.nodes[i]);
      TreeFrame(a, b, a.nodes[i].rootPredicate);
    }
  }

  lemma {:induction false} AllNodesLayout(a: Store, b: Store, z: Zone, hs: seq<Handle>)
    requires Edited(a, b, z) && ArePaths(a, hs)
    ensures ArePaths(b, hs) && AllNodes(b, hs) == AllNodes(a, hs)
    decreases |hs|
  {
    if hs != [] {
      PathLayout(a, b, z, hs[0]);
      AllNodesLayout(a, b, z, hs[1..]);
      forall k | 0 <= k < |hs| ensures IsPath(b, hs[k]) {
        if k > 0 { assert hs[1..][k - 1] == hs[k]; }
      }
    }
  }

  lemma ClauseLayout(a: Store, b: Store, z: Zone, m: Handle)
    requires Edited(a, b, z) && NodeAt(a, m).MatchClause?
    ensures NodeAt(b, m).MatchClause? && NodeAt(b, m).paths == NodeAt(a, m).paths
    ensures NodeAt(b, m).optional == NodeAt(a, m).optional && ClauseNodes(b, m) == ClauseNodes(a, m)
  {
    assert NodeEdited(a.nodes[m.index], b.nodes[m.index], z);
    ClauseParts(a, m);
    AllNodesLayout(a, b, z, NodeAt(a, m).paths);
  }

  lemma {:induction false} MatchLayout(a: Store, b: Store, z: Zone, ms: seq<Handle>)
    requires Edited(a, b, z) && forall k :: 0 <= k < |ms| ==> NodeAt(a, ms[k]).MatchClause?
    ensures MatchNodes(b, ms) == MatchNodes(a, ms)
    decreases |ms|
  {
    if ms != [] {
      ClauseLayout(a, b, z, ms[0]);
      MatchLayout(a, b, z, ms[1..]);
    }
  }

  lemma {:induction false} AllNodesMember(st: Store, hs: seq<Handle>, k: nat, c: Handle)
    requires k < |hs| && c in NodesIn(st, hs[k])
    ensures c in AllNodes(st, hs)
    decreases k
  {
    if k > 0 { AllNodesMember(st, hs[1..], k - 1, c); }
  }

  /** A clause whose node and node patterns did not change denotes what it did. */
  lemma MatchFrame(a: Store, b: Store, z: Zone, m: Handle)
    requires Edited(a, b, z) && NodeAt(a, m).MatchClause? && NodeAt(b, m) == NodeAt(a, m)
    requires forall c :: c in ClauseNodes(a, m) ==> NodeAt(b, c) == NodeAt(a, c)
    ensures MatchOf(b, m) == MatchOf(a, m)
  {
    ClauseParts(a, m);
    var hs := NodeAt(a, m).paths;
    forall k | 0 <= k < |hs| ensures PathOf(b, hs[k]) == PathOf(a, hs[k]) {
      forall c | c in NodesIn(a, hs[k]) ensures NodeAt(b, c) == NodeAt(a, c) {
        AllNodesMember(a, hs, k, c);
      }
      PathFrame(a, b, z, hs[k]);
    }
    assert PathsOf(b, hs) == PathsOf(a, hs);
    WhereFrame(a, b, z, NodeAt(a, m).mwhere);
  }

  lemma HoistedAway(a: Store, b: Store, z: Zone, at: nat, p: Handle, m: Handle)
    requires Hoisted(a, b, z, at, p) && NodeAt(a, m).MatchClause? && At(at) !in ClauseNodes(a, m)
    ensures MatchOf(b, m) == MatchOf(a, m)
  {
    MatchFrame(a, b, z, m);
  }

  lemma HoistedHere(a: Store, b: Store, z: Zone, at: nat, p: Handle, m: Handle)
    requires Hoisted(a, b, z, at, p) && NodeAt(a, m).MatchClause?
    ensures MatchOf(b, m) == MatchOf(a, m).(paths := PathsOf(b, NodeAt(a, m).paths))
  {
    ClauseParts(a, m);
    WhereFrame(a, b, z, NodeAt(a, m).mwhere);
  }

  // ---------- Hoisting into an earlier clause ----------

  lemma {:induction false} HoistBackAt(prev: seq<MatchCl>, k: nat, x: string, p: Expr)
    requires k < |prev| && !prev[k].optional && HoistPaths(prev[k].paths, x, p).Some?
    requires forall j :: k < j < |prev| ==> prev[j].optional || HoistPaths(prev[j].paths, x, p).None?
    ensures HoistBack(prev, x, p) == Some(prev[k := prev[k].(paths := HoistPaths(prev[k].paths, x, p).value)])
    decreases |prev|
  {
    var c := prev[k].(paths := HoistPaths(prev[k].paths, x, p).value);
    var front, last := prev[..|prev| - 1], prev[|prev| - 1];
    if k < |prev| - 1 {
      HoistBackAt(front, k, x, p);
      assert front[k := c] + [last] == prev[k := c];
    } else {
      assert front + [c] == prev[k := c];
    }
  }

  lemma {:induction false} HoistBackNone(prev: seq<MatchCl>, x: string, p: Expr)
    requires forall j :: 0 <= j < |prev| ==> prev[j].optional || HoistPaths(prev[j].paths, x, p).None?
    ensures HoistBack(prev, x, p) == None
    decreases |prev|
  {
    if prev != [] { HoistBackNone(prev[..|prev| - 1], x, p); }
  }

  ghost predicate AreClauses(st: Store, ms: seq<Handle>) {
    forall k :: 0 <= k < |ms| ==> NodeAt(st, ms[k]).MatchClause?
  }

  ghost predicate BackDone(a: Store, b: Store, z: Zone, prev: seq<Handle>, x: string, p: Handle, found: bool, at: nat)
    requires Wf(a) && Wf(b)
  {
    if found then
      && Hoisted(a, b, z, at, p) && At(at) in MatchNodes(a, prev)
      && HoistBack(MatchesOf(a, prev), x, TreeOf(a, p)) == Some(MatchesOf(b, prev))
    else
      b == a && HoistBack(MatchesOf(a, prev), x, TreeOf(a, p)) == None
  }

  predicate BrokenClause(st: Store, m: Handle) {
    NodeAt(st, m).MatchClause? && exists h :: h in NodeAt(st, m).paths && Broken(st, h)
  }

  /** The nearest earlier clause that is not optional and takes the predicate. */
  method HoistToEarlier(arena: QueryAstArena, prev: seq<Handle>, x: string, p: Handle, ghost z: Zone)
    returns (r: Result<bool>, ghost at: nat)
    requires Start(arena.View(), z) && AreClauses(arena.View(), prev) && Distinct(MatchNodes(arena.View(), prev), z)
    requires Known(arena.View(), p) && InZone(z, p)
    modifies arena
    ensures arena.Valid()
    ensures r.Ok? ==> BackDone(old(arena.View()), arena.View(), z, prev, x, p, r.value, at)
    ensures r.Err? ==> arena.View() == old(arena.View()) && exists m :: m in prev && BrokenClause(old(arena.View()), m)
  {
    ghost var a := arena.View();
    hide Wf, Closed, Shaped, Distinct, MatchNodes, TreeOf, Hoisted, HoistPaths, HoistBack, PathsOf, WhereOf, AllNodes;
    at := 0;
    var k := |prev|;
    while k > 0
      invariant 0 <= k <= |prev| && arena.View() == a
      invariant forall j :: k <= j < |prev| ==>
        MatchOf(a, prev[j]).optional || HoistPaths(MatchOf(a, prev[j]).paths, x, TreeOf(a, p)).None?
    {
      k := k - 1;
      var n := arena.nodes[prev[k].index];
      if !n.optional {
        MatchNodesAt(a, prev, k, z);
        ClauseParts(a, prev[k]);
        r, at := HoistToPaths(arena, n.paths, x, p, z);
        if r.Err? {
          assert prev[k] in prev && BrokenClause(a, prev[k]);
          return;
        }
        if r.value {
          BackHoisted(a, arena.View(), z, prev, k, x, p, at);
          return;
        }
      }
    }
    HoistBackNone(MatchesOf(a, prev), x, TreeOf(a, p));
    return Ok(false), at;
  }

  lemma BackHoisted(a: Store, b: Store, z: Zone, prev: seq<Handle>, k: nat, x: string, p: Handle, at: nat)
    requires Start(a, z) && AreClauses(a, prev) && Distinct(MatchNodes(a, prev), z) && k < |prev| && Wf(b)
    requires !NodeAt(a, prev[k]).optional && PathsDone(a, b, z, NodeAt(a, prev[k]).paths, x, p, true, at)
    requires forall j :: k < j < |prev| ==>
      MatchOf(a, prev[j]).optional || HoistPaths(MatchOf(a, prev[j]).paths, x, TreeOf(a, p)).None?
    ensures BackDone(a, b, z, prev, x, p, true, at)
  {
    MatchNodesAt(a, prev, k, z);
    OthersAway(a, b, z, prev, k, p, at);
    HoistedHere(a, b, z, at, p, prev[k]);
    assert MatchOf(a, prev[k]).paths == PathsOf(a, NodeAt(a, prev[k]).paths);
    hide Wf, Closed, Shaped, Distinct, MatchNodes, TreeOf, Hoisted, HoistPaths, HoistBack, MatchOf;
    HoistBackAt(MatchesOf(a, prev), k, x, TreeOf(a, p));
    assert MatchesOf(b, prev) == MatchesOf(a, prev)[k := MatchOf(b, prev[k])];
  }

  lemma OthersAway(a: Store, b: Store, z: Zone, prev: seq<Handle>, k: nat, p: Handle, at: nat)
    requires Start(a, z) && AreClauses(a, prev) && Distinct(MatchNodes(a, prev), z) && k < |prev| && Wf(b)
    requires Hoisted(a, b, z, at, p) && At(at) in AllNodes(a, NodeAt(a, prev[k]).paths)
    ensures forall j :: 0 <= j < |prev| && j != k ==> MatchOf(b, prev[j]) == MatchOf(a, prev[j])
  {
    MatchNodesAt(a, prev, k, z);
    hide Wf, Closed, Shaped, Distinct, MatchNodes, Hoisted, MatchOf;
    forall j | 0 <= j < |prev| && j != k ensures MatchOf(b, prev[j]) == MatchOf(a, prev[j]) {
      assert Apart(ClauseNodes(a, prev[k]), ClauseNodes(a, prev[j]));
      HoistedAway(a, b, z, at, p, prev[j]);
    }
  }

  // ---------- One conjunct ----------

  /** Old nodes not named in `hs` are as they were. */
  ghost predicate Touched(a: Store, b: Store, hs: seq<Handle>) {
    && |a.nodes| <= |b.nodes|
    && forall i {:trigger b.nodes[i]} :: 0 <= i < |a.nodes| && At(i) !in hs ==> b.nodes[i] == a.nodes[i]
  }

  lemma TouchedTransitive(a: Store, b: Store, c: Store, hs: seq<Handle>)
    requires Touched(a, b, hs) && Touched(b, c, hs)
    ensures Touched(a, c, hs)
  {
    forall i | 0 <= i < |a.nodes| && At(i) !in hs ensures c.nodes[i] == a.nodes[i] {
      assert b.nodes[i] == a.nodes[i];
    }
  }

  /** The paths of a clause and the clauses before it: disjoint patterns outside the zone. */
  ghost predicate Workplace(st: Store, z: Zone, prev: seq<Handle>, paths: seq<Handle>) {
    && Start(st, z) && AreClauses(st, prev) && ArePaths(st, paths)
    && Distinct(MatchNodes(st, prev) + AllNodes(st, paths), z)
  }

  lemma WorkplaceLater(a: Store, b: Store, z: Zone, prev: seq<Handle>, paths: seq<Handle>)
    requires Workplace(a, z, prev, paths) && Edited(a, b, z)
    ensures Workplace(b, z, prev, paths)
    ensures MatchNodes(b, prev) == MatchNodes(a, prev) && AllNodes(b, paths) == AllNodes(a, paths)
  {
    MatchLayout(a, b, z, prev);
    AllNodesLayout(a, b, z, paths);
    forall k | 0 <= k < |prev| ensures NodeAt(b, prev[k]).MatchClause? { ClauseLayout(a, b, z, prev[k]); }
  }

  lemma {:induction false} MatchNodesMember(st: Store, ms: seq<Handle>, k: nat, c: Handle)
    requires k < |ms| && c in ClauseNodes(st, ms[k])
    ensures c in MatchNodes(st, ms)
    decreases k
  {
    if k > 0 { MatchNodesMember(st, ms[1..], k - 1, c); }
  }

  lemma PrevAway(a: Store, b: Store, z: Zone, prev: seq<Handle>, paths: seq<Handle>, at: nat, p: Handle)
    requires Workplace(a, z, prev, paths) && Hoisted(a, b, z, at, p) && At(at) in AllNodes(a, paths)
    ensures MatchesOf(b, prev) == MatchesOf(a, prev)
  {
    DistinctParts(MatchNodes(a, prev), AllNodes(a, paths), z);
    forall k | 0 <= k < |prev| ensures MatchOf(b, prev[k]) == MatchOf(a, prev[k]) {
      if At(at) in ClauseNodes(a, prev[k]) { MatchNodesMember(a, prev, k, At(at)); }
      HoistedAway(a, b, z, at, p, prev[k]);
    }
  }

  lemma PathsAway(a: Store, b: Store, z: Zone, prev: seq<Handle>, paths: seq<Handle>, at: nat, p: Handle)
    requires Workplace(a, z, prev, paths) && Hoisted(a, b, z, at, p) && At(at) in MatchNodes(a, prev)
    ensures PathsOf(b, paths) == PathsOf(a, paths)
  {
    DistinctParts(MatchNodes(a, prev), AllNodes(a, paths), z);
    forall k | 0 <= k < |paths| ensures PathOf(b, paths[k]) == PathOf(a, paths[k]) {
      if At(at) in NodesIn(a, paths[k]) { AllNodesMember(a, paths, k, At(at)); }
      HoistedPathAway(a, b, z, at, p, paths[k]);
    }
  }

  ghost function Seen(st: Store, prev: seq<Handle>, paths: seq<Handle>, left: seq<Expr>): Progress
    requires Wf(st)
  {
    Progress(MatchesOf(st, prev), PathsOf(st, paths), left)
  }

  /** Why a conjunct could not be handled: a missing operand or a chain without a start. */
  ghost predicate Faulty(st: Store, prev: seq<Handle>, paths: seq<Handle>) {
    (exists h :: h in paths && Broken(st, h)) || exists m :: m in prev && BrokenClause(st, m)
  }

  /** One turn of the conjunct loop: hoisted here, hoisted into an earlier clause, or left over. */
  method PushConjunct(arena: QueryAstArena, prev: seq<Handle>, paths: seq<Handle>, optional: bool, p: Handle,
                      ghost left: seq<Expr>, ghost z: Zone) returns (r: Result<bool>)
    requires Workplace(arena.View(), z, prev, paths)
    requires Known(arena.View(), p) && InZone(z, p) && Resolved(TreeOf(arena.View(), p))
    modifies arena
    ensures Edited(old(arena.View()), arena.View(), z)
    ensures Touched(old(arena.View()), arena.View(),
                    MatchNodes(old(arena.View()), prev) + AllNodes(old(arena.View()), paths))
    ensures r.Ok? ==>
      var t := TreeOf(old(arena.View()), p);
      PushOne(Seen(old(arena.View()), prev, paths, left), optional, t)
        == Seen(arena.View(), prev, paths, if r.value then left else left + [t])
    ensures r.Err? ==> Hole in Names(TreeOf(old(arena.View()), p)) || Faulty(old(arena.View()), prev, paths)
  {
    ghost var a := arena.View();
    ghost var t := TreeOf(a, p);
    EditedSame(a, z);
    DistinctParts(MatchNodes(a, prev), AllNodes(a, paths), z);
    hide Wf, Closed, Shaped, Distinct, MatchNodes, AllNodes, TreeOf, Edited, HoistPaths, HoistBack, HoistVar, Names,
      MatchesOf, PathsOf, BrokenClause, Broken, Resolved;
    var v := ExtractVariable(arena, p);
    if v.Err? { return Err(v.error); }
    if v.value.None? { return Ok(false); }
    var found, at := HoistToPaths(arena, paths, v.value.value, p, z);
    if found.Err? { return found; }
    if found.value {
      PrevAway(a, arena.View(), z, prev, paths, at, p);
      return Ok(true);
    }
    if !optional {
      found, at := HoistToEarlier(arena, prev, v.value.value, p, z);
      if found.Err? { return found; }
      if found.value {
        PathsAway(a, arena.View(), z, prev, paths, at, p);
        return Ok(true);
      }
    }
    return Ok(false);
  }

  // ---------- Rebuilding the filter ----------

  /** New nodes only, and those are expressions or WHERE nodes. */
  lemma AllocEdited(a: Store, b: Store, node: AstNode, z: Zone)
    requires Start(a, z) && Wf(b) && Grows(a, b) && b.nodes == a.nodes + [node]
    requires IsExpression(node) || node.WhereClause?
    requires forall c :: c in Handles(node) ==> InZone(z, c)
    ensures Edited(a, b, z) && Touched(a, b, [])
  {
    forall i | 0 <= i < |b.nodes| && InZone(z, At(i))
      ensures forall c :: c in Handles(b.nodes[i]) ==> InZone(z, c)
    {
      if i < |a.nodes| { assert b.nodes[i] == a.nodes[i]; }
    }
    ShapedEdited(a, b, z);
  }

  method AllocTop(arena: QueryAstArena, node: AstNode, ghost z: Zone) returns (h: Handle)
    requires Start(arena.View(), z) && (IsExpression(node) || node.WhereClause?)
    requires forall c :: c in Handles(node) ==> InZone(z, c) && Known(arena.View(), c)
    modifies arena
    ensures Edited(old(arena.View()), arena.View(), z) && Touched(old(arena.View()), arena.View(), [])
    ensures h.At? && h.index >= z.start && Known(arena.View(), h) && NodeAt(arena.View(), h) == node
  {
    ghost var a := arena.View();
    h := arena.Alloc(node, Top(arena.rank));
    AllocEdited(a, arena.View(), node, z);
  }

  lemma OperandsLater(a: Store, b: Store, z: Zone, hs: seq<Handle>)
    requires Edited(a, b, z) && AllOperands(a, hs, z)
    ensures AllOperands(b, hs, z) && TreesOf(b, hs) == TreesOf(a, hs)
  {
    TreesFrame(a, b, hs);
  }

  /** `build_conjunction_tree`. */
  method BuildConjunctionTree(arena: QueryAstArena, hs: seq<Handle>, ghost z: Zone) returns (o: Option<Handle>)
    requires Start(arena.View(), z) && AllOperands(arena.View(), hs, z)
    modifies arena
    ensures Edited(old(arena.View()), arena.View(), z) && Touched(old(arena.View()), arena.View(), [])
    ensures IsWhere(arena.View(), o)
    ensures WhereOf(arena.View(), o) == RebuildFilter(TreesOf(old(arena.View()), hs))
    ensures NewFilter(o, z) && (o.Some? ==> Known(arena.View(), o.value))
  {
    ghost var a := arena.View();
    EditedSame(a, z);
    if hs == [] { return None; }
    ghost var ts := TreesOf(a, hs);
    var current := hs[0];
    hide Wf, Closed, Shaped, TreeOf, Edited, Touched, AllOperands, Handles;
    assert Touched(a, a, []) by { TouchedSame(a); }
    assert Known(a, hs[0]) && InZone(z, hs[0]) by { OperandAt(a, hs, 0, z); }
    for k := 1 to |hs|
      invariant Edited(a, arena.View(), z) && Touched(a, arena.View(), []) && arena.Valid()
      invariant Known(arena.View(), current) && InZone(z, current)
      invariant Conjoin(TreeOf(arena.View(), current), ts[k..]) == Conjoin(ts[0], ts[1..])
    {
      ghost var cur := arena.View();
      assert Start(cur, z) by { EditedStart(a, cur, z); }
      OperandsLater(a, cur, z, hs);
      OperandAt(cur, hs, k, z);
      ConjunctionHandles(current, hs[k]);
      assert TreesOf(cur, hs)[k] == TreeOf(cur, hs[k]);
      var next := AllocTop(arena, BinaryExpression(current, And, hs[k]), z);
      ConjunctionTree(cur, arena.View(), current, hs[k], next, z);
      EditedTransitive(a, cur, arena.View(), z);
      TouchedTransitive(a, cur, arena.View(), []);
      assert ts[k..][1..] == ts[k + 1..];
      current := next;
    }
    ghost var cur := arena.View();
    assert Start(cur, z) by { EditedStart(a, cur, z); }
    ConjunctionHandles(current, current);
    var w := AllocTop(arena, WhereClause(current), z);
    EditedTransitive(a, cur, arena.View(), z);
    TouchedTransitive(a, cur, arena.View(), []);
    EditedTree(cur, arena.View(), z, current);
    assert ts[|hs|..] == [];
    return Some(w);
  }

  lemma TouchedSame(a: Store)
    ensures Touched(a, a, [])
  {
  }

  lemma EditedStart(a: Store, b: Store, z: Zone)
    requires Edited(a, b, z)
    ensures Wf(a) && Wf(b) && Start(b, z)
  {
  }

  lemma EditedTree(a: Store, b: Store, z: Zone, h: Handle)
    requires Edited(a, b, z) && Known(a, h)
    ensures TreeOf(b, h) == TreeOf(a, h) && Known(b, h)
  {
    TreeFrame(a, b, h);
  }

  lemma OperandAt(st: Store, hs: seq<Handle>, k: nat, z: Zone)
    requires AllOperands(st, hs, z) && k < |hs|
    ensures Known(st, hs[k]) && InZone(z, hs[k])
  {
  }

  lemma ConjunctionHandles(l: Handle, r: Handle)
    ensures Handles(BinaryExpression(l, And, r)) == {l, r} && Handles(WhereClause(l)) == {l}
  {
  }

  lemma ConjunctionTree(a: Store, b: Store, l: Handle, r: Handle, h: Handle, z: Zone)
    requires Edited(a, b, z) && Known(a, l) && Known(a, r)
    requires h.At? && NodeAt(b, h) == BinaryExpression(l, And, r)
    ensures TreeOf(b, h) == EBin(And, TreeOf(a, l), TreeOf(a, r))
  {
    EditedTree(a, b, z, l);
    EditedTree(a, b, z, r);
    NodeShape(b, h);
  }
}
