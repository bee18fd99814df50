/** Predicate pushdown over a whole statement in the arena. */
module PushStatement {
  import opened Common
  import opened Ast
  import opened Trees
  import opened Clauses
  import opened FoldingLimits
  import opened FoldArena
  import opened Visiting
  import opened Pushdown
  import opened PushArena
  import opened PushClauses

  // ---------- One MATCH clause ----------

  /** The filter of a clause lies in the zone, and its conjuncts are expressions on variables. */
  ghost predicate FilterFits(st: Store, m: Handle, z: Zone)
    requires Wf(st)
  {
    var n := NodeAt(st, m);
    n.MatchClause? && n.mwhere.Some? && IsWhere(st, n.mwhere) ==>
      var c := NodeAt(st, n.mwhere.value).rootPredicate;
      && InZone(z, c) && Upright(Conjuncts(TreeOf(st, c)))
      && forall e :: e in Conjuncts(TreeOf(st, c)) ==> Resolved(e)
  }

  lemma {:induction false} ConjunctNames(e: Expr)
    ensures forall c :: c in Conjuncts(e) ==> Names(c) <= Names(e)
  {
    if e.EBin? && e.op == And {
      ConjunctNames(e.left);
      ConjunctNames(e.right);
    }
  }

  /** The conjunct loop after `k` turns: the rest of the conjuncts still has to be pushed. */
  ghost predicate Pushing(a: Store, b: Store, z: Zone, prev: seq<Handle>, paths: seq<Handle>, optional: bool,
                          ts: seq<Expr>, k: nat, left: seq<Handle>) {
    && k <= |ts| && Edited(a, b, z) && AllOperands(b, left, z)
    && Touched(a, b, MatchNodes(a, prev) + AllNodes(a, paths))
    && PushAll(Seen(b, prev, paths, TreesOf(b, left)), optional, ts[k..])
      == PushAll(Seen(a, prev, paths, []), optional, ts)
  }

  lemma PushingStart(a: Store, z: Zone, prev: seq<Handle>, paths: seq<Handle>, optional: bool, ts: seq<Expr>)
    requires Start(a, z)
    ensures Pushing(a, a, z, prev, paths, optional, ts, 0, [])
  {
    EditedSame(a, z);
    NoOperands(a, z, MatchNodes(a, prev) + AllNodes(a, paths));
    hide Wf, Closed, Shaped, MatchNodes, AllNodes, TreeOf, PushAll, Edited, Touched, AllOperands;
    assert ts[0..] == ts;
    assert TreesOf(a, []) == [];
  }

  lemma PushingStep(a: Store, b: Store, c: Store, z: Zone, prev: seq<Handle>, paths: seq<Handle>, optional: bool,
                    ts: seq<Expr>, k: nat, left: seq<Handle>, p: Handle, found: bool)
    requires Pushing(a, b, z, prev, paths, optional, ts, k, left) && k < |ts| && Workplace(a, z, prev, paths)
    requires Edited(b, c, z) && Touched(b, c, MatchNodes(b, prev) + AllNodes(b, paths))
    requires Known(b, p) && InZone(z, p) && TreeOf(b, p) == ts[k]
    requires PushOne(Seen(b, prev, paths, TreesOf(b, left)), optional, ts[k])
      == Seen(c, prev, paths, if found then TreesOf(b, left) else TreesOf(b, left) + [ts[k]])
    ensures Pushing(a, c, z, prev, paths, optional, ts, k + 1, if found then left else left + [p])
  {
    hide Wf, Closed, Shaped, MatchNodes, AllNodes, TreeOf, PushOne, MatchesOf, PathsOf;
    WorkplaceLater(a, b, z, prev, paths);
    hide Workplace;
    EditedTransitive(a, b, c, z);
    TouchedTransitive(a, b, c, MatchNodes(a, prev) + AllNodes(a, paths));
    OperandsLater(b, c, z, left);
    EditedTree(b, c, z, p);
    TreesConcat(c, left, [p]);
    assert TreesOf(c, [p]) == [TreeOf(c, p)];
    assert ts[k..][1..] == ts[k + 1..];
  }

  method PushConjuncts(arena: QueryAstArena, prev: seq<Handle>, paths: seq<Handle>, optional: bool, cs: seq<Handle>,
                       ghost z: Zone) returns (r: Result<seq<Handle>>)
    requires Workplace(arena.View(), z, prev, paths) && AllOperands(arena.View(), cs, z)
    requires forall e :: e in TreesOf(arena.View(), cs) ==> Resolved(e)
    modifies arena
    ensures Edited(old(arena.View()), arena.View(), z)
    ensures Touched(old(arena.View()), arena.View(),
                    MatchNodes(old(arena.View()), prev) + AllNodes(old(arena.View()), paths))
    ensures r.Ok? ==> AllOperands(arena.View(), r.value, z)
    ensures r.Ok? ==>
      PushAll(Seen(old(arena.View()), prev, paths, []), optional, TreesOf(old(arena.View()), cs))
      == Seen(arena.View(), prev, paths, TreesOf(arena.View(), r.value))
    ensures r.Err? ==>
      (exists e :: e in TreesOf(old(arena.View()), cs) && Hole in Names(e)) || Faulty(old(arena.View()), prev, paths)
  {
    ghost var a := arena.View();
    ghost var ts := TreesOf(a, cs);
    var left: seq<Handle> := [];
    PushingStart(a, z, prev, paths, optional, ts);
    hide Wf, Closed, Shaped, Workplace, MatchNodes, AllNodes, TreeOf, Edited, AllOperands, PushOne, PushAll, Names,
      Faulty, Resolved, Touched, Seen;
    for k := 0 to |cs|
      invariant Pushing(a, arena.View(), z, prev, paths, optional, ts, k, left)
    {
      ghost var cur := arena.View();
      WorkplaceLater(a, cur, z, prev, paths);
      OperandsLater(a, cur, z, cs);
      OperandAt(cur, cs, k, z);
      assert TreesOf(cur, cs)[k] == TreeOf(cur, cs[k]) == ts[k] && ts[k] in ts;
      var pushed := PushConjunct(arena, prev, paths, optional, cs[k], TreesOf(cur, left), z);
      if pushed.Err? {
        if Faulty(cur, prev, paths) { FaultyBefore(a, cur, z, prev, paths); }
        EditedTransitive(a, cur, arena.View(), z);
        TouchedTransitive(a, cur, arena.View(), MatchNodes(a, prev) + AllNodes(a, paths));
        return Err(pushed.error);
      }
      PushingStep(a, cur, arena.View(), z, prev, paths, optional, ts, k, left, cs[k], pushed.value);
      if !pushed.value {
        left := left + [cs[k]];
      }
    }
    AllPushed(a, arena.View(), z, prev, paths, optional, ts, left);
    return Ok(left);
  }

  lemma AllPushed(a: Store, b: Store, z: Zone, prev: seq<Handle>, paths: seq<Handle>, optional: bool,
                  ts: seq<Expr>, left: seq<Handle>)
    requires Pushing(a, b, z, prev, paths, optional, ts, |ts|, left)
    ensures PushAll(Seen(a, prev, paths, []), optional, ts) == Seen(b, prev, paths, TreesOf(b, left))
  {
    assert ts[|ts|..] == [];
  }

  lemma NoOperands(a: Store, z: Zone, hs: seq<Handle>)
    ensures AllOperands(a, [], z) && Touched(a, a, hs)
  {
  }

  /** Chains are never edited, so a broken one was broken before. */
  lemma FaultyBefore(a: Store, b: Store, z: Zone, prev: seq<Handle>, paths: seq<Handle>)
    requires Workplace(a, z, prev, paths) && Edited(a, b, z) && Faulty(b, prev, paths)
    ensures Faulty(a, prev, paths)
  {
    if h :| h in paths && Broken(b, h) {
      BrokenBefore(a, b, z, h);
    } else {
      var m :| m in prev && BrokenClause(b, m);
      ClauseLayout(a, b, z, m);
      ClauseParts(a, m);
      var h :| h in NodeAt(b, m).paths && Broken(b, h);
      BrokenBefore(a, b, z, h);
      assert BrokenClause(a, m);
    }
  }

  lemma BrokenBefore(a: Store, b: Store, z: Zone, h: Handle)
    requires Edited(a, b, z) && Known(a, h) && Broken(b, h)
    ensures Broken(a, h)
  {
    assert NodeEdited(a.nodes[h.index], b.nodes[h.index], z);
  }

  /** Clause handles: distinct, outside the zone, with patterns that are distinct too. */
  ghost predicate ClausesFit(st: Store, z: Zone, ms: seq<Handle>) {
    && Start(st, z) && AreClauses(st, ms) && Distinct(ms, z) && Distinct(MatchNodes(st, ms), z)
  }

  lemma ClausesFitLater(a: Store, b: Store, z: Zone, ms: seq<Handle>)
    requires ClausesFit(a, z, ms) && Edited(a, b, z)
    ensures ClausesFit(b, z, ms) && MatchNodes(b, ms) == MatchNodes(a, ms)
  {
    MatchLayout(a, b, z, ms);
    forall k | 0 <= k < |ms| ensures NodeAt(b, ms[k]).MatchClause? { ClauseLayout(a, b, z, ms[k]); }
  }

  /** A clause the pass cannot finish. */
  ghost predicate Stuck(st: Store, m: Handle)
    requires Wf(st)
  {
    BrokenClause(st, m) || (NodeAt(st, m).MatchClause? && Hole in NamesOpt(WhereOf(st, NodeAt(st, m).mwhere)))
  }

  lemma WorkplaceOf(st: Store, z: Zone, prev: seq<Handle>, m: Handle)
    requires ClausesFit(st, z, prev + [m])
    ensures NodeAt(st, m).MatchClause? && Workplace(st, z, prev, NodeAt(st, m).paths)
    ensures MatchNodes(st, prev + [m]) == MatchNodes(st, prev) + AllNodes(st, NodeAt(st, m).paths)
    ensures m.At? && !InZone(z, m) && m !in prev
  {
    var ms := prev + [m];
    assert ms[|prev|] == m;
    forall k | 0 <= k < |prev| ensures NodeAt(st, prev[k]).MatchClause? && prev[k] != m {
      assert ms[k] == prev[k];
    }
    MatchNodesConcat(st, prev, [m]);
    ClauseParts(st, m);
    assert [m][1..] == [];
    hide AllNodes, Handles, Shaped, Wf, NodesIn;
    assert MatchNodes(st, [m]) == ClauseNodes(st, m) + MatchNodes(st, []);
    assert ClauseNodes(st, m) + [] == ClauseNodes(st, m);
  }

  /** `optimize_match_clause`. */
  method OptimizeMatchClause(arena: QueryAstArena, m: Handle, prev: seq<Handle>, ghost z: Zone) returns (ok: bool)
    requires ClausesFit(arena.View(), z, prev + [m]) && FilterFits(arena.View(), m, z)
    modifies arena
    ensures Edited(old(arena.View()), arena.View(), z)
    ensures Touched(old(arena.View()), arena.View(), MatchNodes(old(arena.View()), prev + [m]) + [m])
    ensures ok ==>
      MatchesOf(arena.View(), prev + [m])
      == PushClause(MatchesOf(old(arena.View()), prev), MatchOf(old(arena.View()), m))
    ensures !ok ==> Stuck(old(arena.View()), m) || exists c :: c in prev && BrokenClause(old(arena.View()), c)
  {
    ghost var a := arena.View();
    WorkplaceOf(a, z, prev, m);
    ClauseParts(a, m);
    EditedSame(a, z);
    var n := arena.nodes[m.index];
    if n.mwhere.None? {
      assert MatchesOf(a, prev + [m]) == MatchesOf(a, prev) + [MatchOf(a, m)];
      return true;
    }
    ghost var hs := MatchNodes(a, prev + [m]);
    FilterParts(a, m, z);
    ghost var e := MatchOf(a, m).filter.value;
    hide Wf, Closed, Shaped, Workplace, MatchNodes, AllNodes, TreeOf, Edited, AllOperands, Names, NamesOpt, Faulty,
      Conjuncts, Upright, PushAll, RebuildFilter, Touched, Resolved, FilterFits, PushClause, ClausesFit, MatchesOf;
    var cs := CollectConjuncts(arena, n.mwhere.value, [], z);
    if cs.Err? {
      StuckClause(a, prev, m);
      return false;
    }
    assert TreesOf(a, cs.value) == Conjuncts(e);
    var left := PushConjuncts(arena, prev, n.paths, n.optional, cs.value, z);
    ghost var b := arena.View();
    TouchedMore(a, b, hs, m);
    if left.Err? {
      StuckClause(a, prev, m);
      return false;
    }
    EditedStart(a, b, z);
    var w := BuildConjunctionTree(arena, left.value, z);
    ghost var d := arena.View();
    EditedStart(b, d, z);
    ClauseLayout(a, b, z, m);
    ClauseLayout(b, d, z, m);
    PlaceFilter(arena, m, w, z);
    ClauseDone(a, b, d, arena.View(), z, prev, m, left.value, w);
    TouchedFrom(b, d, hs + [m]);
    TouchedFrom(d, arena.View(), hs + [m]);
    TouchedTransitive(a, b, d, hs + [m]);
    TouchedTransitive(a, d, arena.View(), hs + [m]);
    EditedTransitive(a, b, d, z);
    EditedTransitive(a, d, arena.View(), z);
    return true;
  }

  /** What the filter of a clause offers to the conjunct loop. */
  lemma FilterParts(st: Store, m: Handle, z: Zone)
    requires Wf(st) && Shaped(st) && FilterFits(st, m, z)
    requires NodeAt(st, m).MatchClause? && NodeAt(st, m).mwhere.Some?
    ensures var n, c := NodeAt(st, m), Condition(st, NodeAt(st, m).mwhere.value);
      && InZone(z, c) && Known(st, c) && AllOperands(st, [], z) && TreesOf(st, []) == []
      && MatchOf(st, m) == MatchCl(n.optional, PathsOf(st, n.paths), Some(TreeOf(st, c)))
      && Upright(Conjuncts(TreeOf(st, c)))
      && (forall e :: e in Conjuncts(TreeOf(st, c)) ==> Resolved(e) && (Hole in Names(e) ==> Stuck(st, m)))
      && (EOther(Null) in Conjuncts(TreeOf(st, c)) ==> Stuck(st, m))
  {
    ClauseParts(st, m);
    var c := Condition(st, NodeAt(st, m).mwhere.value);
    ConjunctNames(TreeOf(st, c));
    assert WhereOf(st, NodeAt(st, m).mwhere) == Some(TreeOf(st, c));
    assert NamesOpt(Some(TreeOf(st, c))) == Names(TreeOf(st, c));
    assert Hole in Names(EOther(Null));
  }

  lemma TouchedMore(a: Store, b: Store, hs: seq<Handle>, m: Handle)
    requires Touched(a, b, hs)
    ensures Touched(a, b, hs + [m])
  {
  }

  lemma TouchedFrom(a: Store, b: Store, hs: seq<Handle>)
    requires Touched(a, b, []) || (hs != [] && Touched(a, b, [hs[|hs| - 1]]))
    ensures Touched(a, b, hs)
  {
  }

  lemma StuckClause(a: Store, prev: seq<Handle>, m: Handle)
    requires Wf(a) && NodeAt(a, m).MatchClause?
    requires Stuck(a, m) || Faulty(a, prev, NodeAt(a, m).paths)
    ensures Stuck(a, m) || exists c :: c in prev && BrokenClause(a, c)
  {
  }

  /** Writes the rebuilt filter back into the clause node. */
  method PlaceFilter(arena: QueryAstArena, m: Handle, w: Option<Handle>, ghost z: Zone)
    requires Start(arena.View(), z) && NodeAt(arena.View(), m).MatchClause? && !InZone(z, m)
    requires IsWhere(arena.View(), w) && NewFilter(w, z) && (w.Some? ==> Known(arena.View(), w.value))
    modifies arena
    ensures Edited(old(arena.View()), arena.View(), z) && Touched(old(arena.View()), arena.View(), [m])
    ensures NodeAt(arena.View(), m) == NodeAt(old(arena.View()), m).(mwhere := w)
  {
    ghost var a := arena.View();
    var n := arena.nodes[m.index];
    assert forall c :: c in n.paths ==> c in Handles(n);
    Overwrite(arena, m, n.(mwhere := w), z);
    PlacedShaped(a, arena.View(), z, m, w);
  }

  lemma PlacedShaped(a: Store, b: Store, z: Zone, m: Handle, w: Option<Handle>)
    requires Shaped(a) && NodeAt(a, m).MatchClause? && IsWhere(a, w) && NewFilter(w, z)
    requires b.nodes == a.nodes[m.index := NodeAt(a, m).(mwhere := w)]
    ensures Shaped(b)
  {
    assert IsWhere(b, w);
    ShapedEdited(a, b, z);
  }

  /** The clause and its predecessors after the filter is in place. */
  lemma ClauseDone(a: Store, b: Store, d: Store, e: Store, z: Zone, prev: seq<Handle>, m: Handle, left: seq<Handle>,
                   w: Option<Handle>)
    requires ClausesFit(a, z, prev + [m]) && NodeAt(a, m).MatchClause? && NodeAt(a, m).mwhere.Some?
    requires Edited(a, b, z) && Edited(b, d, z) && Edited(d, e, z)
    requires Touched(b, d, []) && Touched(d, e, [m]) && NodeAt(d, m).MatchClause?
      && NodeAt(e, m) == NodeAt(d, m).(mwhere := w)
    requires var c := MatchOf(a, m);
      && c.filter.Some?
      && PushAll(Progress(MatchesOf(a, prev), c.paths, []), c.optional, Conjuncts(c.filter.value))
         == Seen(b, prev, NodeAt(a, m).paths, TreesOf(b, left))
    requires IsWhere(d, w) && WhereOf(d, w) == RebuildFilter(TreesOf(b, left))
    ensures MatchesOf(e, prev + [m]) == PushClause(MatchesOf(a, prev), MatchOf(a, m))
  {
    assert Wf(a) && Wf(b) && Wf(d) && Wf(e);
    hide Wf, Edited, Touched, PushAll, Conjuncts, RebuildFilter, PathsOf, WhereOf, ClausesFit, MatchesOf, TreesOf;
    var n := NodeAt(a, m);
    assert MatchOf(a, m).optional == n.optional;
    hide MatchOf;
    ClauseFramed(a, b, d, e, z, prev, m, w);
    MatchesSnoc(e, prev, m);
    assert MatchesOf(e, prev + [m]) == MatchesOf(b, prev) + [MatchCl(n.optional, PathsOf(b, n.paths), WhereOf(d, w))];
  }

  lemma MatchesSnoc(st: Store, hs: seq<Handle>, h: Handle)
    requires Wf(st)
    ensures MatchesOf(st, hs + [h]) == MatchesOf(st, hs) + [MatchOf(st, h)]
  {
  }

  lemma ClauseFramed(a: Store, b: Store, d: Store, e: Store, z: Zone, prev: seq<Handle>, m: Handle, w: Option<Handle>)
    requires ClausesFit(a, z, prev + [m]) && NodeAt(a, m).MatchClause?
    requires Edited(a, b, z) && Edited(b, d, z) && Edited(d, e, z)
    requires Touched(b, d, []) && Touched(d, e, [m]) && NodeAt(d, m).MatchClause?
      && NodeAt(e, m) == NodeAt(d, m).(mwhere := w)
    requires IsWhere(d, w)
    ensures MatchesOf(e, prev) == MatchesOf(b, prev)
    ensures MatchOf(e, m) == MatchCl(NodeAt(a, m).optional, PathsOf(b, NodeAt(a, m).paths), WhereOf(d, w))
  {
    var n := NodeAt(a, m);
    WorkplaceOf(a, z, prev, m);
    hide Wf, Closed, Shaped, Workplace, Edited, Touched, PathsOf, WhereOf, ClausesFit, MatchesOf;
    ClauseLayout(a, b, z, m);
    ClauseLayout(b, d, z, m);
    WhereFrame(d, e, z, w);
    WorkplaceLater(a, b, z, prev, n.paths);
    PathsSame(b, d, z, m, prev, n.paths);
    WorkplaceLater(b, d, z, prev, n.paths);
    PathsSame(d, e, z, m, prev, n.paths);
  }

  /** Steps that change at most the clause node leave paths and earlier clauses alone. */
  lemma PathsSame(a: Store, b: Store, z: Zone, m: Handle, prev: seq<Handle>, paths: seq<Handle>)
    requires Workplace(a, z, prev, paths) && Edited(a, b, z) && NodeAt(a, m).MatchClause? && m !in prev
    requires Touched(a, b, []) || Touched(a, b, [m])
    ensures PathsOf(b, paths) == PathsOf(a, paths) && MatchesOf(b, prev) == MatchesOf(a, prev)
  {
    forall h | h != m && Known(a, h) ensures NodeAt(b, h) == NodeAt(a, h) {
      if h.At? { assert b.nodes[h.index] == a.nodes[h.index]; }
    }
    forall k | 0 <= k < |paths| ensures PathOf(b, paths[k]) == PathOf(a, paths[k]) {
      PathParts(a, paths[k]);
      PathFrame(a, b, z, paths[k]);
    }
    forall k | 0 <= k < |prev| ensures MatchOf(b, prev[k]) == MatchOf(a, prev[k]) {
      ClauseParts(a, prev[k]);
      AreNodes(a, NodeAt(a, prev[k]).paths);
      MatchFrame(a, b, z, prev[k]);
    }
  }

  lemma {:induction false} AreNodes(st: Store, hs: seq<Handle>)
    requires Wf(st) && Shaped(st) && ArePaths(st, hs)
    ensures forall c :: c in AllNodes(st, hs) ==> Known(st, c) && (c.At? ==> NodeAt(st, c).NodePattern?)
    decreases |hs|
  {
    if hs != [] {
      PathParts(st, hs[0]);
      AreNodes(st, hs[1..]);
    }
  }

  // ---------- All MATCH clauses ----------

  lemma {:induction false} PushMatchesAppend(done: seq<MatchCl>, rest: seq<MatchCl>, c: MatchCl)
    ensures PushMatches(done, rest + [c]) == PushClause(PushMatches(done, rest), c)
    decreases |rest|
  {
    if rest == [] {
      assert (rest + [c])[1..] == [];
      assert PushMatches(PushClause(done, c), []) == PushClause(done, c);
    } else {
      assert (rest + [c])[1..] == rest[1..] + [c];
      PushMatchesAppend(PushClause(done, rest[0]), rest[1..], c);
    }
  }

  /** The nodes and clauses a pass over `ms` may edit. */
  function Reach(st: Store, ms: seq<Handle>): seq<Handle> {
    MatchNodes(st, ms) + ms
  }

  lemma {:induction false} ClauseNodesKind(st: Store, ms: seq<Handle>)
    requires Wf(st) && Shaped(st) && AreClauses(st, ms)
    ensures forall c :: c in MatchNodes(st, ms) ==> Known(st, c) && (c.At? ==> NodeAt(st, c).NodePattern?)
    decreases |ms|
  {
    if ms != [] {
      ClauseParts(st, ms[0]);
      AreNodes(st, NodeAt(st, ms[0]).paths);
      ClauseNodesKind(st, ms[1..]);
    }
  }

  lemma FitPrefix(st: Store, z: Zone, ms: seq<Handle>, k: nat)
    requires ClausesFit(st, z, ms) && k < |ms|
    ensures ms[..k + 1] == ms[..k] + [ms[k]] && ClausesFit(st, z, ms[..k] + [ms[k]])
    ensures forall c :: c in Reach(st, ms[..k]) ==> c != ms[k]
    ensures forall c :: c in Reach(st, ms[..k]) && c.At? ==> c !in ClauseNodes(st, ms[k])
  {
    hide ClausesFit, Reach, ClauseNodes;
    PrefixKinds(st, z, ms, k);
    PrefixFits(st, z, ms, k + 1);
    assert ms[..k + 1] == ms[..k] + [ms[k]];
  }

  lemma PrefixFits(st: Store, z: Zone, ms: seq<Handle>, k: nat)
    requires ClausesFit(st, z, ms) && k <= |ms|
    ensures ClausesFit(st, z, ms[..k])
  {
    assert ms == ms[..k] + ms[k..];
    MatchNodesConcat(st, ms[..k], ms[k..]);
    DistinctParts(ms[..k], ms[k..], z);
    DistinctParts(MatchNodes(st, ms[..k]), MatchNodes(st, ms[k..]), z);
    hide MatchNodes, Distinct, Start;
    assert AreClauses(st, ms[..k]);
  }

  lemma PrefixKinds(st: Store, z: Zone, ms: seq<Handle>, k: nat)
    requires ClausesFit(st, z, ms) && k < |ms|
    ensures forall c :: c in Reach(st, ms[..k]) ==> c != ms[k]
    ensures forall c :: c in Reach(st, ms[..k]) && c.At? ==> c !in ClauseNodes(st, ms[k])
  {
    hide Wf, Closed, Shaped, Distinct, ClauseNodes;
    var all, front, back := MatchNodes(st, ms), MatchNodes(st, ms[..k]), MatchNodes(st, ms[k..]);
    assert ms == ms[..k] + ms[k..];
    MatchNodesConcat(st, ms[..k], ms[k..]);
    DistinctParts(front, back, z);
    ClauseNodesKind(st, ms);
    assert NodeAt(st, ms[k]).MatchClause?;
    forall c | c in Reach(st, ms[..k])
      ensures c != ms[k] && (c.At? ==> c !in ClauseNodes(st, ms[k]))
    {
      assert forall d :: d in ClauseNodes(st, ms[k]) ==> d in back;
      if c in ms[..k] {
        var j :| 0 <= j < k && ms[j] == c;
        assert c != ms[k] by { DistinctAt(ms, j, k, z); }
        assert NodeAt(st, ms[j]).MatchClause?;
      }
    }
  }

  lemma DistinctAt(hs: seq<Handle>, i: nat, j: nat, z: Zone)
    requires Distinct(hs, z) && i < j < |hs| && hs[i].At?
    ensures hs[i] != hs[j]
  {
  }

  /** Clauses not reached yet are as they were found. */
  lemma NextClause(a: Store, b: Store, z: Zone, ms: seq<Handle>, k: nat)
    requires ClausesFit(a, z, ms) && k < |ms| && Edited(a, b, z) && Touched(a, b, Reach(a, ms[..k]))
      && FilterFits(a, ms[k], z)
    ensures MatchOf(b, ms[k]) == MatchOf(a, ms[k]) && FilterFits(b, ms[k], z)
    ensures Stuck(b, ms[k]) ==> Stuck(a, ms[k])
  {
    var m := ms[k];
    FitPrefix(a, z, ms, k);
    ClauseParts(a, m);
    AreNodes(a, NodeAt(a, m).paths);
    assert b.nodes[m.index] == a.nodes[m.index];
    forall c | c in ClauseNodes(a, m) ensures NodeAt(b, c) == NodeAt(a, c) {
      if c.At? { assert b.nodes[c.index] == a.nodes[c.index]; }
    }
    MatchFrame(a, b, z, m);
    WhereFrame(a, b, z, NodeAt(a, m).mwhere);
    if BrokenClause(b, m) {
      var h :| h in NodeAt(b, m).paths && Broken(b, h);
      assert IsPath(a, h);
      BrokenBefore(a, b, z, h);
    }
  }

  lemma BrokenClauseBefore(a: Store, b: Store, z: Zone, m: Handle)
    requires Edited(a, b, z) && NodeAt(a, m).MatchClause? && BrokenClause(b, m)
    ensures BrokenClause(a, m)
  {
    ClauseLayout(a, b, z, m);
    ClauseParts(a, m);
    var h :| h in NodeAt(b, m).paths && Broken(b, h);
    BrokenBefore(a, b, z, h);
  }

  /** The MATCH loop of `optimize_statement`. */
  method OptimizeMatches(arena: QueryAstArena, ms: seq<Handle>, ghost z: Zone) returns (ok: bool)
    requires ClausesFit(arena.View(), z, ms)
    requires forall k :: 0 <= k < |ms| ==> FilterFits(arena.View(), ms[k], z)
    modifies arena
    ensures Edited(old(arena.View()), arena.View(), z)
    ensures Touched(old(arena.View()), arena.View(), Reach(old(arena.View()), ms))
    ensures ok ==> MatchesOf(arena.View(), ms) == PushMatches([], MatchesOf(old(arena.View()), ms))
    ensures !ok ==> exists m :: m in ms && Stuck(old(arena.View()), m)
  {
    ghost var a := arena.View();
    EditedSame(a, z);
    NoOperands(a, z, Reach(a, ms[..0]));
    assert MatchesOf(a, ms[..0]) == [];
    hide Wf, Closed, Shaped, ClausesFit, Edited, Touched, MatchNodes, Reach, FilterFits, MatchOf, MatchesOf,
      PushMatches, PushClause, BrokenClause, Stuck;
    assert PushMatches([], []) == [] by { PushNothing(); }
    for k := 0 to |ms|
      invariant Edited(a, arena.View(), z) && Touched(a, arena.View(), Reach(a, ms[..k])) && arena.Valid()
      invariant MatchesOf(arena.View(), ms[..k]) == PushMatches([], MatchesOf(a, ms[..k]))
    {
      ghost var cur := arena.View();
      FitPrefix(a, z, ms, k);
      NextClause(a, cur, z, ms, k);
      ClausesFitLater(a, cur, z, ms[..k] + [ms[k]]);
      ok := OptimizeMatchClause(arena, ms[k], ms[..k], z);
      EditedTransitive(a, cur, arena.View(), z);
      ReachStep(a, cur, arena.View(), z, ms, k);
      if !ok {
        TouchedUp(a, arena.View(), ms, k + 1);
        StuckBefore(a, cur, z, ms, k);
        return;
      }
      PushMatchesAppend([], MatchesOf(a, ms[..k]), MatchOf(a, ms[k]));
      MatchesSoFar(a, ms, k);
    }
    assert ms[..|ms|] == ms;
    return true;
  }

  lemma MatchesSoFar(st: Store, ms: seq<Handle>, k: nat)
    requires Wf(st) && k < |ms|
    ensures MatchesOf(st, ms[..k + 1]) == MatchesOf(st, ms[..k]) + [MatchOf(st, ms[k])]
  {
  }

  lemma PushNothing()
    ensures PushMatches([], []) == []
  {
  }

  lemma ReachStep(a: Store, b: Store, c: Store, z: Zone, ms: seq<Handle>, k: nat)
    requires k < |ms| && Touched(a, b, Reach(a, ms[..k])) && ms[..k + 1] == ms[..k] + [ms[k]]
    requires MatchNodes(b, ms[..k] + [ms[k]]) == MatchNodes(a, ms[..k] + [ms[k]])
    requires Touched(b, c, MatchNodes(b, ms[..k] + [ms[k]]) + [ms[k]])
    ensures Touched(a, c, Reach(a, ms[..k + 1]))
  {
    MatchNodesConcat(a, ms[..k], [ms[k]]);
    hide MatchNodes;
    forall i | 0 <= i < |a.nodes| && At(i) !in Reach(a, ms[..k + 1]) ensures c.nodes[i] == a.nodes[i] {
      assert b.nodes[i] == a.nodes[i];
    }
  }

  lemma TouchedUp(a: Store, b: Store, ms: seq<Handle>, k: nat)
    requires k <= |ms| && Touched(a, b, Reach(a, ms[..k]))
    ensures Touched(a, b, Reach(a, ms))
  {
    assert ms == ms[..k] + ms[k..];
    MatchNodesConcat(a, ms[..k], ms[k..]);
  }

  lemma StuckBefore(a: Store, b: Store, z: Zone, ms: seq<Handle>, k: nat)
    requires ClausesFit(a, z, ms) && Edited(a, b, z) && k < |ms| && (Stuck(b, ms[k]) ==> Stuck(a, ms[k]))
    requires Stuck(b, ms[k]) || exists c :: c in ms[..k] && BrokenClause(b, c)
    ensures exists m :: m in ms && Stuck(a, m)
  {
    if Stuck(b, ms[k]) {
      assert ms[k] in ms;
    } else {
      var c :| c in ms[..k] && BrokenClause(b, c);
      assert c in ms;
      BrokenClauseBefore(a, b, z, c);
      assert Stuck(a, c);
    }
  }
}
