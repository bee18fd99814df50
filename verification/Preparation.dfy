/** What the optimizer asks of the statement it is given, and how each pass keeps it. */
module Preparation {
  import opened Ast
  import opened Trees
  import opened Clauses
  import opened Folding
  import opened FoldingLimits
  import opened FoldArena
  import opened Visiting
  import opened FoldPass
  import opened FoldedStatement
  import opened Pushdown
  import opened PushArena
  import opened PushClauses
  import opened PushStatement

  // ---------- Visits of different elements are disjoint ----------

  lemma FreshApart(a: seq<Handle>, b: seq<Handle>, z: Zone)
    requires Fresh(a + b, z)
    ensures Fresh(a, z) && Fresh(b, z) && Apart(a, b) && Apart(b, a)
  {
    FreshParts(a, b, z);
  }

  lemma VisitsApart(st: Store, k: Listing, hs: seq<Handle>, z: Zone)
    requires Fresh(AllVisits(st, k, hs), z)
    ensures forall i :: 0 <= i < |hs| ==> Fresh(Visits(st, k, hs[i]), z)
    ensures forall i, j :: 0 <= i < j < |hs| ==> Apart(Visits(st, k, hs[i]), Visits(st, k, hs[j]))
  {
    hide AllVisits, Visits, Fresh, Apart;
    forall i | 0 <= i < |hs| ensures Fresh(Visits(st, k, hs[i]), z) { VisitFresh(st, k, hs, z, i); }
    forall i, j | 0 <= i < j < |hs| ensures Apart(Visits(st, k, hs[i]), Visits(st, k, hs[j])) {
      VisitApart(st, k, hs, z, i, j);
    }
  }

  lemma LastVisit(st: Store, k: Listing, hs: seq<Handle>, z: Zone)
    requires hs != [] && Fresh(AllVisits(st, k, hs), z)
    ensures var front, last := hs[..|hs| - 1], hs[|hs| - 1];
      && Fresh(AllVisits(st, k, front), z) && Fresh(Visits(st, k, last), z)
      && Apart(AllVisits(st, k, front), Visits(st, k, last))
  {
    var front, last := hs[..|hs| - 1], hs[|hs| - 1];
    assert AllVisits(st, k, hs) == AllVisits(st, k, front) + Visits(st, k, last);
    hide AllVisits, Visits, Fresh;
    FreshApart(AllVisits(st, k, front), Visits(st, k, last), z);
  }

  lemma {:induction false} VisitFresh(st: Store, k: Listing, hs: seq<Handle>, z: Zone, i: nat)
    requires Fresh(AllVisits(st, k, hs), z) && i < |hs|
    ensures Fresh(Visits(st, k, hs[i]), z)
    decreases |hs|
  {
    hide AllVisits, Visits, Fresh, Apart;
    LastVisit(st, k, hs, z);
    if i < |hs| - 1 { VisitFresh(st, k, hs[..|hs| - 1], z, i); }
  }

  lemma {:induction false} VisitApart(st: Store, k: Listing, hs: seq<Handle>, z: Zone, i: nat, j: nat)
    requires Fresh(AllVisits(st, k, hs), z) && i < j < |hs|
    ensures Apart(Visits(st, k, hs[i]), Visits(st, k, hs[j]))
    decreases |hs|
  {
    hide AllVisits, Visits, Fresh;
    LastVisit(st, k, hs, z);
    if j < |hs| - 1 {
      VisitApart(st, k, hs[..|hs| - 1], z, i, j);
    } else {
      VisitedMember(st, k, hs[..|hs| - 1], i);
    }
  }

  lemma DistinctFresh(hs: seq<Handle>, z: Zone)
    ensures Fresh(hs, z) ==> Distinct(hs, z)
  {
  }

  lemma DistinctConcat(a: seq<Handle>, b: seq<Handle>, z: Zone)
    requires Distinct(a, z) && Distinct(b, z) && Apart(a, b)
    ensures Distinct(a + b, z)
  {
  }

  /** The node patterns of a path are among its visits. */
  lemma PathVisited(st: Store, h: Handle, z: Zone)
    requires Fresh(Visits(st, Paths, h), z)
    requires NodeAt(st, h).PathChain? ==> forall e :: e in NodeAt(st, h).edges ==> NodeAt(st, e).EdgePattern?
    ensures Distinct(NodesIn(st, h), z) && forall c :: c in NodesIn(st, h) ==> c in Visits(st, Paths, h)
  {
    var n := NodeAt(st, h);
    if n.PathChain? {
      FreshApart([n.startNode], AllVisits(st, Edges, n.edges), z);
      VisitsApart(st, Edges, n.edges, z);
      var ts := Targets(st, n.edges);
      forall i | 0 <= i < |ts|
        ensures ts[i] in Visits(st, Edges, n.edges[i]) && ts[i] in AllVisits(st, Edges, n.edges)
      {
        VisitedMember(st, Edges, n.edges, i);
      }
      TargetsDistinct(st, n.edges, z);
      assert Apart([n.startNode], ts);
      DistinctConcat([n.startNode], ts, z);
    } else {
      DistinctFresh([h], z);
    }
  }

  lemma TargetsDistinct(st: Store, es: seq<Handle>, z: Zone)
    requires forall i :: 0 <= i < |es| ==> Fresh(Visits(st, Edges, es[i]), z)
    requires forall i, j :: 0 <= i < j < |es| ==> Apart(Visits(st, Edges, es[i]), Visits(st, Edges, es[j]))
    ensures Distinct(Targets(st, es), z)
  {
    var ts := Targets(st, es);
    forall i | 0 <= i < |ts| && ts[i].At? ensures !InZone(z, ts[i]) {
      assert Visits(st, Edges, es[i])[1] == ts[i];
    }
    forall i, j | 0 <= i < j < |ts| && ts[i].At? ensures ts[i] != ts[j] {
      assert Visits(st, Edges, es[i])[1] == ts[i] && Visits(st, Edges, es[j])[1] == ts[j];
    }
  }

  lemma {:induction false} PathsVisited(st: Store, hs: seq<Handle>, vs: seq<seq<Handle>>, z: Zone)
    requires |vs| == |hs| && ArePaths(st, hs)
    requires forall k :: 0 <= k < |hs| ==> vs[k] == Visits(st, Paths, hs[k]) && Fresh(vs[k], z) && EdgesFit(st, hs[k])
    requires forall i, j :: 0 <= i < j < |hs| ==> Apart(vs[i], vs[j])
    ensures Distinct(AllNodes(st, hs), z)
    ensures forall c :: c in AllNodes(st, hs) ==> exists k :: 0 <= k < |hs| && c in vs[k]
    decreases |hs|
  {
    if hs != [] {
      PathVisited(st, hs[0], z);
      PathsVisited(st, hs[1..], vs[1..], z);
      forall c | c in AllNodes(st, hs[1..]) ensures exists k :: 1 <= k < |hs| && c in vs[k] {
        var k :| 0 <= k < |hs[1..]| && c in vs[1..][k];
        assert c in vs[k + 1];
      }
      DistinctConcat(NodesIn(st, hs[0]), AllNodes(st, hs[1..]), z);
      forall c | c in AllNodes(st, hs) ensures exists k :: 0 <= k < |hs| && c in vs[k] {
        if c in NodesIn(st, hs[0]) { assert c in vs[0]; }
      }
    }
  }

  predicate EdgesFit(st: Store, h: Handle) {
    NodeAt(st, h).PathChain? ==> forall e :: e in NodeAt(st, h).edges ==> NodeAt(st, e).EdgePattern?
  }

  lemma ClauseVisited(st: Store, m: Handle, z: Zone)
    requires Wf(st) && Shaped(st) && NodeAt(st, m).MatchClause? && Fresh(Visits(st, Clauses, m), z)
    ensures Distinct(ClauseNodes(st, m), z) && forall c :: c in ClauseNodes(st, m) ==> c in Visits(st, Clauses, m)
  {
    var n := NodeAt(st, m);
    ClauseParts(st, m);
    FreshApart(AllVisits(st, Paths, n.paths), OptSeq(n.mwhere), z);
    VisitsApart(st, Paths, n.paths, z);
    var vs := seq(|n.paths|, k requires 0 <= k < |n.paths| => Visits(st, Paths, n.paths[k]));
    forall k | 0 <= k < |n.paths| ensures EdgesFit(st, n.paths[k]) {
      assert IsPath(st, n.paths[k]) && NodeShaped(st, NodeAt(st, n.paths[k]));
    }
    PathsVisited(st, n.paths, vs, z);
    forall c | c in AllNodes(st, n.paths) ensures c in AllVisits(st, Paths, n.paths) {
      var k :| 0 <= k < |n.paths| && c in vs[k];
      VisitedMember(st, Paths, n.paths, k);
    }
  }

  lemma {:induction false} MatchesVisited(st: Store, ms: seq<Handle>, vs: seq<seq<Handle>>, z: Zone)
    requires Wf(st) && Shaped(st) && AreClauses(st, ms) && |vs| == |ms|
    requires forall k :: 0 <= k < |ms| ==> vs[k] == Visits(st, Clauses, ms[k]) && Fresh(vs[k], z)
    requires forall i, j :: 0 <= i < j < |ms| ==> Apart(vs[i], vs[j])
    ensures Distinct(MatchNodes(st, ms), z)
    ensures forall c :: c in MatchNodes(st, ms) ==> exists k :: 0 <= k < |ms| && c in vs[k]
    decreases |ms|
  {
    if ms != [] {
      ClauseVisited(st, ms[0], z);
      MatchesVisited(st, ms[1..], vs[1..], z);
      forall c | c in MatchNodes(st, ms[1..]) ensures exists k :: 1 <= k < |ms| && c in vs[k] {
        var k :| 0 <= k < |ms[1..]| && c in vs[1..][k];
        assert c in vs[k + 1];
      }
      DistinctConcat(ClauseNodes(st, ms[0]), MatchNodes(st, ms[1..]), z);
      forall c | c in MatchNodes(st, ms) ensures exists k :: 0 <= k < |ms| && c in vs[k] {
        if c in ClauseNodes(st, ms[0]) { assert c in vs[0]; }
      }
    }
  }

  lemma NodesVisited(st: Store, ms: seq<Handle>, z: Zone)
    requires Wf(st) && Shaped(st) && AreClauses(st, ms) && Fresh(AllVisits(st, Clauses, ms), z)
    ensures Distinct(MatchNodes(st, ms), z)
    ensures forall c :: c in MatchNodes(st, ms) ==> c in AllVisits(st, Clauses, ms)
  {
    VisitsApart(st, Clauses, ms, z);
    var vs := seq(|ms|, k requires 0 <= k < |ms| => Visits(st, Clauses, ms[k]));
    MatchesVisited(st, ms, vs, z);
    forall c | c in MatchNodes(st, ms) ensures c in AllVisits(st, Clauses, ms) {
      var k :| 0 <= k < |ms| && c in vs[k];
      VisitedMember(st, Clauses, ms, k);
    }
  }

  // ---------- The statement handed to the optimizer ----------

  /**
   Expressions lie in the zone, clauses and patterns outside it and unshared; no filter uses
   a clause or pattern node as an operand.
   */
  ghost predicate Prepared(st: Store, z: Zone, root: Handle) {
    var n := NodeAt(st, root);
    && Start(st, z) && n.QueryStatement?
    && Ready(st, StatementVisits(st, root), z) && Fresh(StatementVisits(st, root), z)
    && Distinct(n.matches, z) && (forall m :: m in n.matches ==> PathsOutside(st, z, m))
    && forall m :: m in n.matches ==> Foreign !in NamesOpt(MatchOf(st, m).filter)
  }

  ghost predicate PathsOutside(st: Store, z: Zone, m: Handle) {
    NodeAt(st, m).MatchClause? ==> forall p :: p in NodeAt(st, m).paths && p.At? ==> !InZone(z, p)
  }

  /** The visits of the MATCH clauses and of the mutations, and everything else. */
  lemma VisitsSplit(st: Store, z: Zone, root: Handle)
    requires NodeAt(st, root).QueryStatement? && Fresh(StatementVisits(st, root), z)
    ensures var n := NodeAt(st, root);
      var ms, xs := AllVisits(st, Clauses, n.matches), AllVisits(st, Mutations, n.mutations);
      && Fresh(ms, z) && Fresh(xs, z) && Apart(ms, xs) && Apart(xs, ms)
      && Apart(xs, AllVisits(st, Clauses, n.unwinds)) && Apart(xs, AllVisits(st, Clauses, n.withs))
      && Apart(xs, AllVisits(st, Clauses, n.linear)) && Apart(xs, OptSeq(n.resultClause))
      && (forall h :: h in ms || h in xs ==> h in StatementVisits(st, root))
      && (forall h :: h in AllVisits(st, Clauses, n.unwinds) ==> h in StatementVisits(st, root))
      && (forall h :: h in AllVisits(st, Clauses, n.withs) ==> h in StatementVisits(st, root))
      && (forall h :: h in AllVisits(st, Clauses, n.linear) ==> h in StatementVisits(st, root))
      && (forall h :: h in OptSeq(n.resultClause) ==> h in StatementVisits(st, root))
  {
    var n := NodeAt(st, root);
    var c, us, ms := OptSeq(n.loadCsv), AllVisits(st, Clauses, n.unwinds), AllVisits(st, Clauses, n.matches);
    var ws, ls, xs := AllVisits(st, Clauses, n.withs), AllVisits(st, Clauses, n.linear),
      AllVisits(st, Mutations, n.mutations);
    var r := OptSeq(n.resultClause);
    assert StatementVisits(st, root) == c + us + ms + ws + ls + xs + r;
    hide AllVisits, StatementVisits, Fresh;
    FreshApart(c + us + ms + ws + ls + xs, r, z);
    FreshApart(c + us + ms + ws + ls, xs, z);
    FreshApart(c + us + ms + ws, ls, z);
    FreshApart(c + us + ms, ws, z);
    FreshApart(c + us, ms, z);
  }

  /** No operand of the filter is foreign, so its conjuncts are expressions over variables. */
  lemma {:induction false} ConjunctsFit(e: Expr)
    requires Foreign !in Names(e)
    ensures Upright(Conjuncts(e)) && forall c :: c in Conjuncts(e) ==> Resolved(c)
  {
    if e.EBin? && e.op == And {
      ConjunctsFit(e.left);
      ConjunctsFit(e.right);
    } else {
      LeafFits(e);
    }
  }

  lemma LeafFits(e: Expr)
    requires Foreign !in Names(e)
    ensures Resolved(e) && (e.EOther? ==> e.handle.Null?)
  {
    if e.EBin? {
      assert Names(e) == Names(e.left) + Names(e.right);
      if e.left.EProp? { assert Names(e.left) == Names(e.left.target); }
      if e.right.EProp? { assert Names(e.right) == Names(e.right.target); }
    }
  }

  lemma PreparedClauses(st: Store, z: Zone, root: Handle)
    requires Prepared(st, z, root)
    ensures ClausesFit(st, z, NodeAt(st, root).matches)
    ensures forall m :: m in NodeAt(st, root).matches ==> FilterFits(st, m, z)
  {
    var n := NodeAt(st, root);
    assert NodeShaped(st, st.nodes[root.index]);
    VisitsSplit(st, z, root);
    NodesVisited(st, n.matches, z);
    forall m | m in n.matches ensures FilterFits(st, m, z) {
      var k :| 0 <= k < |n.matches| && n.matches[k] == m;
      VisitedMember(st, Clauses, n.matches, k);
      FilterReady(st, z, m, StatementVisits(st, root));
    }
  }

  lemma FilterReady(st: Store, z: Zone, m: Handle, vs: seq<Handle>)
    requires Start(st, z) && NodeAt(st, m).MatchClause? && Ready(st, vs, z)
    requires forall h :: h in Visits(st, Clauses, m) ==> h in vs
    requires Foreign !in NamesOpt(MatchOf(st, m).filter)
    ensures FilterFits(st, m, z)
  {
    var n := NodeAt(st, m);
    ClauseParts(st, m);
    if n.mwhere.Some? {
      assert n.mwhere.value in OptSeq(n.mwhere);
      assert n.mwhere.value in Visits(st, Clauses, m);
      var w := NodeAt(st, n.mwhere.value);
      assert ExprList(w)[0] == w.rootPredicate;
      ConjunctsFit(TreeOf(st, w.rootPredicate));
    }
  }

  // ---------- Folding keeps it ----------

  lemma VisitsFolded(a: Store, b: Store, z: Zone, root: Handle, ok: bool)
    requires Start(a, z) && NodeAt(a, root).QueryStatement? && Pass(a, b, z, StatementVisits(a, root), ok)
    ensures NodeAt(b, root) == NodeAt(a, root) && StatementVisits(b, root) == StatementVisits(a, root)
  {
    var n := NodeAt(a, root);
    var feet := Feet(StatementVisits(a, root));
    KindsKept(a, b, z, feet, root);
    SkeletonLists(n, NodeAt(b, root));
    StatementParts(a, root);
    MutationSlots(a, root);
    hide Visits, AllVisits, Within, Pass, Shaped, Wf, Fits;
    WithinOf(a, b, z, StatementVisits(a, root), ok);
    AllVisitsLater(a, b, z, feet, Clauses, n.unwinds, root);
    AllVisitsLater(a, b, z, feet, Clauses, n.matches, root);
    AllVisitsLater(a, b, z, feet, Clauses, n.withs, root);
    AllVisitsLater(a, b, z, feet, Clauses, n.linear, root);
    AllVisitsLater(a, b, z, feet, Mutations, n.mutations, root);
  }

  lemma WithinOf(a: Store, b: Store, z: Zone, vs: seq<Handle>, ok: bool)
    requires Wf(a) && Pass(a, b, z, vs, ok)
    ensures Within(a, b, z, Feet(vs)) && Shaped(b) && Wf(b)
  {
  }

  lemma PreparedFolded(a: Store, b: Store, z: Zone, root: Handle)
    requires Prepared(a, z, root) && Pass(a, b, z, StatementVisits(a, root), true)
    ensures Prepared(b, z, root) && NodeAt(b, root) == NodeAt(a, root)
    ensures StatementOf(b, root) == FoldStatement(StatementOf(a, root))
  {
    var n, vs := NodeAt(a, root), StatementVisits(a, root);
    VisitsFolded(a, b, z, root, true);
    WithinOf(a, b, z, vs, true);
    ReadyLater(a, b, z, Feet(vs), vs);
    PassStart(a, b, z, vs, true);
    FreshOnce(a, z, vs);
    StatementFolded(a, b, z, root);
    StatementMatchHandles(a, root);
    forall m | m in n.matches ensures PathsOutside(b, z, m) {
      KindsKept(a, b, z, Feet(vs), m);
      SkeletonLists(NodeAt(a, m), NodeAt(b, m));
    }
    var p, q := StatementOf(a, root), StatementOf(b, root);
    hide Wf, Pass, Within, Ready, Fresh, StatementVisits, Start, Names, Fold;
    forall m | m in n.matches ensures Foreign !in NamesOpt(MatchOf(b, m).filter) {
      var k :| 0 <= k < |n.matches| && n.matches[k] == m;
      assert q.matches[k] == FoldMatch(p.matches[k]);
      if p.matches[k].filter.Some? { FoldNames(p.matches[k].filter.value); }
    }
  }

  // ---------- Choosing the zone anew ----------

  function Span(lo: nat, hi: nat): (s: set<nat>)
    ensures forall i :: i in s <==> lo <= i < hi
    decreases hi
  {
    if lo >= hi then {} else Span(lo, hi - 1) + {hi - 1}
  }

  /** The same nodes, with those added so far among the chosen ones. */
  function Rezone(z: Zone, n: nat): Zone {
    Zone((set i | i in z.chosen && i < n) + Span(z.start, n), n)
  }

  lemma RezoneSame(z: Zone, n: nat)
    requires z.start <= n
    ensures forall h: Handle {:trigger InZone(Rezone(z, n), h)} :: h.Null? || h.index < n ==>
      (InZone(Rezone(z, n), h) <==> InZone(z, h))
  {
  }

  lemma RezoneStart(st: Store, z: Zone)
    requires Start(st, z)
    ensures Start(st, Rezone(z, |st.nodes|))
  {
    var y := Rezone(z, |st.nodes|);
    RezoneSame(z, |st.nodes|);
    forall i | 0 <= i < |st.nodes| && InZone(y, At(i))
      ensures forall c :: c in Handles(st.nodes[i]) ==> InZone(y, c)
    {
      assert NodeLow(st, st.nodes[i], st.rank[i]);
    }
  }

  lemma RezoneReady(st: Store, z: Zone, vs: seq<Handle>)
    requires Start(st, z) && Ready(st, vs, z)
    ensures Ready(st, vs, Rezone(z, |st.nodes|))
  {
    var y := Rezone(z, |st.nodes|);
    RezoneSame(z, |st.nodes|);
    forall h | h in vs ensures Known(st, h) && ExprsIn(NodeAt(st, h), y) {
      KnownExprs(st, h);
      forall c | c in ExprList(NodeAt(st, h)) ensures InZone(y, c) {
        var k :| 0 <= k < |ExprList(NodeAt(st, h))| && ExprList(NodeAt(st, h))[k] == c;
        assert Known(st, c);
      }
    }
  }

  lemma PreparedRezone(st: Store, z: Zone, root: Handle)
    requires Prepared(st, z, root)
    ensures Prepared(st, Rezone(z, |st.nodes|), root)
  {
    hide Wf, Shaped, StatementVisits, ExprsIn, NodeShaped, Names, NamesOpt, MatchOf;
    var y, vs, ms := Rezone(z, |st.nodes|), StatementVisits(st, root), NodeAt(st, root).matches;
    RezoneStart(st, z);
    RezoneReady(st, z, vs);
    RezoneSame(z, |st.nodes|);
    StatementMatchHandles(st, root);
    hide Start;
    assert Fresh(vs, y) by {
      assert forall i :: 0 <= i < |vs| ==> vs[i] in vs && Known(st, vs[i]);
    }
    assert Distinct(ms, y) by {
      assert forall i :: 0 <= i < |ms| ==> ms[i] in ms;
    }
    forall m | m in ms ensures PathsOutside(st, y, m) {
      forall p | p in NodeAt(st, m).paths && p.At? ensures !InZone(y, p) { OwnedKnown(st, m, p); }
    }
  }

  lemma StatementMatchHandles(st: Store, root: Handle)
    requires Wf(st) && Shaped(st) && NodeAt(st, root).QueryStatement?
    ensures forall m :: m in NodeAt(st, root).matches ==> NodeAt(st, m).MatchClause? && Known(st, m)
  {
    assert NodeShaped(st, st.nodes[root.index]);
  }

  // ---------- Pushdown leaves the mutations alone ----------

  /** A zone without future: everything chosen exists already. */
  ghost predicate Current(st: Store, z: Zone) {
    z.start == |st.nodes| && forall i :: i in z.chosen ==> i < z.start
  }

  lemma RezoneCurrent(st: Store, z: Zone)
    ensures Current(st, Rezone(z, |st.nodes|))
  {
  }

  lemma {:induction false} EditedVisits(a: Store, b: Store, z: Zone, k: Listing, h: Handle)
    requires Edited(a, b, z) && Fits(a, k, h) && Known(a, h) && k != Clauses
    ensures Visits(b, k, h) == Visits(a, k, h)
    ensures forall v :: v in Visits(a, k, h) ==> Known(a, v) && !NodeAt(a, v).MatchClause?
    decreases Level(k), 0, 0
  {
    FitsParts(a, k, h);
    if h.At? { assert NodeEdited(a.nodes[h.index], b.nodes[h.index], z); }
    var n := NodeAt(a, h);
    if k == Edges { OwnedTarget(a, h); }
    if k == Paths && n.PathChain? {
      OwnedKnown(a, h, n.startNode);
      EditedAllVisits(a, b, z, Edges, n.edges, h);
    }
    if k == Mutations && h.At? {
      if n.SetClause? {
        EditedAllVisits(a, b, z, Items, n.sitems, h);
      } else if n.MergeClause? {
        OwnedKnown(a, h, n.mpath);
        EditedAllVisits(a, b, z, Items, n.onCreate, h);
        EditedAllVisits(a, b, z, Items, n.onMatch, h);
        EditedVisits(a, b, z, Paths, n.mpath);
      } else if n.CreateClause? {
        EditedAllVisits(a, b, z, Paths, n.cpaths, h);
      }
    }
  }

  lemma OwnedTarget(st: Store, e: Handle)
    requires Wf(st) && Shaped(st) && NodeAt(st, e).EdgePattern?
    ensures Known(st, Target(st, e)) && !NodeAt(st, Target(st, e)).MatchClause?
  {
    var n := st.nodes[e.index];
    assert NodeShaped(st, n) && n.targetNode in Handles(n);
    OwnedKnown(st, e, n.targetNode);
  }

  lemma {:induction false} EditedAllVisits(a: Store, b: Store, z: Zone, k: Listing, hs: seq<Handle>, owner: Handle)
    requires Edited(a, b, z) && k != Clauses
    requires forall h :: h in hs ==> Fits(a, k, h) && h in Handles(NodeAt(a, owner))
    ensures AllVisits(b, k, hs) == AllVisits(a, k, hs)
    ensures forall v :: v in AllVisits(a, k, hs) ==> Known(a, v) && !NodeAt(a, v).MatchClause?
    decreases Level(k), 1, |hs|
  {
    if hs != [] {
      var last := hs[|hs| - 1];
      OwnedKnown(a, owner, last);
      EditedAllVisits(a, b, z, k, hs[..|hs| - 1], owner);
      EditedVisits(a, b, z, k, last);
    }
  }

  /** The chosen nodes, and the nodes the next step adds. */
  function Later(z: Zone, b: Store): Zone {
    Zone(z.chosen, |b.nodes|)
  }

  lemma LaterStart(a: Store, b: Store, z: Zone)
    requires Edited(a, b, z) && Current(a, z)
    ensures Start(b, Later(z, b))
  {
    var y := Later(z, b);
    forall i | 0 <= i < |b.nodes| && InZone(y, At(i))
      ensures forall c :: c in Handles(b.nodes[i]) ==> InZone(y, c)
    {
      assert i in z.chosen && b.nodes[i] == a.nodes[i];
      assert NodeLow(a, a.nodes[i], a.rank[i]);
    }
  }

  /** The mutations find their slots as folding left them. */
  lemma MutationsReady(a: Store, b: Store, z: Zone, root: Handle)
    requires Prepared(a, z, root) && Current(a, z) && Edited(a, b, z)
    requires Touched(a, b, Reach(a, NodeAt(a, root).matches))
    ensures var xs := NodeAt(a, root).mutations;
      var vs := AllVisits(a, Mutations, xs);
      && AllVisits(b, Mutations, xs) == vs
      && Ready(b, vs, Later(z, b)) && Fresh(vs, Later(z, b))
      && (forall v :: v in vs ==> Known(a, v) && NodeAt(b, v) == NodeAt(a, v))
      && (forall h :: h in xs ==> Fits(a, Mutations, h) && h in Handles(NodeAt(a, root)))
  {
    var n := NodeAt(a, root);
    var xs := n.mutations;
    var vs := AllVisits(a, Mutations, xs);
    StatementParts(a, root);
    MutationSlots(a, root);
    EditedAllVisits(a, b, z, Mutations, xs, root);
    VisitsSplit(a, z, root);
    StatementMatchHandles(a, root);
    NodesVisited(a, n.matches, z);
    hide AllVisits, StatementVisits, Visits, MatchNodes, Wf, Shaped, Closed, Fits;
    forall v | v in vs ensures NodeAt(b, v) == NodeAt(a, v) && Known(b, v) && ExprsIn(NodeAt(b, v), Later(z, b)) {
      if v.At? {
        assert v !in Reach(a, n.matches);
        assert b.nodes[v.index] == a.nodes[v.index];
      }
      OperandsCurrent(a, z, v, Later(z, b));
    }
    FreshLater(a, z, vs, Later(z, b));
  }

  lemma OperandsCurrent(st: Store, z: Zone, v: Handle, y: Zone)
    requires Wf(st) && Current(st, z) && ExprsIn(NodeAt(st, v), z) && y.chosen == z.chosen
    ensures ExprsIn(NodeAt(st, v), y)
  {
    KnownExprs(st, v);
    forall c | c in ExprList(NodeAt(st, v)) ensures InZone(y, c) {
      var k :| 0 <= k < |ExprList(NodeAt(st, v))| && ExprList(NodeAt(st, v))[k] == c;
      assert Known(st, c);
    }
  }

  lemma FreshLater(st: Store, z: Zone, vs: seq<Handle>, y: Zone)
    requires Current(st, z) && Fresh(vs, z) && y.chosen == z.chosen && y.start >= z.start
    requires forall v :: v in vs ==> Known(st, v)
    ensures Fresh(vs, y)
  {
    forall i | 0 <= i < |vs| && vs[i].At? ensures !InZone(y, vs[i]) {
      assert vs[i] in vs && !InZone(z, vs[i]);
    }
  }
}
