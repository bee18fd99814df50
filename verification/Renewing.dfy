/** What the passes do to the subqueries below a statement: they fold them, and nothing else. */
module Renewing {
  import opened Ast
  import opened Clauses
  import opened FoldArena
  import opened Visiting
  import opened FoldPass
  import opened FoldedStatement
  import opened PushArena
  import opened PushClauses
  import opened PushStatement
  import opened PruneArena
  import opened Preparation

  // ---------- Patterns stay where they are ----------

  /** The handles that lay out a pattern or a clause. */
  predicate FramedAt(x: AstNode, y: AstNode) {
    && (x.PathChain? <==> y.PathChain?) && (x.PathChain? ==> y.startNode == x.startNode && y.edges == x.edges)
    && (x.EdgePattern? <==> y.EdgePattern?) && (x.EdgePattern? ==> y.targetNode == x.targetNode)
    && (x.MatchClause? <==> y.MatchClause?) && (x.MatchClause? ==> y.paths == x.paths)
  }

  ghost predicate Framed(a: Store, b: Store) {
    |a.nodes| <= |b.nodes| && forall h :: Known(a, h) ==> FramedAt(NodeAt(a, h), NodeAt(b, h))
  }

  lemma WithinFramed(a: Store, b: Store, z: Zone, feet: set<nat>)
    requires Within(a, b, z, feet)
    ensures Framed(a, b)
  {
    forall h | Known(a, h) ensures FramedAt(NodeAt(a, h), NodeAt(b, h)) {
      KindsKept(a, b, z, feet, h);
      SkeletonLists(NodeAt(a, h), NodeAt(b, h));
      SkeletonTarget(NodeAt(a, h), NodeAt(b, h));
    }
  }

  lemma EditedFramed(a: Store, b: Store, z: Zone)
    requires Edited(a, b, z)
    ensures Framed(a, b)
  {
    forall h | Known(a, h) ensures FramedAt(NodeAt(a, h), NodeAt(b, h)) {
      if h.At? { assert NodeEdited(a.nodes[h.index], b.nodes[h.index], z); }
    }
  }

  lemma FramedThen(a: Store, b: Store, c: Store)
    requires Framed(a, b) && Framed(b, c)
    ensures Framed(a, c)
  {
    forall h | Known(a, h) ensures FramedAt(NodeAt(a, h), NodeAt(c, h)) { assert Known(b, h); }
  }

  lemma FramedNodes(a: Store, b: Store, h: Handle)
    requires Wf(a) && Framed(a, b) && Known(a, h)
    ensures NodesIn(b, h) == NodesIn(a, h)
  {
    var n := NodeAt(a, h);
    if n.PathChain? {
      forall k | 0 <= k < |n.edges| ensures Target(b, n.edges[k]) == Target(a, n.edges[k]) {
        assert n.edges[k] in Handles(n);
        OwnedKnown(a, h, n.edges[k]);
      }
    }
  }

  lemma FramedBeyond(a: Store, b: Store, z: Zone, ms: seq<Handle>)
    requires Wf(a) && Framed(a, b) && ClausesBeyond(a, z, ms) && forall m :: m in ms ==> Known(a, m)
    ensures ClausesBeyond(b, z, ms)
  {
    forall k | 0 <= k < |ms| && NodeAt(b, ms[k]).MatchClause? ensures PathsBeyond(b, z, NodeAt(b, ms[k]).paths) {
      var hs := NodeAt(a, ms[k]).paths;
      assert ms[k] in ms && PathsBeyond(a, z, hs);
      forall j | 0 <= j < |hs| ensures Beyond(z, [hs[j]] + NodesIn(b, hs[j])) {
        assert hs[j] in Handles(NodeAt(a, ms[k]));
        OwnedKnown(a, ms[k], hs[j]);
        FramedNodes(a, b, hs[j]);
      }
    }
  }

  lemma PreparedBeyond(st: Store, z: Zone, root: Handle)
    requires Prepared(st, z, root)
    ensures ClausesBeyond(st, z, NodeAt(st, root).matches)
  {
    var ms := NodeAt(st, root).matches;
    StatementMatchHandles(st, root);
    VisitsSplit(st, z, root);
    forall k | 0 <= k < |ms| ensures PathsBeyond(st, z, NodeAt(st, ms[k]).paths) {
      assert ms[k] in ms;
      ClauseBeyond(st, z, ms, k);
    }
  }

  lemma ClauseBeyond(st: Store, z: Zone, ms: seq<Handle>, k: nat)
    requires Wf(st) && Shaped(st) && k < |ms| && NodeAt(st, ms[k]).MatchClause? && PathsOutside(st, z, ms[k])
    requires Fresh(AllVisits(st, Clauses, ms), z)
    ensures PathsBeyond(st, z, NodeAt(st, ms[k]).paths)
  {
    var hs := NodeAt(st, ms[k]).paths;
    VisitsApart(st, Clauses, ms, z);
    assert Visits(st, Clauses, ms[k]) == AllVisits(st, Paths, hs) + OptSeq(NodeAt(st, ms[k]).mwhere);
    FreshApart(AllVisits(st, Paths, hs), OptSeq(NodeAt(st, ms[k]).mwhere), z);
    forall j | 0 <= j < |hs| ensures Beyond(z, [hs[j]] + NodesIn(st, hs[j])) {
      assert hs[j] in hs;
      VisitsApart(st, Paths, hs, z);
      PathBeyond(st, z, hs[j]);
    }
  }

  lemma PathBeyond(st: Store, z: Zone, h: Handle)
    requires Fresh(Visits(st, Paths, h), z) && (h.At? ==> !InZone(z, h))
    ensures Beyond(z, [h] + NodesIn(st, h))
  {
    var n, vs := NodeAt(st, h), Visits(st, Paths, h);
    assert forall v :: v in vs && v.At? ==> !InZone(z, v);
    if n.PathChain? {
      assert vs == [n.startNode] + AllVisits(st, Edges, n.edges);
      forall c | c in Targets(st, n.edges) ensures c in vs {
        var k :| 0 <= k < |n.edges| && Target(st, n.edges[k]) == c;
        VisitedMember(st, Edges, n.edges, k);
        assert c in Visits(st, Edges, n.edges[k]);
      }
    }
  }

  /** Two zones that agree on the nodes there are. */
  ghost predicate SameZone(st: Store, z: Zone, y: Zone) {
    forall h :: Known(st, h) ==> (InZone(y, h) <==> InZone(z, h))
  }

  lemma BeyondSame(st: Store, z: Zone, y: Zone, ms: seq<Handle>)
    requires Wf(st) && SameZone(st, z, y) && ClausesBeyond(st, z, ms) && forall m :: m in ms ==> Known(st, m)
    ensures ClausesBeyond(st, y, ms)
  {
    forall k | 0 <= k < |ms| && NodeAt(st, ms[k]).MatchClause? ensures PathsBeyond(st, y, NodeAt(st, ms[k]).paths) {
      var hs := NodeAt(st, ms[k]).paths;
      assert ms[k] in ms && PathsBeyond(st, z, hs);
      forall j | 0 <= j < |hs| ensures Beyond(y, [hs[j]] + NodesIn(st, hs[j])) {
        assert hs[j] in Handles(NodeAt(st, ms[k])) && Beyond(z, [hs[j]] + NodesIn(st, hs[j]));
        OwnedKnown(st, ms[k], hs[j]);
        NodesKnown(st, hs[j]);
      }
    }
  }

  lemma NodesKnown(st: Store, h: Handle)
    requires Wf(st) && Known(st, h)
    ensures forall c :: c in NodesIn(st, h) ==> Known(st, c)
  {
    var n := NodeAt(st, h);
    if n.PathChain? {
      OwnedKnown(st, h, n.startNode);
      forall k | 0 <= k < |n.edges| ensures Known(st, Target(st, n.edges[k])) {
        var e := n.edges[k];
        assert e in Handles(n);
        OwnedKnown(st, h, e);
        if NodeAt(st, e).EdgePattern? { OwnedKnown(st, e, NodeAt(st, e).targetNode); }
      }
    }
  }

  // ---------- Slots inside the zone ----------

  /** Inside the zone, slots are folded at most as often as the visits `vs` lead to them. */
  ghost predicate Renews(a: Store, b: Store, z: Zone, vs: seq<Handle>) {
    && Keeps(a, b, z)
    && forall s :: Known(a, s) && InZone(z, s) ==> UpTo(a, b, s, SlotsTimes(a, vs, s))
  }

  lemma PassRenews(a: Store, b: Store, z: Zone, vs: seq<Handle>, ok: bool)
    requires Wf(a) && Pass(a, b, z, vs, ok)
    ensures Renews(a, b, z, vs)
  {
    WithinKeeps(a, b, z, Feet(vs));
    hide Keeps, Within, Shaped, SlotsTimes, Refolded;
    forall s | Known(a, s) ensures UpTo(a, b, s, SlotsTimes(a, vs, s)) {
      assert Between(a, b, s, if ok && s in vs then 1 else 0, SlotsTimes(a, vs, s));
    }
  }

  lemma EditedKeeps(a: Store, b: Store, z: Zone)
    requires Edited(a, b, z)
    ensures Keeps(a, b, z)
    ensures forall s :: Known(a, s) && InZone(z, s) ==> NodeAt(b, s) == NodeAt(a, s)
  {
    forall s | Known(a, s) && InZone(z, s) ensures NodeAt(b, s) == NodeAt(a, s) && KeptAt(a, b, s) {
      if s.At? { assert b.nodes[s.index] == a.nodes[s.index]; }
      SlotKept(a, b, s);
    }
  }

  lemma {:induction false} KeptShrink(a: Store, b: Store, z: Zone, ws: seq<Handle>, s: Handle)
    requires Keeps(a, b, z) && Ready(a, ws, z) && forall w :: w in ws ==> KeptAt(a, b, w)
    ensures SlotsTimes(b, ws, s) <= SlotsTimes(a, ws, s)
    decreases |ws|
  {
    if ws != [] {
      assert ws[0] in ws;
      hide Keeps, KeptAt, Times, Wf;
      KeepsWf(a, b, z);
      SlotShrinks(a, b, z, ws[0], s);
      KeptShrink(a, b, z, ws[1..], s);
    }
  }

  lemma RenewsThen(a: Store, b: Store, c: Store, z: Zone, y: Zone, vs: seq<Handle>, ws: seq<Handle>)
    requires Renews(a, b, z, vs) && Renews(b, c, y, ws)
    requires forall s :: Known(a, s) && InZone(z, s) ==> InZone(y, s)
    requires forall s :: SlotsTimes(b, ws, s) <= SlotsTimes(a, ws, s)
    ensures Renews(a, c, z, vs + ws)
  {
    KeepsWf(a, b, z);
    KeepsWf(b, c, y);
    GrowsTransitive(a, b, c);
    hide SlotsTimes, Refolded, Wf, Grows, Start;
    forall s | Known(a, s) && InZone(z, s)
      ensures UpTo(a, c, s, SlotsTimes(a, vs + ws, s)) && Skeleton(NodeAt(c, s)) == Skeleton(NodeAt(a, s))
    {
      assert Known(b, s) && KeptAt(a, b, s) && KeptAt(b, c, s);
      SlotsConcat(a, vs, ws, s);
      var j: nat :| j <= SlotsTimes(a, vs, s) && Refolded(a, b, s, j);
      var k: nat :| k <= SlotsTimes(b, ws, s) && Refolded(b, c, s, k);
      RefoldedThen(a, b, c, s, j, k);
    }
  }

  /** Pushdown, then the second fold of the mutations. */
  lemma StatementRenews(a: Store, d: Store, e: Store, z: Zone, root: Handle, ok: bool)
    requires Prepared(a, z, root) && Current(a, z) && Edited(a, d, z)
    requires Touched(a, d, Reach(a, NodeAt(a, root).matches))
    requires Pass(d, e, Later(z, d), AllVisits(a, Mutations, NodeAt(a, root).mutations), ok)
    ensures Renews(a, e, z, AllVisits(a, Mutations, NodeAt(a, root).mutations))
  {
    var vs, y := AllVisits(a, Mutations, NodeAt(a, root).mutations), Later(z, d);
    MutationsReady(a, d, z, root);
    MutationsReadyBefore(a, z, root);
    EditedKeeps(a, d, z);
    PassRenews(d, e, y, vs, ok);
    hide Prepared, Edited, Touched, Pass, Keeps, Fresh, Ready, AllVisits, Current, SlotsTimes;
    KeepsWf(a, d, z);
    assert Renews(a, d, z, []) by { UntouchedRenews(a, d, z); }
    forall s ensures SlotsTimes(d, vs, s) <= SlotsTimes(a, vs, s) {
      forall w | w in vs ensures KeptAt(a, d, w) { SlotKept(a, d, w); }
      KeptShrink(a, d, z, vs, s);
    }
    forall s | Known(a, s) && InZone(z, s) ensures InZone(y, s) { CurrentLater(a, d, z, s); }
    RenewsThen(a, d, e, z, y, [], vs);
    assert [] + vs == vs;
  }

  lemma CurrentLater(a: Store, d: Store, z: Zone, s: Handle)
    requires Current(a, z) && Known(a, s) && InZone(z, s)
    ensures InZone(Later(z, d), s)
  {
  }

  lemma MutationsReadyBefore(a: Store, z: Zone, root: Handle)
    requires Prepared(a, z, root)
    ensures Ready(a, AllVisits(a, Mutations, NodeAt(a, root).mutations), z)
  {
    VisitsSplit(a, z, root);
  }

  lemma UntouchedRenews(a: Store, b: Store, z: Zone)
    requires Keeps(a, b, z) && forall s :: Known(a, s) && InZone(z, s) ==> NodeAt(b, s) == NodeAt(a, s)
    ensures Renews(a, b, z, [])
  {
    forall s | Known(a, s) && InZone(z, s) ensures UpTo(a, b, s, SlotsTimes(a, [], s)) { SlotKept(a, b, s); }
  }

  lemma DroppingRenews(a: Store, b: Store, used: set<string>, z: Zone)
    requires Dropping(a, b, used, z) && Start(a, z)
    ensures Renews(a, b, z, [])
  {
    forall s | Known(a, s) && InZone(z, s) ensures NodeAt(b, s) == NodeAt(a, s) && KeptAt(a, b, s) {
      if s.At? { assert b.nodes[s.index] == a.nodes[s.index]; }
      SlotKept(a, b, s);
    }
    UntouchedRenews(a, b, z);
  }

  /** The visits of a whole run: every slot once, and the mutations once more. */
  function RunVisits(st: Store, root: Handle): seq<Handle> {
    StatementVisits(st, root)
    + (if NodeAt(st, root).QueryStatement? then AllVisits(st, Mutations, NodeAt(st, root).mutations) else [])
  }

  /** Folding, pushdown and the second fold of the mutations together. */
  lemma RunRenews(a: Store, b: Store, e: Store, z: Zone, root: Handle)
    requires Prepared(a, z, root) && Pass(a, b, z, StatementVisits(a, root), true)
    requires NodeAt(b, root) == NodeAt(a, root)
    requires Renews(b, e, Rezone(z, |b.nodes|), AllVisits(b, Mutations, NodeAt(b, root).mutations))
    ensures Renews(a, e, z, RunVisits(a, root))
  {
    var n, y := NodeAt(a, root), Rezone(z, |b.nodes|);
    var vs, ws := StatementVisits(a, root), AllVisits(a, Mutations, n.mutations);
    WithinOf(a, b, z, vs, true);
    PassRenews(a, b, z, vs, true);
    MutationsReadyBefore(a, z, root);
    assert AllVisits(b, Mutations, n.mutations) == ws by { MutationsLater(a, b, z, root); }
    hide Pass, Prepared, Within, Renews, AllVisits, StatementVisits, SlotsTimes, Ready, Shaped;
    forall s ensures SlotsTimes(b, ws, s) <= SlotsTimes(a, ws, s) { ReadyShrink(a, b, z, Feet(vs), ws, s); }
    ZoneGrows(a, b, z, Feet(vs));
    RenewsThen(a, b, e, z, y, vs, ws);
  }

  lemma MutationsLater(a: Store, b: Store, z: Zone, root: Handle)
    requires Prepared(a, z, root) && Pass(a, b, z, StatementVisits(a, root), true)
    ensures AllVisits(b, Mutations, NodeAt(a, root).mutations) == AllVisits(a, Mutations, NodeAt(a, root).mutations)
  {
    var n := NodeAt(a, root);
    StatementParts(a, root);
    MutationSlots(a, root);
    WithinOf(a, b, z, StatementVisits(a, root), true);
    AllVisitsLater(a, b, z, Feet(StatementVisits(a, root)), Mutations, n.mutations, root);
  }

  lemma ZoneGrows(a: Store, b: Store, z: Zone, feet: set<nat>)
    requires Within(a, b, z, feet)
    ensures forall s :: Known(a, s) && InZone(z, s) ==> InZone(Rezone(z, |b.nodes|), s)
  {
    RezoneSame(z, |b.nodes|);
  }
}
