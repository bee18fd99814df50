/** Dead-variable pruning in the arena. */
module PruneArena {
  import opened Common
  import opened Ast
  import opened Trees
  import opened Clauses
  import opened FoldArena
  import opened Visiting
  import opened Pruning
  import opened PushArena
  import opened PushClauses
  import opened CollectVars

  // ---------- What the pass writes ----------

  /** A node or path alias that is internal and unused goes; everything else stays. */
  function DropAlias(n: AstNode, used: set<string>): AstNode {
    match n
    case NodePattern(v, l, ps) => NodePattern(Drop(v, used), l, ps)
    case PathChain(v, m, s, es) => PathChain(Drop(v, used), m, s, es)
    case _ => n
  }

  /** Some nodes outside the zone have lost their alias, and nothing else has happened. */
  ghost predicate Dropping(a: Store, b: Store, used: set<string>, z: Zone) {
    && Wf(a) && Wf(b) && Shaped(a) && Shaped(b) && Grows(a, b) && |b.nodes| == |a.nodes| && b.rank == a.rank
    && forall i {:trigger b.nodes[i]} :: 0 <= i < |a.nodes| ==>
         && (b.nodes[i] == a.nodes[i] || b.nodes[i] == DropAlias(a.nodes[i], used))
         && (InZone(z, At(i)) ==> b.nodes[i] == a.nodes[i])
  }

  ghost predicate Beyond(z: Zone, hs: seq<Handle>) {
    forall h :: h in hs && h.At? ==> !InZone(z, h)
  }

  predicate Finished(a: Store, b: Store, used: set<string>, h: Handle) {
    NodeAt(b, h) == DropAlias(NodeAt(a, h), used)
  }

  lemma DroppingTransitive(a: Store, b: Store, c: Store, used: set<string>, z: Zone)
    requires Dropping(a, b, used, z) && Dropping(b, c, used, z)
    ensures Dropping(a, c, used, z)
    ensures forall h {:trigger Finished(a, c, used, h)} ::
      Finished(a, b, used, h) || Finished(b, c, used, h) ==> Finished(a, c, used, h)
  {
    GrowsTransitive(a, b, c);
    forall i | 0 <= i < |a.nodes|
      ensures c.nodes[i] == a.nodes[i] || c.nodes[i] == DropAlias(a.nodes[i], used)
      ensures InZone(z, At(i)) ==> c.nodes[i] == a.nodes[i]
    {
      assert b.nodes[i] == b.nodes[i];
    }
    forall h | Finished(a, b, used, h) || Finished(b, c, used, h) ensures Finished(a, c, used, h) {
      if h.At? && h.index < |a.nodes| {
        assert b.nodes[h.index] == b.nodes[h.index] && c.nodes[h.index] == c.nodes[h.index];
      }
    }
  }

  lemma DroppingShaped(a: Store, b: Store, used: set<string>)
    requires Shaped(a) && |b.nodes| == |a.nodes|
    requires forall i {:trigger b.nodes[i]} :: 0 <= i < |a.nodes| ==>
      b.nodes[i] == a.nodes[i] || b.nodes[i] == DropAlias(a.nodes[i], used)
    ensures Shaped(b)
  {
    forall h: Handle | h.At? && Known(a, h) ensures SameKind(NodeAt(b, h), NodeAt(a, h)) {
      assert b.nodes[h.index] == b.nodes[h.index];
    }
    assert SameKinds(a, b);
    forall i | 0 <= i < |b.nodes| ensures NodeShaped(b, b.nodes[i]) {
      assert NodeShaped(a, a.nodes[i]);
      NodeShapedLater(a, b, a.nodes[i]);
    }
  }

  /** Drops the alias of one node or chain. */
  method DropAt(arena: QueryAstArena, h: Handle, used: set<string>, ghost z: Zone)
    requires arena.Valid() && Shaped(arena.View()) && IsPath(arena.View(), h) && !InZone(z, h)
    modifies arena
    ensures Dropping(old(arena.View()), arena.View(), used, z)
    ensures Finished(old(arena.View()), arena.View(), used, h)
  {
    ghost var a := arena.View();
    var n := arena.nodes[h.index];
    assert NodeLow(a, n, a.rank[h.index]);
    assert Handles(DropAlias(n, used)) == Handles(n);
    arena.Update(h, DropAlias(n, used));
    DroppingShaped(a, arena.View(), used);
  }

  ghost predicate AllFinished(a: Store, b: Store, used: set<string>, hs: seq<Handle>) {
    forall k :: 0 <= k < |hs| && hs[k].At? ==> Finished(a, b, used, hs[k])
  }

  /** Layout is not affected. */
  lemma DroppedLayout(a: Store, b: Store, used: set<string>, z: Zone, h: Handle)
    requires Dropping(a, b, used, z) && IsPath(a, h)
    ensures IsPath(b, h) && NodesIn(b, h) == NodesIn(a, h) && (Broken(b, h) <==> Broken(a, h))
    ensures Rk(b, h) == Rk(a, h)
  {
    PathParts(a, h);
    assert b.nodes[h.index] == b.nodes[h.index];
    var n := NodeAt(a, h);
    if n.PathChain? {
      forall k | 0 <= k < |n.edges| ensures Target(b, n.edges[k]) == Target(a, n.edges[k]) {
        assert b.nodes[n.edges[k].index] == a.nodes[n.edges[k].index];
      }
      assert Targets(b, n.edges) == Targets(a, n.edges);
    }
  }

  /** `prune_path_variables`. */
  method PrunePathVariables(arena: QueryAstArena, h: Handle, used: set<string>, ghost z: Zone) returns (ok: bool)
    requires arena.Valid() && Shaped(arena.View()) && IsPath(arena.View(), h)
    requires Beyond(z, [h] + NodesIn(arena.View(), h))
    modifies arena
    ensures Dropping(old(arena.View()), arena.View(), used, z)
    ensures ok <==> !Broken(old(arena.View()), h)
    ensures ok ==> AllFinished(old(arena.View()), arena.View(), used, [h] + NodesIn(old(arena.View()), h))
  {
    ghost var a := arena.View();
    var n := arena.nodes[h.index];
    hide Wf, Shaped, Dropping, Handles, Finished;
    assert h in [h] + NodesIn(a, h) && forall c :: c in NodesIn(a, h) ==> c in [h] + NodesIn(a, h);
    DropAt(arena, h, used, z);
    if n.NodePattern? {
      assert [h] + NodesIn(a, h) == [h, h];
      return true;
    }
    if n.startNode.Null? { return false; }
    PruneChain(arena, h, a, used, z);
    return true;
  }

  /** The start and the targets of a chain whose own alias has been dealt with. */
  method PruneChain(arena: QueryAstArena, h: Handle, ghost a: Store, used: set<string>, ghost z: Zone)
    requires Dropping(a, arena.View(), used, z) && Finished(a, arena.View(), used, h)
    requires NodeAt(a, h).PathChain? && NodeAt(a, h).startNode.At? && Beyond(z, NodesIn(a, h))
    modifies arena
    ensures Dropping(a, arena.View(), used, z) && AllFinished(a, arena.View(), used, [h] + NodesIn(a, h))
  {
    ghost var b := arena.View();
    var n := arena.nodes[h.index];
    DroppedLayout(a, b, used, z, h);
    PathParts(b, h);
    PathParts(a, h);
    assert n.startNode in NodesIn(b, h) && forall c :: c in Targets(a, n.edges) ==> c in NodesIn(a, h);
    hide Wf, Shaped, Dropping, Handles, Finished, NodesIn;
    assert Wf(b) && Shaped(b) by { DroppingValid(a, b, used, z); }
    DropAt(arena, n.startNode, used, z);
    ghost var c := arena.View();
    DroppingTransitive(a, b, c, used, z);
    DroppingValid(a, c, used, z);
    forall k | 0 <= k < |n.edges|
      ensures NodeAt(c, n.edges[k]) == NodeAt(a, n.edges[k])
    {
      EdgeKept(a, c, used, z, n.edges[k]);
    }
    assert Targets(c, n.edges) == Targets(a, n.edges);
    PruneTargets(arena, n.edges, used, z);
    DroppingTransitive(a, c, arena.View(), used, z);
    ChainFinished(a, arena.View(), used, h);
  }

  lemma ChainFinished(a: Store, b: Store, used: set<string>, h: Handle)
    requires NodeAt(a, h).PathChain? && Finished(a, b, used, h) && Finished(a, b, used, NodeAt(a, h).startNode)
    requires AllFinished(a, b, used, Targets(a, NodeAt(a, h).edges))
    ensures AllFinished(a, b, used, [h] + NodesIn(a, h))
  {
    var hs := [h] + NodesIn(a, h);
    var ts := Targets(a, NodeAt(a, h).edges);
    forall j | 0 <= j < |hs| && hs[j].At? ensures Finished(a, b, used, hs[j]) {
      if j >= 2 { assert hs[j] == ts[j - 2]; }
    }
  }

  method PruneTargets(arena: QueryAstArena, es: seq<Handle>, used: set<string>, ghost z: Zone)
    requires arena.Valid() && Shaped(arena.View()) && Beyond(z, Targets(arena.View(), es))
    requires forall k :: 0 <= k < |es| ==> NodeAt(arena.View(), es[k]).EdgePattern?
    modifies arena
    ensures Dropping(old(arena.View()), arena.View(), used, z)
    ensures AllFinished(old(arena.View()), arena.View(), used, Targets(old(arena.View()), es))
  {
    ghost var a := arena.View();
    ghost var ts := Targets(a, es);
    assert Dropping(a, a, used, z);
    hide Wf, Shaped, Handles, Dropping, Finished, AllFinished;
    assert AllFinished(a, a, used, ts[..0]) by { NoneFinished(a, used); }
    for k := 0 to |es|
      invariant Dropping(a, arena.View(), used, z) && AllFinished(a, arena.View(), used, ts[..k])
    {
      ghost var cur := arena.View();
      DroppingValid(a, cur, used, z);
      EdgeKept(a, cur, used, z, es[k]);
      var target := arena.nodes[es[k].index].targetNode;
      assert ts[..k + 1] == ts[..k] + [target] && target == ts[k];
      if target.At? {
        TargetShaped(cur, es[k]);
        DropAt(arena, target, used, z);
      }
      ghost var next := arena.View();
      assert Dropping(cur, next, used, z) && (target.At? ==> Finished(cur, next, used, target)) by {
        if target.Null? { SameDropping(a, cur, used, z); }
      }
      OneMoreFinished(a, cur, next, used, z, ts[..k], target);
    }
    assert ts[..|es|] == ts;
  }

  lemma NoneFinished(a: Store, used: set<string>)
    ensures AllFinished(a, a, used, [])
  {
  }

  lemma SameDropping(a: Store, b: Store, used: set<string>, z: Zone)
    requires Dropping(a, b, used, z)
    ensures Dropping(b, b, used, z)
  {
  }

  lemma OneMoreFinished(a: Store, b: Store, c: Store, used: set<string>, z: Zone, hs: seq<Handle>, h: Handle)
    requires Dropping(a, b, used, z) && Dropping(b, c, used, z) && AllFinished(a, b, used, hs)
      && (h.At? ==> Finished(b, c, used, h))
    ensures Dropping(a, c, used, z) && AllFinished(a, c, used, hs + [h])
  {
    DroppingTransitive(a, b, c, used, z);
  }

  lemma TargetShaped(st: Store, e: Handle)
    requires Wf(st) && Shaped(st) && NodeAt(st, e).EdgePattern? && Target(st, e).At?
    ensures NodeAt(st, Target(st, e)).NodePattern?
  {
    assert NodeShaped(st, st.nodes[e.index]);
  }

  lemma DroppingValid(a: Store, b: Store, used: set<string>, z: Zone)
    requires Dropping(a, b, used, z)
    ensures Wf(b) && Shaped(b)
  {
  }

  lemma EdgeKept(a: Store, b: Store, used: set<string>, z: Zone, e: Handle)
    requires Dropping(a, b, used, z) && NodeAt(a, e).EdgePattern?
    ensures NodeAt(b, e) == NodeAt(a, e) && Known(b, e)
  {
    assert b.nodes[e.index] == b.nodes[e.index];
  }

  // ---------- Paths, clauses, statements ----------

  lemma NodeDropped(a: Store, b: Store, used: set<string>, z: Zone, h: Handle)
    requires Dropping(a, b, used, z) && Known(a, h) && (h.At? ==> Finished(a, b, used, h))
    ensures NodeOf(b, h) == PruneNode(NodeOf(a, h), used)
  {
    if NodeAt(a, h).NodePattern? {
      KnownExprs(a, h);
      assert ExprList(NodeAt(a, h)) == NodeAt(a, h).npreds;
      TreesFrame(a, b, NodeAt(a, h).npreds);
    }
  }

  lemma EdgeDropped(a: Store, b: Store, used: set<string>, z: Zone, e: Handle)
    requires Dropping(a, b, used, z) && NodeAt(a, e).EdgePattern?
    requires Target(a, e).At? ==> Finished(a, b, used, Target(a, e))
    ensures EdgeOf(b, e) == EdgeOf(a, e).(target := PruneNode(EdgeOf(a, e).target, used))
  {
    EdgeKept(a, b, used, z, e);
    PredsBelow(a, e);
    assert Target(a, e) in Handles(a.nodes[e.index]);
    NodeDropped(a, b, used, z, Target(a, e));
    assert ExprList(NodeAt(a, e)) == NodeAt(a, e).epreds;
    TreesFrame(a, b, NodeAt(a, e).epreds);
  }

  lemma PathDropped(a: Store, b: Store, used: set<string>, z: Zone, h: Handle)
    requires Dropping(a, b, used, z) && IsPath(a, h) && AllFinished(a, b, used, [h] + NodesIn(a, h))
    ensures PathOf(b, h) == PrunePath(PathOf(a, h), used)
  {
    hide Wf, NodeOf, EdgeOf, Handles, Shaped;
    PathParts(a, h);
    var n, all := NodeAt(a, h), [h] + NodesIn(a, h);
    assert all[0] == h && Finished(a, b, used, h);
    if n.PathChain? {
      assert all[1] == n.startNode && n.startNode in NodesIn(a, h);
      NodeDropped(a, b, used, z, n.startNode);
      hide Dropping;
      forall k | 0 <= k < |n.edges| ensures EdgeOf(b, n.edges[k]) == PrunePath(PathOf(a, h), used).edges[k] {
        assert all[k + 2] == Target(a, n.edges[k]);
        EdgeDropped(a, b, used, z, n.edges[k]);
      }
      assert PathOf(b, h).edges == PrunePath(PathOf(a, h), used).edges;
    } else {
      NodeDropped(a, b, used, z, h);
    }
  }

  ghost predicate PathsFinished(a: Store, b: Store, used: set<string>, hs: seq<Handle>) {
    forall k :: 0 <= k < |hs| ==> AllFinished(a, b, used, [hs[k]] + NodesIn(a, hs[k]))
  }

  ghost predicate PathsBeyond(st: Store, z: Zone, hs: seq<Handle>) {
    forall k :: 0 <= k < |hs| ==> Beyond(z, [hs[k]] + NodesIn(st, hs[k]))
  }

  /** The patterns of these clauses lie outside the zone. */
  ghost predicate ClausesBeyond(st: Store, z: Zone, ms: seq<Handle>) {
    forall k :: 0 <= k < |ms| && NodeAt(st, ms[k]).MatchClause? ==> PathsBeyond(st, z, NodeAt(st, ms[k]).paths)
  }

  /** The paths of one MATCH clause. */
  lemma MoreFinished(a: Store, b: Store, c: Store, used: set<string>, z: Zone, hs: seq<Handle>, k: nat)
    requires Dropping(a, b, used, z) && Dropping(b, c, used, z) && k < |hs|
    requires forall j :: 0 <= j < k ==> AllFinished(a, b, used, [hs[j]] + NodesIn(a, hs[j]))
    requires AllFinished(b, c, used, [hs[k]] + NodesIn(a, hs[k]))
    ensures Dropping(a, c, used, z) && forall j :: 0 <= j <= k ==> AllFinished(a, c, used, [hs[j]] + NodesIn(a, hs[j]))
  {
    DroppingTransitive(a, b, c, used, z);
    hide Dropping, NodesIn;
  }

  method PrunePaths(arena: QueryAstArena, hs: seq<Handle>, used: set<string>, ghost z: Zone) returns (ok: bool)
    requires arena.Valid() && Shaped(arena.View()) && ArePaths(arena.View(), hs) && PathsBeyond(arena.View(), z, hs)
    modifies arena
    ensures Dropping(old(arena.View()), arena.View(), used, z)
    ensures ok ==> PathsFinished(old(arena.View()), arena.View(), used, hs)
    ensures !ok ==> exists h :: h in hs && Broken(old(arena.View()), h)
  {
    ghost var a := arena.View();
    hide Wf, Shaped, Handles, NodesIn, Broken, AllFinished;
    for k := 0 to |hs|
      invariant Dropping(a, arena.View(), used, z)
      invariant forall j :: 0 <= j < k ==> AllFinished(a, arena.View(), used, [hs[j]] + NodesIn(a, hs[j]))
    {
      ghost var cur := arena.View();
      DroppedLayout(a, cur, used, z, hs[k]);
      ok := PrunePathVariables(arena, hs[k], used, z);
      if !ok {
        DroppingTransitive(a, cur, arena.View(), used, z);
        assert hs[k] in hs;
        return;
      }
      MoreFinished(a, cur, arena.View(), used, z, hs, k);
    }
    return true;
  }

  /** The clauses below a statement that the pass does not rewrite. */
  lemma ClauseKept(a: Store, b: Store, used: set<string>, z: Zone, h: Handle)
    requires Dropping(a, b, used, z) && !IsPath(a, h)
    ensures NodeAt(b, h) == NodeAt(a, h)
  {
    if h.At? && h.index < |a.nodes| { assert b.nodes[h.index] == b.nodes[h.index]; }
  }

  lemma WhereKept(a: Store, b: Store, used: set<string>, z: Zone, o: Option<Handle>)
    requires Dropping(a, b, used, z) && IsWhere(a, o)
    ensures WhereOf(b, o) == WhereOf(a, o)
  {
    if o.Some? {
      ClauseKept(a, b, used, z, o.value);
      PredsBelow(a, o.value);
      TreeFrame(a, b, NodeAt(a, o.value).rootPredicate);
    }
  }

  lemma MatchDropped(a: Store, b: Store, used: set<string>, z: Zone, m: Handle)
    requires Dropping(a, b, used, z) && NodeAt(a, m).MatchClause?
    requires PathsFinished(a, b, used, NodeAt(a, m).paths)
    ensures MatchOf(b, m) == PruneMatch(MatchOf(a, m), used)
  {
    ClauseKept(a, b, used, z, m);
    ClauseParts(a, m);
    var hs := NodeAt(a, m).paths;
    forall k | 0 <= k < |hs| ensures PathOf(b, hs[k]) == PrunePath(PathOf(a, hs[k]), used) {
      PathDropped(a, b, used, z, hs[k]);
    }
    assert MatchOf(b, m).paths == PruneMatch(MatchOf(a, m), used).paths;
    WhereKept(a, b, used, z, NodeAt(a, m).mwhere);
  }
}
