/** The optimizer as a whole: folding, pushdown and pruning over one statement of the arena. */
module Optimizer {
  import opened Common
  import opened Ast
  import opened Trees
  import opened Clauses
  import opened Folding
  import opened FoldingLimits
  import opened FoldArena
  import opened Visiting
  import opened FoldPass
  import opened FoldedStatement
  import opened Pushdown
  import opened Pruning
  import opened PrunedStatement
  import opened PushArena
  import opened PushClauses
  import opened PushStatement
  import opened CollectVars
  import Mentions
  import opened PruneArena
  import opened Preparation
  import opened Renewing
  import opened Composition

  // ---------- The clauses around the MATCH clauses ----------

  predicate Settled(a: Store, b: Store, h: Handle) {
    NodeAt(b, h) == NodeAt(a, h)
  }

  predicate OptSettled(a: Store, b: Store, o: Option<Handle>) {
    o.Some? ==> Settled(a, b, o.value)
  }

  /** The statement node and its clauses other than MATCH and the mutations are as they were. */
  ghost predicate Surroundings(a: Store, b: Store, root: Handle) {
    var n := NodeAt(a, root);
    n.QueryStatement? ==>
      && Settled(a, b, root) && OptSettled(a, b, n.resultClause)
      && (forall h :: h in n.unwinds ==> Settled(a, b, h))
      && (forall h :: h in n.linear ==> Settled(a, b, h))
      && (forall h :: h in n.withs ==>
            Settled(a, b, h) && (NodeAt(a, h).WithClause? ==> OptSettled(a, b, NodeAt(a, h).wwhere)))
  }

  lemma WhereSettled(a: Store, b: Store, o: Option<Handle>)
    requires Wf(a) && Wf(b) && Grows(a, b) && IsWhere(a, o) && OptSettled(a, b, o)
    ensures WhereOf(b, o) == WhereOf(a, o)
  {
    if o.Some? {
      PredsBelow(a, o.value);
      TreeFrame(a, b, NodeAt(a, o.value).rootPredicate);
    }
  }

  lemma ListSettled(a: Store, b: Store, ps: seq<ProjectionItem>, os: seq<(Handle, bool)>)
    requires Wf(a) && Wf(b) && Grows(a, b)
    requires (forall k :: 0 <= k < |ps| ==> Known(a, ps[k].expression))
      && forall k :: 0 <= k < |os| ==> Known(a, os[k].0)
    ensures ItemsOf(b, ps) == ItemsOf(a, ps) && KeysOf(b, os) == KeysOf(a, os)
  {
    forall k | 0 <= k < |ps| ensures TreeOf(b, ps[k].expression) == TreeOf(a, ps[k].expression) {
      TreeFrame(a, b, ps[k].expression);
    }
    forall k | 0 <= k < |os| ensures TreeOf(b, os[k].0) == TreeOf(a, os[k].0) {
      TreeFrame(a, b, os[k].0);
    }
  }

  lemma WithSettled(a: Store, b: Store, h: Handle)
    requires Wf(a) && Wf(b) && Grows(a, b) && Shaped(a) && NodeAt(a, h).WithClause?
    requires Settled(a, b, h) && OptSettled(a, b, NodeAt(a, h).wwhere)
    ensures WithOf(b, h) == WithOf(a, h)
  {
    var n := NodeAt(a, h);
    PredsBelow(a, h);
    assert NodeShaped(a, a.nodes[h.index]);
    forall k | 0 <= k < |n.wprojections| ensures Known(a, n.wprojections[k].expression) {
      assert n.wprojections[k] in n.wprojections && n.wprojections[k].expression in ItemSet(n.wprojections);
    }
    forall k | 0 <= k < |n.worder| ensures Known(a, n.worder[k].0) {
      assert n.worder[k] in n.worder && n.worder[k].0 in FirstSet(n.worder);
    }
    ListSettled(a, b, n.wprojections, n.worder);
    WhereSettled(a, b, n.wwhere);
  }

  lemma ResultSettled(a: Store, b: Store, o: Option<Handle>)
    requires Wf(a) && Wf(b) && Grows(a, b) && Shaped(a) && OptSettled(a, b, o)
    ensures ResultOf(b, o) == ResultOf(a, o)
  {
    if o.Some? && NodeAt(a, o.value).ReturnClause? {
      var n := NodeAt(a, o.value);
      PredsBelow(a, o.value);
      forall k | 0 <= k < |n.rprojections| ensures Known(a, n.rprojections[k].expression) {
        assert n.rprojections[k] in n.rprojections && n.rprojections[k].expression in ItemSet(n.rprojections);
      }
      forall k | 0 <= k < |n.rorder| ensures Known(a, n.rorder[k].0) {
        assert n.rorder[k] in n.rorder && n.rorder[k].0 in FirstSet(n.rorder);
      }
      ListSettled(a, b, n.rprojections, n.rorder);
    }
  }

  lemma SimpleSettled(a: Store, b: Store, h: Handle)
    requires Wf(a) && Wf(b) && Grows(a, b) && Settled(a, b, h)
    ensures NodeAt(a, h).UnwindClause? ==> UnwindOf(b, h) == UnwindOf(a, h)
    ensures NodeAt(a, h).LetClause? || NodeAt(a, h).FilterClause? ==> LinearOf(b, h) == LinearOf(a, h)
  {
    var n := NodeAt(a, h);
    if n.UnwindClause? {
      PredsBelow(a, h);
      TreeFrame(a, b, n.unwound);
    } else if n.LetClause? {
      PredsBelow(a, h);
      TreeFrame(a, b, n.letExpr);
    } else if n.FilterClause? {
      PredsBelow(a, h);
      TreeFrame(a, b, n.filterPred);
    }
  }

  /** Only the MATCH clauses can denote something else. */
  lemma StatementFrame(a: Store, b: Store, root: Handle)
    requires Wf(a) && Wf(b) && Grows(a, b) && Shaped(a) && NodeAt(a, root).QueryStatement? && Surroundings(a, b, root)
    ensures StatementOf(b, root) == StatementOf(a, root).(matches := MatchesOf(b, NodeAt(a, root).matches))
  {
    var n := NodeAt(a, root);
    assert NodeShaped(a, a.nodes[root.index]);
    var p, q := StatementOf(a, root), StatementOf(b, root);
    forall i | 0 <= i < |n.unwinds| ensures q.unwinds[i] == p.unwinds[i] {
      assert n.unwinds[i] in n.unwinds;
      SimpleSettled(a, b, n.unwinds[i]);
    }
    forall i | 0 <= i < |n.linear| ensures q.linear[i] == p.linear[i] {
      assert n.linear[i] in n.linear;
      SimpleSettled(a, b, n.linear[i]);
    }
    forall i | 0 <= i < |n.withs| ensures q.withs[i] == p.withs[i] {
      assert n.withs[i] in n.withs;
      WithSettled(a, b, n.withs[i]);
    }
    ResultSettled(a, b, n.resultClause);
    assert q.unwinds == p.unwinds && q.linear == p.linear && q.withs == p.withs;
  }

  /** Pushdown edits patterns and MATCH clauses only. */
  lemma EditedSurroundings(a: Store, b: Store, z: Zone, root: Handle)
    requires Edited(a, b, z) && NodeAt(a, root).QueryStatement?
    ensures Surroundings(a, b, root)
  {
    var n := NodeAt(a, root);
    assert NodeShaped(a, a.nodes[root.index]);
    forall h | Known(a, h) && !NodeAt(a, h).NodePattern? && !NodeAt(a, h).MatchClause? ensures Settled(a, b, h) {
      if h.At? { assert NodeEdited(a.nodes[h.index], b.nodes[h.index], z); }
    }
    forall h | h in n.withs && NodeAt(a, h).wwhere.Some? ensures Settled(a, b, NodeAt(a, h).wwhere.value) {
      assert NodeShaped(a, a.nodes[h.index]);
    }
  }

  /** Pruning edits node patterns and chains only. */
  lemma DroppedSurroundings(a: Store, b: Store, used: set<string>, z: Zone, root: Handle)
    requires Dropping(a, b, used, z) && NodeAt(a, root).QueryStatement?
    ensures Surroundings(a, b, root)
  {
    var n := NodeAt(a, root);
    assert NodeShaped(a, a.nodes[root.index]);
    forall h | Known(a, h) && !IsPath(a, h) ensures Settled(a, b, h) { ClauseKept(a, b, used, z, h); }
    forall h | h in n.withs && NodeAt(a, h).wwhere.Some? ensures Settled(a, b, NodeAt(a, h).wwhere.value) {
      assert NodeShaped(a, a.nodes[h.index]);
    }
  }

  // ---------- Pruning a statement ----------

  /** The matches are pruned against a set that covers what the statement reads. */
  ghost predicate PrunedBy(a: Store, b: Store, root: Handle, used: set<string>)
    requires Wf(a) && Wf(b)
  {
    && UsedVars(StatementOf(a, root)) <= used
    && StatementOf(b, root) == PruneWith(StatementOf(a, root), used)
  }

  /** The name of a pattern other than an edge. */
  function PatternAlias(n: AstNode): Option<string> {
    match n
    case NodePattern(v, _, _) => v
    case PathChain(v, _, _, _) => v
    case _ => None
  }

  function Anonymous(n: AstNode): AstNode {
    match n
    case NodePattern(_, l, ps) => NodePattern(None, l, ps)
    case PathChain(_, m, s, es) => PathChain(None, m, s, es)
    case _ => n
  }

  /** Named with a leading underscore, in a name that no clause of the statement mentions. */
  ghost predicate Dead(a: Store, root: Handle, n: AstNode)
    requires Wf(a)
  {
    PatternAlias(n).Some? &&
    var x := PatternAlias(n).value;
    |x| > 0 && x[0] == '_' && !Mentioned(a, root, x)
  }

  ghost predicate InMatches(a: Store, root: Handle, h: Handle) {
    NodeAt(a, root).QueryStatement? && exists m, p ::
      && m in NodeAt(a, root).matches && NodeAt(a, m).MatchClause? && p in NodeAt(a, m).paths
      && h in [p] + NodesIn(a, p)
  }

  /** In the MATCH clauses exactly the dead aliases are gone, and nothing else has changed anywhere. */
  ghost predicate Tidied(a: Store, b: Store, root: Handle)
    requires Wf(a)
  {
    && |b.nodes| == |a.nodes|
    && (forall i :: 0 <= i < |a.nodes| && b.nodes[i] != a.nodes[i] ==>
          Dead(a, root, a.nodes[i]) && b.nodes[i] == Anonymous(a.nodes[i]))
    && (forall h :: InMatches(a, root, h) && Dead(a, root, NodeAt(a, h)) ==> NodeAt(b, h) == Anonymous(NodeAt(a, h)))
  }

  lemma AllTidied(a: Store, b: Store, used: set<string>, z: Zone, root: Handle)
    requires Dropping(a, b, used, z) && NodeAt(a, root).QueryStatement?
    requires MatchesFinished(a, b, used, NodeAt(a, root).matches) && AreClauses(a, NodeAt(a, root).matches)
    requires forall x :: x in used <==> Mentioned(a, root, x)
    ensures Tidied(a, b, root)
  {
    hide Wf, Shaped, Mentioned, Handles, NodesIn;
    forall h | InMatches(a, root, h) && Dead(a, root, NodeAt(a, h)) ensures NodeAt(b, h) == Anonymous(NodeAt(a, h)) {
      var m, p :|
        && m in NodeAt(a, root).matches && NodeAt(a, m).MatchClause? && p in NodeAt(a, m).paths
        && h in [p] + NodesIn(a, p);
      var j :| 0 <= j < |NodeAt(a, root).matches| && NodeAt(a, root).matches[j] == m;
      assert MatchFinished(a, b, used, m) && NodeAt(a, m).MatchClause?;
      var ps := NodeAt(a, m).paths;
      var k :| 0 <= k < |ps| && ps[k] == p;
      var hs := [p] + NodesIn(a, p);
      assert AllFinished(a, b, used, hs);
      var q :| 0 <= q < |hs| && hs[q] == h;
      assert Finished(a, b, used, hs[q]);
    }
  }

  /** An alias that was dropped is not the name of any identifier or bound pattern a clause reaches. */
  lemma DroppedUnread(a: Store, b: Store, root: Handle, i: nat, c: Handle, g: Handle)
    requires Wf(a) && Tidied(a, b, root) && i < |a.nodes| && b.nodes[i] != a.nodes[i]
    requires c in Handles(NodeAt(a, root)) && Mentions.Reached(a, c, g)
    ensures PatternAlias(a.nodes[i]).Some?
    ensures Mentions.There(a, g) ==>
      Mentions.Word(a.nodes[g.index], Mentions.Binds(a.nodes[c.index])) != PatternAlias(a.nodes[i])
    ensures Mentions.Introduced(a.nodes[c.index]) != PatternAlias(a.nodes[i])
  {
    hide Wf, Handles;
    var x := PatternAlias(a.nodes[i]).value;
    assert !Mentions.Mentioning(a, c, x);
    assert !Mentions.Named(a, c, g, Mentions.Binds(a.nodes[c.index]), x);
  }

  /** `prune_dead_variables`. */
  method PruneDeadVariables(arena: QueryAstArena, root: Handle, ghost z: Zone) returns (ok: bool, used: set<string>)
    requires arena.Valid() && Shaped(arena.View()) && NodeAt(arena.View(), root).QueryStatement?
    requires ClausesBeyond(arena.View(), z, NodeAt(arena.View(), root).matches)
    modifies arena
    ensures Dropping(old(arena.View()), arena.View(), used, z)
    ensures ok ==> PrunedBy(old(arena.View()), arena.View(), root, used)
    ensures ok ==>
      var a := old(arena.View());
      var hs := CollectOrder(NodeAt(a, root));
      Collected({}, Ok(used), ClausesVars(a, hs), ClausesClear(a, hs))
    ensures ok ==> forall x :: x in used <==> Mentioned(old(arena.View()), root, x)
    ensures ok ==> Tidied(old(arena.View()), arena.View(), root)
    ensures !ok ==>
      var a := old(arena.View());
      || !ClausesClear(a, CollectOrder(NodeAt(a, root)))
      || exists m :: m in NodeAt(a, root).matches && BrokenClause(a, m)
  {
    ghost var a := arena.View();
    CollectedCovers(a, root);
    StatementMatches(a, root);
    DroppingNothing(a, {}, z);
    hide Wf, Shaped, ClausesVars, ClausesClear, CollectOrder, UsedVars, BrokenClause, Dropping, Mentioned, Tidied;
    var found := CollectUsedVariables(arena, root);
    if found.Err? { return false, {}; }
    used := found.value;
    ok := PruneClauses(arena, arena.nodes[root.index].matches, used, z);
    if ok {
      AllPruned(a, arena.View(), used, z, root);
      AllTidied(a, arena.View(), used, z, root);
    }
  }

  method PruneClauses(arena: QueryAstArena, ms: seq<Handle>, used: set<string>, ghost z: Zone) returns (ok: bool)
    requires arena.Valid() && Shaped(arena.View()) && AreClauses(arena.View(), ms) && ClausesBeyond(arena.View(), z, ms)
    modifies arena
    ensures Dropping(old(arena.View()), arena.View(), used, z)
    ensures ok ==> MatchesFinished(old(arena.View()), arena.View(), used, ms)
    ensures !ok ==> exists m :: m in ms && BrokenClause(old(arena.View()), m)
  {
    ghost var a := arena.View();
    DroppingNothing(a, used, z);
    assert MatchesFinished(a, a, used, ms[..0]);
    hide Wf, Shaped, BrokenClause, Dropping, MatchFinished, PathsFinished, ArePaths, Broken, MatchesFinished;
    for k := 0 to |ms|
      invariant Dropping(a, arena.View(), used, z) && MatchesFinished(a, arena.View(), used, ms[..k])
    {
      ghost var cur := arena.View();
      assert NodeAt(a, ms[k]).MatchClause?;
      MatchStillThere(a, cur, used, z, ms[k]);
      BeyondLater(a, cur, used, z, NodeAt(a, ms[k]).paths);
      ok := PrunePaths(arena, arena.nodes[ms[k].index].paths, used, z);
      ghost var next := arena.View();
      DroppingTransitive(a, cur, next, used, z);
      if !ok {
        StillBroken(a, cur, used, z, ms[k]);
        assert ms[k] in ms;
        return;
      }
      assert ms[..k + 1] == ms[..k] + [ms[k]];
      OneMoreMatch(a, cur, next, used, z, ms[..k], ms[k]);
    }
    assert ms[..|ms|] == ms;
    return true;
  }

  lemma BeyondLater(a: Store, b: Store, used: set<string>, z: Zone, hs: seq<Handle>)
    requires Dropping(a, b, used, z) && ArePaths(a, hs) && PathsBeyond(a, z, hs)
    ensures PathsBeyond(b, z, hs)
  {
    forall k | 0 <= k < |hs| ensures Beyond(z, [hs[k]] + NodesIn(b, hs[k])) { DroppedLayout(a, b, used, z, hs[k]); }
  }

  ghost predicate MatchesFinished(a: Store, b: Store, used: set<string>, ms: seq<Handle>) {
    forall j :: 0 <= j < |ms| ==> MatchFinished(a, b, used, ms[j])
  }

  lemma OneMoreMatch(a: Store, b: Store, c: Store, used: set<string>, z: Zone, ms: seq<Handle>, m: Handle)
    requires Dropping(a, b, used, z) && Dropping(b, c, used, z) && NodeAt(a, m).MatchClause?
    requires MatchesFinished(a, b, used, ms) && PathsFinished(b, c, used, NodeAt(a, m).paths)
    ensures MatchesFinished(a, c, used, ms + [m])
  {
    hide Dropping, MatchFinished, PathsFinished, NodeAt;
    MatchNowFinished(a, b, c, used, z, m);
    forall j | 0 <= j < |ms| ensures MatchFinished(a, c, used, ms[j]) {
      FinishedLater(a, b, c, used, z, ms[j]);
    }
  }

  lemma FinishedLater(a: Store, b: Store, c: Store, used: set<string>, z: Zone, m: Handle)
    requires Dropping(a, b, used, z) && Dropping(b, c, used, z) && MatchFinished(a, b, used, m)
    ensures MatchFinished(a, c, used, m)
  {
    DroppingTransitive(a, b, c, used, z);
    if NodeAt(a, m).MatchClause? {
      var hs := NodeAt(a, m).paths;
      forall k | 0 <= k < |hs| ensures AllFinished(a, c, used, [hs[k]] + NodesIn(a, hs[k])) {
        assert AllFinished(a, b, used, [hs[k]] + NodesIn(a, hs[k]));
      }
    }
  }

  lemma DroppingNothing(a: Store, used: set<string>, z: Zone)
    requires Wf(a) && Shaped(a)
    ensures Dropping(a, a, used, z)
  {
  }

  lemma StatementMatches(st: Store, root: Handle)
    requires Wf(st) && Shaped(st) && NodeAt(st, root).QueryStatement?
    ensures AreClauses(st, NodeAt(st, root).matches)
  {
    assert NodeShaped(st, st.nodes[root.index]);
  }

  ghost predicate MatchFinished(a: Store, b: Store, used: set<string>, m: Handle) {
    NodeAt(a, m).MatchClause? ==> PathsFinished(a, b, used, NodeAt(a, m).paths)
  }

  lemma MatchStillThere(a: Store, b: Store, used: set<string>, z: Zone, m: Handle)
    requires Dropping(a, b, used, z) && NodeAt(a, m).MatchClause?
    ensures Wf(b) && Shaped(b) && NodeAt(b, m) == NodeAt(a, m) && ArePaths(b, NodeAt(a, m).paths)
  {
    ClauseKept(a, b, used, z, m);
    ClauseParts(b, m);
  }

  lemma StillBroken(a: Store, b: Store, used: set<string>, z: Zone, m: Handle)
    requires Dropping(a, b, used, z) && NodeAt(a, m).MatchClause?
    requires exists h :: h in NodeAt(a, m).paths && Broken(b, h)
    ensures BrokenClause(a, m)
  {
    ClauseParts(a, m);
    var h :| h in NodeAt(a, m).paths && Broken(b, h);
    DroppedLayout(a, b, used, z, h);
  }

  lemma MatchNowFinished(a: Store, b: Store, c: Store, used: set<string>, z: Zone, m: Handle)
    requires Dropping(a, b, used, z) && Dropping(b, c, used, z) && NodeAt(a, m).MatchClause?
    requires PathsFinished(b, c, used, NodeAt(a, m).paths)
    ensures MatchFinished(a, c, used, m)
  {
    ClauseParts(a, m);
    DroppingTransitive(a, b, c, used, z);
    var hs := NodeAt(a, m).paths;
    forall k | 0 <= k < |hs| ensures AllFinished(a, c, used, [hs[k]] + NodesIn(a, hs[k])) {
      DroppedLayout(a, b, used, z, hs[k]);
    }
  }

  lemma AllPruned(a: Store, b: Store, used: set<string>, z: Zone, root: Handle)
    requires Dropping(a, b, used, z) && NodeAt(a, root).QueryStatement?
    requires forall j :: 0 <= j < |NodeAt(a, root).matches| ==> MatchFinished(a, b, used, NodeAt(a, root).matches[j])
    ensures StatementOf(b, root) == PruneWith(StatementOf(a, root), used)
  {
    var ms := NodeAt(a, root).matches;
    StatementMatches(a, root);
    DroppedSurroundings(a, b, used, z, root);
    StatementFrame(a, b, root);
    assert StatementOf(a, root).matches == MatchesOf(a, ms);
    hide Wf, Shaped, Dropping, Surroundings, StatementOf, MatchOf, PruneMatch, MatchFinished;
    forall j | 0 <= j < |ms| ensures MatchOf(b, ms[j]) == PruneMatch(MatchOf(a, ms[j]), used) {
      MatchDone(a, b, used, z, ms[j]);
    }
    assert MatchesOf(b, ms) == PruneMatches(MatchesOf(a, ms), used);
  }

  lemma MatchDone(a: Store, b: Store, used: set<string>, z: Zone, m: Handle)
    requires Dropping(a, b, used, z) && NodeAt(a, m).MatchClause? && MatchFinished(a, b, used, m)
    ensures MatchOf(b, m) == PruneMatch(MatchOf(a, m), used)
  {
    MatchDropped(a, b, used, z, m);
  }

  // ---------- Patterns none of whose nodes changed ----------

  lemma NodeSettled(a: Store, b: Store, h: Handle)
    requires Wf(a) && Wf(b) && Grows(a, b) && Settled(a, b, h)
    ensures NodeOf(b, h) == NodeOf(a, h)
  {
    if NodeAt(a, h).NodePattern? {
      KnownExprs(a, h);
      assert ExprList(NodeAt(a, h)) == NodeAt(a, h).npreds;
      TreesFrame(a, b, NodeAt(a, h).npreds);
    }
  }

  lemma EdgeSettled(a: Store, b: Store, e: Handle)
    requires Wf(a) && Wf(b) && Grows(a, b) && Settled(a, b, e) && Settled(a, b, Target(a, e))
    ensures EdgeOf(b, e) == EdgeOf(a, e)
  {
    NodeSettled(a, b, Target(a, e));
    if NodeAt(a, e).EdgePattern? {
      KnownExprs(a, e);
      assert ExprList(NodeAt(a, e)) == NodeAt(a, e).epreds;
      TreesFrame(a, b, NodeAt(a, e).epreds);
    }
  }

  ghost predicate AllSettled(a: Store, b: Store, vs: seq<Handle>) {
    forall v :: v in vs ==> Settled(a, b, v)
  }

  lemma PathSettled(a: Store, b: Store, h: Handle)
    requires Wf(a) && Wf(b) && Grows(a, b) && IsPath(a, h) && AllSettled(a, b, Visits(a, Paths, h))
    requires NodeAt(a, h).PathChain? ==> Settled(a, b, h)
    ensures PathOf(b, h) == PathOf(a, h)
  {
    var n := NodeAt(a, h);
    if n.PathChain? {
      NodeSettled(a, b, n.startNode);
      forall k | 0 <= k < |n.edges| ensures EdgeOf(b, n.edges[k]) == EdgeOf(a, n.edges[k]) {
        VisitedMember(a, Edges, n.edges, k);
        assert n.edges[k] in Visits(a, Edges, n.edges[k]) && Target(a, n.edges[k]) in Visits(a, Edges, n.edges[k]);
        EdgeSettled(a, b, n.edges[k]);
      }
      assert EdgesOf(b, n.edges) == EdgesOf(a, n.edges);
    } else {
      assert h in Visits(a, Paths, h);
      NodeSettled(a, b, h);
    }
  }

  lemma MatchSettled(a: Store, b: Store, z: Zone, feet: set<nat>, m: Handle)
    requires Within(a, b, z, feet) && Shaped(a) && NodeAt(a, m).MatchClause?
    requires AllSettled(a, b, AllVisits(a, Paths, NodeAt(a, m).paths)) && OptSettled(a, b, NodeAt(a, m).mwhere)
    ensures MatchOf(b, m) == MatchOf(a, m)
  {
    var n := NodeAt(a, m);
    ClauseParts(a, m);
    KindsKept(a, b, z, feet, m);
    SkeletonLists(n, NodeAt(b, m));
    WhereSettled(a, b, n.mwhere);
    forall k | 0 <= k < |n.paths| ensures PathOf(b, n.paths[k]) == PathOf(a, n.paths[k]) {
      VisitedMember(a, Paths, n.paths, k);
      PathParts(a, n.paths[k]);
      KindsKept(a, b, z, feet, n.paths[k]);
      SkeletonLists(NodeAt(a, n.paths[k]), NodeAt(b, n.paths[k]));
      PathSettled(a, b, n.paths[k]);
    }
    assert PathsOf(b, n.paths) == PathsOf(a, n.paths);
  }

  // ---------- Folding the mutations once more ----------

  /** A node outside the zone and not visited is as it was. */
  lemma Unvisited(a: Store, b: Store, z: Zone, vs: seq<Handle>, ok: bool, h: Handle)
    requires Wf(a) && Pass(a, b, z, vs, ok) && Known(a, h) && (h.At? ==> !InZone(z, h) && h !in vs)
    ensures Settled(a, b, h)
  {
    SlotUntouched(a, b, z, Feet(vs), h);
  }

  /** Slots of the statement that the mutations do not share. */
  ghost predicate Elsewhere(a: Store, z: Zone, vs: seq<Handle>, hs: seq<Handle>) {
    forall h :: h in hs ==> Known(a, h) && (h.At? ==> !InZone(z, h) && h !in vs)
  }

  lemma ElsewhereSettled(a: Store, b: Store, z: Zone, vs: seq<Handle>, ok: bool, hs: seq<Handle>)
    requires Wf(a) && Pass(a, b, z, vs, ok) && Elsewhere(a, z, vs, hs)
    ensures AllSettled(a, b, hs)
  {
    forall h | h in hs ensures Settled(a, b, h) { Unvisited(a, b, z, vs, ok, h); }
  }

  lemma ElsewhereOf(a: Store, d: Store, z: Zone, vs: seq<Handle>, hs: seq<Handle>, all: seq<Handle>)
    requires Current(a, z) && |d.nodes| >= |a.nodes| && Ready(a, all, z) && Fresh(all, z)
    requires Apart(vs, hs) && forall h :: h in hs ==> h in all
    ensures Elsewhere(d, Later(z, d), vs, hs)
  {
    forall h | h in hs ensures Known(d, h) && (h.At? ==> !InZone(Later(z, d), h) && h !in vs) {
      assert h in all;
      var i :| 0 <= i < |all| && all[i] == h;
      assert h.At? ==> !InZone(z, all[i]);
    }
  }

  /** The clauses around the MATCH clauses do not notice. */
  lemma MutatedSurroundings(a: Store, d: Store, e: Store, z: Zone, root: Handle, ok: bool)
    requires Prepared(a, z, root) && Current(a, z) && Edited(a, d, z)
    requires Pass(d, e, Later(z, d), AllVisits(a, Mutations, NodeAt(a, root).mutations), ok)
    ensures Surroundings(d, e, root) && NodeAt(d, root) == NodeAt(a, root)
  {
    hide Edited, Wf, Pass, Ready, AllVisits, Shaped, Closed, Current, NodeShaped, AllSettled;
    var n, vs := NodeAt(a, root), AllVisits(a, Mutations, NodeAt(a, root).mutations);
    EditedSurroundings(a, d, z, root);
    VisitsSplit(a, z, root);
    StatementKinds(a, root);
    hide Prepared, Fresh, StatementVisits, Start;
    var us, ls, ws, r := AllVisits(a, Clauses, n.unwinds), AllVisits(a, Clauses, n.linear),
      AllVisits(a, Clauses, n.withs), OptSeq(n.resultClause);
    ListVisited(a, n.unwinds);
    ListVisited(a, n.linear);
    ListVisited(a, n.withs);
    hide Apart;
    PartSettled(a, d, e, z, root, ok, us);
    PartSettled(a, d, e, z, root, ok, ls);
    PartSettled(a, d, e, z, root, ok, ws);
    PartSettled(a, d, e, z, root, ok, r);
    assert Wf(d) by { EditedStart(a, d, z); }
    RootSettled(d, e, Later(z, d), vs, ok, root);
  }

  lemma StatementKinds(st: Store, root: Handle)
    requires Shaped(st) && NodeAt(st, root).QueryStatement?
    ensures var n := NodeAt(st, root);
      && (forall h :: h in n.unwinds ==> !NodeAt(st, h).MatchClause?)
      && (forall h :: h in n.linear ==> !NodeAt(st, h).MatchClause?)
      && (forall h :: h in n.withs ==> NodeAt(st, h).WithClause?)
  {
    assert NodeShaped(st, st.nodes[root.index]);
  }

  lemma PartSettled(a: Store, d: Store, e: Store, z: Zone, root: Handle, ok: bool, hs: seq<Handle>)
    requires Prepared(a, z, root) && Current(a, z) && Edited(a, d, z)
    requires Pass(d, e, Later(z, d), AllVisits(a, Mutations, NodeAt(a, root).mutations), ok)
    requires Apart(AllVisits(a, Mutations, NodeAt(a, root).mutations), hs)
      && forall h :: h in hs ==> h in StatementVisits(a, root)
    ensures AllSettled(d, e, hs)
  {
    var vs := AllVisits(a, Mutations, NodeAt(a, root).mutations);
    ElsewhereOf(a, d, z, vs, hs, StatementVisits(a, root));
    ElsewhereSettled(d, e, Later(z, d), vs, ok, hs);
  }

  /** Clauses other than MATCH visit themselves, and a WITH clause its filter. */
  lemma ListVisited(st: Store, hs: seq<Handle>)
    ensures forall h :: h in hs && !NodeAt(st, h).MatchClause? ==> h in AllVisits(st, Clauses, hs)
    ensures forall h :: h in hs && NodeAt(st, h).WithClause? && NodeAt(st, h).wwhere.Some? ==>
      NodeAt(st, h).wwhere.value in AllVisits(st, Clauses, hs)
  {
    forall h | h in hs && !NodeAt(st, h).MatchClause?
      ensures h in AllVisits(st, Clauses, hs)
      ensures NodeAt(st, h).WithClause? && NodeAt(st, h).wwhere.Some? ==>
        NodeAt(st, h).wwhere.value in AllVisits(st, Clauses, hs)
    {
      var k :| 0 <= k < |hs| && hs[k] == h;
      VisitedMember(st, Clauses, hs, k);
      assert h in Visits(st, Clauses, h);
    }
  }

  lemma RootSettled(a: Store, b: Store, z: Zone, vs: seq<Handle>, ok: bool, root: Handle)
    requires Wf(a) && Pass(a, b, z, vs, ok) && NodeAt(a, root).QueryStatement?
    ensures Settled(a, b, root)
  {
    KindsKept(a, b, z, Feet(vs), root);
    SkeletonLists(NodeAt(a, root), NodeAt(b, root));
  }

  lemma MutatedMatch(a: Store, d: Store, e: Store, z: Zone, root: Handle, ok: bool, m: Handle)
    requires Prepared(a, z, root) && Current(a, z) && Edited(a, d, z) && m in NodeAt(a, root).matches
    requires Pass(d, e, Later(z, d), AllVisits(a, Mutations, NodeAt(a, root).mutations), ok) && Wf(e)
    ensures MatchOf(e, m) == MatchOf(d, m)
  {
    var n, vs := NodeAt(a, root), AllVisits(a, Mutations, NodeAt(a, root).mutations);
    StatementMatchHandles(a, root);
    MatchVisits(a, d, z, root, m);
    hide Prepared, Edited, Fresh, Ready, StatementVisits, AllVisits, Apart, Shaped, Closed, Start, Visits, Handles;
    PartSettled(a, d, e, z, root, ok, Visits(a, Clauses, m));
    MutationsKnown(a, d, z, root);
    assert Wf(d) && Shaped(d) by { EditedStart(a, d, z); }
    ClauseLayout(a, d, z, m);
    ClauseParts(d, m);
    FilterSettled(a, d, e, z, m, vs, ok);
    WithinOf(d, e, Later(z, d), vs, ok);
    hide Pass, Within;
    MatchSettled(d, e, Later(z, d), Feet(vs), m);
  }

  /** The visits of a MATCH clause belong to the statement, not to the mutations, and survive pushdown. */
  lemma MatchVisits(a: Store, d: Store, z: Zone, root: Handle, m: Handle)
    requires Prepared(a, z, root) && Edited(a, d, z) && m in NodeAt(a, root).matches && NodeAt(a, m).MatchClause?
    ensures Apart(AllVisits(a, Mutations, NodeAt(a, root).mutations), Visits(a, Clauses, m))
    ensures forall h :: h in Visits(a, Clauses, m) ==> h in StatementVisits(a, root)
    ensures AllVisits(d, Paths, NodeAt(a, m).paths) == AllVisits(a, Paths, NodeAt(a, m).paths)
    ensures forall h :: h in AllVisits(a, Paths, NodeAt(a, m).paths) ==> h in Visits(a, Clauses, m)
  {
    PathsOfClause(a, d, z, m);
    var n := NodeAt(a, root);
    VisitsSplit(a, z, root);
    hide AllVisits, StatementVisits, Visits, Fresh, Ready, Edited, Prepared;
    var k :| 0 <= k < |n.matches| && n.matches[k] == m;
    VisitedMember(a, Clauses, n.matches, k);
  }

  lemma PathsOfClause(a: Store, d: Store, z: Zone, m: Handle)
    requires Edited(a, d, z) && NodeAt(a, m).MatchClause?
    ensures AllVisits(d, Paths, NodeAt(a, m).paths) == AllVisits(a, Paths, NodeAt(a, m).paths)
    ensures forall h :: h in AllVisits(a, Paths, NodeAt(a, m).paths) ==> h in Visits(a, Clauses, m)
  {
    ClauseParts(a, m);
    var ps := NodeAt(a, m).paths;
    forall p | p in ps ensures Fits(a, Paths, p) && p in Handles(NodeAt(a, m)) {
      var i :| 0 <= i < |ps| && ps[i] == p;
      assert IsPath(a, ps[i]);
    }
    EditedAllVisits(a, d, z, Paths, ps, m);
  }

  lemma MutationsKnown(a: Store, b: Store, z: Zone, root: Handle)
    requires Edited(a, b, z) && NodeAt(a, root).QueryStatement?
    ensures forall v :: v in AllVisits(a, Mutations, NodeAt(a, root).mutations) ==> Known(a, v)
  {
    StatementParts(a, root);
    MutationSlots(a, root);
    EditedAllVisits(a, b, z, Mutations, NodeAt(a, root).mutations, root);
  }

  /** The filter of a clause is the one folding left, or one pushdown has just built. */
  lemma FilterSettled(a: Store, d: Store, e: Store, z: Zone, m: Handle, vs: seq<Handle>, ok: bool)
    requires Current(a, z) && Edited(a, d, z) && Pass(d, e, Later(z, d), vs, ok) && NodeAt(a, m).MatchClause?
    requires forall v :: v in vs ==> Known(a, v)
    requires AllSettled(d, e, Visits(a, Clauses, m)) && NodeAt(d, m).MatchClause? && IsWhere(d, NodeAt(d, m).mwhere)
    ensures OptSettled(d, e, NodeAt(d, m).mwhere)
  {
    var w := NodeAt(d, m).mwhere;
    assert NodeEdited(a.nodes[m.index], d.nodes[m.index], z);
    if w.Some? {
      if w == NodeAt(a, m).mwhere {
        assert w.value in OptSeq(w);
      } else {
        assert w.value.index >= |a.nodes|;
        Unvisited(d, e, Later(z, d), vs, ok, w.value);
      }
    }
  }

  // ---------- Pass 2 ----------

  /** The nodes folded once more, relative to the store the pass started from. */
  ghost predicate SlotsFolded(a: Store, b: Store, vs: seq<Handle>)
    requires Wf(a) && Wf(b)
  {
    forall h :: h in vs ==> SlotFolded(a, b, h)
  }

  /** `optimize_statement`. */
  method OptimizeStatement(arena: QueryAstArena, root: Handle, ghost z: Zone) returns (ok: bool, ghost y: Zone)
    requires Prepared(arena.View(), z, root) && Current(arena.View(), z)
    modifies arena
    ensures arena.Valid() && Shaped(arena.View()) && Grows(old(arena.View()), arena.View())
    ensures NodeAt(arena.View(), root) == NodeAt(old(arena.View()), root)
    ensures ok ==> StatementOf(arena.View(), root) == PushStatementOf(StatementOf(old(arena.View()), root))
    ensures ok ==>
      SlotsFolded(old(arena.View()), arena.View(),
                  AllVisits(old(arena.View()), Mutations, NodeAt(old(arena.View()), root).mutations))
    ensures ok ==>
      Renews(old(arena.View()), arena.View(), z,
             AllVisits(old(arena.View()), Mutations, NodeAt(old(arena.View()), root).mutations))
    ensures ok ==>
      Framed(old(arena.View()), arena.View()) && Start(arena.View(), y) && SameZone(old(arena.View()), z, y)
    ensures !ok ==>
      || (exists m :: m in NodeAt(old(arena.View()), root).matches && Stuck(old(arena.View()), m))
      || (exists h :: h in StatementVisits(old(arena.View()), root) && Holed(old(arena.View()), h))
  {
    ghost var a := arena.View();
    var n := arena.nodes[root.index];
    PreparedClauses(a, z, root);
    assert forall k :: 0 <= k < |n.matches| ==> n.matches[k] in n.matches;
    hide Wf, Shaped, Closed, Edited, Touched, ClausesFit, FilterFits, Pass, Visits, AllVisits, StatementVisits, Reach,
      Stuck, Prepared, PushMatches, MatchesOf, StatementOf, Holed, SlotFolded, Fresh, Ready, Grows, Fits, Handles,
      Renews, Framed, SameZone;
    ok := OptimizeMatches(arena, n.matches, z);
    ghost var d := arena.View();
    y := Later(z, d);
    if !ok {
      PushedFailed(a, d, z, root);
      return;
    }
    MutationsEntry(a, d, z, root);
    ok := FoldEach(arena, Mutations, n.mutations, Rk(d, root), Later(z, d));
    StatementDone(a, d, arena.View(), z, root, ok);
    NestedDone(a, d, arena.View(), z, root, ok);
  }

  lemma NestedDone(a: Store, d: Store, e: Store, z: Zone, root: Handle, ok: bool)
    requires Prepared(a, z, root) && Current(a, z) && Edited(a, d, z)
    requires Touched(a, d, Reach(a, NodeAt(a, root).matches))
    requires Wf(d) && Pass(d, e, Later(z, d), AllVisits(a, Mutations, NodeAt(a, root).mutations), ok)
    ensures Renews(a, e, z, AllVisits(a, Mutations, NodeAt(a, root).mutations))
    ensures Framed(a, e) && Start(e, Later(z, d)) && SameZone(a, z, Later(z, d))
  {
    var vs := AllVisits(a, Mutations, NodeAt(a, root).mutations);
    hide Prepared, Edited, Touched, Pass, Renews, Framed, AllVisits, Within, Start;
    StatementRenews(a, d, e, z, root, ok);
    EditedFramed(a, d, z);
    WithinOf(d, e, Later(z, d), vs, ok);
    WithinFramed(d, e, Later(z, d), Feet(vs));
    FramedThen(a, d, e);
    PassStart(d, e, Later(z, d), vs, ok);
    EditedLonger(a, d, z);
  }

  lemma EditedLonger(a: Store, b: Store, z: Zone)
    requires Edited(a, b, z)
    ensures |a.nodes| <= |b.nodes|
  {
  }

  lemma PushedFailed(a: Store, d: Store, z: Zone, root: Handle)
    requires Edited(a, d, z) && NodeAt(a, root).QueryStatement?
    ensures Wf(d) && Shaped(d) && Grows(a, d) && NodeAt(d, root) == NodeAt(a, root)
  {
    EditedSurroundings(a, d, z, root);
  }

  lemma MutationsEntry(a: Store, d: Store, z: Zone, root: Handle)
    requires Prepared(a, z, root) && Current(a, z) && Edited(a, d, z)
    requires Touched(a, d, Reach(a, NodeAt(a, root).matches))
    ensures var xs := NodeAt(a, root).mutations;
      && Start(d, Later(z, d)) && Ready(d, AllVisits(d, Mutations, xs), Later(z, d))
      && AllVisits(d, Mutations, xs) == AllVisits(a, Mutations, xs)
      && forall h :: h in xs ==> Fits(d, Mutations, h) && Known(d, h) && Rk(d, h) <= Rk(d, root)
  {
    LaterStart(a, d, z);
    MutationsReady(a, d, z, root);
    PushedFailed(a, d, z, root);
    var xs := NodeAt(a, root).mutations;
    MutationSlots(d, root);
    forall h | h in xs ensures Fits(d, Mutations, h) && Known(d, h) && Rk(d, h) <= Rk(d, root) {
      OwnedKnown(d, root, h);
    }
  }

  lemma StatementDone(a: Store, d: Store, e: Store, z: Zone, root: Handle, ok: bool)
    requires Prepared(a, z, root) && Current(a, z) && Edited(a, d, z)
    requires Touched(a, d, Reach(a, NodeAt(a, root).matches))
    requires MatchesOf(d, NodeAt(a, root).matches) == PushMatches([], MatchesOf(a, NodeAt(a, root).matches))
    requires Pass(d, e, Later(z, d), AllVisits(a, Mutations, NodeAt(a, root).mutations), ok)
    ensures Wf(e) && Shaped(e) && Grows(a, e) && NodeAt(e, root) == NodeAt(a, root)
    ensures StatementOf(e, root) == PushStatementOf(StatementOf(a, root))
    ensures ok ==> SlotsFolded(a, e, AllVisits(a, Mutations, NodeAt(a, root).mutations))
    ensures !ok ==> exists h :: h in StatementVisits(a, root) && Holed(a, h)
  {
    var vs := AllVisits(a, Mutations, NodeAt(a, root).mutations);
    EditedStart(a, d, z);
    WithinOf(d, e, Later(z, d), vs, ok);
    MutatedSurroundings(a, d, e, z, root, ok);
    MutationOutcome(a, d, e, z, root, ok);
    StatementsDone(a, d, e, z, root, ok);
    GrowsTransitive(a, d, e);
  }

  lemma PreparedParts(a: Store, z: Zone, root: Handle)
    requires Prepared(a, z, root)
    ensures Wf(a) && NodeAt(a, root).QueryStatement?
    ensures StatementOf(a, root).matches == MatchesOf(a, NodeAt(a, root).matches)
  {
  }

  lemma EditedBoth(a: Store, d: Store, z: Zone)
    requires Edited(a, d, z)
    ensures Wf(d) && Shaped(a) && Shaped(d) && Grows(a, d)
  {
  }

  lemma StatementsDone(a: Store, d: Store, e: Store, z: Zone, root: Handle, ok: bool)
    requires Prepared(a, z, root) && Current(a, z) && Edited(a, d, z) && Wf(e) && Grows(d, e)
    requires Surroundings(d, e, root) && NodeAt(d, root) == NodeAt(a, root)
    requires MatchesOf(d, NodeAt(a, root).matches) == PushMatches([], MatchesOf(a, NodeAt(a, root).matches))
    requires Pass(d, e, Later(z, d), AllVisits(a, Mutations, NodeAt(a, root).mutations), ok)
    ensures StatementOf(e, root) == PushStatementOf(StatementOf(a, root))
  {
    hide Wf, Shaped, Closed, Edited, Pass, AllVisits, Prepared, PushMatches, MatchOf, StatementOf, Surroundings, Grows;
    PreparedParts(a, z, root);
    var ms := NodeAt(a, root).matches;
    EditedStart(a, d, z);
    EditedSurroundings(a, d, z, root);
    EditedBoth(a, d, z);
    StatementFrame(a, d, root);
    StatementFrame(d, e, root);
    forall k | 0 <= k < |ms| ensures MatchOf(e, ms[k]) == MatchOf(d, ms[k]) {
      assert ms[k] in ms;
      MutatedMatch(a, d, e, z, root, ok, ms[k]);
    }
    assert MatchesOf(e, ms) == MatchesOf(d, ms);
  }

  lemma MutationsVisited(a: Store, z: Zone, root: Handle)
    requires Prepared(a, z, root)
    ensures forall h :: h in AllVisits(a, Mutations, NodeAt(a, root).mutations) ==> h in StatementVisits(a, root)
  {
    VisitsSplit(a, z, root);
  }

  lemma MutationOutcome(a: Store, d: Store, e: Store, z: Zone, root: Handle, ok: bool)
    requires Prepared(a, z, root) && Current(a, z) && Edited(a, d, z) && Wf(e)
    requires Touched(a, d, Reach(a, NodeAt(a, root).matches))
    requires Pass(d, e, Later(z, d), AllVisits(a, Mutations, NodeAt(a, root).mutations), ok)
    ensures ok ==> SlotsFolded(a, e, AllVisits(a, Mutations, NodeAt(a, root).mutations))
    ensures !ok ==> exists h :: h in StatementVisits(a, root) && Holed(a, h)
  {
    hide Prepared, Edited, Touched, Keeps, Fresh, AllVisits, Current, StatementVisits, Holed, SlotFolded, Start;
    PreparedParts(a, z, root);
    var vs := AllVisits(a, Mutations, NodeAt(a, root).mutations);
    MutationsReady(a, d, z, root);
    MutationsReadyBefore(a, z, root);
    MutationsVisited(a, z, root);
    LaterStart(a, d, z);
    EditedKeeps(a, d, z);
    KeepsWf(a, d, z);
    forall h | h in vs ensures KeptAt(a, d, h) && Exprs(d, h) == Exprs(a, h) { SlotKept(a, d, h); }
    if ok {
      hide Pass;
      FreshOnce(d, Later(z, d), vs);
      PassOnce(d, e, Later(z, d), vs);
      forall h | h in vs ensures SlotFolded(a, e, h) { SameSlotFolded(a, d, e, h); }
    } else {
      var h :| h in vs && Holed(d, h);
      HoledEarlier(a, d, z, h);
    }
  }

  lemma SameSlotFolded(a: Store, d: Store, e: Store, h: Handle)
    requires Wf(a) && Wf(d) && Wf(e) && SlotFolded(d, e, h) && NodeAt(d, h) == NodeAt(a, h)
      && Exprs(d, h) == Exprs(a, h)
    ensures SlotFolded(a, e, h)
  {
  }

  // ---------- The three passes ----------

  /** A clause pushdown gets stuck on held a hole before folding. */
  lemma StuckHoled(a: Store, b: Store, z: Zone, root: Handle, m: Handle)
    requires Prepared(a, z, root) && Pass(a, b, z, StatementVisits(a, root), true)
    requires Prepared(b, z, root) && NodeAt(b, root) == NodeAt(a, root)
    requires StatementOf(b, root) == FoldStatement(StatementOf(a, root))
    requires m in NodeAt(a, root).matches && Stuck(b, m)
    ensures exists h :: h in StatementVisits(a, root) && Holed(a, h)
  {
    var n := NodeAt(a, root);
    StatementMatchHandles(a, root);
    var k :| 0 <= k < |n.matches| && n.matches[k] == m;
    VisitsFolded(a, b, z, root, true);
    WithinOf(a, b, z, StatementVisits(a, root), true);
    KindsKept(a, b, z, Feet(StatementVisits(a, root)), m);
    SkeletonLists(NodeAt(a, m), NodeAt(b, m));
    VisitedMember(a, Clauses, n.matches, k);
    VisitsSplit(a, z, root);
    ClauseParts(a, m);
    if BrokenClause(b, m) {
      BrokenHoled(a, b, z, StatementVisits(a, root), m);
    } else {
      assert StatementOf(b, root).matches[k] == FoldMatch(StatementOf(a, root).matches[k]);
      FilterHoled(a, b, m);
    }
  }

  lemma BrokenHoled(a: Store, b: Store, z: Zone, vs: seq<Handle>, m: Handle)
    requires Wf(a) && Shaped(a) && Within(a, b, z, Feet(vs)) && BrokenClause(b, m) && NodeAt(a, m).MatchClause?
    requires NodeAt(b, m) == NodeAt(a, m) && forall h :: h in Visits(a, Clauses, m) ==> h in vs
    ensures Null in vs && Holed(a, Null)
  {
    hide Wf, Shaped, Within, AllVisits, IsWhere, IsPath, Feet, Broken, Handles, Exprs;
    var ps := NodeAt(a, m).paths;
    assert Visits(a, Clauses, m) == AllVisits(a, Paths, ps) + OptSeq(NodeAt(a, m).mwhere);
    ClauseParts(a, m);
    var i := BrokenPath(b, m);
    BrokenVisited(a, b, z, Feet(vs), ps[i]);
    VisitedMember(a, Paths, ps, i);
    assert Null in Visits(a, Clauses, m);
  }

  lemma BrokenPath(st: Store, m: Handle) returns (i: nat)
    requires NodeAt(st, m).MatchClause? && BrokenClause(st, m)
    ensures i < |NodeAt(st, m).paths| && Broken(st, NodeAt(st, m).paths[i])
  {
    var ps := NodeAt(st, m).paths;
    var h :| h in ps && Broken(st, h);
    i :| 0 <= i < |ps| && ps[i] == h;
  }

  lemma BrokenVisited(a: Store, b: Store, z: Zone, feet: set<nat>, h: Handle)
    requires Within(a, b, z, feet) && IsPath(a, h) && Broken(b, h)
    ensures Null in Visits(a, Paths, h)
  {
    KindsKept(a, b, z, feet, h);
    SkeletonLists(NodeAt(a, h), NodeAt(b, h));
    assert Visits(a, Paths, h)[0] == Null;
  }

  lemma FilterHoled(a: Store, b: Store, m: Handle)
    requires Wf(a) && Wf(b) && NodeAt(a, m).MatchClause? && NodeAt(b, m) == NodeAt(a, m)
    requires MatchOf(b, m) == FoldMatch(MatchOf(a, m)) && IsWhere(a, NodeAt(a, m).mwhere)
    requires Hole in NamesOpt(WhereOf(b, NodeAt(b, m).mwhere))
    ensures NodeAt(a, m).mwhere.Some? && Holed(a, NodeAt(a, m).mwhere.value)
    ensures NodeAt(a, m).mwhere.value in Visits(a, Clauses, m)
  {
    hide Fold, TreeOf, Wf, AllVisits;
    var w := NodeAt(a, m).mwhere;
    assert MatchOf(b, m).filter == FoldOpt(WhereOf(a, w));
    var e := WhereOf(a, w).value;
    FoldNames(e);
    FilterExprs(a, w.value);
    OneVars(e);
    assert Hole in Names(e);
    assert w.value in OptSeq(w);
  }

  lemma FilterExprs(st: Store, h: Handle)
    requires Wf(st) && NodeAt(st, h).WhereClause?
    ensures Exprs(st, h) == [TreeOf(st, NodeAt(st, h).rootPredicate)]
  {
    hide TreeOf;
  }

  /** What a run of the optimizer leaves behind. */
  ghost predicate OptimizedRoot(a: Store, b: Store, root: Handle, level: Level, used: set<string>)
    requires Wf(a) && Wf(b)
  {
    var q := StatementOf(a, root);
    && StatementOf(b, root) == Optimized(level, q, used)
    && (level.Aggressive? ==> UsedVars(PushStatementOf(FoldStatement(q))) <= used)
  }

  /** After folding and pushdown: every clause the collectors read is clear, and every chain has a start. */
  ghost predicate Readable(mid: Store, root: Handle)
    requires Wf(mid)
  {
    NodeAt(mid, root).QueryStatement? ==>
      && ClausesClear(mid, CollectOrder(NodeAt(mid, root)))
      && forall m :: m in NodeAt(mid, root).matches ==> !BrokenClause(mid, m)
  }

  /**
   `optimize`. The arena stays closed and acyclic whatever happens; a run that succeeds
   leaves the optimized statement at the root; a run that fails found a missing operand.
   */
  method Optimize(arena: QueryAstArena, level: Level, root: Handle, ghost z: Zone)
    returns (ok: bool, ghost used: set<string>, ghost mid: Store)
    requires arena.Valid() && (NodeAt(arena.View(), root).QueryStatement? ==> Prepared(arena.View(), z, root))
    modifies arena
    ensures arena.Valid() && Grows(old(arena.View()), arena.View())
    ensures level.NoOptimization? || !NodeAt(old(arena.View()), root).QueryStatement? ==>
      arena.View() == old(arena.View())
    ensures level.NoOptimization? ==> ok
    ensures !level.NoOptimization? && !NodeAt(old(arena.View()), root).QueryStatement? ==>
      (ok <==> root.At? && root.index < |old(arena.nodes)|)
    ensures ok && NodeAt(old(arena.View()), root).QueryStatement? ==>
      OptimizedRoot(old(arena.View()), arena.View(), root, level, used)
    ensures ok && NodeAt(old(arena.View()), root).QueryStatement? && !level.NoOptimization? ==>
      Renews(old(arena.View()), arena.View(), z, RunVisits(old(arena.View()), root)) && Shaped(arena.View())
    ensures ok && NodeAt(old(arena.View()), root).QueryStatement? && level.Aggressive? ==>
      Wf(mid) && Tidied(mid, arena.View(), root)
    ensures !ok && NodeAt(old(arena.View()), root).QueryStatement? ==>
      || (exists h :: h in StatementVisits(old(arena.View()), root) && Holed(old(arena.View()), h))
      || (level.Aggressive? && Wf(mid) && !Readable(mid, root))
  {
    ghost var a := arena.View();
    used, mid := {}, a;
    GrowsSame(a);
    if level.NoOptimization? { return true, used, mid; }
    var got := arena.Get(root);
    if got.Err? { return false, used, mid; }
    if !got.value.QueryStatement? { return true, used, mid; }
    ok := FoldAllExpressions(arena, root, z);
    ghost var b := arena.View();
    FoldedGrows(a, b, z, root, ok);
    if !ok { return; }
    PreparedFolded(a, b, z, root);
    ghost var y := Rezone(z, |b.nodes|);
    PreparedRezone(b, z, root);
    RezoneCurrent(b, z);
    hide Wf, Shaped, Prepared, Current, Pass, StatementOf, StatementVisits, Grows, FoldStatement, PushStatementOf,
      Stuck, Holed, Closed, UsedVars, ClausesClear, Dropping, SlotsFolded, Start, Renews, Framed, SameZone, RunVisits,
      Tidied, Mentioned;
    ghost var x: Zone;
    ok, x := OptimizeStatement(arena, root, y);
    mid := arena.View();
    GrowsTransitive(a, b, mid);
    if !ok {
      PushHoled(a, b, z, root);
      return;
    }
    RunRenews(a, b, mid, z, root);
    if level.Aggressive? {
      PruneEntry(a, b, mid, z, x, root);
      ok, used := PruneDeadVariables(arena, root, x);
      DroppedGrows(mid, arena.View(), used, x);
      GrowsTransitive(a, mid, arena.View());
      PruneRenews(a, b, mid, arena.View(), z, x, root, used);
    }
  }

  /** The patterns pruning writes to lie outside the zone it is given. */
  lemma PruneEntry(a: Store, b: Store, mid: Store, z: Zone, x: Zone, root: Handle)
    requires Prepared(b, z, root) && Framed(b, mid) && SameZone(b, Rezone(z, |b.nodes|), x)
      && NodeAt(mid, root) == NodeAt(b, root)
    ensures ClausesBeyond(mid, x, NodeAt(mid, root).matches)
  {
    var ms := NodeAt(b, root).matches;
    StatementMatchHandles(b, root);
    PreparedBeyond(b, z, root);
    RezoneSame(z, |b.nodes|);
    BeyondSame(b, z, x, ms);
    FramedBeyond(b, mid, x, ms);
  }

  lemma PruneRenews(a: Store, b: Store, mid: Store, e: Store, z: Zone, x: Zone, root: Handle, used: set<string>)
    requires Prepared(a, z, root) && Pass(a, b, z, StatementVisits(a, root), true) && Prepared(b, z, root)
    requires Renews(a, mid, z, RunVisits(a, root)) && Start(mid, x) && SameZone(b, Rezone(z, |b.nodes|), x)
    requires Dropping(mid, e, used, x)
    ensures Renews(a, e, z, RunVisits(a, root))
  {
    var vs := StatementVisits(a, root);
    DroppingRenews(mid, e, used, x);
    WithinOf(a, b, z, vs, true);
    ZoneGrows(a, b, z, Feet(vs));
    WithinFramed(a, b, z, Feet(vs));
    hide Prepared, Pass, Renews, Dropping, Within, RunVisits, Start;
    forall s | Known(a, s) && InZone(z, s) ensures InZone(x, s) { assert Known(b, s); }
    RenewsWf(a, mid, z, RunVisits(a, root));
    RenewsThen(a, mid, e, z, x, RunVisits(a, root), []);
    assert RunVisits(a, root) + [] == RunVisits(a, root);
  }

  lemma RenewsWf(a: Store, b: Store, z: Zone, vs: seq<Handle>)
    requires Renews(a, b, z, vs)
    ensures Wf(a) && Wf(b)
  {
  }

  lemma GrowsSame(a: Store)
    ensures Grows(a, a)
  {
  }

  lemma FoldedGrows(a: Store, b: Store, z: Zone, root: Handle, ok: bool)
    requires Prepared(a, z, root) && Pass(a, b, z, StatementVisits(a, root), ok)
    ensures Wf(b) && Grows(a, b)
    ensures !ok ==> exists h :: h in StatementVisits(a, root) && Holed(a, h)
  {
  }

  lemma DroppedGrows(a: Store, b: Store, used: set<string>, z: Zone)
    requires Dropping(a, b, used, z)
    ensures Wf(b) && Grows(a, b)
  {
  }

  lemma PushHoled(a: Store, b: Store, z: Zone, root: Handle)
    requires Prepared(a, z, root) && Pass(a, b, z, StatementVisits(a, root), true)
    requires Prepared(b, z, root) && NodeAt(b, root) == NodeAt(a, root)
    requires StatementOf(b, root) == FoldStatement(StatementOf(a, root))
    requires (exists m :: m in NodeAt(b, root).matches && Stuck(b, m))
      || exists h :: h in StatementVisits(b, root) && Holed(b, h)
    ensures exists h :: h in StatementVisits(a, root) && Holed(a, h)
  {
    hide Prepared, Pass, StatementOf, FoldStatement, Stuck, Holed, StatementVisits;
    PreparedWf(a, z, root);
    PreparedWf(b, z, root);
    if m :| m in NodeAt(b, root).matches && Stuck(b, m) {
      StuckHoled(a, b, z, root, m);
    } else {
      var h :| h in StatementVisits(b, root) && Holed(b, h);
      SlotHoled(a, b, z, root, h);
    }
  }

  lemma PreparedWf(st: Store, z: Zone, root: Handle)
    requires Prepared(st, z, root)
    ensures Wf(st) && NodeAt(st, root).QueryStatement?
  {
  }

  /** A slot with a gap after folding had one before. */
  lemma SlotHoled(a: Store, b: Store, z: Zone, root: Handle, h: Handle)
    requires Prepared(a, z, root) && Pass(a, b, z, StatementVisits(a, root), true) && Wf(b)
    requires h in StatementVisits(b, root) && Holed(b, h)
    ensures h in StatementVisits(a, root) && Holed(a, h)
  {
    var vs := StatementVisits(a, root);
    VisitsFolded(a, b, z, root, true);
    WithinOf(a, b, z, vs, true);
    hide Within, Pass, Holed, Shaped;
    WithinKeeps(a, b, z, Feet(vs));
    SlotWithin(a, b, z, Feet(vs), h);
    HoledEarlier(a, b, z, h);
  }
}
