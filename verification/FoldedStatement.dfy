/** The folding pass on a whole statement: what the arena denotes afterwards. */
module FoldedStatement {
  import opened Common
  import opened Ast
  import opened Trees
  import opened Clauses
  import opened Folding
  import opened FoldArena
  import opened Visiting
  import opened FoldPass

  lemma NodeFolded(a: Store, b: Store, h: Handle)
    requires Wf(a) && Wf(b) && SlotFolded(a, b, h)
    ensures NodeOf(b, h) == FoldNode(NodeOf(a, h))
  {
  }

  lemma EdgeFolded(a: Store, b: Store, e: Handle)
    requires Wf(a) && Wf(b) && NodeAt(a, e).EdgePattern?
    requires SlotFolded(a, b, e) && SlotFolded(a, b, Target(a, e))
    ensures EdgeOf(b, e) == FoldEdge(EdgeOf(a, e))
  {
    NodeFolded(a, b, Target(a, e));
  }

  lemma {:induction false} VisitedMember(st: Store, k: Listing, hs: seq<Handle>, i: nat)
    requires i < |hs|
    ensures forall v :: v in Visits(st, k, hs[i]) ==> v in AllVisits(st, k, hs)
  {
    AllVisitsStep(st, k, hs, i);
    AllVisitsPrefix(st, k, hs, i + 1);
    var part, all := AllVisits(st, k, hs[..i + 1]), AllVisits(st, k, hs);
    forall v | v in Visits(st, k, hs[i]) ensures v in all {
      assert v in part;
      var j :| 0 <= j < |part| && part[j] == v;
      assert all[j] == v;
    }
  }

  /** Every slot of a list was folded. */
  ghost predicate AllFolded(a: Store, b: Store, vs: seq<Handle>)
    requires Wf(a) && Wf(b)
  {
    forall v :: v in vs ==> SlotFolded(a, b, v)
  }

  lemma PathFolded(a: Store, b: Store, z: Zone, feet: set<nat>, h: Handle)
    requires Within(a, b, z, feet) && Shaped(a) && h.At? && Fits(a, Paths, h)
    requires AllFolded(a, b, Visits(a, Paths, h))
    ensures PathOf(b, h) == FoldPath(PathOf(a, h))
  {
    KindsKept(a, b, z, feet, h);
    SkeletonLists(NodeAt(a, h), NodeAt(b, h));
    FitsParts(a, Paths, h);
    var n := NodeAt(a, h);
    if n.PathChain? {
      NodeFolded(a, b, n.startNode);
      var want := PathOf(a, h).edges;
      forall i | 0 <= i < |n.edges|
        ensures EdgeOf(b, n.edges[i]) == FoldEdge(want[i])
      {
        VisitedMember(a, Edges, n.edges, i);
        assert n.edges[i] in n.edges && Fits(a, Edges, n.edges[i]);
        assert n.edges[i] in Visits(a, Edges, n.edges[i]) && Target(a, n.edges[i]) in Visits(a, Edges, n.edges[i]);
        EdgeFolded(a, b, n.edges[i]);
      }
      assert PathOf(b, h).edges == FoldPath(PathOf(a, h)).edges;
    } else {
      assert h in Visits(a, Paths, h);
      NodeFolded(a, b, h);
      SkeletonKind(NodeAt(a, h), NodeAt(b, h));
    }
  }

  lemma WhereFolded(a: Store, b: Store, o: Option<Handle>)
    requires Wf(a) && Wf(b) && IsWhere(a, o) && AllFolded(a, b, OptSeq(o))
    ensures WhereOf(b, o) == FoldOpt(WhereOf(a, o))
  {
    if o.Some? {
      assert o.value in OptSeq(o);
      SkeletonKind(NodeAt(a, o.value), NodeAt(b, o.value));
      assert Exprs(a, o.value)[0] == TreeOf(a, NodeAt(a, o.value).rootPredicate);
      assert Exprs(b, o.value)[0] == TreeOf(b, NodeAt(b, o.value).rootPredicate);
    }
  }

  lemma MatchFolded(a: Store, b: Store, z: Zone, feet: set<nat>, h: Handle)
    requires Within(a, b, z, feet) && Shaped(a) && NodeAt(a, h).MatchClause?
    requires AllFolded(a, b, Visits(a, Clauses, h))
    ensures MatchOf(b, h) == FoldMatch(MatchOf(a, h))
  {
    KindsKept(a, b, z, feet, h);
    SkeletonLists(NodeAt(a, h), NodeAt(b, h));
    FitsParts(a, Clauses, h);
    var n := NodeAt(a, h);
    assert AllFolded(a, b, OptSeq(n.mwhere)) && AllFolded(a, b, AllVisits(a, Paths, n.paths));
    assert NodeShaped(a, a.nodes[h.index]);
    hide Wf, Shaped, Within, AllFolded, Visits, AllVisits, Fits;
    WhereFolded(a, b, n.mwhere);
    PathsFolded(a, b, z, feet, n.paths);
    assert MatchOf(b, h).paths == FoldMatch(MatchOf(a, h)).paths;
  }

  lemma PathsFolded(a: Store, b: Store, z: Zone, feet: set<nat>, hs: seq<Handle>)
    requires Within(a, b, z, feet) && Shaped(a) && AllFolded(a, b, AllVisits(a, Paths, hs))
    requires forall h :: h in hs ==> h.At? && Fits(a, Paths, h)
    ensures forall i :: 0 <= i < |hs| ==> PathOf(b, hs[i]) == FoldPath(PathOf(a, hs[i]))
  {
    forall i | 0 <= i < |hs| ensures PathOf(b, hs[i]) == FoldPath(PathOf(a, hs[i])) {
      assert hs[i] in hs;
      VisitedMember(a, Paths, hs, i);
      PathFolded(a, b, z, feet, hs[i]);
    }
  }

  /** Two projections that differ in their expressions only. */
  ghost predicate SameFrame(xs: seq<ProjectionItem>, os: seq<(Handle, bool)>,
                            ys: seq<ProjectionItem>, ps: seq<(Handle, bool)>) {
    && |xs| == |ys| && |os| == |ps|
    && (forall i :: 0 <= i < |xs| ==> ys[i].alias == xs[i].alias && ys[i].aggregation == xs[i].aggregation)
    && (forall i :: 0 <= i < |os| ==> ps[i].1 == os[i].1)
  }

  lemma BareFrame(xs: seq<ProjectionItem>, os: seq<(Handle, bool)>, ys: seq<ProjectionItem>, ps: seq<(Handle, bool)>,
                  bx: seq<Handle>, bo: seq<Handle>)
    requires |xs| == |bx| && |os| == |bo| && |ys| == |bx| && |ps| == |bo|
    requires PutItems(xs, bx) == PutItems(ys, bx) && PutKeys(os, bo) == PutKeys(ps, bo)
    ensures SameFrame(xs, os, ys, ps)
  {
    forall i | 0 <= i < |xs| ensures ys[i].alias == xs[i].alias && ys[i].aggregation == xs[i].aggregation {
      assert PutItems(xs, bx)[i] == PutItems(ys, bx)[i];
    }
    forall i | 0 <= i < |os| ensures ps[i].1 == os[i].1 {
      assert PutKeys(os, bo)[i] == PutKeys(ps, bo)[i];
    }
  }

  /** The items and sort keys of a projection come back folded. */
  lemma ProjectionFolded(a: Store, b: Store, xs: seq<ProjectionItem>, os: seq<(Handle, bool)>,
                         ys: seq<ProjectionItem>, ps: seq<(Handle, bool)>, p: Projection)
    requires Wf(a) && Wf(b) && SameFrame(xs, os, ys, ps)
    requires p.items == ItemsOf(a, xs) && p.order == KeysOf(a, os)
    requires TreesOf(b, ItemHandles(ys) + KeyHandles(ps)) == FoldAll(TreesOf(a, ItemHandles(xs) + KeyHandles(os)))
    ensures ItemsOf(b, ys) == FoldProjection(p).items && KeysOf(b, ps) == FoldProjection(p).order
  {
    var ax, bx := ItemHandles(xs) + KeyHandles(os), ItemHandles(ys) + KeyHandles(ps);
    forall i | 0 <= i < |ax|
      ensures TreeOf(b, bx[i]) == Fold(TreeOf(a, ax[i]))
    {
      assert TreesOf(b, bx)[i] == FoldAll(TreesOf(a, ax))[i];
    }
    forall i | 0 <= i < |os|
      ensures KeysOf(b, ps)[i] == FoldProjection(p).order[i]
    {
      assert ax[|xs| + i] == os[i].0 && bx[|xs| + i] == ps[i].0;
    }
    forall i | 0 <= i < |xs|
      ensures ItemsOf(b, ys)[i] == FoldProjection(p).items[i]
    {
      assert ax[i] == xs[i].expression && bx[i] == ys[i].expression;
    }
  }

  lemma WithSkeleton(x: AstNode, y: AstNode)
    requires Skeleton(x) == Skeleton(y) && x.WithClause?
    ensures y.WithClause? && y.wdistinct == x.wdistinct && y.wskip == x.wskip && y.wlimit == x.wlimit
    ensures y.wwhere == x.wwhere && SameFrame(x.wprojections, x.worder, y.wprojections, y.worder)
  {
    SameLength(x, y);
    var nulls := seq(|ExprList(x)|, _ => Null);
    var sx, sy := Skeleton(x), Skeleton(y);
    assert |sx.wprojections| == |x.wprojections| && |sy.wprojections| == |y.wprojections|;
    BareFrame(x.wprojections, x.worder, y.wprojections, y.worder, nulls[..|x.wprojections|], nulls[|x.wprojections|..]);
  }

  lemma ReturnSkeleton(x: AstNode, y: AstNode)
    requires Skeleton(x) == Skeleton(y) && x.ReturnClause?
    ensures y.ReturnClause? && y.rdistinct == x.rdistinct && y.rskip == x.rskip && y.rlimit == x.rlimit
    ensures SameFrame(x.rprojections, x.rorder, y.rprojections, y.rorder)
  {
    SameLength(x, y);
    var nulls := seq(|ExprList(x)|, _ => Null);
    var sx, sy := Skeleton(x), Skeleton(y);
    assert |sx.rprojections| == |x.rprojections| && |sy.rprojections| == |y.rprojections|;
    BareFrame(x.rprojections, x.rorder, y.rprojections, y.rorder, nulls[..|x.rprojections|], nulls[|x.rprojections|..]);
  }

  lemma WithFolded(a: Store, b: Store, h: Handle)
    requires Wf(a) && Wf(b) && NodeAt(a, h).WithClause? && IsWhere(a, NodeAt(a, h).wwhere)
    requires AllFolded(a, b, Visits(a, Clauses, h))
    ensures WithOf(b, h) == FoldProjection(WithOf(a, h))
  {
    var x, y := NodeAt(a, h), NodeAt(b, h);
    WithVisited(a, b, h);
    assert ExprList(x) == ItemHandles(x.wprojections) + KeyHandles(x.worder);
    hide Skeleton, Visits, Fold, FoldAll, TreeOf, AllFolded, Wf;
    WithSkeleton(x, y);
    assert ExprList(y) == ItemHandles(y.wprojections) + KeyHandles(y.worder);
    WhereFolded(a, b, x.wwhere);
    ProjectionFolded(a, b, x.wprojections, x.worder, y.wprojections, y.worder, WithOf(a, h));
  }

  lemma WithVisited(a: Store, b: Store, h: Handle)
    requires Wf(a) && Wf(b) && NodeAt(a, h).WithClause? && AllFolded(a, b, Visits(a, Clauses, h))
    ensures SlotFolded(a, b, h) && AllFolded(a, b, OptSeq(NodeAt(a, h).wwhere))
  {
    var vs, ws := Visits(a, Clauses, h), OptSeq(NodeAt(a, h).wwhere);
    assert vs == [h] + ws;
    assert h in vs && forall v :: v in ws ==> v in vs;
  }

  lemma ResultFolded(a: Store, b: Store, h: Handle)
    requires Wf(a) && Wf(b) && NodeAt(a, h).ReturnClause? && SlotFolded(a, b, h)
    ensures ResultOf(b, Some(h)) == Some(FoldProjection(ResultOf(a, Some(h)).value))
  {
    var x, y := NodeAt(a, h), NodeAt(b, h);
    ReturnSkeleton(x, y);
    ProjectionFolded(a, b, x.rprojections, x.rorder, y.rprojections, y.rorder, ResultOf(a, Some(h)).value);
  }

  lemma SimpleFolded(a: Store, b: Store, h: Handle)
    requires Wf(a) && Wf(b) && SlotFolded(a, b, h)
    ensures NodeAt(a, h).UnwindClause? ==> UnwindOf(b, h) == FoldUnwind(UnwindOf(a, h))
    ensures NodeAt(a, h).LetClause? || NodeAt(a, h).FilterClause? ==> LinearOf(b, h) == FoldLinear(LinearOf(a, h))
  {
    var x, y := NodeAt(a, h), NodeAt(b, h);
    if x.UnwindClause? || x.LetClause? || x.FilterClause? {
      assert Exprs(a, h)[0] == TreeOf(a, ExprList(x)[0]);
      assert Exprs(b, h)[0] == TreeOf(b, ExprList(y)[0]);
    }
  }

  /** One visit leads to each slot of the list, directly or through a subquery. */
  ghost predicate OnceEach(st: Store, vs: seq<Handle>)
    requires Wf(st)
  {
    forall v :: v in vs ==> Known(st, v) && (v.At? ==> SlotsTimes(st, vs, v) == 1)
  }

  lemma PassOnce(a: Store, b: Store, z: Zone, vs: seq<Handle>)
    requires Wf(a) && Pass(a, b, z, vs, true) && OnceEach(a, vs)
    ensures Wf(b) && AllFolded(a, b, vs)
  {
    hide SlotsTimes, Refolded;
    forall v | v in vs ensures SlotFolded(a, b, v) {
      if v.At? { OnceFolded(a, b, z, vs, v); }
    }
  }

  /** Unshared slots outside the zone are reached once. */
  lemma FreshOnce(st: Store, z: Zone, vs: seq<Handle>)
    requires Start(st, z) && Ready(st, vs, z) && Fresh(vs, z)
    ensures OnceEach(st, vs)
  {
    forall v | v in vs && v.At? ensures SlotsTimes(st, vs, v) == 1 {
      var i :| 0 <= i < |vs| && vs[i] == v;
      FreshTimes(st, z, vs, v);
    }
  }

  /** What `fold_subquery` makes of a subquery whose slots are reached once each: the folded query. */
  lemma SubqueryFolded(a: Store, b: Store, z: Zone, q: Handle)
    requires Start(a, z) && q.At? && Known(a, q) && Pass(a, b, z, SubVisits(a, q), true) && OnceEach(a, SubVisits(a, q))
    ensures Wf(b) && (NodeAt(a, q).QueryStatement? ==> StatementOf(b, q) == FoldStatement(StatementOf(a, q)))
    ensures NodeAt(a, q).MatchClause? ==> MatchOf(b, q) == FoldMatch(MatchOf(a, q))
    ensures NodeAt(a, q).PathChain? || NodeAt(a, q).NodePattern? ==> PathOf(b, q) == FoldPath(PathOf(a, q))
  {
    var n := NodeAt(a, q);
    PassOnce(a, b, z, SubVisits(a, q));
    if n.QueryStatement? {
      StatementFolded(a, b, z, q);
    } else if n.MatchClause? {
      MatchFolded(a, b, z, Feet(SubVisits(a, q)), q);
    } else if n.PathChain? || n.NodePattern? {
      PathFolded(a, b, z, Feet(SubVisits(a, q)), q);
    }
  }

  /**
   After an undisturbed pass, the root denotes the folded statement: in-place updates of
   clause and pattern nodes amount to folding every expression of the tree.
   */
  lemma StatementFolded(a: Store, b: Store, z: Zone, root: Handle)
    requires Wf(a) && Shaped(a) && NodeAt(a, root).QueryStatement?
    requires Pass(a, b, z, StatementVisits(a, root), true) && OnceEach(a, StatementVisits(a, root))
    ensures Wf(b) && NodeAt(b, root) == NodeAt(a, root)
    ensures StatementOf(b, root) == FoldStatement(StatementOf(a, root))
  {
    hide Wf, Shaped, Pass, StatementVisits, AllVisits, OnceEach, AllFolded, UnwindOf, LinearOf, WithOf, MatchOf,
      FoldMatch, FoldUnwind, FoldLinear, FoldProjection;
    var vs := StatementVisits(a, root);
    var n := NodeAt(a, root);
    RootFolded(a, b, z, root);
    UnwindsFolded(a, b, n.unwinds);
    MatchesFolded(a, b, z, Feet(vs), n.matches);
    LinearFolded(a, b, n.linear);
    WithsFolded(a, b, n.withs);
    if n.resultClause.Some? { ResultFolded(a, b, n.resultClause.value); }
    assert StatementOf(b, root) == FoldStatement(StatementOf(a, root));
  }

  /** The statement node itself stays, and every list it names has been folded. */
  lemma RootFolded(a: Store, b: Store, z: Zone, root: Handle)
    requires Wf(a) && Shaped(a) && NodeAt(a, root).QueryStatement?
    requires Pass(a, b, z, StatementVisits(a, root), true) && OnceEach(a, StatementVisits(a, root))
    ensures Wf(b) && NodeAt(b, root) == NodeAt(a, root) && Within(a, b, z, Feet(StatementVisits(a, root)))
    ensures var n := NodeAt(a, root);
      && AllFolded(a, b, AllVisits(a, Clauses, n.unwinds)) && AllFolded(a, b, AllVisits(a, Clauses, n.matches))
      && AllFolded(a, b, AllVisits(a, Clauses, n.linear)) && AllFolded(a, b, AllVisits(a, Clauses, n.withs))
      && (n.resultClause.Some? ==> SlotFolded(a, b, n.resultClause.value))
      && NodeShaped(a, n)
  {
    hide SlotFolded, AllVisits, Visited, OnceEach, Refolds;
    var vs := StatementVisits(a, root);
    var n := NodeAt(a, root);
    PassOnce(a, b, z, vs);
    KindsKept(a, b, z, Feet(vs), root);
    SkeletonLists(n, NodeAt(b, root));
    assert NodeShaped(a, a.nodes[root.index]);
    assert n.resultClause.Some? ==> n.resultClause.value in OptSeq(n.resultClause);
  }

  lemma UnwindsFolded(a: Store, b: Store, hs: seq<Handle>)
    requires Wf(a) && Wf(b) && AllFolded(a, b, AllVisits(a, Clauses, hs))
    requires forall h :: h in hs ==> NodeAt(a, h).UnwindClause?
    ensures forall i :: 0 <= i < |hs| ==> UnwindOf(b, hs[i]) == FoldUnwind(UnwindOf(a, hs[i]))
  {
    forall i | 0 <= i < |hs| ensures UnwindOf(b, hs[i]) == FoldUnwind(UnwindOf(a, hs[i])) {
      VisitedMember(a, Clauses, hs, i);
      assert hs[i] in hs && hs[i] in Visits(a, Clauses, hs[i]);
      SimpleFolded(a, b, hs[i]);
    }
  }

  lemma LinearFolded(a: Store, b: Store, hs: seq<Handle>)
    requires Wf(a) && Wf(b) && AllFolded(a, b, AllVisits(a, Clauses, hs))
    requires forall h :: h in hs ==> NodeAt(a, h).LetClause? || NodeAt(a, h).FilterClause?
    ensures forall i :: 0 <= i < |hs| ==> LinearOf(b, hs[i]) == FoldLinear(LinearOf(a, hs[i]))
  {
    forall i | 0 <= i < |hs| ensures LinearOf(b, hs[i]) == FoldLinear(LinearOf(a, hs[i])) {
      VisitedMember(a, Clauses, hs, i);
      assert hs[i] in hs && hs[i] in Visits(a, Clauses, hs[i]);
      SimpleFolded(a, b, hs[i]);
    }
  }

  lemma MatchesFolded(a: Store, b: Store, z: Zone, feet: set<nat>, hs: seq<Handle>)
    requires Within(a, b, z, feet) && Shaped(a) && AllFolded(a, b, AllVisits(a, Clauses, hs))
    requires forall h :: h in hs ==> NodeAt(a, h).MatchClause?
    ensures forall i :: 0 <= i < |hs| ==> MatchOf(b, hs[i]) == FoldMatch(MatchOf(a, hs[i]))
  {
    forall i | 0 <= i < |hs| ensures MatchOf(b, hs[i]) == FoldMatch(MatchOf(a, hs[i])) {
      VisitedMember(a, Clauses, hs, i);
      assert hs[i] in hs;
      MatchFolded(a, b, z, feet, hs[i]);
    }
  }

  lemma WithsFolded(a: Store, b: Store, hs: seq<Handle>)
    requires Wf(a) && Wf(b) && Shaped(a) && AllFolded(a, b, AllVisits(a, Clauses, hs))
    requires forall h :: h in hs ==> NodeAt(a, h).WithClause?
    ensures forall i :: 0 <= i < |hs| ==> WithOf(b, hs[i]) == FoldProjection(WithOf(a, hs[i]))
  {
    forall i | 0 <= i < |hs| ensures WithOf(b, hs[i]) == FoldProjection(WithOf(a, hs[i])) {
      VisitedMember(a, Clauses, hs, i);
      assert hs[i] in hs && NodeShaped(a, a.nodes[hs[i].index]);
      WithFolded(a, b, hs[i]);
    }
  }
}
