/** Dead-variable pruning seen from the result of a whole statement. */
module PrunedStatement {
  import opened Common
  import opened Ast
  import opened Trees
  import opened Semantics
  import opened Clauses
  import opened Matching
  import opened Running
  import opened Pushdown
  import opened Pruning

  // ---------- What the pass drops ----------

  function EdgeTargets(es: seq<EdgePat>): set<string> {
    if es == [] then {} else OptVar(es[0].target.variable) + EdgeTargets(es[1..])
  }

  function EdgeNames(es: seq<EdgePat>): set<string> {
    if es == [] then {} else OptVar(es[0].variable) + EdgeNames(es[1..])
  }

  /** The node and path aliases of a pattern: those the pass may drop. */
  function NodeAliases(p: PathPat): set<string> {
    match p
    case Single(n) => OptVar(n.variable)
    case Chain(v, _, s, es) => OptVar(v) + OptVar(s.variable) + EdgeTargets(es)
  }

  function EdgeAliases(p: PathPat): set<string> {
    match p
    case Single(_) => {}
    case Chain(_, _, _, es) => EdgeNames(es)
  }

  function Dropped(q: Statement, used: set<string>): set<string> {
    set c, p, x | c in q.matches && p in c.paths && x in NodeAliases(p) && Internal(x) && x !in used :: x
  }

  /** Every dropped alias names one pattern position. */
  ghost predicate BoundOnce(q: Statement, used: set<string>) {
    && Once(Binders(MatchesSteps(q.matches)), Dropped(q, used))
    && forall c, p :: c in q.matches && p in c.paths ==> EdgeAliases(p) !! Dropped(q, used)
  }

  /** `prune_dead_variables`, against any set that covers the variables the statement reads. */
  function PruneWith(q: Statement, used: set<string>): Statement {
    q.(matches := PruneMatches(q.matches, used))
  }

  /** No subquery and no pattern comprehension over the bindings of the clauses sees a variable in `d`. */
  ghost predicate BlindStatement(q: Statement, d: set<string>, w: World) {
    forall e :: e in SeenExprs(q) ==> BlindTo(e, d, w)
  }

  ghost predicate UnseenEdges(es: seq<EdgePat>, d: set<string>, w: World) {
    forall e :: e in es ==> UnseenIn(EdgeExprs(e), d, w)
  }

  // ---------- Pruning clauses prunes their steps ----------

  ghost predicate Selects(names: set<string>, used: set<string>, dropped: set<string>) {
    && dropped !! used
    && forall x :: x in names ==> (x in dropped <==> Internal(x) && x !in used)
  }

  /** `after` is the pruned form of `before`, and binds every variable in `vars`. */
  ghost predicate Pruned(before: seq<Step>, after: seq<Step>, dropped: set<string>, vars: set<string>, w: World) {
    && Ignores(before, dropped, w) && after == PruneSteps(before, dropped)
    && forall x :: x in vars ==> x in Binders(before)
  }

  lemma {:induction false} PruneConcat(a: seq<Step>, b: seq<Step>, dropped: set<string>)
    ensures PruneSteps(a + b, dropped) == PruneSteps(a, dropped) + PruneSteps(b, dropped)
    ensures Binders(a + b) == Binders(a) + Binders(b)
    decreases |a|
  {
    hide Binders, PruneStep;
    BindersConcat(a, b);
    if a == [] {
      assert a + b == b;
    } else {
      assert (a + b)[1..] == a[1..] + b;
      PruneConcat(a[1..], b, dropped);
      StepsAssoc(PruneStep(a[0], dropped), PruneSteps(a[1..], dropped), PruneSteps(b, dropped));
    }
  }

  lemma {:induction false} BindersConcat(a: seq<Step>, b: seq<Step>)
    ensures Binders(a + b) == Binders(a) + Binders(b)
    decreases |a|
  {
    if a == [] {
      assert a + b == b;
    } else {
      assert (a + b)[1..] == a[1..] + b;
      BindersConcat(a[1..], b);
    }
  }

  lemma PrunedConcat(a: seq<Step>, b: seq<Step>, c: seq<Step>, d: seq<Step>, dropped: set<string>,
                     v: set<string>, u: set<string>, w: World)
    requires Pruned(a, c, dropped, v, w) && Pruned(b, d, dropped, u, w)
    ensures Pruned(a + b, c + d, dropped, v + u, w)
  {
    PruneConcat(a, b, dropped);
  }

  lemma PrunedOne(st: Step, dropped: set<string>, w: World)
    requires StepIgnores(st, dropped, w)
    ensures Pruned([st], PruneStep(st, dropped), dropped, {}, w)
    ensures st.SHere? || st.SEdge? || st.SPath? ==> Pruned([st], PruneStep(st, dropped), dropped, {st.x}, w)
  {
    assert [st][1..] == [];
    assert PruneSteps([st], dropped) == PruneStep(st, dropped) + [];
    assert Binders([st]) == StepBinders(st) + Binders([]);
  }

  lemma {:induction false} PredsPruned(es: seq<Expr>, dropped: set<string>, w: World)
    requires UnseenAll(es, dropped, w)
    ensures Pruned(Preds(es), Preds(es), dropped, {}, w)
    decreases |es|
  {
    if es != [] {
      PredsPruned(es[1..], dropped, w);
      PrunedOne(SPred(es[0]), dropped, w);
      assert Preds(es) == [SPred(es[0])] + Preds(es[1..]);
      PrunedConcat([SPred(es[0])], Preds(es[1..]), [SPred(es[0])], Preds(es[1..]), dropped, {}, {}, w);
    }
  }

  /** A node or path alias with its step. */
  lemma AliasPruned(o: Option<string>, path: bool, used: set<string>, dropped: set<string>, w: World)
    requires Selects(OptVar(o), used, dropped)
    ensures var f := (x: Option<string>) =>
        if x.None? then [] else if path then [SPath(x.value)] else [SHere(x.value)];
      Pruned(f(o), f(Drop(o, used)), dropped, OptVar(o), w)
    ensures OptVar(Drop(o, used)) == OptVar(o) - dropped
  {
    if o.Some? {
      PrunedOne(if path then SPath(o.value) else SHere(o.value), dropped, w);
    }
  }

  lemma NodePruned(n: NodePat, used: set<string>, dropped: set<string>, w: World)
    requires UnseenAll(n.preds, dropped, w) && Selects(OptVar(n.variable), used, dropped)
    ensures Pruned(NodeSteps(n), NodeSteps(PruneNode(n, used)), dropped, OptVar(n.variable), w)
    ensures OptVar(Drop(n.variable, used)) == OptVar(n.variable) - dropped
  {
    AliasPruned(n.variable, false, used, dropped, w);
    PredsPruned(n.preds, dropped, w);
    var m := PruneNode(n, used);
    var v := if n.variable.Some? then [SHere(n.variable.value)] else [];
    var u := if m.variable.Some? then [SHere(m.variable.value)] else [];
    var l := if n.labels.Some? then [SLabel(n.labels.value)] else [];
    if n.labels.Some? { PrunedOne(SLabel(n.labels.value), dropped, w); }
    assert Pruned(l, l, dropped, {}, w);
    hide PruneSteps, Ignores, Binders;
    PrunedConcat(v, l, u, l, dropped, OptVar(n.variable), {}, w);
    PrunedConcat(v + l, Preds(n.preds), u + l, Preds(n.preds), dropped, OptVar(n.variable) + {}, {}, w);
    assert OptVar(n.variable) + {} + {} == OptVar(n.variable);
  }

  lemma EdgePruned(e: EdgePat, used: set<string>, dropped: set<string>, w: World)
    requires UnseenAll(e.preds, dropped, w) && OptVar(e.variable) !! dropped
    requires UnseenAll(e.target.preds, dropped, w)
    requires Selects(OptVar(e.target.variable), used, dropped)
    ensures Pruned(EdgeSteps(e), EdgeSteps(e.(target := PruneNode(e.target, used))), dropped,
                   OptVar(e.variable) + OptVar(e.target.variable), w)
  {
    hide Pruned, NodeSteps, PruneNode, Preds, OptVar, Selects, UnseenAll;
    NodePruned(e.target, used, dropped, w);
    PredsPruned(e.preds, dropped, w);
    HopPruned(e, dropped, w);
    var hop, v := [SHop(e.spec)], if e.variable.Some? then [SEdge(e.variable.value)] else [];
    var after := NodeSteps(PruneNode(e.target, used));
    PrunedConcat(hop, v, hop, v, dropped, {}, OptVar(e.variable), w);
    PrunedConcat(hop + v, Preds(e.preds), hop + v, Preds(e.preds), dropped, {} + OptVar(e.variable), {}, w);
    PrunedConcat(hop + v + Preds(e.preds), NodeSteps(e.target), hop + v + Preds(e.preds), after, dropped,
                 {} + OptVar(e.variable) + {}, OptVar(e.target.variable), w);
    assert {} + OptVar(e.variable) + {} + OptVar(e.target.variable) == OptVar(e.variable) + OptVar(e.target.variable);
  }

  lemma HopPruned(e: EdgePat, dropped: set<string>, w: World)
    requires OptVar(e.variable) !! dropped
    ensures Pruned([SHop(e.spec)], [SHop(e.spec)], dropped, {}, w)
    ensures var v := if e.variable.Some? then [SEdge(e.variable.value)] else [];
      Pruned(v, v, dropped, OptVar(e.variable), w)
  {
    PrunedOne(SHop(e.spec), dropped, w);
    if e.variable.Some? { PrunedOne(SEdge(e.variable.value), dropped, w); }
  }

  lemma EdgeUnseen(es: seq<EdgePat>, dropped: set<string>, w: World)
    requires es != [] && UnseenEdges(es, dropped, w)
    ensures UnseenAll(es[0].preds, dropped, w) && UnseenAll(es[0].target.preds, dropped, w)
      && UnseenEdges(es[1..], dropped, w)
  {
    hide Unseen;
    assert es[0] in es && UnseenIn(EdgeExprs(es[0]), dropped, w);
    assert forall k :: 0 <= k < |es[0].preds| ==> es[0].preds[k] in EdgeExprs(es[0]);
    assert forall k :: 0 <= k < |es[0].target.preds| ==> es[0].target.preds[k] in EdgeExprs(es[0]);
  }

  lemma {:induction false} EdgesPruned(es: seq<EdgePat>, fs: seq<EdgePat>, used: set<string>, dropped: set<string>,
                                       w: World)
    requires UnseenEdges(es, dropped, w) && EdgeNames(es) !! dropped
    requires Selects(EdgeTargets(es), used, dropped)
    requires |es| == |fs| && forall k :: 0 <= k < |es| ==> fs[k] == es[k].(target := PruneNode(es[k].target, used))
    ensures Pruned(EdgesSteps(es), EdgesSteps(fs), dropped, EdgesVars(es), w)
    ensures EdgesVars(fs) == EdgesVars(es) - dropped
    decreases |es|
  {
    if es != [] {
      EdgeUnseen(es, dropped, w);
      EdgePruned(es[0], used, dropped, w);
      AliasPruned(es[0].target.variable, false, used, dropped, w);
      EdgesPruned(es[1..], fs[1..], used, dropped, w);
      hide PruneSteps, Ignores, Binders, EdgeSteps;
      PrunedConcat(EdgeSteps(es[0]), EdgesSteps(es[1..]), EdgeSteps(fs[0]), EdgesSteps(fs[1..]), dropped,
                   OptVar(es[0].variable) + OptVar(es[0].target.variable), EdgesVars(es[1..]), w);
    }
  }

  ghost predicate PathReady(p: PathPat, used: set<string>, dropped: set<string>, w: World) {
    && UnseenIn(PathExprs(p), dropped, w) && EdgeAliases(p) !! dropped
    && Selects(NodeAliases(p), used, dropped)
  }

  lemma PathPruned(p: PathPat, used: set<string>, dropped: set<string>, w: World)
    requires PathReady(p, used, dropped, w)
    ensures Pruned(PathSteps(p), PathSteps(PrunePath(p, used)), dropped, PathVars(p), w)
    ensures PathVars(PrunePath(p, used)) == PathVars(p) - dropped
  {
    PrunedOne(SEnter, dropped, w);
    PrunedOne(SLeave, dropped, w);
    match p
    case Single(n) =>
      NodePruned(n, used, dropped, w);
      var after := NodeSteps(PruneNode(n, used));
      hide PruneSteps, Ignores, Binders, NodeSteps;
      PrunedConcat([SEnter], NodeSteps(n), [SEnter], after, dropped, {}, OptVar(n.variable), w);
      PrunedConcat([SEnter] + NodeSteps(n), [SLeave], [SEnter] + after, [SLeave], dropped,
                   {} + OptVar(n.variable), {}, w);
      assert {} + OptVar(n.variable) + {} == PathVars(p);
    case Chain(v, m, s, es) => ChainPruned(v, m, s, es, used, dropped, w);
  }

  lemma ChainPruned(v: Option<string>, m: PathMode, s: NodePat, es: seq<EdgePat>, used: set<string>,
                    dropped: set<string>, w: World)
    requires PathReady(Chain(v, m, s, es), used, dropped, w)
    ensures var p := Chain(v, m, s, es);
      && Pruned(PathSteps(p), PathSteps(PrunePath(p, used)), dropped, PathVars(p), w)
      && PathVars(PrunePath(p, used)) == PathVars(p) - dropped
  {
    var p := Chain(v, m, s, es);
    var q := PrunePath(p, used);
    ChainReady(v, m, s, es, used, dropped, w);
    hide Pruned, NodeSteps, EdgesSteps, PathReady, EdgesVars, Selects, PathSteps, UnseenEdges, EdgeNames, EdgeTargets,
      ChainEnd;
    HeadPruned(s, es, q.edges, used, dropped, w);
    TailPruned(v, m, used, dropped, w);
    DropMinus(v, used, dropped);
    DropMinus(s.variable, used, dropped);
    MinusJoined(OptVar(v), OptVar(s.variable), EdgesVars(es), dropped);
    assert PathVars(q) == (OptVar(v) - dropped) + (OptVar(s.variable) - dropped) + (EdgesVars(es) - dropped);
    hide PrunePath;
    ChainJoined(p, q, dropped, w);
  }

  lemma ChainReady(v: Option<string>, m: PathMode, s: NodePat, es: seq<EdgePat>, used: set<string>,
                   dropped: set<string>, w: World)
    requires PathReady(Chain(v, m, s, es), used, dropped, w)
    ensures UnseenAll(s.preds, dropped, w) && Selects(OptVar(s.variable), used, dropped)
    ensures UnseenEdges(es, dropped, w) && EdgeNames(es) !! dropped
    ensures Selects(EdgeTargets(es), used, dropped) && Selects(OptVar(v), used, dropped)
  {
  }

  lemma DropMinus(o: Option<string>, used: set<string>, dropped: set<string>)
    requires Selects(OptVar(o), used, dropped)
    ensures OptVar(Drop(o, used)) == OptVar(o) - dropped
  {
  }

  lemma MinusJoined(a: set<string>, b: set<string>, c: set<string>, dropped: set<string>)
    ensures (a - dropped) + (b - dropped) + (c - dropped) == a + b + c - dropped
  {
  }

  lemma ChainJoined(p: PathPat, q: PathPat, dropped: set<string>, w: World)
    requires p.Chain? && q.Chain? && q.mode == p.mode
    requires Pruned([SEnter] + NodeSteps(p.start) + EdgesSteps(p.edges),
                    [SEnter] + NodeSteps(q.start) + EdgesSteps(q.edges),
                    dropped, OptVar(p.start.variable) + EdgesVars(p.edges), w)
    requires Pruned(ChainEnd(p.mode, p.pathVar), ChainEnd(q.mode, q.pathVar), dropped, OptVar(p.pathVar), w)
    ensures Pruned(PathSteps(p), PathSteps(q), dropped, PathVars(p), w)
  {
    var a, b := [SEnter] + NodeSteps(p.start) + EdgesSteps(p.edges), ChainEnd(p.mode, p.pathVar);
    var c, d := [SEnter] + NodeSteps(q.start) + EdgesSteps(q.edges), ChainEnd(q.mode, q.pathVar);
    var u, v := OptVar(p.start.variable) + EdgesVars(p.edges), OptVar(p.pathVar);
    assert PathSteps(p) == a + b && PathSteps(q) == c + d;
    assert u + v == PathVars(p);
    hide Pruned, NodeSteps, EdgesSteps, ChainEnd, PathSteps, PathVars;
    PrunedConcat(a, b, c, d, dropped, u, v, w);
  }

  lemma TailPruned(v: Option<string>, m: PathMode, used: set<string>, dropped: set<string>, w: World)
    requires Selects(OptVar(v), used, dropped)
    ensures Pruned(ChainEnd(m, v), ChainEnd(m, Drop(v, used)), dropped, OptVar(v), w)
  {
    PrunedOne(SLeave, dropped, w);
    PrunedOne(SMode(m), dropped, w);
    AliasPruned(v, true, used, dropped, w);
    var e := if v.Some? then [SPath(v.value)] else [];
    var f := if Drop(v, used).Some? then [SPath(Drop(v, used).value)] else [];
    assert Pruned(e, f, dropped, OptVar(v), w);
    hide Pruned;
    PrunedConcat([SMode(m)], e, [SMode(m)], f, dropped, {}, OptVar(v), w);
    PrunedConcat([SMode(m)] + e, [SLeave], [SMode(m)] + f, [SLeave], dropped, {} + OptVar(v), {}, w);
    assert {} + OptVar(v) + {} == OptVar(v);
  }

  lemma HeadPruned(s: NodePat, es: seq<EdgePat>, fs: seq<EdgePat>, used: set<string>, dropped: set<string>, w: World)
    requires UnseenAll(s.preds, dropped, w) && Selects(OptVar(s.variable), used, dropped)
    requires UnseenEdges(es, dropped, w) && EdgeNames(es) !! dropped
    requires Selects(EdgeTargets(es), used, dropped)
    requires |es| == |fs| && forall k :: 0 <= k < |es| ==> fs[k] == es[k].(target := PruneNode(es[k].target, used))
    ensures Pruned([SEnter] + NodeSteps(s) + EdgesSteps(es), [SEnter] + NodeSteps(PruneNode(s, used)) + EdgesSteps(fs),
                   dropped, OptVar(s.variable) + EdgesVars(es), w)
    ensures EdgesVars(fs) == EdgesVars(es) - dropped
  {
    PrunedOne(SEnter, dropped, w);
    NodePruned(s, used, dropped, w);
    EdgesPruned(es, fs, used, dropped, w);
    var a, b := NodeSteps(s), NodeSteps(PruneNode(s, used));
    hide Pruned, NodeSteps, EdgesSteps;
    PrunedConcat([SEnter], a, [SEnter], b, dropped, {}, OptVar(s.variable), w);
    PrunedConcat([SEnter] + a, EdgesSteps(es), [SEnter] + b, EdgesSteps(fs), dropped, {} + OptVar(s.variable),
                 EdgesVars(es), w);
    assert {} + OptVar(s.variable) + EdgesVars(es) == OptVar(s.variable) + EdgesVars(es);
  }

  lemma {:induction false} PathsPruned(ps: seq<PathPat>, fs: seq<PathPat>, used: set<string>, dropped: set<string>,
                                       w: World)
    requires forall k :: 0 <= k < |ps| ==> PathReady(ps[k], used, dropped, w)
    requires |ps| == |fs| && forall k :: 0 <= k < |ps| ==> fs[k] == PrunePath(ps[k], used)
    ensures Pruned(PathsSteps(ps), PathsSteps(fs), dropped, PathsVars(ps), w)
    ensures PathsVars(fs) == PathsVars(ps) - dropped
    decreases |ps|
  {
    if ps != [] {
      PathPruned(ps[0], used, dropped, w);
      PathsPruned(ps[1..], fs[1..], used, dropped, w);
      hide PruneSteps, Ignores, Binders, PathSteps;
      PrunedConcat(PathSteps(ps[0]), PathsSteps(ps[1..]), PathSteps(fs[0]), PathsSteps(fs[1..]), dropped,
                   PathVars(ps[0]), PathsVars(ps[1..]), w);
    }
  }

  ghost predicate MatchReady(c: MatchCl, used: set<string>, dropped: set<string>, w: World) {
    && UnseenIn(OptExprs(c.filter), dropped, w)
    && forall k :: 0 <= k < |c.paths| ==> PathReady(c.paths[k], used, dropped, w)
  }

  lemma MatchPruned(c: MatchCl, used: set<string>, dropped: set<string>, w: World)
    requires MatchReady(c, used, dropped, w)
    ensures Pruned(MatchSteps(c), MatchSteps(PruneMatch(c, used)), dropped, {}, w)
  {
    var d := PruneMatch(c, used);
    PathsPruned(c.paths, d.paths, used, dropped, w);
    var f := FilterList(c.filter);
    PredsPruned(f, dropped, w);
    var before, after := PathsSteps(c.paths) + Preds(f), PathsSteps(d.paths) + Preds(f);
    PrunedConcat(PathsSteps(c.paths), Preds(f), PathsSteps(d.paths), Preds(f), dropped, PathsVars(c.paths), {}, w);
    if c.optional {
      assert StepIgnores(SOptional(before, PathsVars(c.paths)), dropped, w);
      PrunedOne(SOptional(before, PathsVars(c.paths)), dropped, w);
    }
  }

  lemma {:induction false} MatchesPruned(cs: seq<MatchCl>, ds: seq<MatchCl>, used: set<string>, dropped: set<string>,
                                         w: World)
    requires forall k :: 0 <= k < |cs| ==> MatchReady(cs[k], used, dropped, w)
    requires |cs| == |ds| && forall k :: 0 <= k < |cs| ==> ds[k] == PruneMatch(cs[k], used)
    ensures Pruned(MatchesSteps(cs), MatchesSteps(ds), dropped, {}, w)
    decreases |cs|
  {
    if cs != [] {
      MatchPruned(cs[0], used, dropped, w);
      MatchesPruned(cs[1..], ds[1..], used, dropped, w);
      hide PruneSteps, Ignores, Binders, MatchSteps;
      PrunedConcat(MatchSteps(cs[0]), MatchesSteps(cs[1..]), MatchSteps(ds[0]), MatchesSteps(ds[1..]), dropped,
                   {}, {}, w);
    }
  }

  // ---------- The used variables cover every expression ----------

  lemma {:induction false} PathsUsed(ps: seq<PathPat>, k: nat)
    requires k < |ps|
    ensures PathExprVars(ps[k]) <= PathsExprVars(ps)
  {
    if k > 0 { PathsUsed(ps[1..], k - 1); }
  }

  lemma {:induction false} MatchesUsed(cs: seq<MatchCl>, k: nat)
    requires k < |cs|
    ensures OptVars(cs[k].filter) + PathsExprVars(cs[k].paths) <= MatchesExprVars(cs)
  {
    if k > 0 { MatchesUsed(cs[1..], k - 1); }
  }

  lemma {:induction false} UnwindsUsed(us: seq<Unwind>, k: nat)
    requires k < |us|
    ensures ExprVars(us[k].list) + {us[k].alias} <= UnwindsVars(us)
  {
    if k > 0 { UnwindsUsed(us[1..], k - 1); }
  }

  lemma {:induction false} LinearUsed(ls: seq<Linear>, k: nat)
    requires k < |ls|
    ensures (match ls[k] case Let(x, e) => {x} + ExprVars(e) case Keep(e) => ExprVars(e)) <= LinearVars(ls)
  {
    if k > 0 { LinearUsed(ls[1..], k - 1); }
  }

  lemma {:induction false} ItemsUsed(xs: seq<Item>, k: nat)
    requires k < |xs|
    ensures ExprVars(xs[k].value) <= ItemsVars(xs)
  {
    if k > 0 { ItemsUsed(xs[1..], k - 1); }
  }

  lemma {:induction false} KeysUsed(os: seq<SortKey>, k: nat)
    requires k < |os|
    ensures ExprVars(os[k].value) <= KeysVars(os)
  {
    if k > 0 { KeysUsed(os[1..], k - 1); }
  }

  lemma {:induction false} ProjectionsUsed(ps: seq<Projection>, k: nat)
    requires k < |ps|
    ensures ProjectionVars(ps[k]) <= ProjectionsVars(ps)
  {
    if k > 0 { ProjectionsUsed(ps[1..], k - 1); }
  }

  lemma {:induction false} ExprsUsed(es: seq<Expr>, k: nat)
    requires k < |es|
    ensures ExprVars(es[k]) <= ExprsVars(es)
  {
    if k > 0 { ExprsUsed(es[1..], k - 1); }
  }

  lemma {:induction false} EdgesUsed(es: seq<EdgePat>, k: nat)
    requires k < |es|
    ensures ExprsVars(es[k].preds) + ExprsVars(es[k].target.preds) <= EdgesExprVars(es)
  {
    if k > 0 { EdgesUsed(es[1..], k - 1); }
  }

  lemma MemberUsed(es: seq<Expr>, e: Expr)
    requires e in es
    ensures ExprVars(e) <= ExprsVars(es)
  {
    var k :| 0 <= k < |es| && es[k] == e;
    ExprsUsed(es, k);
  }

  lemma PathUsed(p: PathPat, e: Expr)
    requires e in PathExprs(p)
    ensures ExprVars(e) <= PathExprVars(p)
  {
    match p
    case Single(n) => MemberUsed(n.preds, e);
    case Chain(_, _, s, es) =>
      if e in s.preds {
        MemberUsed(s.preds, e);
      } else {
        var k :| 0 <= k < |es| && e in EdgeExprs(es[k]);
        EdgesUsed(es, k);
        if e in es[k].preds { MemberUsed(es[k].preds, e); } else { MemberUsed(es[k].target.preds, e); }
      }
  }

  lemma MatchUsed(c: MatchCl, e: Expr)
    requires e in MatchExprs(c)
    ensures ExprVars(e) <= OptVars(c.filter) + PathsExprVars(c.paths)
  {
    if e !in OptExprs(c.filter) {
      var k :| 0 <= k < |c.paths| && e in PathExprs(c.paths[k]);
      PathUsed(c.paths[k], e);
      PathsUsed(c.paths, k);
    }
  }

  lemma HeadUsed(p: Projection, e: Expr)
    requires e in HeadExprs(p)
    ensures ExprVars(e) <= ProjectionVars(p)
  {
    if i :| 0 <= i < |p.items| && p.items[i].value == e {
      ItemsUsed(p.items, i);
    } else {
      var k :| 0 <= k < |p.order| && p.order[k].value == e;
      KeysUsed(p.order, k);
    }
  }

  /** The collectors cover every expression that sees the bindings of the clauses. */
  lemma SeenUsed(q: Statement, e: Expr)
    requires e in SeenExprs(q)
    ensures ExprVars(e) <= UsedVars(q)
  {
    hide MatchExprs, HeadExprs, MatchesExprVars, UnwindsVars, LinearVars, ProjectionsVars, ProjectionVars;
    if k :| 0 <= k < |q.unwinds| && q.unwinds[k].list == e {
      UnwindsUsed(q.unwinds, k);
    } else if k :| 0 <= k < |q.matches| && e in MatchExprs(q.matches[k]) {
      MatchUsed(q.matches[k], e);
      MatchesUsed(q.matches, k);
    } else if k :| 0 <= k < |q.linear| && LinearExpr(q.linear[k]) == e {
      LinearUsed(q.linear, k);
    } else {
      HeadUsed(Outlet(q).value, e);
      if q.withs != [] { ProjectionsUsed(q.withs, 0); }
    }
  }

  /** UNWIND and LET bind no variable in `d`. */
  ghost predicate NamesApart(q: Statement, d: set<string>) {
    && (forall k :: 0 <= k < |q.unwinds| ==> q.unwinds[k].alias !in d)
    && (forall k :: 0 <= k < |q.linear| && q.linear[k].Let? ==> q.linear[k].variable !in d)
  }

  /** Pruning against `used` drops exactly `dropped`, which nothing sees. */
  ghost predicate StatementReady(q: Statement, used: set<string>, dropped: set<string>, w: World) {
    && UnseenIn(SeenExprs(q), dropped, w) && NamesApart(q, dropped)
    && forall c, p :: c in q.matches && p in c.paths ==>
      EdgeAliases(p) !! dropped && Selects(NodeAliases(p), used, dropped)
  }

  lemma MatchesReady(q: Statement, used: set<string>, dropped: set<string>, w: World, k: nat)
    requires StatementReady(q, used, dropped, w) && k < |q.matches|
    ensures MatchReady(q.matches[k], used, dropped, w)
  {
    hide Unseen, NodeAliases, EdgeAliases, PathExprs, OptExprs, Selects, HeadExprs;
    var c := q.matches[k];
    assert c in q.matches && forall e :: e in MatchExprs(c) ==> e in SeenExprs(q);
    forall i | 0 <= i < |c.paths| ensures PathReady(c.paths[i], used, dropped, w) {
      assert c.paths[i] in c.paths;
      assert forall e :: e in PathExprs(c.paths[i]) ==> e in MatchExprs(c);
    }
  }

  /** Steps that bind nothing by matching and mention no dropped variable are left alone. */
  lemma {:induction false} StepsKept(steps: seq<Step>, dropped: set<string>, w: World)
    requires Ignores(steps, dropped, w)
    requires forall k :: 0 <= k < |steps| ==> steps[k].SUnwind? || steps[k].SLet? || steps[k].SPred?
    ensures PruneSteps(steps, dropped) == steps && Binders(steps) == []
    decreases |steps|
  {
    if steps != [] { StepsKept(steps[1..], dropped, w); }
  }

  lemma StatementPruned(q: Statement, used: set<string>, dropped: set<string>, w: World)
    requires StatementReady(q, used, dropped, w)
    ensures Pruned(StatementSteps(q), StatementSteps(PruneWith(q, used)), dropped, {}, w)
    ensures Binders(StatementSteps(q)) == Binders(MatchesSteps(q.matches))
  {
    MiddlePruned(q, used, dropped, w);
    SidesPruned(q, used, dropped, w);
    hide Pruned, StatementReady;
    ThreeParts(UnwindSteps(q.unwinds), MatchesSteps(q.matches), MatchesSteps(PruneWith(q, used).matches),
               LinearSteps(q.linear), dropped, w);
  }

  lemma ThreeParts(u: seq<Step>, m: seq<Step>, n: seq<Step>, l: seq<Step>, dropped: set<string>, w: World)
    requires Pruned(u, u, dropped, {}, w) && Pruned(m, n, dropped, {}, w) && Pruned(l, l, dropped, {}, w)
    requires Binders(u) == [] && Binders(l) == []
    ensures Pruned(u + m + l, u + n + l, dropped, {}, w) && Binders(u + m + l) == Binders(m)
  {
    hide Pruned, Binders;
    PruneConcat(u, m, dropped);
    PruneConcat(u + m, l, dropped);
    PrunedConcat(u, m, u, n, dropped, {}, {}, w);
    ghost var none: set<string> := {};
    assert none + none == none;
    PrunedConcat(u + m, l, u + n, l, dropped, {}, {}, w);
  }

  lemma MiddlePruned(q: Statement, used: set<string>, dropped: set<string>, w: World)
    requires StatementReady(q, used, dropped, w)
    ensures Pruned(MatchesSteps(q.matches), MatchesSteps(PruneWith(q, used).matches), dropped, {}, w)
  {
    forall k | 0 <= k < |q.matches| ensures MatchReady(q.matches[k], used, dropped, w) {
      MatchesReady(q, used, dropped, w, k);
    }
    MatchesPruned(q.matches, PruneWith(q, used).matches, used, dropped, w);
  }

  lemma SidesPruned(q: Statement, used: set<string>, dropped: set<string>, w: World)
    requires StatementReady(q, used, dropped, w)
    ensures var u, l := UnwindSteps(q.unwinds), LinearSteps(q.linear);
      && Pruned(u, u, dropped, {}, w) && Pruned(l, l, dropped, {}, w)
      && Binders(u) == [] && Binders(l) == []
  {
    UnwindsIgnore(q, used, dropped, w);
    LinearIgnores(q, used, dropped, w);
    StepsKept(UnwindSteps(q.unwinds), dropped, w);
    StepsKept(LinearSteps(q.linear), dropped, w);
  }

  lemma UnwindsIgnore(q: Statement, used: set<string>, dropped: set<string>, w: World)
    requires StatementReady(q, used, dropped, w)
    ensures Ignores(UnwindSteps(q.unwinds), dropped, w)
  {
    hide Unseen, MatchExprs, HeadExprs;
    forall k | 0 <= k < |q.unwinds| ensures Unseen(q.unwinds[k].list, dropped, w) {
      assert q.unwinds[k] in q.unwinds && q.unwinds[k].list in SeenExprs(q);
    }
  }

  lemma LinearIgnores(q: Statement, used: set<string>, dropped: set<string>, w: World)
    requires StatementReady(q, used, dropped, w)
    ensures Ignores(LinearSteps(q.linear), dropped, w)
  {
    hide Unseen, MatchExprs, HeadExprs;
    forall k | 0 <= k < |q.linear| ensures StepIgnores(LinearStep(q.linear[k]), dropped, w) {
      assert q.linear[k] in q.linear && LinearExpr(q.linear[k]) in SeenExprs(q);
    }
  }

  // ---------- Projections of hidden rows ----------

  lemma TupleHidden(p: Projection, s: State, t: State, dropped: set<string>, w: World)
    requires UnseenIn(HeadExprs(p), dropped, w) && Hides(s, t, dropped)
    ensures Tuple(p, s.row, w) == Tuple(p, t.row, w)
  {
    hide Unseen, Eval, Off;
    forall k | 0 <= k < |p.items| ensures Eval(p.items[k].value, s.row, w) == Eval(p.items[k].value, t.row, w) {
      assert p.items[k] in p.items && p.items[k].value in HeadExprs(p);
      AgreeHidden(s, t, p.items[k].value, dropped, w);
    }
    forall k | 0 <= k < |p.order| ensures Eval(p.order[k].value, s.row, w) == Eval(p.order[k].value, t.row, w) {
      assert p.order[k] in p.order && p.order[k].value in HeadExprs(p);
      AgreeHidden(s, t, p.order[k].value, dropped, w);
    }
  }

  lemma ProjectHidden(p: Projection, ss: seq<State>, tt: seq<State>, dropped: set<string>, w: World, g: Graph)
    requires UnseenIn(HeadExprs(p), dropped, w) && HidesAll(ss, tt, dropped)
    ensures Project(p, RowsOf(ss), w, g) == Project(p, RowsOf(tt), w, g)
    ensures ProjectionClean(p, RowsOf(ss), w, g) <==> ProjectionClean(p, RowsOf(tt), w, g)
  {
    hide UnseenIn, Hides, HeadExprs, Tuple;
    var a, b := RowsOf(ss), RowsOf(tt);
    forall k | 0 <= k < |ss| ensures Tuple(p, a[k], w) == Tuple(p, b[k], w) {
      TupleHidden(p, ss[k], tt[k], dropped, w);
    }
    assert Tuples(p, a, w) == Tuples(p, b, w);
  }

  lemma StepsHide(q: Statement, used: set<string>, dropped: set<string>, s: State, t: State, w: World, g: Graph)
    requires StatementReady(q, used, dropped, w) && Hides(s, t, dropped)
    requires Once(Binders(MatchesSteps(q.matches)), dropped) && Unbound(MatchesSteps(q.matches), s.row, dropped)
    ensures var a, b := StatementSteps(q), StatementSteps(PruneWith(q, used));
      HidesAll(Run(a, s, w, g), Run(b, t, w, g), dropped) && (Clean(a, s, w, g) <==> Clean(b, t, w, g))
  {
    hide StatementReady, StatementSteps, MatchesSteps, Run, Clean, Hides;
    StatementPruned(q, used, dropped, w);
    RunHides(StatementSteps(q), s, t, dropped, w, g);
    CleanHides(StatementSteps(q), s, t, dropped, w, g);
  }

  /** Two runs from states that agree outside `dropped`, one of them pruned: same answers, same errors. */
  lemma StatementHides(q: Statement, used: set<string>, dropped: set<string>, s: State, t: State, w: World, g: Graph)
    requires StatementReady(q, used, dropped, w) && Hides(s, t, dropped)
    requires Once(Binders(MatchesSteps(q.matches)), dropped) && Unbound(MatchesSteps(q.matches), s.row, dropped)
    ensures AnswersClean(q, s, w, g) <==> AnswersClean(PruneWith(q, used), t, w, g)
    ensures if Outlet(q).Some? then Answers(PruneWith(q, used), t, w, g) == Answers(q, s, w, g)
      else RowsOff(Answers(q, s, w, g), Answers(PruneWith(q, used), t, w, g), dropped)
  {
    hide Run, Clean, StatementSteps, Binders, Once, MatchesSteps, Unbound, MatchExprs, HeadExprs, Project,
      ProjectionClean, Unseen, Off;
    var p := PruneWith(q, used);
    StepsHide(q, used, dropped, s, t, w, g);
    var ss, tt := Run(StatementSteps(q), s, w, g), Run(StatementSteps(p), t, w, g);
    if Outlet(q).Some? { ProjectHidden(Outlet(q).value, ss, tt, dropped, w, g); }
  }

  /**
   Anonymising the unreferenced underscore aliases of a statement, each bound at one position
   and seen by no subquery, leaves the rows the statement returns and its errors unchanged.
   */
  lemma PruneWithSame(q: Statement, used: set<string>, w: World, g: Graph)
    requires UsedVars(q) <= used && BoundOnce(q, used) && BlindStatement(q, Dropped(q, used), w)
    ensures RunStatement(PruneWith(q, used), w, g) == RunStatement(q, w, g)
    ensures StatementClean(PruneWith(q, used), w, g) <==> StatementClean(q, w, g)
  {
    hide Dropped, BlindStatement, UsedVars, StatementReady, Answers, AnswersClean, MatchesSteps, Binders, Once,
      PruneWith;
    PruneReady(q, used, w);
    StartHides(MatchesSteps(q.matches), Dropped(q, used));
    StatementHides(q, used, Dropped(q, used), START, START, w, g);
    PruneResult(q, used);
  }

  lemma StartHides(steps: seq<Step>, d: set<string>)
    ensures Hides(START, START, d) && Unbound(steps, START.row, d)
  {
  }

  lemma PruneResult(q: Statement, used: set<string>)
    ensures PruneWith(q, used).result == q.result && (q.result.Some? ==> Outlet(q).Some?)
  {
  }

  lemma PruneReady(q: Statement, used: set<string>, w: World)
    requires UsedVars(q) <= used && BoundOnce(q, used) && BlindStatement(q, Dropped(q, used), w)
    ensures StatementReady(q, used, Dropped(q, used), w)
  {
    hide SeenExprs, UsedVars, NodeAliases, EdgeAliases, MatchesSteps, Binders, Once, Blind, Free;
    var dropped := Dropped(q, used);
    forall e | e in SeenExprs(q) ensures Unseen(e, dropped, w) {
      SeenUsed(q, e);
      MentionedFree(e, dropped);
      assert BlindTo(e, dropped, w);
    }
    NamesUsed(q, used);
    forall c, p | c in q.matches && p in c.paths ensures Selects(NodeAliases(p), used, dropped) {}
  }

  lemma NamesUsed(q: Statement, used: set<string>)
    requires UsedVars(q) <= used
    ensures NamesApart(q, Dropped(q, used))
  {
    forall k | 0 <= k < |q.unwinds| ensures q.unwinds[k].alias !in Dropped(q, used) { UnwindsUsed(q.unwinds, k); }
    forall k | 0 <= k < |q.linear| && q.linear[k].Let? ensures q.linear[k].variable !in Dropped(q, used) {
      LinearUsed(q.linear, k);
    }
  }
}
