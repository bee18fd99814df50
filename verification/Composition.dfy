/** The three passes composed: what the optimized statement returns. */
module Composition {
  import opened Common
  import opened Ast
  import opened Trees
  import opened Semantics
  import opened Clauses
  import opened Folding
  import opened FoldingLimits
  import opened Matching
  import opened Running
  import opened Refining
  import opened Pushdown
  import opened PushdownClean
  import opened Pruning
  import opened PrunedStatement

  datatype Level = NoOptimization | Standard | Aggressive

  function PushStatementOf(q: Statement): Statement {
    q.(matches := PushMatches([], q.matches))
  }

  /** `optimize` on the statement a root denotes; `used` is what the collectors found. */
  function Optimized(level: Level, q: Statement, used: set<string>): Statement {
    match level
    case NoOptimization => q
    case Standard => PushStatementOf(FoldStatement(q))
    case Aggressive => PruneWith(PushStatementOf(FoldStatement(q)), used)
  }

  // ---------- Pushdown inside a statement ----------

  lemma PushStepsSame(q: Statement, w: World, g: Graph)
    ensures Run(StatementSteps(PushStatementOf(q)), START, w, g) == Run(StatementSteps(q), START, w, g)
  {
    var p := PushStatementOf(q);
    var u, l := UnwindSteps(q.unwinds), LinearSteps(q.linear);
    var m, n := MatchesSteps(q.matches), MatchesSteps(p.matches);
    assert StatementSteps(q) == u + m + l && StatementSteps(p) == u + n + l;
    hide Run, RunAll, PushMatches, MatchesSteps;
    var ss := Run(u, START, w, g);
    RunConcat(u + m, l, START, w, g);
    RunConcat(u, m, START, w, g);
    RunConcat(u + n, l, START, w, g);
    RunConcat(u, n, START, w, g);
    forall s | s in ss ensures Run(n, s, w, g) == Run(m, s, w, g) {
      PushdownSame(q.matches, s, w, g);
    }
    RunAllSame(n, m, ss, w, g);
  }

  lemma PushStatementSame(q: Statement, w: World, g: Graph)
    ensures RunStatement(PushStatementOf(q), w, g) == RunStatement(q, w, g)
  {
    hide Run, StatementSteps, PushMatches;
    PushStepsSame(q, w, g);
  }

  /** Pushdown brings in no error if every hoisted equality compares with a constant that has a value. */
  lemma PushStatementClean(q: Statement, w: World, g: Graph)
    requires StatementClean(q, w, g) && HoistsSteady([], q.matches, w)
    ensures StatementClean(PushStatementOf(q), w, g)
  {
    hide Run, Clean, AllClean, StatementSteps, PushMatches, HoistsSteady, ProjectionsClean, ProjectionClean,
      ProjectAll;
    PushStepsSame(q, w, g);
    PushStepsClean(q, w, g);
  }

  lemma PushStepsClean(q: Statement, w: World, g: Graph)
    requires Clean(StatementSteps(q), START, w, g) && HoistsSteady([], q.matches, w)
    ensures Clean(StatementSteps(PushStatementOf(q)), START, w, g)
  {
    hide Run, RunAll, Clean, PushMatches, MatchesSteps, HoistsSteady;
    var p := PushStatementOf(q);
    var u, l := UnwindSteps(q.unwinds), LinearSteps(q.linear);
    var m, n := MatchesSteps(q.matches), MatchesSteps(p.matches);
    assert StatementSteps(q) == u + m + l && StatementSteps(p) == u + n + l;
    forall s | s in Run(u, START, w, g) ensures Run(n, s, w, g) == Run(m, s, w, g) { PushdownSame(q.matches, s, w, g); }
    PrefixSame(u, n, m, START, w, g);
    if Clean(u + m, START, w, g) {
      forall s | s in Run(u, START, w, g) && Clean(m, s, w, g) ensures Clean(n, s, w, g) {
        PushdownSteady(q.matches, s, w, g);
      }
      CleanBehind(u, m, n, START, w, g);
    }
    CleanAhead(u + m, u + n, l, START, w, g);
  }

  // ---------- Clauses without their predicates ----------

  function BareNode(n: NodePat): NodePat {
    n.(preds := [])
  }

  function BareEdge(e: EdgePat): EdgePat {
    e.(preds := [], target := BareNode(e.target))
  }

  function BareEdges(es: seq<EdgePat>): seq<EdgePat> {
    seq(|es|, k requires 0 <= k < |es| => BareEdge(es[k]))
  }

  function BarePath(p: PathPat): PathPat {
    match p
    case Single(n) => Single(BareNode(n))
    case Chain(v, m, s, es) => Chain(v, m, BareNode(s), BareEdges(es))
  }

  function BarePaths(ps: seq<PathPat>): seq<PathPat> {
    seq(|ps|, k requires 0 <= k < |ps| => BarePath(ps[k]))
  }

  function BareMatch(c: MatchCl): MatchCl {
    MatchCl(c.optional, BarePaths(c.paths), None)
  }

  function BareMatches(cs: seq<MatchCl>): seq<MatchCl> {
    seq(|cs|, k requires 0 <= k < |cs| => BareMatch(cs[k]))
  }

  /** Pattern aliases are the same with and without predicates. */
  lemma {:induction false} BareEdgesAliases(es: seq<EdgePat>)
    ensures EdgeTargets(BareEdges(es)) == EdgeTargets(es) && EdgeNames(BareEdges(es)) == EdgeNames(es)
    decreases |es|
  {
    if es != [] {
      BareEdgesAliases(es[1..]);
      assert BareEdges(es)[1..] == BareEdges(es[1..]);
    }
  }

  lemma BareAliases(p: PathPat)
    ensures NodeAliases(BarePath(p)) == NodeAliases(p) && EdgeAliases(BarePath(p)) == EdgeAliases(p)
  {
    if p.Chain? { BareEdgesAliases(p.edges); }
  }

  lemma PredsBind(es: seq<Expr>)
    ensures Binders(Preds(es)) == []
  {
    PredsBindNothing(Preds(es));
  }

  lemma {:induction false} PredsBindNothing(steps: seq<Step>)
    requires forall k :: 0 <= k < |steps| ==> steps[k].SPred?
    ensures Binders(steps) == []
    decreases |steps|
  {
    if steps != [] { PredsBindNothing(steps[1..]); }
  }

  lemma NodeBinders(n: NodePat)
    ensures Binders(NodeSteps(BareNode(n))) == Binders(NodeSteps(n))
  {
    var front := (if n.variable.Some? then [SHere(n.variable.value)] else [])
      + (if n.labels.Some? then [SLabel(n.labels.value)] else []);
    hide Binders;
    BindersConcat(front, Preds(n.preds));
    BindersConcat(front, Preds([]));
    PredsBind(n.preds);
    PredsBind([]);
  }

  lemma EdgeBinders(e: EdgePat)
    ensures Binders(EdgeSteps(BareEdge(e))) == Binders(EdgeSteps(e))
  {
    var front := [SHop(e.spec)] + (if e.variable.Some? then [SEdge(e.variable.value)] else []);
    hide Binders, NodeSteps;
    BindersConcat(front + Preds(e.preds), NodeSteps(e.target));
    BindersConcat(front + Preds([]), NodeSteps(BareNode(e.target)));
    BindersConcat(front, Preds(e.preds));
    BindersConcat(front, Preds([]));
    PredsBind(e.preds);
    PredsBind([]);
    NodeBinders(e.target);
  }

  lemma {:induction false} EdgesBinders(es: seq<EdgePat>)
    ensures Binders(EdgesSteps(BareEdges(es))) == Binders(EdgesSteps(es))
    decreases |es|
  {
    if es != [] {
      assert BareEdges(es)[1..] == BareEdges(es[1..]);
      hide Binders, EdgeSteps;
      EdgesBinders(es[1..]);
      EdgeBinders(es[0]);
      BindersConcat(EdgeSteps(es[0]), EdgesSteps(es[1..]));
      BindersConcat(EdgeSteps(BareEdge(es[0])), EdgesSteps(BareEdges(es[1..])));
    }
  }

  lemma PathBinders(p: PathPat)
    ensures Binders(PathSteps(BarePath(p))) == Binders(PathSteps(p))
  {
    hide Binders, NodeSteps, EdgesSteps;
    match p
    case Single(n) =>
      BindersConcat([SEnter] + NodeSteps(n), [SLeave]);
      BindersConcat([SEnter], NodeSteps(n));
      BindersConcat([SEnter] + NodeSteps(BareNode(n)), [SLeave]);
      BindersConcat([SEnter], NodeSteps(BareNode(n)));
      NodeBinders(n);
    case Chain(v, m, s, es) =>
      var tail := [SMode(m)] + (if v.Some? then [SPath(v.value)] else []) + [SLeave];
      BindersConcat([SEnter] + NodeSteps(s) + EdgesSteps(es), tail);
      BindersConcat([SEnter] + NodeSteps(s), EdgesSteps(es));
      BindersConcat([SEnter], NodeSteps(s));
      BindersConcat([SEnter] + NodeSteps(BareNode(s)) + EdgesSteps(BareEdges(es)), tail);
      BindersConcat([SEnter] + NodeSteps(BareNode(s)), EdgesSteps(BareEdges(es)));
      BindersConcat([SEnter], NodeSteps(BareNode(s)));
      NodeBinders(s);
      EdgesBinders(es);
  }

  lemma {:induction false} PathsBinders(ps: seq<PathPat>)
    ensures Binders(PathsSteps(BarePaths(ps))) == Binders(PathsSteps(ps))
    decreases |ps|
  {
    if ps != [] {
      assert BarePaths(ps)[1..] == BarePaths(ps[1..]);
      hide Binders, PathSteps;
      PathsBinders(ps[1..]);
      PathBinders(ps[0]);
      BindersConcat(PathSteps(ps[0]), PathsSteps(ps[1..]));
      BindersConcat(PathSteps(BarePath(ps[0])), PathsSteps(BarePaths(ps[1..])));
    }
  }

  lemma MatchBinders(c: MatchCl)
    ensures Binders(MatchSteps(BareMatch(c))) == Binders(MatchSteps(c))
  {
    var f := FilterList(c.filter);
    var inner, bare := PathsSteps(c.paths) + Preds(f), PathsSteps(BarePaths(c.paths)) + Preds([]);
    OptionalBinders(inner, PathsVars(c.paths));
    OptionalBinders(bare, PathsVars(BarePaths(c.paths)));
    hide Binders, PathsSteps;
    PathsBinders(c.paths);
    BindersConcat(PathsSteps(c.paths), Preds(f));
    BindersConcat(PathsSteps(BarePaths(c.paths)), Preds([]));
    PredsBind(f);
    PredsBind([]);
  }

  lemma OptionalBinders(inner: seq<Step>, vars: set<string>)
    ensures Binders([SOptional(inner, vars)]) == Binders(inner)
  {
    var all := [SOptional(inner, vars)];
    assert all[1..] == [];
    assert Binders(all) == StepBinders(all[0]) + Binders([]);
  }

  lemma {:induction false} MatchesBinders(cs: seq<MatchCl>)
    ensures Binders(MatchesSteps(BareMatches(cs))) == Binders(MatchesSteps(cs))
    decreases |cs|
  {
    if cs != [] {
      assert BareMatches(cs)[1..] == BareMatches(cs[1..]);
      hide Binders, MatchSteps;
      MatchesBinders(cs[1..]);
      MatchBinders(cs[0]);
      BindersConcat(MatchSteps(cs[0]), MatchesSteps(cs[1..]));
      BindersConcat(MatchSteps(BareMatch(cs[0])), MatchesSteps(BareMatches(cs[1..])));
    }
  }

  // ---------- Aliases survive folding and pushdown ----------

  lemma {:induction false} HoistEdgesBare(es: seq<EdgePat>, x: string, p: Expr)
    ensures HoistEdges(es, x, p).Some? ==> BareEdges(HoistEdges(es, x, p).value) == BareEdges(es)
    decreases |es|
  {
    if es != [] {
      HoistEdgesBare(es[1..], x, p);
      var h := HoistEdges(es, x, p);
      if h.Some? && HoistNode(es[0].target, x, p).None? {
        var rest := HoistEdges(es[1..], x, p).value;
        assert BareEdges(h.value) == [BareEdge(es[0])] + BareEdges(rest);
        assert BareEdges(es) == [BareEdge(es[0])] + BareEdges(es[1..]);
      }
    }
  }

  lemma HoistPathBare(q: PathPat, x: string, p: Expr)
    ensures HoistPath(q, x, p).Some? ==> BarePath(HoistPath(q, x, p).value) == BarePath(q)
  {
    if q.Chain? { HoistEdgesBare(q.edges, x, p); }
  }

  lemma {:induction false} HoistPathsBare(ps: seq<PathPat>, x: string, p: Expr)
    ensures HoistPaths(ps, x, p).Some? ==> BarePaths(HoistPaths(ps, x, p).value) == BarePaths(ps)
    decreases |ps|
  {
    if ps != [] {
      HoistPathBare(ps[0], x, p);
      HoistPathsBare(ps[1..], x, p);
      var h := HoistPaths(ps, x, p);
      if h.Some? && HoistPath(ps[0], x, p).None? {
        var rest := HoistPaths(ps[1..], x, p).value;
        assert BarePaths(h.value) == [BarePath(ps[0])] + BarePaths(rest);
        assert BarePaths(ps) == [BarePath(ps[0])] + BarePaths(ps[1..]);
      }
    }
  }

  lemma {:induction false} HoistBackBare(prev: seq<MatchCl>, x: string, p: Expr)
    ensures HoistBack(prev, x, p).Some? ==> BareMatches(HoistBack(prev, x, p).value) == BareMatches(prev)
    decreases |prev|
  {
    if prev != [] {
      var front, last := prev[..|prev| - 1], prev[|prev| - 1];
      HoistPathsBare(last.paths, x, p);
      HoistBackBare(front, x, p);
      var h := HoistBack(prev, x, p);
      if h.Some? {
        assert BareMatches(prev) == BareMatches(front) + [BareMatch(last)];
        if last.optional || HoistPaths(last.paths, x, p).None? {
          var rest := HoistBack(front, x, p).value;
          assert h.value == rest + [last];
          assert BareMatches(h.value) == BareMatches(rest) + [BareMatch(last)];
        }
      }
    }
  }

  lemma {:induction false} PushAllBare(g: Progress, optional: bool, ps: seq<Expr>)
    ensures var h := PushAll(g, optional, ps);
      BareMatches(h.prev) == BareMatches(g.prev) && BarePaths(h.paths) == BarePaths(g.paths)
    decreases |ps|
  {
    if ps != [] {
      PushAllBare(PushOne(g, optional, ps[0]), optional, ps[1..]);
      var x := HoistVar(ps[0]);
      if x.Some? {
        HoistPathsBare(g.paths, x.value, ps[0]);
        HoistBackBare(g.prev, x.value, ps[0]);
      }
    }
  }

  lemma PushClauseBare(prev: seq<MatchCl>, c: MatchCl)
    ensures BareMatches(PushClause(prev, c)) == BareMatches(prev + [c])
  {
    if c.filter.Some? {
      PushAllBare(Progress(prev, c.paths, []), c.optional, Conjuncts(c.filter.value));
      var g := PushAll(Progress(prev, c.paths, []), c.optional, Conjuncts(c.filter.value));
      var d := MatchCl(c.optional, g.paths, RebuildFilter(g.left));
      assert BareMatches(g.prev + [d]) == BareMatches(g.prev) + [BareMatch(d)];
      assert BareMatches(prev + [c]) == BareMatches(prev) + [BareMatch(c)];
    }
  }

  lemma {:induction false} PushMatchesBare(done: seq<MatchCl>, rest: seq<MatchCl>)
    ensures BareMatches(PushMatches(done, rest)) == BareMatches(done + rest)
    decreases |rest|
  {
    hide BareMatches, PushClause;
    if rest == [] {
      assert done + rest == done;
    } else {
      var a, b := PushClause(done, rest[0]), rest[1..];
      PushMatchesBare(a, b);
      PushClauseBare(done, rest[0]);
      assert done + rest == (done + [rest[0]]) + b;
      BareJoin(a, b);
      BareJoin(done + [rest[0]], b);
    }
  }

  lemma BareJoin(a: seq<MatchCl>, b: seq<MatchCl>)
    ensures BareMatches(a + b) == BareMatches(a) + BareMatches(b)
  {
    hide BareMatch;
  }

  lemma FoldPathBare(p: PathPat)
    ensures BarePath(FoldPath(p)) == BarePath(p)
  {
  }

  lemma FoldMatchesBare(cs: seq<MatchCl>, fs: seq<MatchCl>)
    requires |cs| == |fs| && forall k :: 0 <= k < |cs| ==> fs[k] == FoldMatch(cs[k])
    ensures BareMatches(fs) == BareMatches(cs)
  {
    forall k | 0 <= k < |cs| ensures BareMatch(fs[k]) == BareMatch(cs[k]) {
      forall i | 0 <= i < |cs[k].paths| ensures BarePath(fs[k].paths[i]) == BarePath(cs[k].paths[i]) {
        FoldPathBare(cs[k].paths[i]);
      }
      assert BarePaths(fs[k].paths) == BarePaths(cs[k].paths);
    }
  }

  /** Aliases bound once stay bound once in any statement with the same bare clauses. */
  lemma BoundOnceBare(q: Statement, p: Statement, used: set<string>)
    requires BareMatches(p.matches) == BareMatches(q.matches) && BoundOnce(q, used)
    ensures BoundOnce(p, used)
  {
    MatchesBinders(q.matches);
    MatchesBinders(p.matches);
    DroppedBare(q, p, used);
    hide Binders, MatchesSteps, Dropped, NodeAliases, EdgeAliases, BareMatches;
    assert Once(Binders(MatchesSteps(p.matches)), Dropped(p, used));
    forall c, r | c in p.matches && r in c.paths ensures EdgeAliases(r) !! Dropped(p, used) {
      var d, s := SameBarePath(p, q, c, r);
      assert EdgeAliases(s) !! Dropped(q, used);
    }
  }

  lemma DroppedBare(q: Statement, p: Statement, used: set<string>)
    requires BareMatches(p.matches) == BareMatches(q.matches)
    ensures Dropped(p, used) <= Dropped(q, used)
  {
    hide NodeAliases, EdgeAliases, BareMatches;
    forall x | x in Dropped(p, used) ensures x in Dropped(q, used) {
      var c, r :| c in p.matches && r in c.paths && x in NodeAliases(r) && Internal(x);
      var d, s := SameBarePath(p, q, c, r);
    }
  }

  lemma SameBarePath(p: Statement, q: Statement, c: MatchCl, r: PathPat) returns (d: MatchCl, s: PathPat)
    requires BareMatches(p.matches) == BareMatches(q.matches) && c in p.matches && r in c.paths
    ensures d in q.matches && s in d.paths && NodeAliases(r) == NodeAliases(s) && EdgeAliases(r) == EdgeAliases(s)
  {
    var k :| 0 <= k < |p.matches| && p.matches[k] == c;
    var i :| 0 <= i < |c.paths| && c.paths[i] == r;
    d := q.matches[k];
    assert BareMatches(p.matches)[k] == BareMatch(c) && BareMatches(q.matches)[k] == BareMatch(d);
    assert BarePaths(c.paths) == BarePaths(d.paths);
    assert |BarePaths(c.paths)| == |c.paths| && |BarePaths(d.paths)| == |d.paths|;
    s := d.paths[i];
    assert BarePath(r) == BarePaths(c.paths)[i] == BarePaths(d.paths)[i] == BarePath(s);
    BareAliases(r);
    BareAliases(s);
  }

  // ---------- What subqueries see stays unseen ----------

  ghost predicate BlindAll(es: seq<Expr>, d: set<string>, w: World) {
    forall k :: 0 <= k < |es| ==> BlindTo(es[k], d, w)
  }

  ghost predicate BlindOpt(o: Option<Expr>, d: set<string>, w: World) {
    o.Some? ==> BlindTo(o.value, d, w)
  }

  ghost predicate BlindEdges(es: seq<EdgePat>, d: set<string>, w: World) {
    forall k :: 0 <= k < |es| ==> BlindAll(es[k].preds, d, w) && BlindAll(es[k].target.preds, d, w)
  }

  ghost predicate BlindPath(p: PathPat, d: set<string>, w: World) {
    match p
    case Single(n) => BlindAll(n.preds, d, w)
    case Chain(_, _, s, es) => BlindAll(s.preds, d, w) && BlindEdges(es, d, w)
  }

  ghost predicate BlindPaths(ps: seq<PathPat>, d: set<string>, w: World) {
    forall k :: 0 <= k < |ps| ==> BlindPath(ps[k], d, w)
  }

  ghost predicate BlindMatch(c: MatchCl, d: set<string>, w: World) {
    BlindOpt(c.filter, d, w) && BlindPaths(c.paths, d, w)
  }

  ghost predicate BlindMatches(cs: seq<MatchCl>, d: set<string>, w: World) {
    forall k :: 0 <= k < |cs| ==> BlindMatch(cs[k], d, w)
  }

  /** Folding brings in no subquery. */
  lemma FoldBlind(e: Expr, d: set<string>, w: World)
    requires BlindTo(e, d, w)
    ensures BlindTo(Fold(e), d, w)
  {
    FoldNames(e);
  }

  lemma FoldAllBlind(es: seq<Expr>, d: set<string>, w: World)
    requires BlindAll(es, d, w)
    ensures BlindAll(FoldAll(es), d, w)
  {
    hide BlindTo;
    forall k | 0 <= k < |es| ensures BlindTo(FoldAll(es)[k], d, w) { FoldBlind(es[k], d, w); }
  }

  lemma FoldPathBlind(p: PathPat, d: set<string>, w: World)
    requires BlindPath(p, d, w)
    ensures BlindPath(FoldPath(p), d, w)
  {
    hide BlindAll;
    match p
    case Single(n) => FoldAllBlind(n.preds, d, w);
    case Chain(_, _, s, es) =>
      FoldAllBlind(s.preds, d, w);
      var fs := FoldPath(p).edges;
      forall k | 0 <= k < |es| ensures BlindAll(fs[k].preds, d, w) && BlindAll(fs[k].target.preds, d, w) {
        FoldAllBlind(es[k].preds, d, w);
        FoldAllBlind(es[k].target.preds, d, w);
      }
  }

  lemma FoldMatchBlind(c: MatchCl, d: set<string>, w: World)
    requires BlindMatch(c, d, w)
    ensures BlindMatch(FoldMatch(c), d, w)
  {
    hide BlindTo, BlindPath;
    if c.filter.Some? { FoldBlind(c.filter.value, d, w); }
    forall k | 0 <= k < |c.paths| ensures BlindPath(FoldMatch(c).paths[k], d, w) { FoldPathBlind(c.paths[k], d, w); }
  }

  lemma {:induction false} ConjunctsBlind(e: Expr, d: set<string>, w: World)
    requires BlindTo(e, d, w)
    ensures BlindAll(Conjuncts(e), d, w)
  {
    if e.EBin? && e.op == And {
      BlindFewer(w, d, Names(e), Names(e.left));
      BlindFewer(w, d, Names(e), Names(e.right));
      ConjunctsBlind(e.left, d, w);
      ConjunctsBlind(e.right, d, w);
    }
  }

  lemma {:induction false} ConjoinBlind(acc: Expr, es: seq<Expr>, d: set<string>, w: World)
    requires BlindTo(acc, d, w) && BlindAll(es, d, w)
    ensures BlindTo(Conjoin(acc, es), d, w)
    decreases |es|
  {
    if es != [] {
      assert BlindTo(EBin(And, acc, es[0]), d, w);
      ConjoinBlind(EBin(And, acc, es[0]), es[1..], d, w);
    }
  }

  lemma {:induction false} HoistEdgesBlind(es: seq<EdgePat>, x: string, p: Expr, d: set<string>, w: World)
    requires BlindEdges(es, d, w) && BlindTo(p, d, w)
    ensures HoistEdges(es, x, p).Some? ==> BlindEdges(HoistEdges(es, x, p).value, d, w)
    decreases |es|
  {
    hide BlindTo;
    if es != [] { HoistEdgesBlind(es[1..], x, p, d, w); }
  }

  lemma {:induction false} HoistPathsBlind(ps: seq<PathPat>, x: string, p: Expr, d: set<string>, w: World)
    requires BlindPaths(ps, d, w) && BlindTo(p, d, w)
    ensures HoistPaths(ps, x, p).Some? ==> BlindPaths(HoistPaths(ps, x, p).value, d, w)
    decreases |ps|
  {
    hide BlindTo;
    if ps != [] {
      HoistPathsBlind(ps[1..], x, p, d, w);
      if ps[0].Chain? { HoistEdgesBlind(ps[0].edges, x, p, d, w); }
    }
  }

  lemma {:induction false} HoistBackBlind(prev: seq<MatchCl>, x: string, p: Expr, d: set<string>, w: World)
    requires BlindMatches(prev, d, w) && BlindTo(p, d, w)
    ensures HoistBack(prev, x, p).Some? ==> BlindMatches(HoistBack(prev, x, p).value, d, w)
    decreases |prev|
  {
    hide BlindTo, BlindPaths;
    if prev != [] {
      HoistBackBlind(prev[..|prev| - 1], x, p, d, w);
      HoistPathsBlind(prev[|prev| - 1].paths, x, p, d, w);
    }
  }

  ghost predicate BlindProgress(g: Progress, d: set<string>, w: World) {
    BlindMatches(g.prev, d, w) && BlindPaths(g.paths, d, w) && BlindAll(g.left, d, w)
  }

  lemma {:induction false} PushAllBlind(g: Progress, optional: bool, ps: seq<Expr>, d: set<string>, w: World)
    requires BlindProgress(g, d, w) && BlindAll(ps, d, w)
    ensures BlindProgress(PushAll(g, optional, ps), d, w)
    decreases |ps|
  {
    hide BlindTo, BlindPaths, BlindMatches;
    if ps != [] {
      var x := HoistVar(ps[0]);
      if x.Some? {
        HoistPathsBlind(g.paths, x.value, ps[0], d, w);
        HoistBackBlind(g.prev, x.value, ps[0], d, w);
      }
      PushAllBlind(PushOne(g, optional, ps[0]), optional, ps[1..], d, w);
    }
  }

  lemma PushClauseBlind(prev: seq<MatchCl>, c: MatchCl, d: set<string>, w: World)
    requires BlindMatches(prev, d, w) && BlindMatch(c, d, w)
    ensures BlindMatches(PushClause(prev, c), d, w)
  {
    hide BlindTo, BlindPaths;
    if c.filter.Some? {
      ConjunctsBlind(c.filter.value, d, w);
      PushAllBlind(Progress(prev, c.paths, []), c.optional, Conjuncts(c.filter.value), d, w);
      var left := PushAll(Progress(prev, c.paths, []), c.optional, Conjuncts(c.filter.value)).left;
      if left != [] { ConjoinBlind(left[0], left[1..], d, w); }
    }
  }

  lemma {:induction false} PushMatchesBlind(done: seq<MatchCl>, rest: seq<MatchCl>, d: set<string>, w: World)
    requires BlindMatches(done, d, w) && BlindMatches(rest, d, w)
    ensures BlindMatches(PushMatches(done, rest), d, w)
    decreases |rest|
  {
    hide BlindMatch;
    if rest != [] {
      PushClauseBlind(done, rest[0], d, w);
      PushMatchesBlind(PushClause(done, rest[0]), rest[1..], d, w);
    }
  }

  lemma PathBlindIff(p: PathPat, d: set<string>, w: World)
    ensures BlindPath(p, d, w) <==> forall e :: e in PathExprs(p) ==> BlindTo(e, d, w)
  {
    hide BlindTo;
    if forall e :: e in PathExprs(p) ==> BlindTo(e, d, w) {
      match p
      case Single(n) => assert forall k :: 0 <= k < |n.preds| ==> n.preds[k] in PathExprs(p);
      case Chain(_, _, s, es) =>
        assert forall k :: 0 <= k < |s.preds| ==> s.preds[k] in PathExprs(p);
        forall k | 0 <= k < |es| ensures BlindAll(es[k].preds, d, w) && BlindAll(es[k].target.preds, d, w) {
          assert es[k] in es && forall e :: e in EdgeExprs(es[k]) ==> e in PathExprs(p);
          assert forall i :: 0 <= i < |es[k].preds| ==> es[k].preds[i] in EdgeExprs(es[k]);
          assert forall i :: 0 <= i < |es[k].target.preds| ==> es[k].target.preds[i] in EdgeExprs(es[k]);
        }
    }
  }

  lemma MatchBlindIff(c: MatchCl, d: set<string>, w: World)
    ensures BlindMatch(c, d, w) <==> forall e :: e in MatchExprs(c) ==> BlindTo(e, d, w)
  {
    hide BlindTo, BlindPath, PathExprs;
    forall k | 0 <= k < |c.paths|
      ensures BlindPath(c.paths[k], d, w) <==> forall e :: e in PathExprs(c.paths[k]) ==> BlindTo(e, d, w)
    {
      PathBlindIff(c.paths[k], d, w);
    }
    if forall e :: e in MatchExprs(c) ==> BlindTo(e, d, w) {
      if c.filter.Some? { assert c.filter.value in MatchExprs(c); }
      forall k | 0 <= k < |c.paths| ensures BlindPath(c.paths[k], d, w) {
        assert c.paths[k] in c.paths && forall e :: e in PathExprs(c.paths[k]) ==> e in MatchExprs(c);
      }
    }
  }

  /** Folding and pushdown only rearrange what the statement already held. */
  lemma PushFoldBlind(q: Statement, d: set<string>, w: World)
    requires BlindStatement(q, d, w)
    ensures BlindStatement(PushStatementOf(FoldStatement(q)), d, w)
  {
    hide BlindTo, BlindMatch, MatchExprs, FoldMatch, PushMatches;
    var f := FoldStatement(q);
    var p := PushStatementOf(f);
    forall k | 0 <= k < |q.matches| ensures BlindMatch(f.matches[k], d, w) {
      assert q.matches[k] in q.matches && forall e :: e in MatchExprs(q.matches[k]) ==> e in SeenExprs(q);
      MatchBlindIff(q.matches[k], d, w);
      FoldMatchBlind(q.matches[k], d, w);
    }
    assert BlindMatches([], d, w);
    PushMatchesBlind([], f.matches, d, w);
    forall e | e in SeenExprs(p) ensures BlindTo(e, d, w) {
      if k :| 0 <= k < |p.matches| && e in MatchExprs(p.matches[k]) {
        MatchBlindIff(p.matches[k], d, w);
      } else {
        var o := SeenFolded(q, e);
        FoldBlind(o, d, w);
      }
    }
  }

  lemma SeenFolded(q: Statement, e: Expr) returns (o: Expr)
    requires var p := PushStatementOf(FoldStatement(q));
      e in SeenExprs(p) && forall k :: 0 <= k < |p.matches| ==> e !in MatchExprs(p.matches[k])
    ensures o in SeenExprs(q) && e == Fold(o)
  {
    hide MatchExprs, PushMatches, FoldMatch, Fold;
    var p := PushStatementOf(FoldStatement(q));
    if k :| 0 <= k < |p.unwinds| && p.unwinds[k].list == e {
      o := q.unwinds[k].list;
      assert q.unwinds[k] in q.unwinds;
    } else if k :| 0 <= k < |p.linear| && LinearExpr(p.linear[k]) == e {
      o := LinearExpr(q.linear[k]);
      assert q.linear[k] in q.linear;
    } else {
      o := HeadFolded(Outlet(q).value, e);
    }
  }

  lemma HeadFolded(p: Projection, e: Expr) returns (o: Expr)
    requires e in HeadExprs(FoldProjection(p))
    ensures o in HeadExprs(p) && e == Fold(o)
  {
    hide Fold;
    var f := FoldProjection(p);
    if k :| 0 <= k < |f.items| && f.items[k].value == e {
      o := p.items[k].value;
      assert p.items[k] in p.items;
    } else {
      var k :| 0 <= k < |f.order| && f.order[k].value == e;
      o := p.order[k].value;
      assert p.order[k] in p.order;
    }
  }

  // ---------- The composed theorem ----------

  /**
   A statement whose expressions are guarded and do not fail returns the same rows after
   optimization, also in a world that answers more of its subqueries. At the aggressive level
   the collected set must cover what is read, and every alias the pass drops must be bound at
   one position and seen by no subquery. The optimized statement does not fail either, if
   every hoisted equality compares with a constant that has a value.
   */
  lemma OptimizedSame(level: Level, q: Statement, used: set<string>, w: World, v: World, g: Graph)
    requires StatementGuarded(q) && StatementClean(q, w, g)
    requires forall e :: e in StatementExprs(q) ==> WorldRefines(w, v, Names(Fold(e)))
    requires level.NoOptimization? ==> v == w
    requires level.Aggressive? ==>
      && BoundOnce(q, used) && BlindStatement(q, Dropped(q, used), v)
      && UsedVars(PushStatementOf(FoldStatement(q))) <= used
    ensures RunStatement(Optimized(level, q, used), v, g) == RunStatement(q, w, g)
    ensures level.NoOptimization? || HoistsSteady([], FoldStatement(q).matches, v) ==>
      StatementClean(Optimized(level, q, used), v, g)
  {
    var f := FoldStatement(q);
    var p := PushStatementOf(f);
    hide RunStatement, StatementExprs, StatementGuarded, StatementClean, FoldStatement, PushMatches, BlindStatement,
      BoundOnce, UsedVars, HoistsSteady, PruneWith;
    FoldStatementSame(q, w, v, g);
    PushStatementSame(f, v, g);
    if HoistsSteady([], f.matches, v) { PushStatementClean(f, v, g); }
    if level.Aggressive? {
      AggressiveReady(q, used, v);
      PruneWithSame(p, used, v, g);
    }
  }

  lemma AggressiveReady(q: Statement, used: set<string>, w: World)
    requires BoundOnce(q, used) && BlindStatement(q, Dropped(q, used), w)
    ensures var p := PushStatementOf(FoldStatement(q)); BoundOnce(p, used) && BlindStatement(p, Dropped(p, used), w)
  {
    hide BlindStatement, BoundOnce, PushMatches;
    var f := FoldStatement(q);
    var p := PushStatementOf(f);
    FoldMatchesBare(q.matches, f.matches);
    PushMatchesBare([], f.matches);
    assert [] + f.matches == f.matches;
    BoundOnceBare(q, p, used);
    DroppedBare(q, p, used);
    DroppedBare(p, q, used);
    assert Dropped(p, used) == Dropped(q, used);
    PushFoldBlind(q, Dropped(q, used), w);
  }
}
