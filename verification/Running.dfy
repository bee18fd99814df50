/** The result of a whole statement, and what better expressions in it change: nothing. */
module Running {
  import opened Common
  import opened Trees
  import opened Semantics
  import opened Clauses
  import opened Matching
  import opened Folding
  import opened FoldingLimits
  import opened Refining

  // ---------- The result of a statement ----------

  const START: State := State(map[], VNull, [])

  function UnwindSteps(us: seq<Unwind>): seq<Step> {
    seq(|us|, k requires 0 <= k < |us| => SUnwind(us[k].list, us[k].alias))
  }

  function LinearStep(l: Linear): Step {
    match l
    case Let(x, e) => SLet(x, e)
    case Keep(e) => SPred(e)
  }

  function LinearSteps(ls: seq<Linear>): seq<Step> {
    seq(|ls|, k requires 0 <= k < |ls| => LinearStep(ls[k]))
  }

  function StatementSteps(q: Statement): seq<Step> {
    UnwindSteps(q.unwinds) + MatchesSteps(q.matches) + LinearSteps(q.linear)
  }

  function FrameOf(p: Projection): Frame {
    Frame(p.distinct,
          seq(|p.items|, k requires 0 <= k < |p.items| => (p.items[k].alias, p.items[k].aggregation)),
          seq(|p.order|, k requires 0 <= k < |p.order| => p.order[k].ascending),
          p.skip, p.limit)
  }

  /** The values a projection reads from one row: its items, then its sort keys. */
  function Tuple(p: Projection, row: Row, w: World): seq<Outcome> {
    seq(|p.items|, k requires 0 <= k < |p.items| => Eval(p.items[k].value, row, w))
    + seq(|p.order|, k requires 0 <= k < |p.order| => Eval(p.order[k].value, row, w))
  }

  function Tuples(p: Projection, rows: seq<Row>, w: World): seq<seq<Outcome>> {
    seq(|rows|, k requires 0 <= k < |rows| => Tuple(p, rows[k], w))
  }

  function FilterRows(o: Option<Expr>, rows: seq<Row>, w: World): seq<Row> {
    if o.None? || rows == [] then rows
    else (if Accepts(o.value, rows[0], w) then [rows[0]] else []) + FilterRows(o, rows[1..], w)
  }

  function Project(p: Projection, rows: seq<Row>, w: World, g: Graph): seq<Row> {
    FilterRows(p.filter, g.finish(FrameOf(p), Tuples(p, rows, w)), w)
  }

  function ProjectAll(ps: seq<Projection>, rows: seq<Row>, w: World, g: Graph): seq<Row>
    decreases |ps|
  {
    if ps == [] then rows else ProjectAll(ps[1..], Project(ps[0], rows, w, g), w, g)
  }

  function RowsOf(ss: seq<State>): seq<Row> {
    seq(|ss|, k requires 0 <= k < |ss| => ss[k].row)
  }

  /** What a statement yields from a state; without a RETURN clause, its rows as they are. */
  function Answers(q: Statement, s: State, w: World, g: Graph): seq<Row> {
    var rows := ProjectAll(q.withs, RowsOf(Run(StatementSteps(q), s, w, g)), w, g);
    if q.result.None? then rows else Project(q.result.value, rows, w, g)
  }

  /** The rows a statement returns: none without a RETURN clause. */
  function RunStatement(q: Statement, w: World, g: Graph): seq<Row> {
    if q.result.None? then [] else Answers(q, START, w, g)
  }

  // ---------- Runs without an evaluation error ----------

  ghost predicate Clean(steps: seq<Step>, s: State, w: World, g: Graph)
    decreases steps, 0
  {
    if steps == [] then true
    else
      && StepClean(steps[0], s, w, g)
      && forall t :: t in Advance(steps[0], s, w, g) ==> Clean(steps[1..], t, w, g)
  }

  ghost predicate StepClean(st: Step, s: State, w: World, g: Graph)
    decreases st, 1
  {
    match st
    case SPred(e) => Eval(e, s.row, w).Val?
    case SUnwind(e, _) => Eval(e, s.row, w).Val?
    case SLet(_, e) => Eval(e, s.row, w).Val?
    case SOptional(inner, _) => Clean(inner, s, w, g)
    case _ => true
  }

  ghost predicate ProjectionClean(p: Projection, rows: seq<Row>, w: World, g: Graph) {
    && (forall k :: 0 <= k < |rows| ==> forall i :: 0 <= i < |Tuple(p, rows[k], w)| ==> Tuple(p, rows[k], w)[i].Val?)
    && (p.filter.Some? ==>
          var out := g.finish(FrameOf(p), Tuples(p, rows, w));
          forall k :: 0 <= k < |out| ==> Eval(p.filter.value, out[k], w).Val?)
  }

  ghost predicate ProjectionsClean(ps: seq<Projection>, rows: seq<Row>, w: World, g: Graph)
    decreases |ps|
  {
    ps == [] || (ProjectionClean(ps[0], rows, w, g) && ProjectionsClean(ps[1..], Project(ps[0], rows, w, g), w, g))
  }

  /** No expression of the statement fails on the rows it is evaluated on. */
  ghost predicate AnswersClean(q: Statement, s: State, w: World, g: Graph) {
    && Clean(StatementSteps(q), s, w, g)
    && var rows := RowsOf(Run(StatementSteps(q), s, w, g));
      && ProjectionsClean(q.withs, rows, w, g)
      && (q.result.Some? ==> ProjectionClean(q.result.value, ProjectAll(q.withs, rows, w, g), w, g))
  }

  ghost predicate StatementClean(q: Statement, w: World, g: Graph) {
    AnswersClean(q, START, w, g)
  }

  // ---------- Steps over better expressions ----------

  /** The same step, over expressions that have a value wherever the old ones do. */
  ghost predicate StepImproves(a: Step, b: Step, w: World, v: World)
    decreases a
  {
    match a
    case SPred(e) => b.SPred? && Improves(e, b.cond, w, v)
    case SUnwind(e, x) => b.SUnwind? && b.x == x && Improves(e, b.list, w, v)
    case SLet(x, e) => b.SLet? && b.x == x && Improves(e, b.value, w, v)
    case SOptional(inner, vars) => b.SOptional? && b.vars == vars && StepsImprove(inner, b.inner, w, v)
    case _ => b == a
  }

  ghost predicate StepsImprove(a: seq<Step>, b: seq<Step>, w: World, v: World)
    decreases a
  {
    |a| == |b| && forall k :: 0 <= k < |a| ==> StepImproves(a[k], b[k], w, v)
  }

  lemma {:induction false} AdvanceImproved(a: Step, b: Step, s: State, w: World, v: World, g: Graph)
    requires StepClean(a, s, w, g) && StepImproves(a, b, w, v)
    ensures Advance(b, s, v, g) == Advance(a, s, w, g) && StepClean(b, s, v, g)
    decreases a, 1
  {
    match a
    case SPred(e) => assert Refines(Eval(e, s.row, w), Eval(b.cond, s.row, v));
    case SUnwind(e, _) => assert Refines(Eval(e, s.row, w), Eval(b.list, s.row, v));
    case SLet(_, e) => assert Refines(Eval(e, s.row, w), Eval(b.value, s.row, v));
    case SOptional(inner, _) => RunImproved(inner, b.inner, s, w, v, g);
    case _ =>
  }

  lemma {:induction false} RunImproved(a: seq<Step>, b: seq<Step>, s: State, w: World, v: World, g: Graph)
    requires Clean(a, s, w, g) && StepsImprove(a, b, w, v)
    ensures Run(b, s, v, g) == Run(a, s, w, g) && Clean(b, s, v, g)
    decreases a, 0
  {
    if a != [] {
      AdvanceImproved(a[0], b[0], s, w, v, g);
      var next := Advance(a[0], s, w, g);
      forall t | t in next ensures Run(b[1..], t, v, g) == Run(a[1..], t, w, g) && Clean(b[1..], t, v, g) {
        RunImproved(a[1..], b[1..], t, w, v, g);
      }
      RunAllImproved(a[1..], b[1..], next, w, v, g);
    }
  }

  lemma {:induction false} RunAllImproved(a: seq<Step>, b: seq<Step>, ss: seq<State>, w: World, v: World, g: Graph)
    requires forall s :: s in ss ==> Run(b, s, v, g) == Run(a, s, w, g)
    ensures RunAll(b, ss, v, g) == RunAll(a, ss, w, g)
    decreases |ss|
  {
    if ss != [] { RunAllImproved(a, b, ss[1..], w, v, g); }
  }

  lemma StepsJoin(a: seq<Step>, b: seq<Step>, c: seq<Step>, d: seq<Step>, w: World, v: World)
    requires StepsImprove(a, b, w, v) && StepsImprove(c, d, w, v)
    ensures StepsImprove(a + c, b + d, w, v)
  {
  }

  // ---------- Patterns and clauses over better expressions ----------

  ghost predicate AllImprove(es: seq<Expr>, fs: seq<Expr>, w: World, v: World) {
    |es| == |fs| && forall k :: 0 <= k < |es| ==> Improves(es[k], fs[k], w, v)
  }

  ghost predicate OptImproves(o: Option<Expr>, p: Option<Expr>, w: World, v: World) {
    (o.Some? <==> p.Some?) && (o.Some? ==> Improves(o.value, p.value, w, v))
  }

  ghost predicate NodeImproves(n: NodePat, m: NodePat, w: World, v: World) {
    m == n.(preds := m.preds) && AllImprove(n.preds, m.preds, w, v)
  }

  ghost predicate EdgeImproves(e: EdgePat, f: EdgePat, w: World, v: World) {
    f == e.(preds := f.preds, target := f.target) && AllImprove(e.preds, f.preds, w, v)
      && NodeImproves(e.target, f.target, w, v)
  }

  ghost predicate EdgesImprove(es: seq<EdgePat>, fs: seq<EdgePat>, w: World, v: World) {
    |es| == |fs| && forall k :: 0 <= k < |es| ==> EdgeImproves(es[k], fs[k], w, v)
  }

  ghost predicate PathImproves(p: PathPat, q: PathPat, w: World, v: World) {
    match p
    case Single(n) => q.Single? && NodeImproves(n, q.node, w, v)
    case Chain(x, m, s, es) =>
      q.Chain? && q.pathVar == x && q.mode == m && NodeImproves(s, q.start, w, v) && EdgesImprove(es, q.edges, w, v)
  }

  ghost predicate PathsImprove(ps: seq<PathPat>, qs: seq<PathPat>, w: World, v: World) {
    |ps| == |qs| && forall k :: 0 <= k < |ps| ==> PathImproves(ps[k], qs[k], w, v)
  }

  ghost predicate MatchImproves(c: MatchCl, d: MatchCl, w: World, v: World) {
    c.optional == d.optional && PathsImprove(c.paths, d.paths, w, v) && OptImproves(c.filter, d.filter, w, v)
  }

  ghost predicate LinearImproves(l: Linear, m: Linear, w: World, v: World) {
    match l
    case Let(x, e) => m.Let? && m.variable == x && Improves(e, m.value, w, v)
    case Keep(e) => m.Keep? && Improves(e, m.cond, w, v)
  }

  ghost predicate ItemsImprove(xs: seq<Item>, ys: seq<Item>, w: World, v: World) {
    && |xs| == |ys|
    && forall k :: 0 <= k < |xs| ==> ys[k] == xs[k].(value := ys[k].value) && Improves(xs[k].value, ys[k].value, w, v)
  }

  ghost predicate KeysImprove(xs: seq<SortKey>, ys: seq<SortKey>, w: World, v: World) {
    && |xs| == |ys|
    && forall k :: 0 <= k < |xs| ==> ys[k] == xs[k].(value := ys[k].value) && Improves(xs[k].value, ys[k].value, w, v)
  }

  ghost predicate ProjectionImproves(p: Projection, q: Projection, w: World, v: World) {
    && q == p.(items := q.items, order := q.order, filter := q.filter)
    && ItemsImprove(p.items, q.items, w, v) && KeysImprove(p.order, q.order, w, v)
      && OptImproves(p.filter, q.filter, w, v)
  }

  ghost predicate StatementImproves(p: Statement, q: Statement, w: World, v: World) {
    && |p.unwinds| == |q.unwinds| && |p.matches| == |q.matches| && |p.linear| == |q.linear| && |p.withs| == |q.withs|
    && (forall k :: 0 <= k < |p.unwinds| ==>
          q.unwinds[k].alias == p.unwinds[k].alias && Improves(p.unwinds[k].list, q.unwinds[k].list, w, v))
    && (forall k :: 0 <= k < |p.matches| ==> MatchImproves(p.matches[k], q.matches[k], w, v))
    && (forall k :: 0 <= k < |p.linear| ==> LinearImproves(p.linear[k], q.linear[k], w, v))
    && (forall k :: 0 <= k < |p.withs| ==> ProjectionImproves(p.withs[k], q.withs[k], w, v))
    && (p.result.Some? <==> q.result.Some?)
    && (p.result.Some? ==> ProjectionImproves(p.result.value, q.result.value, w, v))
  }

  // ---------- Better clauses have better steps ----------

  lemma PredsImprove(es: seq<Expr>, fs: seq<Expr>, w: World, v: World)
    requires AllImprove(es, fs, w, v)
    ensures StepsImprove(Preds(es), Preds(fs), w, v)
  {
    hide Improves;
  }

  lemma SameSteps(a: seq<Step>, w: World, v: World)
    requires forall k :: 0 <= k < |a| ==> !a[k].SPred? && !a[k].SUnwind? && !a[k].SLet? && !a[k].SOptional?
    ensures StepsImprove(a, a, w, v)
  {
  }

  lemma NodeStepsImprove(n: NodePat, m: NodePat, w: World, v: World)
    requires NodeImproves(n, m, w, v)
    ensures StepsImprove(NodeSteps(n), NodeSteps(m), w, v)
  {
    var x := if n.variable.Some? then [SHere(n.variable.value)] else [];
    var l := if n.labels.Some? then [SLabel(n.labels.value)] else [];
    SameSteps(x + l, w, v);
    hide StepsImprove, AllImprove;
    PredsImprove(n.preds, m.preds, w, v);
    StepsJoin(x + l, x + l, Preds(n.preds), Preds(m.preds), w, v);
  }

  lemma EdgeStepsImprove(e: EdgePat, f: EdgePat, w: World, v: World)
    requires EdgeImproves(e, f, w, v)
    ensures StepsImprove(EdgeSteps(e), EdgeSteps(f), w, v)
  {
    var front := [SHop(e.spec)] + (if e.variable.Some? then [SEdge(e.variable.value)] else []);
    SameSteps(front, w, v);
    hide StepsImprove, AllImprove, NodeImproves, NodeSteps;
    PredsImprove(e.preds, f.preds, w, v);
    NodeStepsImprove(e.target, f.target, w, v);
    StepsJoin(front, front, Preds(e.preds), Preds(f.preds), w, v);
    StepsJoin(front + Preds(e.preds), front + Preds(f.preds), NodeSteps(e.target), NodeSteps(f.target), w, v);
  }

  lemma {:induction false} EdgesStepsImprove(es: seq<EdgePat>, fs: seq<EdgePat>, w: World, v: World)
    requires EdgesImprove(es, fs, w, v)
    ensures StepsImprove(EdgesSteps(es), EdgesSteps(fs), w, v) && EdgesVars(fs) == EdgesVars(es)
    decreases |es|
  {
    if es != [] {
      EdgeStepsImprove(es[0], fs[0], w, v);
      EdgesStepsImprove(es[1..], fs[1..], w, v);
      StepsJoin(EdgeSteps(es[0]), EdgeSteps(fs[0]), EdgesSteps(es[1..]), EdgesSteps(fs[1..]), w, v);
    }
  }

  lemma PathStepsImprove(p: PathPat, q: PathPat, w: World, v: World)
    requires PathImproves(p, q, w, v)
    ensures StepsImprove(PathSteps(p), PathSteps(q), w, v) && PathVars(q) == PathVars(p)
  {
    SameSteps([SEnter], w, v);
    SameSteps([SLeave], w, v);
    match p
    case Single(n) =>
      hide StepsImprove, NodeSteps;
      NodeStepsImprove(n, q.node, w, v);
      StepsJoin([SEnter], [SEnter], NodeSteps(n), NodeSteps(q.node), w, v);
      StepsJoin([SEnter] + NodeSteps(n), [SEnter] + NodeSteps(q.node), [SLeave], [SLeave], w, v);
    case Chain(x, m, s, es) =>
      var end := [SMode(m)] + (if x.Some? then [SPath(x.value)] else []) + [SLeave];
      SameSteps(end, w, v);
      hide StepsImprove, NodeSteps, EdgesSteps;
      NodeStepsImprove(s, q.start, w, v);
      EdgesStepsImprove(es, q.edges, w, v);
      StepsJoin([SEnter], [SEnter], NodeSteps(s), NodeSteps(q.start), w, v);
      StepsJoin([SEnter] + NodeSteps(s), [SEnter] + NodeSteps(q.start), EdgesSteps(es), EdgesSteps(q.edges), w, v);
      StepsJoin([SEnter] + NodeSteps(s) + EdgesSteps(es), [SEnter] + NodeSteps(q.start) + EdgesSteps(q.edges),
                end, end, w, v);
  }

  lemma {:induction false} PathsStepsImprove(ps: seq<PathPat>, qs: seq<PathPat>, w: World, v: World)
    requires PathsImprove(ps, qs, w, v)
    ensures StepsImprove(PathsSteps(ps), PathsSteps(qs), w, v) && PathsVars(qs) == PathsVars(ps)
    decreases |ps|
  {
    if ps != [] {
      PathStepsImprove(ps[0], qs[0], w, v);
      PathsStepsImprove(ps[1..], qs[1..], w, v);
      StepsJoin(PathSteps(ps[0]), PathSteps(qs[0]), PathsSteps(ps[1..]), PathsSteps(qs[1..]), w, v);
    }
  }

  lemma MatchStepsImprove(c: MatchCl, d: MatchCl, w: World, v: World)
    requires MatchImproves(c, d, w, v)
    ensures StepsImprove(MatchSteps(c), MatchSteps(d), w, v)
  {
    hide Improves, PathsSteps, PathsVars;
    PathsStepsImprove(c.paths, d.paths, w, v);
    PredsImprove(FilterList(c.filter), FilterList(d.filter), w, v);
    StepsJoin(PathsSteps(c.paths), PathsSteps(d.paths), Preds(FilterList(c.filter)), Preds(FilterList(d.filter)), w, v);
  }

  lemma {:induction false} MatchesStepsImprove(cs: seq<MatchCl>, ds: seq<MatchCl>, w: World, v: World)
    requires |cs| == |ds| && forall k :: 0 <= k < |cs| ==> MatchImproves(cs[k], ds[k], w, v)
    ensures StepsImprove(MatchesSteps(cs), MatchesSteps(ds), w, v)
    decreases |cs|
  {
    if cs != [] {
      MatchStepsImprove(cs[0], ds[0], w, v);
      MatchesStepsImprove(cs[1..], ds[1..], w, v);
      StepsJoin(MatchSteps(cs[0]), MatchSteps(ds[0]), MatchesSteps(cs[1..]), MatchesSteps(ds[1..]), w, v);
    }
  }

  lemma StatementStepsImprove(p: Statement, q: Statement, w: World, v: World)
    requires StatementImproves(p, q, w, v)
    ensures StepsImprove(StatementSteps(p), StatementSteps(q), w, v)
  {
    hide Improves, MatchesSteps, MatchImproves;
    MatchesStepsImprove(p.matches, q.matches, w, v);
    assert StepsImprove(UnwindSteps(p.unwinds), UnwindSteps(q.unwinds), w, v);
    assert StepsImprove(LinearSteps(p.linear), LinearSteps(q.linear), w, v);
    hide StepsImprove, UnwindSteps, LinearSteps;
    StepsJoin(UnwindSteps(p.unwinds), UnwindSteps(q.unwinds), MatchesSteps(p.matches), MatchesSteps(q.matches), w, v);
    StepsJoin(UnwindSteps(p.unwinds) + MatchesSteps(p.matches), UnwindSteps(q.unwinds) + MatchesSteps(q.matches),
              LinearSteps(p.linear), LinearSteps(q.linear), w, v);
  }

  // ---------- Better projections ----------

  lemma {:induction false} FilterRowsImproved(o: Option<Expr>, p: Option<Expr>, rows: seq<Row>, w: World, v: World)
    requires OptImproves(o, p, w, v) && (o.Some? ==> forall k :: 0 <= k < |rows| ==> Eval(o.value, rows[k], w).Val?)
    ensures FilterRows(p, rows, v) == FilterRows(o, rows, w)
    ensures o.Some? ==> forall k :: 0 <= k < |rows| ==> Eval(p.value, rows[k], v).Val?
    decreases |rows|
  {
    if o.Some? && rows != [] {
      assert Refines(Eval(o.value, rows[0], w), Eval(p.value, rows[0], v));
      FilterRowsImproved(o, p, rows[1..], w, v);
      forall k | 0 <= k < |rows| ensures Eval(p.value, rows[k], v).Val? {
        if k > 0 { assert rows[k] == rows[1..][k - 1]; }
      }
    }
  }

  lemma TupleImproved(p: Projection, q: Projection, row: Row, w: World, v: World)
    requires ProjectionImproves(p, q, w, v)
    requires forall i :: 0 <= i < |Tuple(p, row, w)| ==> Tuple(p, row, w)[i].Val?
    ensures Tuple(q, row, v) == Tuple(p, row, w)
  {
    var t, n := Tuple(p, row, w), |p.items|;
    forall i | 0 <= i < |p.items| ensures Eval(q.items[i].value, row, v) == Eval(p.items[i].value, row, w) {
      assert t[i] == Eval(p.items[i].value, row, w);
      assert Refines(Eval(p.items[i].value, row, w), Eval(q.items[i].value, row, v));
    }
    forall i | 0 <= i < |p.order| ensures Eval(q.order[i].value, row, v) == Eval(p.order[i].value, row, w) {
      assert t[n + i] == Eval(p.order[i].value, row, w);
      assert Refines(Eval(p.order[i].value, row, w), Eval(q.order[i].value, row, v));
    }
  }

  lemma ProjectImproved(p: Projection, q: Projection, rows: seq<Row>, w: World, v: World, g: Graph)
    requires ProjectionClean(p, rows, w, g) && ProjectionImproves(p, q, w, v)
    ensures Project(q, rows, v, g) == Project(p, rows, w, g) && ProjectionClean(q, rows, v, g)
  {
    assert FrameOf(q) == FrameOf(p);
    forall k | 0 <= k < |rows| ensures Tuple(q, rows[k], v) == Tuple(p, rows[k], w) {
      TupleImproved(p, q, rows[k], w, v);
    }
    hide Tuple, FrameOf;
    assert Tuples(q, rows, v) == Tuples(p, rows, w);
    FilterRowsImproved(p.filter, q.filter, g.finish(FrameOf(p), Tuples(p, rows, w)), w, v);
  }

  lemma {:induction false} ProjectAllImproved(ps: seq<Projection>, qs: seq<Projection>, rows: seq<Row>, w: World,
                                              v: World, g: Graph)
    requires |ps| == |qs| && forall k :: 0 <= k < |ps| ==> ProjectionImproves(ps[k], qs[k], w, v)
    requires ProjectionsClean(ps, rows, w, g)
    ensures ProjectAll(qs, rows, v, g) == ProjectAll(ps, rows, w, g) && ProjectionsClean(qs, rows, v, g)
    decreases |ps|
  {
    if ps != [] {
      ProjectImproved(ps[0], qs[0], rows, w, v, g);
      hide Project, ProjectionClean, ProjectionImproves;
      ProjectAllImproved(ps[1..], qs[1..], Project(ps[0], rows, w, g), w, v, g);
    }
  }

  /** A statement over better expressions, run without error, gives the same answers, again without error. */
  lemma AnswersImproved(p: Statement, q: Statement, s: State, w: World, v: World, g: Graph)
    requires AnswersClean(p, s, w, g) && StatementImproves(p, q, w, v)
    ensures Answers(q, s, v, g) == Answers(p, s, w, g) && AnswersClean(q, s, v, g)
  {
    hide Run, Clean, StatementSteps, ProjectAll, Project, ProjectionsClean, ProjectionClean, ProjectionImproves,
      StepsImprove;
    StatementStepsImprove(p, q, w, v);
    RunImproved(StatementSteps(p), StatementSteps(q), s, w, v, g);
    var rows := RowsOf(Run(StatementSteps(p), s, w, g));
    ProjectAllImproved(p.withs, q.withs, rows, w, v, g);
    if p.result.Some? { ProjectImproved(p.result.value, q.result.value, ProjectAll(p.withs, rows, w, g), w, v, g); }
  }

  // ---------- Folding a statement ----------

  function NodeExprs(n: NodePat): set<Expr> {
    set e | e in n.preds
  }

  function EdgeExprs(e: EdgePat): set<Expr> {
    (set x | x in e.preds) + NodeExprs(e.target)
  }

  function PathExprs(p: PathPat): set<Expr> {
    match p
    case Single(n) => NodeExprs(n)
    case Chain(_, _, s, es) => NodeExprs(s) + set e, x | e in es && x in EdgeExprs(e) :: x
  }

  function OptExprs(o: Option<Expr>): set<Expr> {
    if o.Some? then {o.value} else {}
  }

  function MatchExprs(c: MatchCl): set<Expr> {
    (set p, x | p in c.paths && x in PathExprs(p) :: x) + OptExprs(c.filter)
  }

  function LinearExpr(l: Linear): Expr {
    match l case Let(_, e) => e case Keep(e) => e
  }

  /** Items and sort keys: what a projection evaluates on its input rows. */
  function HeadExprs(p: Projection): set<Expr> {
    (set i | i in p.items :: i.value) + (set k | k in p.order :: k.value)
  }

  function ProjectionExprs(p: Projection): set<Expr> {
    HeadExprs(p) + OptExprs(p.filter)
  }

  /** Every expression of a statement. */
  function StatementExprs(q: Statement): set<Expr> {
    (set u | u in q.unwinds :: u.list) + (set c, x | c in q.matches && x in MatchExprs(c) :: x)
    + (set l | l in q.linear :: LinearExpr(l)) + (set p, x | p in q.withs && x in ProjectionExprs(p) :: x)
    + (if q.result.Some? then ProjectionExprs(q.result.value) else {})
  }

  /** The projection that sees the bindings of the clauses: the first WITH, or RETURN. */
  function Outlet(q: Statement): Option<Projection> {
    if q.withs != [] then Some(q.withs[0]) else q.result
  }

  /** The expressions that are evaluated on the bindings of the clauses. */
  function SeenExprs(q: Statement): set<Expr> {
    (set u | u in q.unwinds :: u.list) + (set c, x | c in q.matches && x in MatchExprs(c) :: x)
    + (set l | l in q.linear :: LinearExpr(l)) + (if Outlet(q).Some? then HeadExprs(Outlet(q).value) else {})
  }

  lemma SeenAmong(q: Statement)
    ensures SeenExprs(q) <= StatementExprs(q)
  {
    hide MatchExprs;
    forall e | e in SeenExprs(q) ensures e in StatementExprs(q) {
      if Outlet(q).Some? && e in HeadExprs(Outlet(q).value) && q.withs != [] {
        assert q.withs[0] in q.withs && e in ProjectionExprs(q.withs[0]);
      }
    }
  }

  /** Every CASE of the statement is guarded. */
  predicate StatementGuarded(q: Statement) {
    forall e :: e in StatementExprs(q) ==> Guarded(e)
  }

  /** Folding these expressions and moving from `w` to `v` can only gain values. */
  ghost predicate Gains(es: set<Expr>, w: World, v: World) {
    forall e :: e in es ==> Improves(e, Fold(e), w, v)
  }

  lemma GuardedGains(es: set<Expr>, w: World, v: World)
    requires forall e :: e in es ==> Guarded(e) && WorldRefines(w, v, Names(Fold(e)))
    ensures Gains(es, w, v)
  {
    forall e | e in es ensures Improves(e, Fold(e), w, v) {
      assert FoldBy(1, e) == Fold(FoldBy(0, e));
      FoldImproves(1, e, w, v);
    }
  }

  lemma NodeGains(n: NodePat, w: World, v: World)
    requires Gains(NodeExprs(n), w, v)
    ensures NodeImproves(n, FoldNode(n), w, v)
  {
    hide Improves;
  }

  lemma PathGains(p: PathPat, w: World, v: World)
    requires Gains(PathExprs(p), w, v)
    ensures PathImproves(p, FoldPath(p), w, v)
  {
    hide Improves, NodeImproves;
    match p
    case Single(n) => NodeGains(n, w, v);
    case Chain(_, _, s, es) =>
      NodeGains(s, w, v);
      forall k | 0 <= k < |es| ensures EdgeImproves(es[k], FoldEdge(es[k]), w, v) {
        assert es[k] in es;
        assert forall x :: x in EdgeExprs(es[k]) ==> x in PathExprs(p);
        NodeGains(es[k].target, w, v);
      }
  }

  lemma MatchGains(c: MatchCl, w: World, v: World)
    requires Gains(MatchExprs(c), w, v)
    ensures MatchImproves(c, FoldMatch(c), w, v)
  {
    hide Improves, PathImproves;
    forall k | 0 <= k < |c.paths| ensures PathImproves(c.paths[k], FoldPath(c.paths[k]), w, v) {
      assert c.paths[k] in c.paths;
      assert forall x :: x in PathExprs(c.paths[k]) ==> x in MatchExprs(c);
      PathGains(c.paths[k], w, v);
    }
  }

  lemma ProjectionGains(p: Projection, w: World, v: World)
    requires Gains(ProjectionExprs(p), w, v)
    ensures ProjectionImproves(p, FoldProjection(p), w, v)
  {
    hide Improves;
    assert forall k :: 0 <= k < |p.items| ==> p.items[k] in p.items;
    assert forall k :: 0 <= k < |p.order| ==> p.order[k] in p.order;
  }

  lemma StatementGains(q: Statement, w: World, v: World)
    requires Gains(StatementExprs(q), w, v)
    ensures StatementImproves(q, FoldStatement(q), w, v)
  {
    hide Improves, MatchImproves, ProjectionImproves;
    var f, es := FoldStatement(q), StatementExprs(q);
    assert forall k :: 0 <= k < |q.unwinds| ==> q.unwinds[k] in q.unwinds;
    forall k | 0 <= k < |q.matches| ensures MatchImproves(q.matches[k], f.matches[k], w, v) {
      assert q.matches[k] in q.matches;
      assert forall x :: x in MatchExprs(q.matches[k]) ==> x in es;
      MatchGains(q.matches[k], w, v);
    }
    forall k | 0 <= k < |q.linear| ensures LinearImproves(q.linear[k], f.linear[k], w, v) {
      assert q.linear[k] in q.linear && LinearExpr(q.linear[k]) in es;
    }
    forall k | 0 <= k < |q.withs| ensures ProjectionImproves(q.withs[k], f.withs[k], w, v) {
      assert q.withs[k] in q.withs;
      assert forall x :: x in ProjectionExprs(q.withs[k]) ==> x in es;
      ProjectionGains(q.withs[k], w, v);
    }
    if q.result.Some? { ProjectionGains(q.result.value, w, v); }
  }

  /**
   Folding a guarded statement that runs without error leaves its result unchanged, also when
   the world it is run in answers more of the statement's subqueries than before.
   */
  lemma FoldStatementSame(q: Statement, w: World, v: World, g: Graph)
    requires StatementGuarded(q) && StatementClean(q, w, g)
    requires forall e :: e in StatementExprs(q) ==> WorldRefines(w, v, Names(Fold(e)))
    ensures RunStatement(FoldStatement(q), v, g) == RunStatement(q, w, g) && StatementClean(FoldStatement(q), v, g)
  {
    hide StatementExprs, Answers, AnswersClean, StatementImproves, Gains;
    GuardedGains(StatementExprs(q), w, v);
    StatementGains(q, w, v);
    AnswersImproved(q, FoldStatement(q), START, w, v, g);
  }
}
