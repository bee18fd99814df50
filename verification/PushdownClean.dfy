/**
 Evaluation errors after pushdown. A hoisted equality is evaluated on rows that another
 conjunct used to reject, so it must not fail there; then pushdown brings in no error.
 */
module PushdownClean {
  import opened Common
  import opened Ast
  import opened Trees
  import opened Semantics
  import opened Clauses
  import opened Matching
  import opened Running
  import opened Folding
  import opened Pushdown
  import opened Pruning
  import opened PrunedStatement

  // ---------- Runs without error, one part after the other ----------

  lemma AllCleanJoin(b: seq<Step>, ss: seq<State>, tt: seq<State>, w: World, g: Graph)
    ensures AllClean(b, ss + tt, w, g) <==> AllClean(b, ss, w, g) && AllClean(b, tt, w, g)
  {
    hide Clean;
    var all := ss + tt;
    assert forall k :: 0 <= k < |ss| ==> all[k] == ss[k];
    assert forall k :: 0 <= k < |tt| ==> all[|ss| + k] == tt[k];
  }

  lemma {:induction false} CleanAfter(steps: seq<Step>, ss: seq<State>, b: seq<Step>, w: World, g: Graph)
    ensures AllClean(b, RunAll(steps, ss, w, g), w, g) <==>
      forall s :: s in ss ==> AllClean(b, Run(steps, s, w, g), w, g)
    decreases |ss|
  {
    hide Clean, AllClean;
    if ss == [] {
      AllCleanNone(b, w, g);
    } else {
      CleanAfter(steps, ss[1..], b, w, g);
      AllCleanJoin(b, Run(steps, ss[0], w, g), RunAll(steps, ss[1..], w, g), w, g);
      assert RunAll(steps, ss, w, g) == Run(steps, ss[0], w, g) + RunAll(steps, ss[1..], w, g);
      if AllClean(b, RunAll(steps, ss, w, g), w, g) {
        forall s | s in ss ensures AllClean(b, Run(steps, s, w, g), w, g) { MemberSplit(ss, s); }
      }
      if forall s :: s in ss ==> AllClean(b, Run(steps, s, w, g), w, g) {
        assert ss[0] in ss;
        forall s | s in ss[1..] ensures AllClean(b, Run(steps, s, w, g), w, g) { MemberSplit(ss, s); }
      }
    }
  }

  lemma MemberSplit(ss: seq<State>, s: State)
    requires ss != []
    ensures s in ss <==> s == ss[0] || s in ss[1..]
  {
    assert ss == [ss[0]] + ss[1..];
  }

  lemma AllCleanNone(b: seq<Step>, w: World, g: Graph)
    ensures AllClean(b, [], w, g)
  {
  }

  lemma {:induction false} CleanConcat(a: seq<Step>, b: seq<Step>, s: State, w: World, g: Graph)
    ensures Clean(a + b, s, w, g) <==> Clean(a, s, w, g) && AllClean(b, Run(a, s, w, g), w, g)
    decreases |a|
  {
    if a == [] {
      assert a + b == b && Run(a, s, w, g) == [s] && [s][0] == s;
    } else {
      var ss := Advance(a[0], s, w, g);
      assert (a + b)[1..] == a[1..] + b && (a + b)[0] == a[0];
      forall t | t in ss
        ensures Clean(a[1..] + b, t, w, g) <==> Clean(a[1..], t, w, g) && AllClean(b, Run(a[1..], t, w, g), w, g)
      {
        CleanConcat(a[1..], b, t, w, g);
      }
      CleanAfter(a[1..], ss, b, w, g);
    }
  }

  lemma CleanOne(st: Step, s: State, w: World, g: Graph)
    ensures Clean([st], s, w, g) <==> StepClean(st, s, w, g)
  {
    assert [st][1..] == [];
  }

  /** The same prefix before two lists. */
  lemma CleanBehind(pre: seq<Step>, a: seq<Step>, b: seq<Step>, s: State, w: World, g: Graph)
    requires Clean(pre + a, s, w, g)
    requires forall t :: t in Run(pre, s, w, g) && Clean(a, t, w, g) ==> Clean(b, t, w, g)
    ensures Clean(pre + b, s, w, g)
  {
    CleanConcat(pre, a, s, w, g);
    CleanConcat(pre, b, s, w, g);
    AllCleanIn(a, Run(pre, s, w, g), w, g);
    AllCleanIn(b, Run(pre, s, w, g), w, g);
  }

  lemma CleanAhead(a: seq<Step>, b: seq<Step>, post: seq<Step>, s: State, w: World, g: Graph)
    requires Clean(a + post, s, w, g) && Run(b, s, w, g) == Run(a, s, w, g)
    requires Clean(a, s, w, g) ==> Clean(b, s, w, g)
    ensures Clean(b + post, s, w, g)
  {
    CleanConcat(a, post, s, w, g);
    CleanConcat(b, post, s, w, g);
  }

  // ---------- Conjunctions without error ----------

  ghost predicate SomeFalse(es: seq<Expr>, row: Row, w: World) {
    exists k :: 0 <= k < |es| && Eval(es[k], row, w) == FALSE
  }

  ghost predicate AllLogical(es: seq<Expr>, row: Row, w: World) {
    forall k :: 0 <= k < |es| ==> Logical(Eval(es[k], row, w))
  }

  /** The conjunction of the list has a value. */
  ghost predicate Settles(es: seq<Expr>, row: Row, w: World) {
    RebuildFilter(es).Some? ==> Eval(RebuildFilter(es).value, row, w).Val?
  }

  lemma {:induction false} ConjoinSettles(acc: Expr, es: seq<Expr>, row: Row, w: World)
    requires es != []
    ensures Eval(Conjoin(acc, es), row, w).Val? <==>
      SomeFalse([acc] + es, row, w) || AllLogical([acc] + es, row, w)
    decreases |es|
  {
    var both := EBin(And, acc, es[0]);
    assert Eval(both, row, w) == AndVal(Eval(acc, row, w), Eval(es[0], row, w));
    assert [acc] + es == [acc, es[0]] + es[1..];
    hide Eval;
    ListsJoin([acc, es[0]], es[1..], row, w);
    ListsTwo(acc, es[0], row, w);
    if |es| > 1 {
      ConjoinSettles(both, es[1..], row, w);
      ListsJoin([both], es[1..], row, w);
      ListsOne(both, row, w);
    }
  }

  lemma ListsJoin(a: seq<Expr>, b: seq<Expr>, row: Row, w: World)
    ensures SomeFalse(a + b, row, w) <==> SomeFalse(a, row, w) || SomeFalse(b, row, w)
    ensures AllLogical(a + b, row, w) <==> AllLogical(a, row, w) && AllLogical(b, row, w)
  {
    hide Eval;
    var c := a + b;
    assert forall k :: 0 <= k < |a| ==> c[k] == a[k];
    assert forall k :: 0 <= k < |b| ==> c[|a| + k] == b[k];
    if SomeFalse(c, row, w) {
      var k :| 0 <= k < |c| && Eval(c[k], row, w) == FALSE;
      assert if k < |a| then c[k] == a[k] else c[k] == b[k - |a|];
    }
  }

  lemma ListsOne(e: Expr, row: Row, w: World)
    ensures SomeFalse([e], row, w) <==> Eval(e, row, w) == FALSE
    ensures AllLogical([e], row, w) <==> Logical(Eval(e, row, w))
  {
    hide Eval;
    assert [e][0] == e;
  }

  lemma ListsTwo(d: Expr, e: Expr, row: Row, w: World)
    ensures SomeFalse([d, e], row, w) <==> Eval(d, row, w) == FALSE || Eval(e, row, w) == FALSE
    ensures AllLogical([d, e], row, w) <==> Logical(Eval(d, row, w)) && Logical(Eval(e, row, w))
  {
    hide Eval;
    assert [d, e] == [d] + [e];
    ListsJoin([d], [e], row, w);
    ListsOne(d, row, w);
    ListsOne(e, row, w);
  }

  lemma SettlesIff(es: seq<Expr>, row: Row, w: World)
    ensures Settles(es, row, w) <==>
      es == [] || (|es| == 1 && Eval(es[0], row, w).Val?)
        || (|es| > 1 && (SomeFalse(es, row, w) || AllLogical(es, row, w)))
  {
    hide Eval;
    if |es| > 1 {
      ConjoinSettles(es[0], es[1..], row, w);
      assert [es[0]] + es[1..] == es;
    }
  }

  lemma SettlesWhen(es: seq<Expr>, row: Row, w: World)
    requires SomeFalse(es, row, w) || AllLogical(es, row, w)
    ensures Settles(es, row, w)
  {
    SettlesIff(es, row, w);
  }

  lemma {:induction false} ConjunctsLogical(e: Expr, row: Row, w: World)
    requires Logical(Eval(e, row, w))
    ensures SomeFalse(Conjuncts(e), row, w) || AllLogical(Conjuncts(e), row, w)
    ensures Eval(e, row, w) == FALSE ==> SomeFalse(Conjuncts(e), row, w)
  {
    if e.EBin? && e.op == And {
      assert Eval(e, row, w) == AndVal(Eval(e.left, row, w), Eval(e.right, row, w));
      if Logical(Eval(e.left, row, w)) { ConjunctsLogical(e.left, row, w); }
      if Logical(Eval(e.right, row, w)) { ConjunctsLogical(e.right, row, w); }
      ListsJoin(Conjuncts(e.left), Conjuncts(e.right), row, w);
    } else if !IsBool(e, true) {
      ListsOne(e, row, w);
    }
  }

  /** A filter with a value leaves conjuncts whose conjunction has one. */
  lemma ConjunctsSettle(e: Expr, row: Row, w: World)
    requires Eval(e, row, w).Val?
    ensures Settles(Conjuncts(e), row, w)
  {
    SettlesIff(Conjuncts(e), row, w);
    if e.EBin? && e.op == And {
      assert Eval(e, row, w) == AndVal(Eval(e.left, row, w), Eval(e.right, row, w));
      ConjunctsLogical(e, row, w);
      SettlesWhen(Conjuncts(e), row, w);
    }
  }

  /** A conjunct that is true may go. */
  lemma SettlesWithout(left: seq<Expr>, p: Expr, rest: seq<Expr>, row: Row, w: World)
    requires Settles(left + ([p] + rest), row, w) && Accepts(p, row, w)
    ensures Settles(left + rest, row, w)
  {
    hide Eval;
    SettlesIff(left + ([p] + rest), row, w);
    ListsJoin(left, [p] + rest, row, w);
    ListsJoin([p], rest, row, w);
    ListsJoin(left, rest, row, w);
    ListsOne(p, row, w);
    if left + rest != [] { SettlesWhen(left + rest, row, w); }
  }

  // ---------- Equalities that do not fail ----------

  /** The side of a hoistable equality that mentions no variable. */
  function ConstantSide(p: Expr): Expr
    requires HoistVar(p).Some?
  {
    if p.left.EProp? && IsConstant(p.right) then p.right else p.left
  }

  predicate Steady(p: Expr, w: World) {
    HoistVar(p).Some? ==> Eval(ConstantSide(p), map[], w).Val?
  }

  /** A constant depends on parameters, literals and functions only. */
  lemma {:induction false} ConstantElsewhere(e: Expr, row: Row, w: World, v: World)
    requires IsConstant(e) && v.param == w.param && v.literal == w.literal && v.call == w.call
    ensures Eval(e, row, v) == Eval(e, row, w)
    decreases e, 1
  {
    match e
    case ECall(_, args) => ConstantsElsewhere(args, row, w, v);
    case EListLit(es) => ConstantsElsewhere(es, row, w, v);
    case EUn(_, x) => ConstantElsewhere(x, row, w, v);
    case _ =>
  }

  lemma {:induction false} ConstantsElsewhere(es: seq<Expr>, row: Row, w: World, v: World)
    requires v.param == w.param && v.literal == w.literal && v.call == w.call
      && forall k :: 0 <= k < |es| ==> IsConstant(es[k])
    ensures EvalAll(es, row, v) == EvalAll(es, row, w)
    decreases es, 0
  {
    if es != [] {
      ConstantElsewhere(es[0], row, w, v);
      ConstantsElsewhere(es[1..], row, w, v);
    }
  }

  lemma SteadyEval(p: Expr, x: string, row: Row, w: World)
    requires HoistVar(p) == Some(x) && x in row && Steady(p, w)
    ensures Eval(p, row, w).Val?
  {
    ConstantEval(ConstantSide(p), map[], row, w);
    var other := if p.left.EProp? && IsConstant(p.right) then p.left else p.right;
    assert Eval(other.target, row, w) == Val(row[x]);
    assert Eval(other, row, w).Val?;
    hide Eval;
    assert Eval(p, row, w) == BinOut(Eq, Eval(p.left, row, w), Eval(p.right, row, w), w) by { EqUnfolds(p, row, w); }
  }

  lemma EqUnfolds(p: Expr, row: Row, w: World)
    requires p.EBin?
    ensures Eval(p, row, w) == BinOut(p.op, Eval(p.left, row, w), Eval(p.right, row, w), w)
  {
  }

  // ---------- Moving one conjunct ----------

  /** A list of conjuncts as the one filter at the end of a clause. */
  function Filter(es: seq<Expr>): seq<Step> {
    Preds(FilterList(RebuildFilter(es)))
  }

  lemma FilterClean(es: seq<Expr>, s: State, w: World, g: Graph)
    ensures Clean(Filter(es), s, w, g) <==> Settles(es, s.row, w)
  {
    if es != [] {
      var e := RebuildFilter(es).value;
      assert Filter(es) == [SPred(e)];
      CleanOne(SPred(e), s, w, g);
    }
  }

  /** After the move, behind the binder of its variable. */
  lemma MovedClean(b: seq<Step>, p: Expr, x: string, es: seq<Expr>, fs: seq<Expr>, s: State, w: World, g: Graph)
    requires Joins(b) && HoistVar(p) == Some(x) && x in s.row && Steady(p, w) && Clean(b + Filter(es), s, w, g)
    requires forall row :: Settles(es, row, w) && Accepts(p, row, w) ==> Settles(fs, row, w)
    ensures Clean([SPred(p)] + (b + Filter(fs)), s, w, g)
  {
    hide Filter, Settles, Steady, HoistVar, Joins, Run;
    SteadyEval(p, x, s.row, w);
    RunExtends(b, s, w, g);
    CleanConcat(b, Filter(es), s, w, g);
    CleanConcat(b, Filter(fs), s, w, g);
    AllCleanIn(Filter(es), Run(b, s, w, g), w, g);
    AllCleanIn(Filter(fs), Run(b, s, w, g), w, g);
    if Accepts(p, s.row, w) {
      forall t | t in Run(b, s, w, g) ensures Clean(Filter(fs), t, w, g) {
        FilterClean(es, t, w, g);
        FilterClean(fs, t, w, g);
        HoistLocal(p, x, s.row, t.row, w);
      }
    }
    var more := b + Filter(fs);
    assert ([SPred(p)] + more)[1..] == more;
  }

  lemma InsertedApart(before: seq<Step>, after: seq<Step>, x: string, p: Expr, k: nat, es: seq<Step>, fs: seq<Step>)
    requires k <= |before| && InsertedAt(before, after, x, p, k)
    ensures var a, b := before[..k], before[k..];
      before + es == a + (b + es) && after + fs == a + ([SPred(p)] + (b + fs))
  {
  }

  lemma InsertedClean(before: seq<Step>, after: seq<Step>, x: string, p: Expr, es: seq<Expr>, fs: seq<Expr>,
                      s: State, w: World, g: Graph)
    requires Inserted(before, after, x, p) && Joins(before) && HoistVar(p) == Some(x) && Steady(p, w)
    requires forall row :: Settles(es, row, w) && Accepts(p, row, w) ==> Settles(fs, row, w)
    requires Clean(before + Filter(es), s, w, g)
    ensures Clean(after + Filter(fs), s, w, g)
  {
    hide Filter, Settles, Steady, HoistVar, Run, Clean, Accepts;
    var k :| 0 <= k <= |before| && InsertedAt(before, after, x, p, k);
    var a, b := before[..k], before[k..];
    assert Joins(a) && Joins(b);
    hide Joins;
    InsertedApart(before, after, x, p, k, Filter(es), Filter(fs));
    BindsAfter(a, x, s, w, g);
    forall t | t in Run(a, s, w, g) && Clean(b + Filter(es), t, w, g)
      ensures Clean([SPred(p)] + (b + Filter(fs)), t, w, g)
    {
      MovedClean(b, p, x, es, fs, t, w, g);
    }
    CleanBehind(a, b + Filter(es), [SPred(p)] + (b + Filter(fs)), s, w, g);
  }

  // ---------- The loop over the conjuncts ----------

  ghost function LoopForm(q: Progress, optional: bool, todo: seq<Expr>): seq<Step> {
    MatchesSteps(q.prev) + ClauseSteps(optional, q.paths, FilterList(RebuildFilter(q.left + todo)))
  }

  /** The node aliases a conjunct can be hoisted to. */
  function NodeNames(p: PathPat): set<string> {
    match p
    case Single(n) => OptVar(n.variable)
    case Chain(_, _, s, es) => OptVar(s.variable) + EdgeTargets(es)
  }

  function PathNames(ps: seq<PathPat>): set<string> {
    if ps == [] then {} else NodeNames(ps[0]) + PathNames(ps[1..])
  }

  function BackNames(prev: seq<MatchCl>): set<string> {
    set c, x | c in prev && !c.optional && x in PathNames(c.paths) :: x
  }

  /** Some pattern of the clause, or of an earlier clause it may use, takes the conjunct. */
  predicate Hoistable(p: Expr, prev: seq<MatchCl>, optional: bool, paths: seq<PathPat>) {
    HoistVar(p).Some? && (HoistVar(p).value in PathNames(paths) || (!optional && HoistVar(p).value in BackNames(prev)))
  }

  lemma {:induction false} HoistEdgesNames(es: seq<EdgePat>, x: string, p: Expr)
    ensures HoistEdges(es, x, p).Some? ==>
      x in EdgeTargets(es) && EdgeTargets(HoistEdges(es, x, p).value) == EdgeTargets(es)
    decreases |es|
  {
    if es != [] {
      HoistEdgesNames(es[1..], x, p);
      var h := HoistEdges(es, x, p);
      if h.Some? {
        assert h.value[1..] == if HoistNode(es[0].target, x, p).Some? then es[1..] else HoistEdges(es[1..], x, p).value;
      }
    }
  }

  lemma HoistPathNames(q: PathPat, x: string, p: Expr)
    ensures HoistPath(q, x, p).Some? ==> x in NodeNames(q) && NodeNames(HoistPath(q, x, p).value) == NodeNames(q)
  {
    if q.Chain? { HoistEdgesNames(q.edges, x, p); }
  }

  lemma {:induction false} HoistPathsNames(ps: seq<PathPat>, x: string, p: Expr)
    ensures HoistPaths(ps, x, p).Some? ==> x in PathNames(ps) && PathNames(HoistPaths(ps, x, p).value) == PathNames(ps)
    decreases |ps|
  {
    if ps != [] {
      HoistPathNames(ps[0], x, p);
      HoistPathsNames(ps[1..], x, p);
      var h := HoistPaths(ps, x, p);
      if h.Some? {
        assert h.value[1..] == if HoistPath(ps[0], x, p).Some? then ps[1..] else HoistPaths(ps[1..], x, p).value;
      }
    }
  }

  lemma BackSnoc(front: seq<MatchCl>, last: MatchCl)
    ensures BackNames(front + [last]) == BackNames(front) + if last.optional then {} else PathNames(last.paths)
  {
  }

  lemma {:induction false} HoistBackNames(prev: seq<MatchCl>, x: string, p: Expr)
    ensures HoistBack(prev, x, p).Some? ==>
      x in BackNames(prev) && BackNames(HoistBack(prev, x, p).value) == BackNames(prev)
    decreases |prev|
  {
    if prev != [] {
      hide BackNames;
      var front, last := prev[..|prev| - 1], prev[|prev| - 1];
      assert prev == front + [last];
      HoistBackNames(front, x, p);
      HoistPathsNames(last.paths, x, p);
      BackSnoc(front, last);
      if !last.optional && HoistPaths(last.paths, x, p).Some? {
        BackSnoc(front, last.(paths := HoistPaths(last.paths, x, p).value));
      } else if HoistBack(front, x, p).Some? {
        BackSnoc(HoistBack(front, x, p).value, last);
      }
    }
  }

  lemma PushOneNames(q: Progress, optional: bool, p: Expr)
    ensures var r := PushOne(q, optional, p);
      PathNames(r.paths) == PathNames(q.paths) && BackNames(r.prev) == BackNames(q.prev)
    ensures PushOne(q, optional, p) != q.(left := q.left + [p]) ==> Hoistable(p, q.prev, optional, q.paths)
  {
    hide PathNames, BackNames;
    var x := HoistVar(p);
    if x.Some? {
      HoistPathsNames(q.paths, x.value, p);
      HoistBackNames(q.prev, x.value, p);
    }
  }

  lemma ClauseClean(optional: bool, p1: seq<PathPat>, f1: seq<Expr>, p2: seq<PathPat>, f2: seq<Expr>,
                    s: State, w: World, g: Graph)
    requires Clean(PathsSteps(p1) + Preds(f1), s, w, g) ==> Clean(PathsSteps(p2) + Preds(f2), s, w, g)
    ensures Clean(ClauseSteps(optional, p1, f1), s, w, g) ==> Clean(ClauseSteps(optional, p2, f2), s, w, g)
  {
    hide PathsSteps, PathsVars, Preds;
    if optional {
      CleanOne(SOptional(PathsSteps(p1) + Preds(f1), PathsVars(p1)), s, w, g);
      CleanOne(SOptional(PathsSteps(p2) + Preds(f2), PathsVars(p2)), s, w, g);
    }
  }

  /** Hoisting into a pattern of the same clause. */
  lemma HereClean(q: Progress, optional: bool, p: Expr, rest: seq<Expr>, x: string, s: State, w: World, g: Graph)
    requires HoistVar(p) == Some(x) && HoistPaths(q.paths, x, p).Some? && Steady(p, w)
    requires Clean(LoopForm(q, optional, [p] + rest), s, w, g)
    ensures Clean(LoopForm(q.(paths := HoistPaths(q.paths, x, p).value), optional, rest), s, w, g)
  {
    var paths' := HoistPaths(q.paths, x, p).value;
    var es, fs := q.left + ([p] + rest), q.left + rest;
    var f1, f2 := FilterList(RebuildFilter(es)), FilterList(RebuildFilter(fs));
    HoistPathsInserts(q.paths, x, p);
    PathsJoin(q.paths);
    hide PathsSteps, HoistPaths, Inserted, Joins, Clean, Run, Settles, Accepts, MatchesSteps, ClauseSteps, Steady,
      HoistVar;
    forall row | Settles(es, row, w) && Accepts(p, row, w) ensures Settles(fs, row, w) {
      SettlesWithout(q.left, p, rest, row, w);
    }
    var a, b := ClauseSteps(optional, q.paths, f1), ClauseSteps(optional, paths', f2);
    forall t | t in Run(MatchesSteps(q.prev), s, w, g) && Clean(a, t, w, g) ensures Clean(b, t, w, g) {
      if Clean(PathsSteps(q.paths) + Filter(es), t, w, g) {
        InsertedClean(PathsSteps(q.paths), PathsSteps(paths'), x, p, es, fs, t, w, g);
      }
      ClauseClean(optional, q.paths, f1, paths', f2, t, w, g);
    }
    CleanBehind(MatchesSteps(q.prev), a, b, s, w, g);
  }

  /** Hoisting into an earlier clause. */
  lemma BackClean(q: Progress, p: Expr, rest: seq<Expr>, x: string, s: State, w: World, g: Graph)
    requires HoistVar(p) == Some(x) && HoistBack(q.prev, x, p).Some? && Steady(p, w)
    requires Clean(LoopForm(q, false, [p] + rest), s, w, g)
    ensures Clean(LoopForm(q.(prev := HoistBack(q.prev, x, p).value), false, rest), s, w, g)
  {
    var prev' := HoistBack(q.prev, x, p).value;
    var es, fs := q.left + ([p] + rest), q.left + rest;
    var a, b, c := MatchesSteps(q.prev), MatchesSteps(prev'), PathsSteps(q.paths);
    HoistBackInserts(q.prev, x, p);
    MatchesJoin(q.prev);
    PathsJoin(q.paths);
    hide PathsSteps, HoistBack, Inserted, Joins, Clean, Run, Settles, Accepts, MatchesSteps, Steady, HoistVar, Preds;
    JoinsConcat(a, c);
    InsertedRight(a, b, c, x, p);
    forall row | Settles(es, row, w) && Accepts(p, row, w) ensures Settles(fs, row, w) {
      SettlesWithout(q.left, p, rest, row, w);
    }
    StepsAssoc(a, c, Filter(es));
    StepsAssoc(b, c, Filter(fs));
    InsertedClean(a + c, b + c, x, p, es, fs, s, w, g);
  }

  lemma PushOneClean(q: Progress, optional: bool, p: Expr, rest: seq<Expr>, s: State, w: World, g: Graph)
    requires Hoistable(p, q.prev, optional, q.paths) ==> Steady(p, w)
    requires Clean(LoopForm(q, optional, [p] + rest), s, w, g)
    ensures Clean(LoopForm(PushOne(q, optional, p), optional, rest), s, w, g)
  {
    hide Clean, LoopForm, Hoistable, Steady;
    PushOneNames(q, optional, p);
    var x := HoistVar(p);
    if x.Some? && HoistPaths(q.paths, x.value, p).Some? {
      if q.(paths := HoistPaths(q.paths, x.value, p).value) == q.(left := q.left + [p]) { NotLonger(q.left, p); }
      HereClean(q, optional, p, rest, x.value, s, w, g);
    } else if x.Some? && !optional && HoistBack(q.prev, x.value, p).Some? {
      if q.(prev := HoistBack(q.prev, x.value, p).value) == q.(left := q.left + [p]) { NotLonger(q.left, p); }
      BackClean(q, p, rest, x.value, s, w, g);
    } else {
      Regrouped(q, optional, p, rest);
    }
  }

  lemma NotLonger(es: seq<Expr>, p: Expr)
    ensures es + [p] != es
  {
    assert |es + [p]| == |es| + 1;
  }

  lemma Regrouped(q: Progress, optional: bool, p: Expr, rest: seq<Expr>)
    ensures LoopForm(q.(left := q.left + [p]), optional, rest) == LoopForm(q, optional, [p] + rest)
  {
    assert q.left + ([p] + rest) == q.left + [p] + rest;
  }

  lemma {:induction false} PushAllClean(q: Progress, optional: bool, ps: seq<Expr>, s: State, w: World, g: Graph)
    requires forall p :: p in ps && Hoistable(p, q.prev, optional, q.paths) ==> Steady(p, w)
    requires Clean(LoopForm(q, optional, ps), s, w, g)
    ensures Clean(LoopForm(PushAll(q, optional, ps), optional, []), s, w, g)
    decreases |ps|
  {
    hide Clean, LoopForm, Steady, PathNames, BackNames;
    if ps != [] {
      assert [ps[0]] + ps[1..] == ps;
      PushOneClean(q, optional, ps[0], ps[1..], s, w, g);
      PushOneNames(q, optional, ps[0]);
      PushAllClean(PushOne(q, optional, ps[0]), optional, ps[1..], s, w, g);
    }
  }

  lemma {:induction false} PushAllNames(q: Progress, optional: bool, ps: seq<Expr>)
    ensures var r := PushAll(q, optional, ps);
      PathNames(r.paths) == PathNames(q.paths) && BackNames(r.prev) == BackNames(q.prev)
    decreases |ps|
  {
    hide PathNames, BackNames;
    if ps != [] {
      PushOneNames(q, optional, ps[0]);
      PushAllNames(PushOne(q, optional, ps[0]), optional, ps[1..]);
    }
  }

  // ---------- The clauses ----------

  /** Every conjunct of the clause that is hoisted compares with a constant that has a value. */
  ghost predicate ClauseSteady(prev: seq<MatchCl>, c: MatchCl, w: World) {
    c.filter.Some? ==>
      forall p :: p in Conjuncts(c.filter.value) && Hoistable(p, prev, c.optional, c.paths) ==> Steady(p, w)
  }

  ghost predicate HoistsSteady(done: seq<MatchCl>, rest: seq<MatchCl>, w: World) {
    forall k :: 0 <= k < |rest| ==> ClauseSteady(done + rest[..k], rest[k], w)
  }

  lemma PushClauseNames(prev: seq<MatchCl>, c: MatchCl)
    ensures BackNames(PushClause(prev, c)) == BackNames(prev + [c])
  {
    hide BackNames, PathNames;
    BackSnoc(prev, c);
    if c.filter.Some? {
      var q := Progress(prev, c.paths, []);
      var r := PushAll(q, c.optional, Conjuncts(c.filter.value));
      PushAllNames(q, c.optional, Conjuncts(c.filter.value));
      BackSnoc(r.prev, MatchCl(c.optional, r.paths, RebuildFilter(r.left)));
    }
  }

  lemma PushClauseClean(prev: seq<MatchCl>, c: MatchCl, s: State, w: World, g: Graph)
    requires ClauseSteady(prev, c, w) && Clean(MatchesSteps(prev + [c]), s, w, g)
    ensures Clean(MatchesSteps(PushClause(prev, c)), s, w, g)
  {
    hide Clean, MatchesSteps, Run, PathsSteps, Settles, Steady, Hoistable;
    MatchesSnoc(prev, c);
    if c.filter.Some? {
      var cs := Conjuncts(c.filter.value);
      var q := Progress(prev, c.paths, []);
      var r := PushAll(q, c.optional, cs);
      var c' := MatchCl(c.optional, r.paths, RebuildFilter(r.left));
      MatchesSnoc(r.prev, c');
      assert [] + cs == cs && r.left + [] == r.left;
      forall t | t in Run(MatchesSteps(prev), s, w, g) && Clean(MatchSteps(c), t, w, g)
        ensures Clean(ClauseSteps(c.optional, c.paths, FilterList(RebuildFilter(cs))), t, w, g)
      {
        ConjunctsClean(c, t, w, g);
      }
      CleanBehind(MatchesSteps(prev), MatchSteps(c), ClauseSteps(c.optional, c.paths, FilterList(RebuildFilter(cs))),
                  s, w, g);
      PushAllClean(q, c.optional, cs, s, w, g);
    }
  }

  /** The filter of a clause split into its conjuncts and put together again. */
  lemma ConjunctsClean(c: MatchCl, s: State, w: World, g: Graph)
    requires c.filter.Some? && Clean(MatchSteps(c), s, w, g)
    ensures Clean(ClauseSteps(c.optional, c.paths, FilterList(RebuildFilter(Conjuncts(c.filter.value)))), s, w, g)
  {
    hide Clean, PathsSteps, Run, Settles;
    var e, a := c.filter.value, PathsSteps(c.paths);
    var cs := Conjuncts(e);
    assert Preds(FilterList(c.filter)) == [SPred(e)];
    if Clean(a + [SPred(e)], s, w, g) {
      forall t | t in Run(a, s, w, g) && Clean([SPred(e)], t, w, g) ensures Clean(Filter(cs), t, w, g) {
        CleanOne(SPred(e), t, w, g);
        ConjunctsSettle(e, t.row, w);
        FilterClean(cs, t, w, g);
      }
      CleanBehind(a, [SPred(e)], Filter(cs), s, w, g);
    }
    ClauseClean(c.optional, c.paths, FilterList(c.filter), c.paths, FilterList(RebuildFilter(cs)), s, w, g);
  }

  lemma {:induction false} PushMatchesClean(done: seq<MatchCl>, rest: seq<MatchCl>, s: State, w: World, g: Graph)
    requires HoistsSteady(done, rest, w) && Clean(MatchesSteps(done + rest), s, w, g)
    ensures Clean(MatchesSteps(PushMatches(done, rest)), s, w, g)
    decreases |rest|
  {
    hide Clean, AllClean, Run, MatchesSteps, PushClause, HoistsSteady, ClauseSteady;
    if rest == [] {
      assert done + rest == done;
    } else {
      var c, more := rest[0], rest[1..];
      var done' := PushClause(done, c);
      assert done + rest == (done + [c]) + more;
      SteadyFirst(done, rest, w);
      SteadyRest(done, rest, w);
      MatchesStepsConcat(done', more);
      MatchesStepsConcat(done + [c], more);
      PushClauseSame(done, c, s, w, g);
      CleanConcat(MatchesSteps(done + [c]), MatchesSteps(more), s, w, g);
      PushClauseClean(done, c, s, w, g);
      CleanAhead(MatchesSteps(done + [c]), MatchesSteps(done'), MatchesSteps(more), s, w, g);
      PushMatchesClean(done', more, s, w, g);
    }
  }

  lemma SteadyFirst(done: seq<MatchCl>, rest: seq<MatchCl>, w: World)
    requires rest != [] && HoistsSteady(done, rest, w)
    ensures ClauseSteady(done, rest[0], w)
  {
    assert done + rest[..0] == done;
    assert ClauseSteady(done + rest[..0], rest[0], w);
  }

  lemma SteadyRest(done: seq<MatchCl>, rest: seq<MatchCl>, w: World)
    requires rest != [] && HoistsSteady(done, rest, w)
    ensures HoistsSteady(PushClause(done, rest[0]), rest[1..], w)
  {
    var done', more := PushClause(done, rest[0]), rest[1..];
    PushClauseNames(done, rest[0]);
    hide BackNames, PathNames, Steady, PushClause;
    forall k | 0 <= k < |more| ensures ClauseSteady(done' + more[..k], more[k], w) {
      assert ClauseSteady(done + rest[..k + 1], rest[k + 1], w);
      assert done + rest[..k + 1] == (done + [rest[0]]) + more[..k];
      BackJoin(done', more[..k]);
      BackJoin(done + [rest[0]], more[..k]);
    }
  }

  lemma BackJoin(a: seq<MatchCl>, b: seq<MatchCl>)
    ensures BackNames(a + b) == BackNames(a) + BackNames(b)
  {
  }

  /** Pushdown brings in no error when every hoisted equality compares with a constant that has a value. */
  lemma PushdownSteady(cs: seq<MatchCl>, s: State, w: World, g: Graph)
    requires HoistsSteady([], cs, w) && Clean(MatchesSteps(cs), s, w, g)
    ensures Clean(MatchesSteps(PushMatches([], cs)), s, w, g)
  {
    hide Clean, MatchesSteps, PushMatches, HoistsSteady;
    assert [] + cs == cs;
    PushMatchesClean([], cs, s, w, g);
  }
}
