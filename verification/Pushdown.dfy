/** Predicate pushdown: equality filters move from WHERE into node patterns, and no row changes. */
module Pushdown {
  import opened Common
  import opened Ast
  import opened Trees
  import opened Semantics
  import opened Clauses
  import opened Matching
  import opened Folding

  // ---------- What the pass does to the clauses ----------

  /** `collect_conjuncts`: the AND tree flattened, literal true dropped. */
  function Conjuncts(e: Expr): seq<Expr> {
    if e.EBin? && e.op == And then Conjuncts(e.left) + Conjuncts(e.right)
    else if IsBool(e, true) then []
    else [e]
  }

  /** `is_constant_expression`. */
  predicate IsConstant(e: Expr) {
    match e
    case ELit(_) => true
    case EParam(_) => true
    case ECall(_, args) => forall k :: 0 <= k < |args| ==> IsConstant(args[k])
    case EUn(_, x) => IsConstant(x)
    case EListLit(es) => forall k :: 0 <= k < |es| ==> IsConstant(es[k])
    case _ => false
  }

  function VariableName(e: Expr): Option<string> {
    if e.EIdent? then Some(e.name) else None
  }

  /** `extract_single_node_equality_var`: the variable of `x.p = constant`. */
  function HoistVar(e: Expr): Option<string> {
    if !e.EBin? || e.op != Eq then None
    else if e.left.EProp? && IsConstant(e.right) then VariableName(e.left.target)
    else if e.right.EProp? && IsConstant(e.left) then VariableName(e.right.target)
    else None
  }

  function HoistNode(n: NodePat, x: string, p: Expr): Option<NodePat> {
    if n.variable == Some(x) then Some(n.(preds := n.preds + [p])) else None
  }

  function HoistEdges(es: seq<EdgePat>, x: string, p: Expr): Option<seq<EdgePat>> {
    if es == [] then None
    else
      var t := HoistNode(es[0].target, x, p);
      if t.Some? then Some([es[0].(target := t.value)] + es[1..])
      else
        var rest := HoistEdges(es[1..], x, p);
        if rest.Some? then Some([es[0]] + rest.value) else None
  }

  /** `hoist_predicate_to_path`: the first node pattern named `x`. */
  function HoistPath(path: PathPat, x: string, p: Expr): Option<PathPat> {
    match path
    case Single(n) =>
      var h := HoistNode(n, x, p);
      if h.Some? then Some(Single(h.value)) else None
    case Chain(v, m, s, es) =>
      var h := HoistNode(s, x, p);
      if h.Some? then Some(Chain(v, m, h.value, es))
      else
        var rest := HoistEdges(es, x, p);
        if rest.Some? then Some(Chain(v, m, s, rest.value)) else None
  }

  function HoistPaths(paths: seq<PathPat>, x: string, p: Expr): Option<seq<PathPat>> {
    if paths == [] then None
    else
      var h := HoistPath(paths[0], x, p);
      if h.Some? then Some([h.value] + paths[1..])
      else
        var rest := HoistPaths(paths[1..], x, p);
        if rest.Some? then Some([paths[0]] + rest.value) else None
  }

  /** The preceding clauses, nearest first, optional ones skipped. */
  function HoistBack(prev: seq<MatchCl>, x: string, p: Expr): Option<seq<MatchCl>> {
    if prev == [] then None
    else
      var front, last := prev[..|prev| - 1], prev[|prev| - 1];
      var h := if last.optional then None else HoistPaths(last.paths, x, p);
      if h.Some? then Some(front + [last.(paths := h.value)])
      else
        var rest := HoistBack(front, x, p);
        if rest.Some? then Some(rest.value + [last]) else None
  }

  /** The loop over the conjuncts: preceding clauses, paths of this clause, filters left over. */
  datatype Progress = Progress(prev: seq<MatchCl>, paths: seq<PathPat>, left: seq<Expr>)

  function PushOne(g: Progress, optional: bool, p: Expr): Progress {
    var x := HoistVar(p);
    if x.None? then g.(left := g.left + [p])
    else
      var h := HoistPaths(g.paths, x.value, p);
      if h.Some? then g.(paths := h.value)
      else
        var b := if optional then None else HoistBack(g.prev, x.value, p);
        if b.Some? then g.(prev := b.value) else g.(left := g.left + [p])
  }

  function PushAll(g: Progress, optional: bool, ps: seq<Expr>): Progress
    decreases |ps|
  {
    if ps == [] then g else PushAll(PushOne(g, optional, ps[0]), optional, ps[1..])
  }

  /** `build_conjunction_tree`: a left-deep AND, or no WHERE at all. */
  function Conjoin(acc: Expr, es: seq<Expr>): Expr
    decreases |es|
  {
    if es == [] then acc else Conjoin(EBin(And, acc, es[0]), es[1..])
  }

  function RebuildFilter(es: seq<Expr>): Option<Expr> {
    if es == [] then None else Some(Conjoin(es[0], es[1..]))
  }

  /** `optimize_match_clause`: the clause and the ones before it. */
  function PushClause(prev: seq<MatchCl>, c: MatchCl): seq<MatchCl> {
    if c.filter.None? then prev + [c]
    else
      var g := PushAll(Progress(prev, c.paths, []), c.optional, Conjuncts(c.filter.value));
      g.prev + [MatchCl(c.optional, g.paths, RebuildFilter(g.left))]
  }

  /** The MATCH part of `optimize_statement`. */
  function PushMatches(done: seq<MatchCl>, rest: seq<MatchCl>): seq<MatchCl>
    decreases |rest|
  {
    if rest == [] then done else PushMatches(PushClause(done, rest[0]), rest[1..])
  }

  // ---------- Filters ----------

  ghost predicate AcceptsAll(es: seq<Expr>, row: Row, w: World) {
    forall k :: 0 <= k < |es| ==> Accepts(es[k], row, w)
  }

  lemma AcceptsConcat(a: seq<Expr>, b: seq<Expr>, row: Row, w: World)
    ensures AcceptsAll(a + b, row, w) <==> AcceptsAll(a, row, w) && AcceptsAll(b, row, w)
  {
    assert forall k :: 0 <= k < |a| ==> (a + b)[k] == a[k];
    assert forall k :: 0 <= k < |b| ==> (a + b)[|a| + k] == b[k];
  }

  lemma {:induction false} ConjunctsAccept(e: Expr, row: Row, w: World)
    ensures Accepts(e, row, w) <==> AcceptsAll(Conjuncts(e), row, w)
  {
    if e.EBin? && e.op == And {
      ConjunctsAccept(e.left, row, w);
      ConjunctsAccept(e.right, row, w);
      AcceptsConcat(Conjuncts(e.left), Conjuncts(e.right), row, w);
    } else if !IsBool(e, true) {
      assert Conjuncts(e)[0] == e;
    }
  }

  lemma {:induction false} RunPreds(es: seq<Expr>, s: State, w: World, g: Graph)
    ensures Run(Preds(es), s, w, g) == if AcceptsAll(es, s.row, w) then [s] else []
    decreases |es|
  {
    if es != [] {
      assert Preds(es)[1..] == Preds(es[1..]);
      assert forall k :: 1 <= k < |es| ==> es[1..][k - 1] == es[k];
      RunPreds(es[1..], s, w, g);
      RunAllOne(Preds(es[1..]), s, w, g);
      if AcceptsAll(es, s.row, w) {
        assert Accepts(es[0], s.row, w) && AcceptsAll(es[1..], s.row, w);
      } else if Accepts(es[0], s.row, w) {
        assert !AcceptsAll(es[1..], s.row, w);
      }
    }
  }

  lemma {:induction false} ConjoinAccepts(acc: Expr, es: seq<Expr>, row: Row, w: World)
    ensures Accepts(Conjoin(acc, es), row, w) <==> Accepts(acc, row, w) && AcceptsAll(es, row, w)
    decreases |es|
  {
    if es != [] {
      ConjoinAccepts(EBin(And, acc, es[0]), es[1..], row, w);
      assert forall k :: 1 <= k < |es| ==> es[1..][k - 1] == es[k];
      assert Accepts(EBin(And, acc, es[0]), row, w) <==> Accepts(acc, row, w) && Accepts(es[0], row, w);
    }
  }

  lemma RebuildAccepts(es: seq<Expr>, row: Row, w: World)
    ensures AcceptsAll(FilterList(RebuildFilter(es)), row, w) <==> AcceptsAll(es, row, w)
  {
    if es != [] {
      ConjoinAccepts(es[0], es[1..], row, w);
      assert forall k :: 1 <= k < |es| ==> es[1..][k - 1] == es[k];
      assert FilterList(RebuildFilter(es)) == [Conjoin(es[0], es[1..])];
      assert AcceptsAll(FilterList(RebuildFilter(es)), row, w) <==> Accepts(FilterList(RebuildFilter(es))[0], row, w);
    }
  }

  // ---------- Predicates about one variable ----------

  lemma {:induction false} ConstantEval(e: Expr, r1: Row, r2: Row, w: World)
    requires IsConstant(e)
    ensures Eval(e, r1, w) == Eval(e, r2, w)
    decreases e, 1
  {
    match e
    case ECall(_, args) => ConstantEvalAll(args, r1, r2, w);
    case EListLit(es) => ConstantEvalAll(es, r1, r2, w);
    case EUn(_, x) => ConstantEval(x, r1, r2, w);
    case _ =>
  }

  lemma {:induction false} ConstantEvalAll(es: seq<Expr>, r1: Row, r2: Row, w: World)
    requires forall k :: 0 <= k < |es| ==> IsConstant(es[k])
    ensures EvalAll(es, r1, w) == EvalAll(es, r2, w)
    decreases es, 0
  {
    if es != [] {
      ConstantEval(es[0], r1, r2, w);
      ConstantEvalAll(es[1..], r1, r2, w);
    }
  }

  /** A hoistable predicate reads nothing of the row but its own variable. */
  lemma HoistLocal(p: Expr, x: string, r1: Row, r2: Row, w: World)
    requires HoistVar(p) == Some(x) && x in r1 && x in r2 && r1[x] == r2[x]
    ensures Accepts(p, r1, w) == Accepts(p, r2, w)
  {
    if p.left.EProp? && IsConstant(p.right) {
      ConstantEval(p.right, r1, r2, w);
      assert Eval(p.left.target, r1, w) == Eval(p.left.target, r2, w);
      assert Eval(p.left, r1, w) == Eval(p.left, r2, w);
    } else {
      ConstantEval(p.left, r1, r2, w);
      assert Eval(p.right.target, r1, w) == Eval(p.right.target, r2, w);
      assert Eval(p.right, r1, w) == Eval(p.right, r2, w);
    }
  }

  // ---------- Matching steps only add bindings ----------

  predicate Joins(steps: seq<Step>)
    decreases steps
  {
    forall k :: 0 <= k < |steps| ==> StepJoins(steps[k])
  }

  predicate StepJoins(st: Step)
    decreases st
  {
    match st
    case SUnwind(_, _) => false
    case SLet(_, _) => false
    case SOptional(inner, _) => Joins(inner)
    case _ => true
  }

  ghost predicate Extends(r: Row, r': Row) {
    forall y :: y in r ==> y in r' && r'[y] == r[y]
  }

  lemma {:induction false} AdvanceExtends(st: Step, s: State, w: World, g: Graph)
    requires StepJoins(st)
    ensures forall t :: t in Advance(st, s, w, g) ==> Extends(s.row, t.row)
    decreases st, 0
  {
    if st.SOptional? {
      RunExtends(st.inner, s, w, g);
    }
  }

  lemma {:induction false} RunExtends(steps: seq<Step>, s: State, w: World, g: Graph)
    requires Joins(steps)
    ensures forall t :: t in Run(steps, s, w, g) ==> Extends(s.row, t.row)
    decreases steps, 0, 0
  {
    if steps != [] {
      AdvanceExtends(steps[0], s, w, g);
      RunAllExtends(steps[1..], Advance(steps[0], s, w, g), s.row, w, g);
    }
  }

  lemma {:induction false} RunAllExtends(steps: seq<Step>, ss: seq<State>, row: Row, w: World, g: Graph)
    requires Joins(steps) && forall s :: s in ss ==> Extends(row, s.row)
    ensures forall t :: t in RunAll(steps, ss, w, g) ==> Extends(row, t.row)
    decreases steps, 1, |ss|
  {
    if ss != [] {
      RunExtends(steps, ss[0], w, g);
      RunAllExtends(steps, ss[1..], row, w, g);
      forall t | t in RunAll(steps, ss, w, g)
        ensures Extends(row, t.row)
      {
        if t in Run(steps, ss[0], w, g) { assert Extends(ss[0].row, t.row); }
      }
    }
  }

  /** After a step `SHere(x)`, every state has `x` bound. */
  lemma BindsAfter(steps: seq<Step>, x: string, s: State, w: World, g: Graph)
    requires Joins(steps) && SHere(x) in steps
    ensures forall t :: t in Run(steps, s, w, g) ==> x in t.row
  {
    var k :| 0 <= k < |steps| && steps[k] == SHere(x);
    var a, b := steps[..k + 1], steps[k + 1..];
    assert steps == a + b;
    RunConcat(a, b, s, w, g);
    BoundAtEnd(a, x, s, w, g);
    BoundStays(b, x, Run(a, s, w, g), w, g);
  }

  lemma BoundAtEnd(a: seq<Step>, x: string, s: State, w: World, g: Graph)
    requires a != [] && a[|a| - 1] == SHere(x)
    ensures forall t :: t in Run(a, s, w, g) ==> x in t.row
  {
    var front := a[..|a| - 1];
    assert a == front + [SHere(x)];
    RunConcat(front, [SHere(x)], s, w, g);
    BindAll(x, Run(front, s, w, g), w, g);
  }

  lemma {:induction false} BindAll(x: string, ss: seq<State>, w: World, g: Graph)
    ensures forall t :: t in RunAll([SHere(x)], ss, w, g) ==> x in t.row
    decreases |ss|
  {
    if ss != [] {
      BindAll(x, ss[1..], w, g);
      RunSingle(SHere(x), ss[0], w, g);
    }
  }

  lemma RunSingle(st: Step, s: State, w: World, g: Graph)
    ensures Run([st], s, w, g) == Advance(st, s, w, g)
  {
    assert [st][1..] == [];
    RunAllEmpty(Advance(st, s, w, g), w, g);
  }

  lemma {:induction false} RunAllEmpty(ss: seq<State>, w: World, g: Graph)
    ensures RunAll([], ss, w, g) == ss
    decreases |ss|
  {
    if ss != [] {
      RunAllEmpty(ss[1..], w, g);
      assert [ss[0]] + ss[1..] == ss;
    }
  }

  lemma {:induction false} BoundStays(steps: seq<Step>, x: string, ss: seq<State>, w: World, g: Graph)
    requires Joins(steps) && forall s :: s in ss ==> x in s.row
    ensures forall t :: t in RunAll(steps, ss, w, g) ==> x in t.row
    decreases |ss|
  {
    if ss != [] {
      RunExtends(steps, ss[0], w, g);
      BoundStays(steps, x, ss[1..], w, g);
    }
  }

  // ---------- Moving one predicate ----------

  lemma {:induction false} FilterUniform(p: Expr, ss: seq<State>, keep: bool, w: World, g: Graph)
    requires forall s :: s in ss ==> Accepts(p, s.row, w) == keep
    ensures RunAll([SPred(p)], ss, w, g) == if keep then ss else []
    decreases |ss|
  {
    if ss != [] {
      RunSingle(SPred(p), ss[0], w, g);
      FilterUniform(p, ss[1..], keep, w, g);
      assert [ss[0]] + ss[1..] == ss;
    }
  }

  /** Where `x` is bound, a predicate about `x` may run before or after other matching steps. */
  lemma Commute(b: seq<Step>, p: Expr, x: string, s: State, w: World, g: Graph)
    requires Joins(b) && HoistVar(p) == Some(x) && x in s.row
    ensures Run(b + [SPred(p)], s, w, g) == Run([SPred(p)] + b, s, w, g)
  {
    RunConcat(b, [SPred(p)], s, w, g);
    RunConcat([SPred(p)], b, s, w, g);
    RunSingle(SPred(p), s, w, g);
    RunExtends(b, s, w, g);
    forall t | t in Run(b, s, w, g)
      ensures Accepts(p, t.row, w) == Accepts(p, s.row, w)
    {
      HoistLocal(p, x, s.row, t.row, w);
    }
    FilterUniform(p, Run(b, s, w, g), Accepts(p, s.row, w), w, g);
    RunAllOne(b, s, w, g);
  }

  /** `after` is `before` with the predicate inserted somewhere behind a binder of `x`. */
  ghost predicate Inserted(before: seq<Step>, after: seq<Step>, x: string, p: Expr) {
    exists k :: 0 <= k <= |before| && InsertedAt(before, after, x, p, k)
  }

  ghost predicate InsertedAt(before: seq<Step>, after: seq<Step>, x: string, p: Expr, k: nat)
    requires k <= |before|
  {
    after == before[..k] + [SPred(p)] + before[k..] && SHere(x) in before[..k]
  }

  lemma InsertedWithin(pre: seq<Step>, before: seq<Step>, after: seq<Step>, post: seq<Step>, x: string, p: Expr)
    requires Inserted(before, after, x, p)
    ensures Inserted(pre + before + post, pre + after + post, x, p)
  {
    var k :| 0 <= k <= |before| && InsertedAt(before, after, x, p, k);
    var whole := pre + before + post;
    assert whole[..|pre| + k] == pre + before[..k];
    assert whole[|pre| + k..] == before[k..] + post;
    assert pre + after + post == (pre + before[..k]) + [SPred(p)] + (before[k..] + post);
    assert InsertedAt(whole, pre + after + post, x, p, |pre| + k);
  }

  lemma InsertedLeft(pre: seq<Step>, before: seq<Step>, after: seq<Step>, x: string, p: Expr)
    requires Inserted(before, after, x, p)
    ensures Inserted(pre + before, pre + after, x, p)
  {
    InsertedWithin(pre, before, after, [], x, p);
    assert pre + before + [] == pre + before && pre + after + [] == pre + after;
  }

  lemma InsertedRight(before: seq<Step>, after: seq<Step>, post: seq<Step>, x: string, p: Expr)
    requires Inserted(before, after, x, p)
    ensures Inserted(before + post, after + post, x, p)
  {
    InsertedWithin([], before, after, post, x, p);
    assert [] + before == before && [] + after == after;
  }

  lemma InsertedRuns(before: seq<Step>, after: seq<Step>, x: string, p: Expr, s: State, w: World, g: Graph)
    requires Inserted(before, after, x, p) && Joins(before) && HoistVar(p) == Some(x)
    ensures Run(after, s, w, g) == Run(before + [SPred(p)], s, w, g)
  {
    var k :| 0 <= k <= |before| && InsertedAt(before, after, x, p, k);
    var a, b := before[..k], before[k..];
    assert before + [SPred(p)] == a + (b + [SPred(p)]);
    assert after == a + ([SPred(p)] + b);
    RunConcat(a, b + [SPred(p)], s, w, g);
    RunConcat(a, [SPred(p)] + b, s, w, g);
    BindsAfter(a, x, s, w, g);
    forall t | t in Run(a, s, w, g)
      ensures Run([SPred(p)] + b, t, w, g) == Run(b + [SPred(p)], t, w, g)
    {
      Commute(b, p, x, t, w, g);
    }
    RunAllSame([SPred(p)] + b, b + [SPred(p)], Run(a, s, w, g), w, g);
  }

  // ---------- Hoisting inserts ----------

  lemma PredsAppend(es: seq<Expr>, p: Expr)
    ensures Preds(es + [p]) == Preds(es) + [SPred(p)]
  {
  }

  lemma HoistNodeInserts(n: NodePat, x: string, p: Expr)
    requires HoistNode(n, x, p).Some?
    ensures Inserted(NodeSteps(n), NodeSteps(HoistNode(n, x, p).value), x, p)
  {
    var before := NodeSteps(n);
    PredsAppend(n.preds, p);
    var after := NodeSteps(HoistNode(n, x, p).value);
    assert after == before + [SPred(p)];
    assert before[..|before|] == before && before[|before|..] == [];
    assert before[0] == SHere(x);
    assert InsertedAt(before, after, x, p, |before|);
  }

  lemma {:induction false} HoistEdgesInserts(es: seq<EdgePat>, x: string, p: Expr)
    requires HoistEdges(es, x, p).Some?
    ensures Inserted(EdgesSteps(es), EdgesSteps(HoistEdges(es, x, p).value), x, p)
    decreases |es|
  {
    var hs := HoistEdges(es, x, p).value;
    assert hs[1..] == if HoistNode(es[0].target, x, p).Some? then es[1..] else HoistEdges(es[1..], x, p).value;
    if HoistNode(es[0].target, x, p).Some? {
      HoistNodeInserts(es[0].target, x, p);
      var e := es[0];
      var front := [SHop(e.spec)] + (if e.variable.Some? then [SEdge(e.variable.value)] else []) + Preds(e.preds);
      InsertedWithin(front, NodeSteps(e.target), NodeSteps(hs[0].target), EdgesSteps(es[1..]), x, p);
    } else {
      HoistEdgesInserts(es[1..], x, p);
      InsertedWithin(EdgeSteps(es[0]), EdgesSteps(es[1..]), EdgesSteps(hs[1..]), [], x, p);
      assert EdgesSteps(es) == EdgeSteps(es[0]) + EdgesSteps(es[1..]) + [];
      assert EdgesSteps(hs) == EdgeSteps(es[0]) + EdgesSteps(hs[1..]) + [];
    }
  }

  function ChainEnd(m: PathMode, v: Option<string>): seq<Step> {
    [SMode(m)] + (if v.Some? then [SPath(v.value)] else []) + [SLeave]
  }

  lemma HoistPathInserts(path: PathPat, x: string, p: Expr)
    requires HoistPath(path, x, p).Some?
    ensures Inserted(PathSteps(path), PathSteps(HoistPath(path, x, p).value), x, p)
    ensures PathVars(HoistPath(path, x, p).value) == PathVars(path)
  {
    var h := HoistPath(path, x, p).value;
    match path
    case Single(n) =>
      HoistNodeInserts(n, x, p);
      hide Inserted, NodeSteps;
      InsertedWithin([SEnter], NodeSteps(n), NodeSteps(h.node), [SLeave], x, p);
    case Chain(v, m, s, es) =>
      if HoistNode(s, x, p).Some? {
        HoistNodeInserts(s, x, p);
        var tail := ChainEnd(m, v);
        hide Inserted, NodeSteps, EdgesSteps, ChainEnd;
        InsertedWithin([SEnter], NodeSteps(s), NodeSteps(h.start), EdgesSteps(es) + tail, x, p);
        ChainSteps(v, m, s, es);
        ChainSteps(v, m, h.start, es);
      } else {
        HoistEdgesInserts(es, x, p);
        HoistEdgesVars(es, x, p);
        var tail := ChainEnd(m, v);
        hide Inserted, NodeSteps, EdgesSteps, ChainEnd;
        InsertedWithin([SEnter] + NodeSteps(s), EdgesSteps(es), EdgesSteps(h.edges), tail, x, p);
        ChainSteps(v, m, s, es);
        ChainSteps(v, m, s, h.edges);
      }
  }

  lemma ChainSteps(v: Option<string>, m: PathMode, s: NodePat, es: seq<EdgePat>)
    ensures PathSteps(Chain(v, m, s, es)) == [SEnter] + NodeSteps(s) + (EdgesSteps(es) + ChainEnd(m, v))
    ensures PathSteps(Chain(v, m, s, es)) == [SEnter] + NodeSteps(s) + EdgesSteps(es) + ChainEnd(m, v)
  {
    hide NodeSteps, EdgesSteps;
    assert [SEnter] + NodeSteps(s) + (EdgesSteps(es) + ChainEnd(m, v))
      == [SEnter] + NodeSteps(s) + EdgesSteps(es) + ChainEnd(m, v);
  }

  lemma {:induction false} HoistEdgesVars(es: seq<EdgePat>, x: string, p: Expr)
    requires HoistEdges(es, x, p).Some?
    ensures EdgesVars(HoistEdges(es, x, p).value) == EdgesVars(es)
    decreases |es|
  {
    var hs := HoistEdges(es, x, p).value;
    if HoistNode(es[0].target, x, p).Some? {
      assert hs[1..] == es[1..];
    } else {
      HoistEdgesVars(es[1..], x, p);
      assert hs[1..] == HoistEdges(es[1..], x, p).value;
    }
  }

  lemma {:induction false} HoistPathsInserts(paths: seq<PathPat>, x: string, p: Expr)
    requires HoistPaths(paths, x, p).Some?
    ensures Inserted(PathsSteps(paths), PathsSteps(HoistPaths(paths, x, p).value), x, p)
    ensures PathsVars(HoistPaths(paths, x, p).value) == PathsVars(paths)
    decreases |paths|
  {
    var first, rest := paths[0], paths[1..];
    assert paths == [first] + rest;
    PathsCons(first, rest);
    if HoistPath(first, x, p).Some? {
      var h := HoistPath(first, x, p).value;
      PathsCons(h, rest);
      HoistPathInserts(first, x, p);
      hide Inserted, PathSteps, PathsSteps, HoistPath, PathVars, PathsVars;
      InsertedRight(PathSteps(first), PathSteps(h), PathsSteps(rest), x, p);
    } else {
      var rest' := HoistPaths(rest, x, p).value;
      PathsCons(first, rest');
      HoistPathsInserts(rest, x, p);
      hide Inserted, PathSteps, PathsSteps, HoistPath, PathVars, PathsVars;
      InsertedLeft(PathSteps(first), PathsSteps(rest), PathsSteps(rest'), x, p);
    }
  }

  lemma PathsCons(first: PathPat, rest: seq<PathPat>)
    ensures PathsSteps([first] + rest) == PathSteps(first) + PathsSteps(rest)
    ensures PathsVars([first] + rest) == PathVars(first) + PathsVars(rest)
  {
    assert ([first] + rest)[1..] == rest;
  }

  lemma {:induction false} HoistBackInserts(prev: seq<MatchCl>, x: string, p: Expr)
    requires HoistBack(prev, x, p).Some?
    ensures Inserted(MatchesSteps(prev), MatchesSteps(HoistBack(prev, x, p).value), x, p)
    decreases |prev|
  {
    var front, last := prev[..|prev| - 1], prev[|prev| - 1];
    assert prev == front + [last];
    MatchesSnoc(front, last);
    if !last.optional && HoistPaths(last.paths, x, p).Some? {
      HoistPathsInserts(last.paths, x, p);
      var paths' := HoistPaths(last.paths, x, p).value;
      MatchesSnoc(front, last.(paths := paths'));
      var fs := Preds(FilterList(last.filter));
      hide Inserted, PathsSteps, HoistPaths, Preds, PathsVars, MatchesSteps;
      InsertedRight(PathsSteps(last.paths), PathsSteps(paths'), fs, x, p);
      InsertedLeft(MatchesSteps(front), PathsSteps(last.paths) + fs, PathsSteps(paths') + fs, x, p);
    } else {
      var front' := HoistBack(front, x, p).value;
      HoistBackInserts(front, x, p);
      MatchesSnoc(front', last);
      hide Inserted, MatchSteps, MatchesSteps, HoistPaths;
      InsertedRight(MatchesSteps(front), MatchesSteps(front'), MatchSteps(last), x, p);
    }
  }

  lemma MatchesSnoc(front: seq<MatchCl>, last: MatchCl)
    ensures MatchesSteps(front + [last]) == MatchesSteps(front) + MatchSteps(last)
  {
    MatchesStepsConcat(front, [last]);
    MatchesOne(last);
  }

  lemma MatchesOne(c: MatchCl)
    ensures MatchesSteps([c]) == MatchSteps(c)
  {
    assert [c][1..] == [];
    assert MatchSteps(c) + MatchesSteps([]) == MatchSteps(c);
  }

  // ---------- Clauses only join ----------

  lemma {:induction false} PathsJoin(paths: seq<PathPat>)
    ensures Joins(PathsSteps(paths))
    decreases |paths|
  {
    if paths != [] {
      PathsJoin(paths[1..]);
      PathJoins(paths[0]);
      hide PathSteps;
      JoinsConcat(PathSteps(paths[0]), PathsSteps(paths[1..]));
    }
  }

  lemma PathJoins(p: PathPat)
    ensures Joins(PathSteps(p))
  {
    match p
    case Single(n) => NodeJoins(n);
    case Chain(v, m, s, es) =>
      NodeJoins(s);
      EdgesJoin(es);
      var tail := [SMode(m)] + (if v.Some? then [SPath(v.value)] else []) + [SLeave];
      assert Joins([SEnter]) && Joins(tail);
      hide NodeSteps, EdgesSteps;
      JoinsConcat([SEnter], NodeSteps(s));
      JoinsConcat([SEnter] + NodeSteps(s), EdgesSteps(es));
      JoinsConcat([SEnter] + NodeSteps(s) + EdgesSteps(es), tail);
  }

  lemma NodeJoins(n: NodePat)
    ensures Joins(NodeSteps(n))
  {
  }

  lemma JoinsConcat(a: seq<Step>, b: seq<Step>)
    requires Joins(a) && Joins(b)
    ensures Joins(a + b)
  {
  }

  lemma {:induction false} EdgesJoin(es: seq<EdgePat>)
    ensures Joins(EdgesSteps(es))
    decreases |es|
  {
    if es != [] { EdgesJoin(es[1..]); }
  }

  lemma {:induction false} MatchesJoin(cs: seq<MatchCl>)
    ensures Joins(MatchesSteps(cs))
    decreases |cs|
  {
    if cs != [] {
      PathsJoin(cs[0].paths);
      assert Joins(PathsSteps(cs[0].paths) + Preds(FilterList(cs[0].filter)));
      MatchesJoin(cs[1..]);
    }
  }

  // ---------- The loop over the conjuncts ----------

  /** The clause list at some point of the loop, with `todo` conjuncts to go. */
  ghost function LoopSteps(g: Progress, optional: bool, todo: seq<Expr>): seq<Step> {
    MatchesSteps(g.prev) + ClauseSteps(optional, g.paths, g.left + todo)
  }

  /** Filters at the end of a clause may be reordered and regrouped. */
  lemma FiltersSame(pre: seq<Step>, a: seq<Expr>, b: seq<Expr>, s: State, w: World, g: Graph)
    requires forall row :: AcceptsAll(a, row, w) <==> AcceptsAll(b, row, w)
    ensures Run(pre + Preds(a), s, w, g) == Run(pre + Preds(b), s, w, g)
  {
    RunConcat(pre, Preds(a), s, w, g);
    RunConcat(pre, Preds(b), s, w, g);
    forall t | t in Run(pre, s, w, g)
      ensures Run(Preds(a), t, w, g) == Run(Preds(b), t, w, g)
    {
      RunPreds(a, t, w, g);
      RunPreds(b, t, w, g);
    }
    RunAllSame(Preds(a), Preds(b), Run(pre, s, w, g), w, g);
  }

  /** Equal inner lists make equal clauses, optional or not. */
  lemma ClauseSame(optional: bool, p1: seq<PathPat>, f1: seq<Expr>, p2: seq<PathPat>, f2: seq<Expr>,
                   s: State, w: World, g: Graph)
    requires PathsVars(p1) == PathsVars(p2)
    requires Run(PathsSteps(p1) + Preds(f1), s, w, g) == Run(PathsSteps(p2) + Preds(f2), s, w, g)
    ensures Run(ClauseSteps(optional, p1, f1), s, w, g) == Run(ClauseSteps(optional, p2, f2), s, w, g)
  {
    hide Run, RunAll, PathsSteps, PathsVars;
    if optional {
      RunSingle(SOptional(PathsSteps(p1) + Preds(f1), PathsVars(p1)), s, w, g);
      RunSingle(SOptional(PathsSteps(p2) + Preds(f2), PathsVars(p2)), s, w, g);
    }
  }

  /** Clauses that agree after the same prefix. */
  lemma PrefixSame(pre: seq<Step>, a: seq<Step>, b: seq<Step>, s: State, w: World, g: Graph)
    requires forall t :: t in Run(pre, s, w, g) ==> Run(a, t, w, g) == Run(b, t, w, g)
    ensures Run(pre + a, s, w, g) == Run(pre + b, s, w, g)
  {
    RunConcat(pre, a, s, w, g);
    RunConcat(pre, b, s, w, g);
    RunAllSame(a, b, Run(pre, s, w, g), w, g);
  }

  lemma SuffixSame(a: seq<Step>, b: seq<Step>, post: seq<Step>, s: State, w: World, g: Graph)
    requires Run(a, s, w, g) == Run(b, s, w, g)
    ensures Run(a + post, s, w, g) == Run(b + post, s, w, g)
  {
    RunConcat(a, post, s, w, g);
    RunConcat(b, post, s, w, g);
  }

  lemma MoveFront(left: seq<Expr>, p: Expr, rest: seq<Expr>, row: Row, w: World)
    ensures AcceptsAll(left + ([p] + rest), row, w) <==> AcceptsAll([p] + (left + rest), row, w)
  {
    AcceptsConcat(left, [p] + rest, row, w);
    AcceptsConcat([p], rest, row, w);
    AcceptsConcat([p], left + rest, row, w);
    AcceptsConcat(left, rest, row, w);
  }

  /** Hoisting into a path of the same clause, optional or not. */
  lemma PushHere(paths: seq<PathPat>, left: seq<Expr>, p: Expr, rest: seq<Expr>, x: string,
                 s: State, w: World, g: Graph)
    requires HoistVar(p) == Some(x) && HoistPaths(paths, x, p).Some?
    ensures var paths' := HoistPaths(paths, x, p).value;
      Run(PathsSteps(paths) + Preds(left + ([p] + rest)), s, w, g)
      == Run(PathsSteps(paths') + Preds(left + rest), s, w, g)
  {
    var paths' := HoistPaths(paths, x, p).value;
    var a, b := PathsSteps(paths), PathsSteps(paths');
    PredsCons(p, left + rest);
    HoistPathsInserts(paths, x, p);
    PathsJoin(paths);
    hide Run, PathsSteps, Inserted, Joins, HoistPaths, HoistVar, AcceptsAll, Preds;
    forall row ensures AcceptsAll(left + ([p] + rest), row, w) <==> AcceptsAll([p] + (left + rest), row, w) {
      MoveFront(left, p, rest, row, w);
    }
    FiltersSame(a, left + ([p] + rest), [p] + (left + rest), s, w, g);
    StepsAssoc(a, [SPred(p)], Preds(left + rest));
    InsertedRuns(a, b, x, p, s, w, g);
    SuffixSame(a + [SPred(p)], b, Preds(left + rest), s, w, g);
  }

  /** Hoisting out of a plain MATCH into an earlier clause. */
  lemma PushBack(prev: seq<MatchCl>, paths: seq<PathPat>, left: seq<Expr>, p: Expr, rest: seq<Expr>, x: string,
                 s: State, w: World, g: Graph)
    requires HoistVar(p) == Some(x) && HoistBack(prev, x, p).Some?
    ensures var prev' := HoistBack(prev, x, p).value;
      Run(MatchesSteps(prev) + (PathsSteps(paths) + Preds(left + ([p] + rest))), s, w, g)
      == Run(MatchesSteps(prev') + (PathsSteps(paths) + Preds(left + rest)), s, w, g)
  {
    var prev' := HoistBack(prev, x, p).value;
    var a, b, c := MatchesSteps(prev), MatchesSteps(prev'), PathsSteps(paths);
    var f, tail := Preds(left + ([p] + rest)), Preds(left + rest);
    PredsCons(p, left + rest);
    HoistBackInserts(prev, x, p);
    MatchesJoin(prev);
    PathsJoin(paths);
    hide Run, MatchesSteps, PathsSteps, Inserted, Joins, HoistBack, HoistVar, AcceptsAll, Preds;
    forall row ensures AcceptsAll(left + ([p] + rest), row, w) <==> AcceptsAll([p] + (left + rest), row, w) {
      MoveFront(left, p, rest, row, w);
    }
    FiltersSame(a + c, left + ([p] + rest), [p] + (left + rest), s, w, g);
    StepsAssoc(a, c, f);
    StepsAssoc(a + c, [SPred(p)], tail);
    JoinsConcat(a, c);
    InsertedRight(a, b, c, x, p);
    InsertedRuns(a + c, b + c, x, p, s, w, g);
    SuffixSame((a + c) + [SPred(p)], b + c, tail, s, w, g);
    StepsAssoc(b, c, tail);
  }

  lemma PredsCons(p: Expr, es: seq<Expr>)
    ensures Preds([p] + es) == [SPred(p)] + Preds(es)
  {
  }

  lemma StepsAssoc(a: seq<Step>, b: seq<Step>, c: seq<Step>)
    ensures a + (b + c) == (a + b) + c
  {
  }

  lemma PushOneSame(q: Progress, optional: bool, p: Expr, rest: seq<Expr>, s: State, w: World, g: Graph)
    ensures Run(LoopSteps(PushOne(q, optional, p), optional, rest), s, w, g)
         == Run(LoopSteps(q, optional, [p] + rest), s, w, g)
  {
    var x := HoistVar(p);
    if x.Some? && HoistPaths(q.paths, x.value, p).Some? {
      var paths' := HoistPaths(q.paths, x.value, p).value;
      HoistPathsInserts(q.paths, x.value, p);
      forall t | t in Run(MatchesSteps(q.prev), s, w, g)
        ensures Run(ClauseSteps(optional, q.paths, q.left + ([p] + rest)), t, w, g)
             == Run(ClauseSteps(optional, paths', q.left + rest), t, w, g)
      {
        PushHere(q.paths, q.left, p, rest, x.value, t, w, g);
        ClauseSame(optional, q.paths, q.left + ([p] + rest), paths', q.left + rest, t, w, g);
      }
      PrefixSame(MatchesSteps(q.prev), ClauseSteps(optional, q.paths, q.left + ([p] + rest)),
                 ClauseSteps(optional, paths', q.left + rest), s, w, g);
    } else if x.Some? && !optional && HoistBack(q.prev, x.value, p).Some? {
      PushBack(q.prev, q.paths, q.left, p, rest, x.value, s, w, g);
    } else {
      assert q.left + ([p] + rest) == q.left + [p] + rest;
    }
  }

  lemma {:induction false} PushAllSame(q: Progress, optional: bool, ps: seq<Expr>, s: State, w: World, g: Graph)
    ensures Run(LoopSteps(PushAll(q, optional, ps), optional, []), s, w, g)
         == Run(LoopSteps(q, optional, ps), s, w, g)
    decreases |ps|
  {
    if ps != [] {
      assert [ps[0]] + ps[1..] == ps;
      PushOneSame(q, optional, ps[0], ps[1..], s, w, g);
      PushAllSame(PushOne(q, optional, ps[0]), optional, ps[1..], s, w, g);
    }
  }

  lemma ClauseFilters(optional: bool, paths: seq<PathPat>, a: seq<Expr>, b: seq<Expr>, s: State, w: World, g: Graph)
    requires forall row :: AcceptsAll(a, row, w) <==> AcceptsAll(b, row, w)
    ensures Run(ClauseSteps(optional, paths, a), s, w, g) == Run(ClauseSteps(optional, paths, b), s, w, g)
  {
    FiltersSame(PathsSteps(paths), a, b, s, w, g);
    ClauseSame(optional, paths, a, paths, b, s, w, g);
  }

  /** One clause of the pass: the rows of the clauses so far do not change. */
  lemma PushClauseSame(prev: seq<MatchCl>, c: MatchCl, s: State, w: World, g: Graph)
    ensures Run(MatchesSteps(PushClause(prev, c)), s, w, g) == Run(MatchesSteps(prev + [c]), s, w, g)
  {
    MatchesSnoc(prev, c);
    if c.filter.Some? {
      var cs := Conjuncts(c.filter.value);
      var q := Progress(prev, c.paths, []);
      var q' := PushAll(q, c.optional, cs);
      var c' := MatchCl(c.optional, q'.paths, RebuildFilter(q'.left));
      MatchesSnoc(q'.prev, c');
      assert [] + cs == cs && q'.left + [] == q'.left;
      PushAllSame(q, c.optional, cs, s, w, g);
      forall row ensures AcceptsAll(FilterList(c.filter), row, w) <==> AcceptsAll(cs, row, w) {
        ConjunctsAccept(c.filter.value, row, w);
        assert FilterList(c.filter)[0] == c.filter.value;
      }
      forall row ensures AcceptsAll(q'.left, row, w) <==> AcceptsAll(FilterList(c'.filter), row, w) {
        RebuildAccepts(q'.left, row, w);
      }
      forall t | t in Run(MatchesSteps(prev), s, w, g)
        ensures Run(MatchSteps(c), t, w, g) == Run(ClauseSteps(c.optional, c.paths, cs), t, w, g)
      {
        ClauseFilters(c.optional, c.paths, FilterList(c.filter), cs, t, w, g);
      }
      PrefixSame(MatchesSteps(prev), MatchSteps(c), ClauseSteps(c.optional, c.paths, cs), s, w, g);
      forall t | t in Run(MatchesSteps(q'.prev), s, w, g)
        ensures Run(ClauseSteps(c.optional, q'.paths, q'.left), t, w, g) == Run(MatchSteps(c'), t, w, g)
      {
        ClauseFilters(c.optional, q'.paths, q'.left, FilterList(c'.filter), t, w, g);
      }
      PrefixSame(MatchesSteps(q'.prev), ClauseSteps(c.optional, q'.paths, q'.left), MatchSteps(c'), s, w, g);
    }
  }

  lemma {:induction false} PushMatchesSame(done: seq<MatchCl>, rest: seq<MatchCl>, s: State, w: World, g: Graph)
    ensures Run(MatchesSteps(PushMatches(done, rest)), s, w, g) == Run(MatchesSteps(done + rest), s, w, g)
    decreases |rest|
  {
    if rest == [] {
      assert done + rest == done;
    } else {
      var c, more := rest[0], rest[1..];
      var done' := PushClause(done, c);
      assert done + rest == (done + [c]) + more;
      hide Run, MatchesSteps, PushClause;
      PushMatchesSame(done', more, s, w, g);
      PushClauseSame(done, c, s, w, g);
      MatchesStepsConcat(done', more);
      MatchesStepsConcat(done + [c], more);
      SuffixSame(MatchesSteps(done'), MatchesSteps(done + [c]), MatchesSteps(more), s, w, g);
    }
  }

  /**
   Predicate pushdown keeps every result: for every list of MATCH and OPTIONAL MATCH
   clauses, every graph and every start, the same rows come out in the same order.
   */
  lemma PushdownSame(cs: seq<MatchCl>, s: State, w: World, g: Graph)
    ensures Run(MatchesSteps(PushMatches([], cs)), s, w, g) == Run(MatchesSteps(cs), s, w, g)
  {
    PushMatchesSame([], cs, s, w, g);
    assert [] + cs == cs;
  }
}
