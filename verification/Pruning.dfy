/** Dead-variable pruning: anonymising unreferenced `_` aliases, and when that is safe. */
module Pruning {
  import opened Common
  import opened Trees
  import opened Semantics
  import opened Clauses
  import opened FoldingLimits
  import opened Matching
  import opened Running
  import opened Pushdown

  // ---------- Variables an expression mentions ----------

  /** `collect_expr_vars`: subqueries and comprehension paths are not looked into. */
  function ExprVars(e: Expr): set<string>
    decreases e, 1
  {
    match e
    case EIdent(x) => {x}
    case EProp(t, _) => ExprVars(t)
    case EBin(_, l, r) => ExprVars(l) + ExprVars(r)
    case EUn(_, x) => ExprVars(x)
    case ECall(_, args) => ExprsVars(args)
    case ECase(s, bs, els) => OptVars(s) + BranchesVars(bs) + OptVars(els)
    case EListComp(_, l, f, m) => ExprVars(l) + OptVars(f) + OptVars(m)
    case EPatComp(_, f, m) => OptVars(f) + ExprVars(m)
    case EListLit(es) => ExprsVars(es)
    case _ => {}
  }

  function OptVars(o: Option<Expr>): set<string>
    decreases o, 1
  {
    if o.None? then {} else ExprVars(o.value)
  }

  function ExprsVars(es: seq<Expr>): set<string>
    decreases es, 0
  {
    if es == [] then {} else ExprVars(es[0]) + ExprsVars(es[1..])
  }

  function BranchVars(b: Branch): set<string>
    decreases b, 0
  {
    match b case Branch(c, t) => ExprVars(c) + ExprVars(t)
  }

  function BranchesVars(bs: seq<Branch>): set<string>
    decreases bs, 0
  {
    if bs == [] then {} else BranchVars(bs[0]) + BranchesVars(bs[1..])
  }

  // ---------- Rows that differ in some variables only ----------

  /** The rows agree outside `d`. */
  ghost predicate Off(r1: Row, r2: Row, d: set<string>) {
    forall x :: x !in d ==> (x in r1 <==> x in r2) && (x in r1 ==> r1[x] == r2[x])
  }

  ghost predicate RowsOff(rs1: seq<Row>, rs2: seq<Row>, d: set<string>) {
    |rs1| == |rs2| && forall k :: 0 <= k < |rs1| ==> Off(rs1[k], rs2[k], d)
  }

  ghost predicate PathsOff(o1: Option<seq<Row>>, o2: Option<seq<Row>>, d: set<string>) {
    o1.Some? == o2.Some? && (o1.Some? ==> RowsOff(o1.value, o2.value, d))
  }

  /** The named subqueries and paths see none of the variables in `d`. */
  ghost predicate Blind(w: World, d: set<string>, names: set<Name>) {
    && (forall c, q, r1, r2 :: Nested(q) in names && Off(r1, r2, d) ==> w.subquery(c, q, r1) == w.subquery(c, q, r2))
    && (forall p, r1, r2, f :: Along(p) in names && f <= d && Off(r1, r2, f) ==>
      PathsOff(w.paths(p, r1), w.paths(p, r2), f))
  }

  /** None of the names is a variable in `d`. */
  ghost predicate Free(names: set<Name>, d: set<string>) {
    forall x :: x in d ==> Variable(x) !in names
  }

  /** Nothing in the expression sees a variable in `d`. */
  ghost predicate Unseen(e: Expr, d: set<string>, w: World) {
    Free(Names(e), d) && Blind(w, d, Names(e))
  }

  ghost predicate BlindTo(e: Expr, d: set<string>, w: World) {
    Blind(w, d, Names(e))
  }

  ghost predicate UnseenAll(es: seq<Expr>, d: set<string>, w: World) {
    forall k :: 0 <= k < |es| ==> Unseen(es[k], d, w)
  }

  ghost predicate UnseenIn(es: set<Expr>, d: set<string>, w: World) {
    forall e :: e in es ==> Unseen(e, d, w)
  }

  lemma BlindFewer(w: World, d: set<string>, names: set<Name>, fewer: set<Name>)
    requires Blind(w, d, names) && fewer <= names
    ensures Blind(w, d, fewer)
  {
  }

  lemma BlindLess(w: World, d: set<string>, f: set<string>, names: set<Name>)
    requires Blind(w, d, names) && f <= d
    ensures Blind(w, f, names)
  {
  }

  /** An expression reads the variables it mentions, and what its subqueries see. */
  lemma {:induction false} EvalBlind(e: Expr, r1: Row, r2: Row, d: set<string>, w: World)
    requires Off(r1, r2, d) && Unseen(e, d, w)
    ensures Eval(e, r1, w) == Eval(e, r2, w)
    decreases e, 2, 0
  {
    hide BinOut, UnOut;
    match e
    case EProp(t, _) => EvalBlind(t, r1, r2, d, w);
    case EBin(_, l, r) => EvalBlind(l, r1, r2, d, w); EvalBlind(r, r1, r2, d, w);
    case EUn(_, x) => EvalBlind(x, r1, r2, d, w);
    case ECall(_, args) => EvalAllBlind(args, r1, r2, d, w);
    case EListLit(es) => EvalAllBlind(es, r1, r2, d, w);
    case ECase(_, _, _) => CaseBlind(e, r1, r2, d, w);
    case EListComp(_, _, _, _) => ComprehensionBlind(e, r1, r2, d, w);
    case EPatComp(p, _, _) =>
      assert PathsOff(w.paths(p, r1), w.paths(p, r2), d);
      if w.paths(p, r1).Some? { EvalRowsBlind(e, w.paths(p, r1).value, w.paths(p, r2).value, d, w); }
    case _ =>
  }

  /** The variable of a comprehension is bound on both sides alike. */
  lemma {:induction false} ComprehensionBlind(e: Expr, r1: Row, r2: Row, d: set<string>, w: World)
    requires e.EListComp? && Off(r1, r2, d) && Unseen(e, d, w)
    ensures Eval(e, r1, w) == Eval(e, r2, w)
    decreases e, 1, 0
  {
    EvalBlind(e.list, r1, r2, d, w);
    var o := Eval(e.list, r1, w);
    if o.Val? && o.v.VList? {
      hide Blind;
      BlindLess(w, d, d - {e.v}, Names(e));
      EvalRowsBlind(e, Bindings(r1, e.v, o.v.items), Bindings(r2, e.v, o.v.items), d - {e.v}, w);
    }
  }

  lemma {:induction false} EvalAllBlind(es: seq<Expr>, r1: Row, r2: Row, d: set<string>, w: World)
    requires Off(r1, r2, d) && Free(NamesAll(es), d) && Blind(w, d, NamesAll(es))
    ensures EvalAll(es, r1, w) == EvalAll(es, r2, w)
    decreases es, 1, 0
  {
    if es != [] {
      EvalBlind(es[0], r1, r2, d, w);
      EvalAllBlind(es[1..], r1, r2, d, w);
    }
  }

  lemma {:induction false} CaseBlind(e: Expr, r1: Row, r2: Row, d: set<string>, w: World)
    requires e.ECase? && Off(r1, r2, d) && Unseen(e, d, w)
    ensures Eval(e, r1, w) == Eval(e, r2, w)
    decreases e, 1, 0
  {
    var bs := e.branches;
    if e.els.Some? {
      assert NamesOpt(e.els) == Names(e.els.value);
      EvalBlind(e.els.value, r1, r2, d, w);
    }
    var other := if e.els.None? then Val(VNull) else Eval(e.els.value, r1, w);
    if e.subject.None? {
      BranchesBlind(None, bs, other, r1, r2, d, w);
    } else {
      assert NamesOpt(e.subject) == Names(e.subject.value);
      EvalBlind(e.subject.value, r1, r2, d, w);
      var o := Eval(e.subject.value, r1, w);
      if o.Val? { BranchesBlind(Some(o.v), bs, other, r1, r2, d, w); }
    }
  }

  lemma {:induction false} BranchesBlind(s: Option<Value>, bs: seq<Branch>, other: Outcome, r1: Row, r2: Row,
                                         d: set<string>, w: World)
    requires Off(r1, r2, d) && Free(NamesBranches(bs), d) && Blind(w, d, NamesBranches(bs))
    ensures EvalBranches(s, bs, other, r1, w) == EvalBranches(s, bs, other, r2, w)
    decreases bs, 1, 0
  {
    if bs != [] {
      BranchBlind(bs[0], r1, r2, d, w);
      BranchesBlind(s, bs[1..], other, r1, r2, d, w);
    }
  }

  lemma {:induction false} BranchBlind(b: Branch, r1: Row, r2: Row, d: set<string>, w: World)
    requires Off(r1, r2, d) && Free(NamesBranch(b), d) && Blind(w, d, NamesBranch(b))
    ensures Eval(b.cond, r1, w) == Eval(b.cond, r2, w) && Eval(b.result, r1, w) == Eval(b.result, r2, w)
    decreases b, 1, 0
  {
    match b case Branch(c, t) => EvalBlind(c, r1, r2, d, w); EvalBlind(t, r1, r2, d, w);
  }

  lemma {:induction false} EvalRowsBlind(e: Expr, rs1: seq<Row>, rs2: seq<Row>, d: set<string>, w: World)
    requires (e.EListComp? || e.EPatComp?) && RowsOff(rs1, rs2, d) && Unseen(e, d, w)
    requires e.EListComp? ==> e.v !in d
    ensures EvalRows(e, rs1, w) == EvalRows(e, rs2, w)
    decreases e, 0, |rs1|
  {
    if rs1 != [] {
      if e.filter.Some? {
        assert NamesOpt(e.filter) == Names(e.filter.value);
        EvalBlind(e.filter.value, rs1[0], rs2[0], d, w);
      }
      if e.EPatComp? {
        EvalBlind(e.proj, rs1[0], rs2[0], d, w);
      } else if e.body.Some? {
        assert NamesOpt(e.body) == Names(e.body.value);
        EvalBlind(e.body.value, rs1[0], rs2[0], d, w);
      }
      EvalRowsBlind(e, rs1[1..], rs2[1..], d, w);
    }
  }

  // ---------- The variables an expression mentions cover those it reads ----------

  lemma {:induction false} ReadsMentioned(e: Expr, x: string)
    ensures Variable(x) in Names(e) ==> x in ExprVars(e)
    decreases e, 1
  {
    match e
    case EProp(t, _) => ReadsMentioned(t, x);
    case EBin(_, l, r) => ReadsMentioned(l, x); ReadsMentioned(r, x);
    case EUn(_, o) => ReadsMentioned(o, x);
    case ECall(_, args) => AllMentioned(args, x);
    case ECase(s, bs, els) =>
      OptMentioned(s, x);
      OptMentioned(els, x);
      BranchesMentioned(bs, x);
    case EListComp(_, l, f, m) =>
      ReadsMentioned(l, x);
      OptMentioned(f, x);
      OptMentioned(m, x);
    case EPatComp(_, f, m) =>
      OptMentioned(f, x);
      ReadsMentioned(m, x);
    case EListLit(es) => AllMentioned(es, x);
    case _ =>
  }

  lemma {:induction false} OptMentioned(o: Option<Expr>, x: string)
    ensures Variable(x) in NamesOpt(o) ==> x in OptVars(o)
    decreases o, 1
  {
    if o.Some? { ReadsMentioned(o.value, x); }
  }

  lemma {:induction false} AllMentioned(es: seq<Expr>, x: string)
    ensures Variable(x) in NamesAll(es) ==> x in ExprsVars(es)
    decreases es, 0
  {
    if es != [] {
      ReadsMentioned(es[0], x);
      AllMentioned(es[1..], x);
    }
  }

  lemma {:induction false} BranchesMentioned(bs: seq<Branch>, x: string)
    ensures Variable(x) in NamesBranches(bs) ==> x in BranchesVars(bs)
    decreases bs, 0
  {
    if bs != [] {
      assert (bs decreases to bs[0]);
      BranchMentioned(bs[0], x);
      BranchesMentioned(bs[1..], x);
    }
  }

  lemma {:induction false} BranchMentioned(b: Branch, x: string)
    ensures Variable(x) in NamesBranch(b) ==> x in BranchVars(b)
    decreases b, 0
  {
    match b case Branch(c, t) => ReadsMentioned(c, x); ReadsMentioned(t, x);
  }

  lemma MentionedFree(e: Expr, d: set<string>)
    requires ExprVars(e) !! d
    ensures Free(Names(e), d)
  {
    forall x | x in d ensures Variable(x) !in Names(e) { ReadsMentioned(e, x); }
  }

  // ---------- The pass ----------

  predicate Internal(x: string) {
    |x| > 0 && x[0] == '_'
  }

  function Drop(o: Option<string>, used: set<string>): Option<string> {
    if o.Some? && Internal(o.value) && o.value !in used then None else o
  }

  function PruneNode(n: NodePat, used: set<string>): NodePat {
    n.(variable := Drop(n.variable, used))
  }

  /** `prune_path_variables`: path and node aliases; edge aliases stay. */
  function PrunePath(p: PathPat, used: set<string>): PathPat {
    match p
    case Single(n) => Single(PruneNode(n, used))
    case Chain(v, m, s, es) =>
      Chain(Drop(v, used), m, PruneNode(s, used),
            seq(|es|, k requires 0 <= k < |es| => es[k].(target := PruneNode(es[k].target, used))))
  }

  function PruneMatch(c: MatchCl, used: set<string>): MatchCl {
    c.(paths := seq(|c.paths|, k requires 0 <= k < |c.paths| => PrunePath(c.paths[k], used)))
  }

  function PruneMatches(cs: seq<MatchCl>, used: set<string>): seq<MatchCl> {
    seq(|cs|, k requires 0 <= k < |cs| => PruneMatch(cs[k], used))
  }

  function PathExprVars(p: PathPat): set<string> {
    match p
    case Single(n) => ExprsVars(n.preds)
    case Chain(_, _, s, es) => ExprsVars(s.preds) + EdgesExprVars(es)
  }

  function EdgesExprVars(es: seq<EdgePat>): set<string> {
    if es == [] then {}
    else ExprsVars(es[0].preds) + ExprsVars(es[0].target.preds) + EdgesExprVars(es[1..])
  }

  function PathsExprVars(ps: seq<PathPat>): set<string> {
    if ps == [] then {} else PathExprVars(ps[0]) + PathsExprVars(ps[1..])
  }

  function MatchesExprVars(cs: seq<MatchCl>): set<string> {
    if cs == [] then {} else OptVars(cs[0].filter) + PathsExprVars(cs[0].paths) + MatchesExprVars(cs[1..])
  }

  function UnwindsVars(us: seq<Unwind>): set<string> {
    if us == [] then {} else ExprVars(us[0].list) + {us[0].alias} + UnwindsVars(us[1..])
  }

  function LinearVars(ls: seq<Linear>): set<string> {
    if ls == [] then {}
    else (match ls[0] case Let(x, e) => {x} + ExprVars(e) case Keep(e) => ExprVars(e)) + LinearVars(ls[1..])
  }

  function ItemsVars(xs: seq<Item>): set<string> {
    if xs == [] then {} else ExprVars(xs[0].value) + ItemsVars(xs[1..])
  }

  function KeysVars(os: seq<SortKey>): set<string> {
    if os == [] then {} else ExprVars(os[0].value) + KeysVars(os[1..])
  }

  function ProjectionVars(p: Projection): set<string> {
    ItemsVars(p.items) + KeysVars(p.order) + OptVars(p.filter)
  }

  function ProjectionsVars(ps: seq<Projection>): set<string> {
    if ps == [] then {} else ProjectionVars(ps[0]) + ProjectionsVars(ps[1..])
  }

  /** `collect_used_variables`. */
  function UsedVars(q: Statement): set<string> {
    UnwindsVars(q.unwinds) + LinearVars(q.linear) + ProjectionsVars(q.withs)
    + (if q.result.Some? then ProjectionVars(q.result.value) else {})
    + MatchesExprVars(q.matches)
  }

  // ---------- Pruning a step list ----------

  function PruneStep(st: Step, dropped: set<string>): seq<Step>
    decreases st
  {
    match st
    case SHere(x) => if x in dropped then [] else [st]
    case SPath(x) => if x in dropped then [] else [st]
    case SOptional(inner, vars) => [SOptional(PruneSteps(inner, dropped), vars - dropped)]
    case _ => [st]
  }

  function PruneSteps(steps: seq<Step>, dropped: set<string>): seq<Step>
    decreases steps
  {
    if steps == [] then [] else PruneStep(steps[0], dropped) + PruneSteps(steps[1..], dropped)
  }

  /** The variables a step list binds by matching, in order. */
  function Binders(steps: seq<Step>): seq<string>
    decreases steps, 0
  {
    if steps == [] then [] else StepBinders(steps[0]) + Binders(steps[1..])
  }

  function StepBinders(st: Step): seq<string>
    decreases st, 1
  {
    match st
    case SHere(x) => [x]
    case SEdge(x) => [x]
    case SPath(x) => [x]
    case SOptional(inner, _) => Binders(inner)
    case _ => []
  }

  /** No dropped variable occurs twice. */
  ghost predicate Once(names: seq<string>, dropped: set<string>) {
    forall i, j :: 0 <= i < j < |names| && names[i] in dropped ==> names[i] != names[j]
  }

  /** No step of the list mentions a dropped variable other than by binding it as a node or path. */
  ghost predicate StepIgnores(st: Step, dropped: set<string>, w: World)
    decreases st
  {
    match st
    case SEdge(x) => x !in dropped
    case SPred(e) => Unseen(e, dropped, w)
    case SUnwind(e, x) => Unseen(e, dropped, w) && x !in dropped
    case SLet(x, e) => Unseen(e, dropped, w) && x !in dropped
    case SOptional(inner, vars) => Ignores(inner, dropped, w) && forall x :: x in vars ==> x in Binders(inner)
    case _ => true
  }

  ghost predicate Ignores(steps: seq<Step>, dropped: set<string>, w: World)
    decreases steps
  {
    forall k :: 0 <= k < |steps| ==> StepIgnores(steps[k], dropped, w)
  }

  /** The same state up to the dropped variables. */
  ghost predicate Hides(s: State, t: State, dropped: set<string>) {
    t.here == s.here && t.trace == s.trace && Off(s.row, t.row, dropped)
  }

  ghost predicate HidesAll(ss: seq<State>, tt: seq<State>, dropped: set<string>) {
    |ss| == |tt| && forall k :: 0 <= k < |ss| ==> Hides(ss[k], tt[k], dropped)
  }

  ghost predicate Unbound(steps: seq<Step>, row: Row, dropped: set<string>) {
    forall x :: x in dropped && x in Binders(steps) ==> x !in row
  }

  lemma HidesConcat(a: seq<State>, b: seq<State>, c: seq<State>, d: seq<State>, dropped: set<string>)
    requires HidesAll(a, c, dropped) && HidesAll(b, d, dropped)
    ensures HidesAll(a + b, c + d, dropped)
  {
  }

  lemma AgreeHidden(s: State, t: State, e: Expr, dropped: set<string>, w: World)
    requires Hides(s, t, dropped) && Unseen(e, dropped, w)
    ensures Eval(e, s.row, w) == Eval(e, t.row, w)
  {
    EvalBlind(e, s.row, t.row, dropped, w);
  }

  lemma OnceParts(a: seq<string>, b: seq<string>, dropped: set<string>)
    requires Once(a + b, dropped)
    ensures Once(a, dropped) && Once(b, dropped)
    ensures forall x :: x in dropped && x in a ==> x !in b
  {
    var all := a + b;
    assert forall i :: 0 <= i < |a| ==> all[i] == a[i];
    assert forall i :: 0 <= i < |b| ==> all[|a| + i] == b[i];
    forall x | x in dropped && x in a ensures x !in b {
      var i :| 0 <= i < |a| && a[i] == x;
      assert all[i] == x;
    }
  }

  /** A step binds nothing but its own variables. */
  lemma {:induction false} AdvanceKeys(st: Step, s: State, w: World, g: Graph, dropped: set<string>)
    requires StepIgnores(st, dropped, w)
    ensures forall t, x :: t in Advance(st, s, w, g) && x in t.row && x in dropped ==>
      x in s.row || x in StepBinders(st)
    decreases st, 1
  {
    if st.SOptional? {
      RunKeys(st.inner, s, w, g, dropped);
    }
  }

  lemma {:induction false} RunKeys(steps: seq<Step>, s: State, w: World, g: Graph, dropped: set<string>)
    requires Ignores(steps, dropped, w)
    ensures forall t, x :: t in Run(steps, s, w, g) && x in t.row && x in dropped ==> x in s.row || x in Binders(steps)
    decreases steps, 0, 0
  {
    if steps != [] {
      AdvanceKeys(steps[0], s, w, g, dropped);
      RunAllKeys(steps[1..], Advance(steps[0], s, w, g), w, g, dropped, s.row, StepBinders(steps[0]));
    }
  }

  lemma {:induction false} RunAllKeys(steps: seq<Step>, ss: seq<State>, w: World, g: Graph, dropped: set<string>,
                                      row: Row, names: seq<string>)
    requires Ignores(steps, dropped, w)
    requires forall s, x :: s in ss && x in s.row && x in dropped ==> x in row || x in names
    ensures forall t, x :: t in RunAll(steps, ss, w, g) && x in t.row && x in dropped ==>
      x in row || x in names || x in Binders(steps)
    decreases steps, 1, |ss|
  {
    if ss != [] {
      RunKeys(steps, ss[0], w, g, dropped);
      RunAllKeys(steps, ss[1..], w, g, dropped, row, names);
      forall t, x | t in RunAll(steps, ss, w, g) && x in t.row && x in dropped
        ensures x in row || x in names || x in Binders(steps)
      {
        if t in Run(steps, ss[0], w, g) { assert x in ss[0].row || x in Binders(steps); }
      }
    }
  }

  // ---------- The pruned run follows the original ----------

  lemma {:induction false} RunHides(steps: seq<Step>, s: State, t: State, dropped: set<string>, w: World, g: Graph)
    requires Ignores(steps, dropped, w) && Hides(s, t, dropped)
    requires Once(Binders(steps), dropped) && Unbound(steps, s.row, dropped)
    ensures HidesAll(Run(steps, s, w, g), Run(PruneSteps(steps, dropped), t, w, g), dropped)
    decreases steps, 1, 0
  {
    if steps != [] {
      var st, rest := steps[0], steps[1..];
      var ss := Advance(st, s, w, g);
      OnceParts(StepBinders(st), Binders(rest), dropped);
      AdvanceKeys(st, s, w, g, dropped);
      var tt := if PruneStep(st, dropped) == [] then [t] else Advance(PruneStep(st, dropped)[0], t, w, g);
      AdvanceHides(st, s, t, dropped, w, g);
      forall k | 0 <= k < |ss|
        ensures Unbound(rest, ss[k].row, dropped)
      {
        assert ss[k] in ss;
      }
      RunAllHides(rest, ss, tt, dropped, w, g);
      PrunedRun(st, rest, t, dropped, w, g);
    }
  }

  /** Running the pruned list: one step, or none, then the rest. */
  lemma PrunedRun(st: Step, rest: seq<Step>, t: State, dropped: set<string>, w: World, g: Graph)
    ensures var tt := if PruneStep(st, dropped) == [] then [t] else Advance(PruneStep(st, dropped)[0], t, w, g);
      Run(PruneStep(st, dropped) + PruneSteps(rest, dropped), t, w, g) == RunAll(PruneSteps(rest, dropped), tt, w, g)
  {
    var first := PruneStep(st, dropped);
    RunConcat(first, PruneSteps(rest, dropped), t, w, g);
    if first != [] {
      assert first == [first[0]];
      RunSingle(first[0], t, w, g);
    }
  }

  lemma {:induction false} AdvanceHides(st: Step, s: State, t: State, dropped: set<string>, w: World, g: Graph)
    requires StepIgnores(st, dropped, w) && Hides(s, t, dropped)
    requires Once(StepBinders(st), dropped) && forall x :: x in dropped && x in StepBinders(st) ==> x !in s.row
    ensures var tt := if PruneStep(st, dropped) == [] then [t] else Advance(PruneStep(st, dropped)[0], t, w, g);
      HidesAll(Advance(st, s, w, g), tt, dropped)
    decreases st, 2, 0
  {
    match st
    case SHere(x) => JoinHides(s, t, x, s.here, dropped);
    case SEdge(x) => JoinHides(s, t, x, LastEdge(s.trace), dropped);
    case SPath(x) => JoinHides(s, t, x, VList(s.trace), dropped);
    case SPred(e) => AgreeHidden(s, t, e, dropped, w);
    case SLet(x, e) =>
      AgreeHidden(s, t, e, dropped, w);
    case SUnwind(e, x) => UnwindHides(e, x, s, t, dropped, w, g);
    case SOptional(inner, vars) =>
      RunHides(inner, s, t, dropped, w, g);
      PadHides(s.row, t.row, vars, dropped);
      hide Run, Once, Binders, Ignores, PruneSteps, Pad;
    case _ =>
  }

  lemma PadHides(row: Row, row': Row, vars: set<string>, dropped: set<string>)
    requires Off(row, row', dropped)
    ensures Off(Pad(row, vars), Pad(row', vars - dropped), dropped)
  {
  }

  lemma UnwindHides(e: Expr, x: string, s: State, t: State, dropped: set<string>, w: World, g: Graph)
    requires StepIgnores(SUnwind(e, x), dropped, w) && Hides(s, t, dropped)
    ensures HidesAll(Advance(SUnwind(e, x), s, w, g), Advance(SUnwind(e, x), t, w, g), dropped)
  {
    AgreeHidden(s, t, e, dropped, w);
    var o := Eval(e, s.row, w);
    hide Eval;
    if o.Val? && o.v.VList? {
      assert forall k :: 0 <= k < |o.v.items| ==>
        Hides(Unwound(s, x, o.v.items)[k], Unwound(t, x, o.v.items)[k], dropped);
    }
  }

  lemma JoinHides(s: State, t: State, x: string, v: Value, dropped: set<string>)
    requires Hides(s, t, dropped)
    ensures x !in dropped ==> HidesAll(Join(s, x, v), Join(t, x, v), dropped)
    ensures x in dropped && x !in s.row ==> HidesAll(Join(s, x, v), [t], dropped)
  {
  }

  lemma {:induction false} RunAllHides(steps: seq<Step>, ss: seq<State>, tt: seq<State>, dropped: set<string>,
                                       w: World, g: Graph)
    requires Ignores(steps, dropped, w) && HidesAll(ss, tt, dropped) && Once(Binders(steps), dropped)
    requires forall k :: 0 <= k < |ss| ==> Unbound(steps, ss[k].row, dropped)
    ensures HidesAll(RunAll(steps, ss, w, g), RunAll(PruneSteps(steps, dropped), tt, w, g), dropped)
    decreases steps, 2, |ss|
  {
    if ss != [] {
      RunHides(steps, ss[0], tt[0], dropped, w, g);
      RunAllHides(steps, ss[1..], tt[1..], dropped, w, g);
      HidesConcat(Run(steps, ss[0], w, g), RunAll(steps, ss[1..], w, g),
                  Run(PruneSteps(steps, dropped), tt[0], w, g), RunAll(PruneSteps(steps, dropped), tt[1..], w, g),
                  dropped);
    }
  }

  // ---------- Errors stay where they were ----------

  /** A step fails on one side exactly when it fails on the other. */
  lemma StepCleanHides(st: Step, s: State, t: State, dropped: set<string>, w: World, g: Graph)
    requires StepIgnores(st, dropped, w) && Hides(s, t, dropped) && !st.SOptional?
    ensures StepClean(st, s, w, g) <==> PruneStep(st, dropped) == [] || StepClean(PruneStep(st, dropped)[0], t, w, g)
  {
    match st
    case SPred(e) => AgreeHidden(s, t, e, dropped, w);
    case SUnwind(e, _) => AgreeHidden(s, t, e, dropped, w);
    case SLet(_, e) => AgreeHidden(s, t, e, dropped, w);
    case _ =>
  }

  lemma {:induction false} CleanHides(steps: seq<Step>, s: State, t: State, dropped: set<string>, w: World, g: Graph)
    requires Ignores(steps, dropped, w) && Hides(s, t, dropped)
    requires Once(Binders(steps), dropped) && Unbound(steps, s.row, dropped)
    ensures Clean(steps, s, w, g) <==> Clean(PruneSteps(steps, dropped), t, w, g)
    decreases steps
  {
    if steps != [] {
      var st, rest := steps[0], steps[1..];
      var first := PruneStep(st, dropped);
      var ss := Advance(st, s, w, g);
      var tt := if first == [] then [t] else Advance(first[0], t, w, g);
      OnceParts(StepBinders(st), Binders(rest), dropped);
      AdvanceKeys(st, s, w, g, dropped);
      AdvanceHides(st, s, t, dropped, w, g);
      if st.SOptional? { CleanHides(st.inner, s, t, dropped, w, g); } else { StepCleanHides(st, s, t, dropped, w, g); }
      assert StepClean(st, s, w, g) <==> first == [] || StepClean(first[0], t, w, g);
      forall k | 0 <= k < |ss|
        ensures Clean(rest, ss[k], w, g) <==> Clean(PruneSteps(rest, dropped), tt[k], w, g)
      {
        assert ss[k] in ss;
        CleanHides(rest, ss[k], tt[k], dropped, w, g);
      }
      PrunedClean(st, rest, t, dropped, w, g);
      AllCleanIn(rest, ss, w, g);
    }
  }

  lemma PrunedClean(st: Step, rest: seq<Step>, t: State, dropped: set<string>, w: World, g: Graph)
    ensures var first := PruneStep(st, dropped);
      var tt := if first == [] then [t] else Advance(first[0], t, w, g);
      Clean(first + PruneSteps(rest, dropped), t, w, g) <==>
        (first == [] || StepClean(first[0], t, w, g)) && AllClean(PruneSteps(rest, dropped), tt, w, g)
  {
    var first, more := PruneStep(st, dropped), PruneSteps(rest, dropped);
    if first == [] {
      assert first + more == more && [t][0] == t;
    } else {
      assert (first + more)[1..] == more && (first + more)[0] == first[0];
      AllCleanIn(more, Advance(first[0], t, w, g), w, g);
    }
  }

  ghost predicate AllClean(steps: seq<Step>, ss: seq<State>, w: World, g: Graph) {
    forall k :: 0 <= k < |ss| ==> Clean(steps, ss[k], w, g)
  }

  lemma AllCleanIn(steps: seq<Step>, ss: seq<State>, w: World, g: Graph)
    ensures AllClean(steps, ss, w, g) <==> forall u :: u in ss ==> Clean(steps, u, w, g)
  {
    hide Clean;
    forall k | 0 <= k < |ss| ensures ss[k] in ss {}
  }
}
