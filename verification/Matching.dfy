/**
 What MATCH clauses do to a row (section 14.4 of ISO/IEC 39075:2024): a clause list is a
 list of elementary steps, each of which maps a state to the sequence of states it leads to.
 A predicate keeps a row only when it evaluates to true.
 */
module Matching {
  import opened Common
  import opened Ast
  import opened Trees
  import opened Semantics
  import opened Clauses
  import Labels

  /** A projection without its expressions. */
  datatype Frame = Frame(distinct: bool, heads: seq<(Option<string>, Option<Aggregation>)>, ascending: seq<bool>,
                         skip: Option<nat>, limit: Option<nat>)

  /**
   `hops` lists the edges an edge pattern may take from a node, with the node reached;
   `finish` aggregates, orders, deduplicates and cuts the tuples of a projection.
   */
  datatype Graph = Graph(
    nodes: seq<Value>,
    labels: Value -> set<string>,
    hops: (EdgeSpec, Value) -> seq<(Value, Value)>,
    admits: (PathMode, seq<Value>) -> bool,
    finish: (Frame, seq<seq<Outcome>>) -> seq<Row>)

  /** The bindings so far, the current node, and the elements of the current path. */
  datatype State = State(row: Row, here: Value, trace: seq<Value>)

  datatype Step =
    | SEnter
    | SHere(x: string)
    | SLabel(expr: Labels.LabelExpression)
    | SHop(spec: EdgeSpec)
    | SEdge(x: string)
    | SPred(cond: Expr)
    | SMode(mode: PathMode)
    | SPath(x: string)
    | SLeave
    | SUnwind(list: Expr, x: string)
    | SLet(x: string, value: Expr)
    | SOptional(inner: seq<Step>, vars: set<string>)

  predicate Accepts(e: Expr, row: Row, w: World) {
    Eval(e, row, w) == TRUE
  }

  /** A variable that is already bound must agree. */
  function Join(s: State, x: string, v: Value): seq<State> {
    if x !in s.row then [s.(row := s.row[x := v])]
    else if s.row[x] == v then [s]
    else []
  }

  /** OPTIONAL MATCH without a match: unbound pattern variables become null. */
  function Pad(row: Row, vars: set<string>): Row {
    map x | x in row.Keys + vars :: if x in row then row[x] else VNull
  }

  function LastEdge(trace: seq<Value>): Value {
    if |trace| >= 2 then trace[|trace| - 2] else VNull
  }

  function Unwound(s: State, x: string, vs: seq<Value>): seq<State> {
    seq(|vs|, k requires 0 <= k < |vs| => s.(row := s.row[x := vs[k]]))
  }

  function Advance(st: Step, s: State, w: World, g: Graph): seq<State>
    decreases st, 1
  {
    match st
    case SEnter => seq(|g.nodes|, k requires 0 <= k < |g.nodes| => State(s.row, g.nodes[k], [g.nodes[k]]))
    case SHere(x) => Join(s, x, s.here)
    case SLabel(l) => if Labels.Matches(l, g.labels(s.here)) then [s] else []
    case SHop(spec) =>
      var hs := g.hops(spec, s.here);
      seq(|hs|, k requires 0 <= k < |hs| => State(s.row, hs[k].1, s.trace + [hs[k].0, hs[k].1]))
    case SEdge(x) => Join(s, x, LastEdge(s.trace))
    case SPred(e) => if Accepts(e, s.row, w) then [s] else []
    case SMode(m) => if g.admits(m, s.trace) then [s] else []
    case SPath(x) => Join(s, x, VList(s.trace))
    case SLeave => [State(s.row, VNull, [])]
    case SUnwind(e, x) =>
      var o := Eval(e, s.row, w);
      if o.Val? && o.v.VList? then Unwound(s, x, o.v.items) else []
    case SLet(x, e) =>
      var o := Eval(e, s.row, w);
      if o.Val? then [s.(row := s.row[x := o.v])] else []
    case SOptional(inner, vars) =>
      var found := Run(inner, s, w, g);
      if found == [] then [s.(row := Pad(s.row, vars))] else found
  }

  /** The states a step list leads to, in order. */
  function Run(steps: seq<Step>, s: State, w: World, g: Graph): seq<State>
    decreases steps, 0, 0
  {
    if steps == [] then [s] else RunAll(steps[1..], Advance(steps[0], s, w, g), w, g)
  }

  function RunAll(steps: seq<Step>, ss: seq<State>, w: World, g: Graph): seq<State>
    decreases steps, 1, |ss|
  {
    if ss == [] then [] else Run(steps, ss[0], w, g) + RunAll(steps, ss[1..], w, g)
  }

  // ---------- Composition ----------

  lemma {:induction false} RunAllConcat(steps: seq<Step>, ss: seq<State>, tt: seq<State>, w: World, g: Graph)
    ensures RunAll(steps, ss + tt, w, g) == RunAll(steps, ss, w, g) + RunAll(steps, tt, w, g)
    decreases |ss|
  {
    if ss == [] {
      assert ss + tt == tt;
    } else {
      assert (ss + tt)[1..] == ss[1..] + tt;
      RunAllConcat(steps, ss[1..], tt, w, g);
    }
  }

  lemma RunAllOne(steps: seq<Step>, s: State, w: World, g: Graph)
    ensures RunAll(steps, [s], w, g) == Run(steps, s, w, g)
  {
    assert [s][1..] == [];
    assert RunAll(steps, [s][1..], w, g) == [];
  }

  lemma {:induction false} RunConcat(a: seq<Step>, b: seq<Step>, s: State, w: World, g: Graph)
    ensures Run(a + b, s, w, g) == RunAll(b, Run(a, s, w, g), w, g)
    decreases |a|, 0, 0
  {
    if a == [] {
      assert a + b == b;
      RunAllOne(b, s, w, g);
    } else {
      assert (a + b)[1..] == a[1..] + b;
      RunAllAssoc(a[1..], b, Advance(a[0], s, w, g), w, g);
    }
  }

  lemma {:induction false} RunAllAssoc(a: seq<Step>, b: seq<Step>, ss: seq<State>, w: World, g: Graph)
    ensures RunAll(a + b, ss, w, g) == RunAll(b, RunAll(a, ss, w, g), w, g)
    decreases |a|, 1, |ss|
  {
    if ss != [] {
      RunConcat(a, b, ss[0], w, g);
      RunAllAssoc(a, b, ss[1..], w, g);
      RunAllConcat(b, Run(a, ss[0], w, g), RunAll(a, ss[1..], w, g), w, g);
    }
  }

  /** Step lists that agree on every state agree on every table. */
  lemma {:induction false} RunAllSame(a: seq<Step>, b: seq<Step>, ss: seq<State>, w: World, g: Graph)
    requires forall s :: s in ss ==> Run(a, s, w, g) == Run(b, s, w, g)
    ensures RunAll(a, ss, w, g) == RunAll(b, ss, w, g)
    decreases |ss|
  {
    if ss != [] {
      RunAllSame(a, b, ss[1..], w, g);
    }
  }

  // ---------- Clauses as steps ----------

  function Preds(es: seq<Expr>): (r: seq<Step>)
    ensures |r| == |es|
  {
    seq(|es|, k requires 0 <= k < |es| => SPred(es[k]))
  }


  function NodeSteps(n: NodePat): seq<Step> {
    (if n.variable.Some? then [SHere(n.variable.value)] else [])
    + (if n.labels.Some? then [SLabel(n.labels.value)] else [])
    + Preds(n.preds)
  }

  function EdgeSteps(e: EdgePat): seq<Step> {
    [SHop(e.spec)] + (if e.variable.Some? then [SEdge(e.variable.value)] else []) + Preds(e.preds)
    + NodeSteps(e.target)
  }

  function EdgesSteps(es: seq<EdgePat>): seq<Step> {
    if es == [] then [] else EdgeSteps(es[0]) + EdgesSteps(es[1..])
  }

  function PathSteps(p: PathPat): seq<Step> {
    match p
    case Single(n) => [SEnter] + NodeSteps(n) + [SLeave]
    case Chain(v, m, s, es) =>
      [SEnter] + NodeSteps(s) + EdgesSteps(es)
      + ([SMode(m)] + (if v.Some? then [SPath(v.value)] else []) + [SLeave])
  }

  function PathsSteps(ps: seq<PathPat>): seq<Step> {
    if ps == [] then [] else PathSteps(ps[0]) + PathsSteps(ps[1..])
  }

  function OptVar(o: Option<string>): set<string> {
    if o.Some? then {o.value} else {}
  }

  function EdgesVars(es: seq<EdgePat>): set<string> {
    if es == [] then {} else OptVar(es[0].variable) + OptVar(es[0].target.variable) + EdgesVars(es[1..])
  }

  function PathVars(p: PathPat): set<string> {
    match p
    case Single(n) => OptVar(n.variable)
    case Chain(v, _, s, es) => OptVar(v) + OptVar(s.variable) + EdgesVars(es)
  }

  function PathsVars(ps: seq<PathPat>): set<string> {
    if ps == [] then {} else PathVars(ps[0]) + PathsVars(ps[1..])
  }

  /** Paths in order, then the filters. */
  function ClauseSteps(optional: bool, paths: seq<PathPat>, filters: seq<Expr>): seq<Step> {
    var inner := PathsSteps(paths) + Preds(filters);
    if optional then [SOptional(inner, PathsVars(paths))] else inner
  }

  function FilterList(o: Option<Expr>): seq<Expr> {
    if o.Some? then [o.value] else []
  }

  function MatchSteps(c: MatchCl): seq<Step> {
    ClauseSteps(c.optional, c.paths, FilterList(c.filter))
  }

  function MatchesSteps(cs: seq<MatchCl>): seq<Step> {
    if cs == [] then [] else MatchSteps(cs[0]) + MatchesSteps(cs[1..])
  }

  lemma {:induction false} MatchesStepsConcat(a: seq<MatchCl>, b: seq<MatchCl>)
    ensures MatchesSteps(a + b) == MatchesSteps(a) + MatchesSteps(b)
  {
    if a == [] {
      assert a + b == b;
    } else {
      assert (a + b)[1..] == a[1..] + b;
      MatchesStepsConcat(a[1..], b);
    }
  }
}
