/** Patterns, clauses and statements: what the non-expression nodes of the arena denote. */
module Clauses {
  import opened Common
  import opened Ast
  import opened Trees
  import opened Folding
  import Labels

  datatype EdgeSpec = EdgeSpec(labels: Option<Labels.LabelExpression>, direction: Direction,
                               minHops: Option<nat>, maxHops: Option<nat>)

  datatype NodePat = NodePat(variable: Option<string>, labels: Option<Labels.LabelExpression>, preds: seq<Expr>)

  datatype EdgePat = EdgePat(variable: Option<string>, spec: EdgeSpec, preds: seq<Expr>, target: NodePat)

  datatype PathPat =
    | Single(node: NodePat)
    | Chain(pathVar: Option<string>, mode: PathMode, start: NodePat, edges: seq<EdgePat>)

  datatype MatchCl = MatchCl(optional: bool, paths: seq<PathPat>, filter: Option<Expr>)

  datatype Unwind = Unwind(list: Expr, alias: string)

  datatype Linear = Let(variable: string, value: Expr) | Keep(cond: Expr)

  datatype Item = Item(value: Expr, alias: Option<string>, aggregation: Option<Aggregation>)

  datatype SortKey = SortKey(value: Expr, ascending: bool)

  /** A RETURN clause, or a WITH clause and its filter. */
  datatype Projection = Projection(distinct: bool, items: seq<Item>, order: seq<SortKey>,
                                   skip: Option<nat>, limit: Option<nat>, filter: Option<Expr>)

  datatype Statement = Statement(unwinds: seq<Unwind>, matches: seq<MatchCl>, linear: seq<Linear>,
                                 withs: seq<Projection>, result: Option<Projection>)

  // ---------- From the arena ----------


  /** The node at a handle; a missing one reads as a literal, which no clause is. */
  function NodeAt(st: Store, h: Handle): AstNode {
    if h.At? && h.index < |st.nodes| then st.nodes[h.index] else LiteralNode(LNull)
  }

  predicate IsWhere(st: Store, o: Option<Handle>) {
    o.Some? ==> NodeAt(st, o.value).WhereClause?
  }

  predicate IsMutation(n: AstNode) {
    n.CreateClause? || n.MergeClause? || n.SetClause? || n.DeleteClause? || n.RemoveClause?
  }

  /** Handles point at the kinds of node the builder puts there. */
  predicate NodeShaped(st: Store, n: AstNode) {
    match n
    case PathChain(_, _, s, es) =>
      && (s.At? ==> NodeAt(st, s).NodePattern?)
      && forall e :: e in es ==> NodeAt(st, e).EdgePattern?
    case EdgePattern(_, _, _, _, _, _, t) => t.At? ==> NodeAt(st, t).NodePattern?
    case MatchClause(_, ps, w) =>
      && IsWhere(st, w)
      && forall p :: p in ps ==> NodeAt(st, p).NodePattern? || NodeAt(st, p).PathChain?
    case WithClause(_, _, _, _, _, w) => IsWhere(st, w)
    case SetClause(ss) => forall h :: h in ss ==> NodeAt(st, h).SetItem?
    case MergeClause(p, c, m) =>
      && (NodeAt(st, p).NodePattern? || NodeAt(st, p).PathChain?)
      && (forall h :: h in c ==> NodeAt(st, h).SetItem?)
      && (forall h :: h in m ==> NodeAt(st, h).SetItem?)
    case CreateClause(ps) => forall p :: p in ps ==> NodeAt(st, p).NodePattern? || NodeAt(st, p).PathChain?
    case QueryStatement(_, c, us, ms, ls, ws, xs, r) =>
      && (forall h :: h in xs && h.At? ==> IsMutation(NodeAt(st, h)))
      && (c.Some? ==> NodeAt(st, c.value).LoadCsvClause?)
      && (forall h :: h in us ==> NodeAt(st, h).UnwindClause?)
      && (forall h :: h in ms ==> NodeAt(st, h).MatchClause?)
      && (forall h :: h in ls ==> NodeAt(st, h).LetClause? || NodeAt(st, h).FilterClause?)
      && (forall h :: h in ws ==> NodeAt(st, h).WithClause?)
      && (r.Some? ==> NodeAt(st, r.value).ReturnClause?)
    case _ => true
  }

  ghost predicate Shaped(st: Store) {
    forall i :: 0 <= i < |st.nodes| ==> NodeShaped(st, st.nodes[i])
  }

  ghost function NodeOf(st: Store, h: Handle): NodePat
    requires Wf(st)
  {
    if NodeAt(st, h).NodePattern? then
      var n := NodeAt(st, h); NodePat(n.nvar, n.nlabel, TreesOf(st, n.npreds))
    else NodePat(None, None, [])
  }

  ghost function EdgeOf(st: Store, h: Handle): EdgePat
    requires Wf(st)
  {
    if NodeAt(st, h).EdgePattern? then
      var n := NodeAt(st, h);
      EdgePat(n.evar, EdgeSpec(n.elabel, n.direction, n.minHops, n.maxHops),
              TreesOf(st, n.epreds), NodeOf(st, n.targetNode))
    else EdgePat(None, EdgeSpec(None, Undirected, None, None), [], NodePat(None, None, []))
  }

  ghost function EdgesOf(st: Store, hs: seq<Handle>): seq<EdgePat>
    requires Wf(st)
  {
    seq(|hs|, k requires 0 <= k < |hs| => EdgeOf(st, hs[k]))
  }

  ghost function PathOf(st: Store, h: Handle): PathPat
    requires Wf(st)
  {
    if NodeAt(st, h).PathChain? then
      var n := NodeAt(st, h);
      Chain(n.pathVar, n.pathMode, NodeOf(st, n.startNode), EdgesOf(st, n.edges))
    else Single(NodeOf(st, h))
  }

  ghost function PathsOf(st: Store, hs: seq<Handle>): seq<PathPat>
    requires Wf(st)
  {
    seq(|hs|, k requires 0 <= k < |hs| => PathOf(st, hs[k]))
  }

  ghost function WhereOf(st: Store, o: Option<Handle>): Option<Expr>
    requires Wf(st)
  {
    if o.Some? && IsWhere(st, o) then Some(TreeOf(st, NodeAt(st, o.value).rootPredicate)) else None
  }

  ghost function MatchOf(st: Store, h: Handle): MatchCl
    requires Wf(st)
  {
    if NodeAt(st, h).MatchClause? then
      var n := NodeAt(st, h); MatchCl(n.optional, PathsOf(st, n.paths), WhereOf(st, n.mwhere))
    else MatchCl(false, [], None)
  }

  ghost function MatchesOf(st: Store, hs: seq<Handle>): seq<MatchCl>
    requires Wf(st)
  {
    seq(|hs|, k requires 0 <= k < |hs| => MatchOf(st, hs[k]))
  }

  ghost function UnwindOf(st: Store, h: Handle): Unwind
    requires Wf(st)
  {
    if NodeAt(st, h).UnwindClause? then
      Unwind(TreeOf(st, NodeAt(st, h).unwound), NodeAt(st, h).ualias)
    else Unwind(EOther(h), "")
  }

  ghost function LinearOf(st: Store, h: Handle): Linear
    requires Wf(st)
  {
    if NodeAt(st, h).LetClause? then
      Let(NodeAt(st, h).letVar, TreeOf(st, NodeAt(st, h).letExpr))
    else if NodeAt(st, h).FilterClause? then
      Keep(TreeOf(st, NodeAt(st, h).filterPred))
    else Keep(EOther(h))
  }

  ghost function ItemsOf(st: Store, ps: seq<ProjectionItem>): seq<Item>
    requires Wf(st)
  {
    seq(|ps|, k requires 0 <= k < |ps| => Item(TreeOf(st, ps[k].expression), ps[k].alias, ps[k].aggregation))
  }

  ghost function KeysOf(st: Store, os: seq<(Handle, bool)>): seq<SortKey>
    requires Wf(st)
  {
    seq(|os|, k requires 0 <= k < |os| => SortKey(TreeOf(st, os[k].0), os[k].1))
  }

  ghost function WithOf(st: Store, h: Handle): Projection
    requires Wf(st)
  {
    if NodeAt(st, h).WithClause? then
      var n := NodeAt(st, h);
      Projection(n.wdistinct, ItemsOf(st, n.wprojections), KeysOf(st, n.worder), n.wskip, n.wlimit,
                 WhereOf(st, n.wwhere))
    else Projection(false, [], [], None, None, None)
  }

  ghost function ResultOf(st: Store, o: Option<Handle>): Option<Projection>
    requires Wf(st)
  {
    if o.Some? && NodeAt(st, o.value).ReturnClause? then
      var n := NodeAt(st, o.value);
      Some(Projection(n.rdistinct, ItemsOf(st, n.rprojections), KeysOf(st, n.rorder), n.rskip, n.rlimit, None))
    else None
  }

  ghost function StatementOf(st: Store, h: Handle): Statement
    requires Wf(st)
  {
    if NodeAt(st, h).QueryStatement? then
      var n := NodeAt(st, h);
      Statement(seq(|n.unwinds|, k requires 0 <= k < |n.unwinds| => UnwindOf(st, n.unwinds[k])),
                MatchesOf(st, n.matches),
                seq(|n.linear|, k requires 0 <= k < |n.linear| => LinearOf(st, n.linear[k])),
                seq(|n.withs|, k requires 0 <= k < |n.withs| => WithOf(st, n.withs[k])),
                ResultOf(st, n.resultClause))
    else Statement([], [], [], [], None)
  }

  // ---------- Folding clause by clause ----------

  function FoldNode(n: NodePat): NodePat {
    n.(preds := FoldAll(n.preds))
  }

  function FoldEdge(e: EdgePat): EdgePat {
    e.(preds := FoldAll(e.preds), target := FoldNode(e.target))
  }

  function FoldPath(p: PathPat): PathPat {
    match p
    case Single(n) => Single(FoldNode(n))
    case Chain(v, m, s, es) =>
      Chain(v, m, FoldNode(s), seq(|es|, k requires 0 <= k < |es| => FoldEdge(es[k])))
  }

  function FoldMatch(c: MatchCl): MatchCl {
    MatchCl(c.optional, seq(|c.paths|, k requires 0 <= k < |c.paths| => FoldPath(c.paths[k])), FoldOpt(c.filter))
  }

  function FoldUnwind(u: Unwind): Unwind {
    u.(list := Fold(u.list))
  }

  function FoldLinear(l: Linear): Linear {
    match l
    case Let(x, e) => Let(x, Fold(e))
    case Keep(e) => Keep(Fold(e))
  }

  function FoldProjection(p: Projection): Projection {
    p.(items := seq(|p.items|, k requires 0 <= k < |p.items| => p.items[k].(value := Fold(p.items[k].value))),
       order := seq(|p.order|, k requires 0 <= k < |p.order| => p.order[k].(value := Fold(p.order[k].value))),
       filter := FoldOpt(p.filter))
  }

  /** `fold_all_expressions`. */
  function FoldStatement(q: Statement): Statement {
    Statement(seq(|q.unwinds|, k requires 0 <= k < |q.unwinds| => FoldUnwind(q.unwinds[k])),
              seq(|q.matches|, k requires 0 <= k < |q.matches| => FoldMatch(q.matches[k])),
              seq(|q.linear|, k requires 0 <= k < |q.linear| => FoldLinear(q.linear[k])),
              seq(|q.withs|, k requires 0 <= k < |q.withs| => FoldProjection(q.withs[k])),
              if q.result.None? then None else Some(FoldProjection(q.result.value)))
  }
}
