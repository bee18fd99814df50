/**
 The syntax tree of a graph query, stored as a flat arena of nodes that refer to each other
 by integer handles.
 */
module Ast {
  import opened Common
  import Labels

  /** A 32-bit node handle; the all-ones pattern is the null handle. */
  datatype Handle = Null | At(index: nat)

  datatype Direction = Outgoing | Incoming | Undirected

  datatype PathMode = AnyPath | Walk | Trail | Simple | Acyclic

  datatype UnaryOp = Not | Neg | IsNull | IsNotNull

  datatype BinaryOp =
    | Eq | Neq | Lt | Lte | Gt | Gte
    | In | NotIn | Contains | StartsWith | EndsWith | RegexMatch
    | And | Or | Xor
    | Add | Concat | Sub | Mul | Div | Mod

  /** Floats are opaque bit patterns: no pass computes with them in this model. */
  datatype Literal =
    | LNull
    | LBool(b: bool)
    | LInt(i: i64)
    | LFloat(bits: nat)
    | LString(s: string)
    | LParam(name: string)
    | LList(items: seq<Literal>)
    | LMap(entries: seq<(string, Literal)>)

  datatype Aggregation = Count | CountDistinct | Sum | Avg | Min | Max | Collect

  datatype ExecutionMode = Normal | Explain | Profile | ExplainAndProfile

  datatype ProjectionItem =
    ProjectionItem(expression: Handle, alias: Option<string>, aggregation: Option<Aggregation>)

  datatype AstNode =
    | NodePattern(nvar: Option<string>, nlabel: Option<Labels.LabelExpression>, npreds: seq<Handle>)
    | EdgePattern(evar: Option<string>, elabel: Option<Labels.LabelExpression>, direction: Direction,
                  minHops: Option<nat>, maxHops: Option<nat>, epreds: seq<Handle>, targetNode: Handle)
    | PathChain(pathVar: Option<string>, pathMode: PathMode, startNode: Handle, edges: seq<Handle>)
    | BinaryExpression(left: Handle, bop: BinaryOp, right: Handle)
    | UnaryExpression(uop: UnaryOp, operand: Handle)
    | FunctionCall(fname: string, arguments: seq<Handle>)
    | CaseExpression(subject: Option<Handle>, branches: seq<(Handle, Handle)>, elseBranch: Option<Handle>)
    | ListComprehension(lvar: string, listExpr: Handle, lfilter: Option<Handle>, lmap: Option<Handle>)
    | PatternComprehension(path: Handle, pfilter: Option<Handle>, projection: Handle)
    | ExistsSubquery(esub: Handle)
    | CountSubquery(csub: Handle)
    | ListLiteral(elements: seq<Handle>)
    | PropertyAccess(target: Handle, property: string)
    | LiteralNode(lit: Literal)
    | Identifier(ident: string)
    | Parameter(param: string)
    | UnwindClause(unwound: Handle, ualias: string)
    | WhereClause(rootPredicate: Handle)
    | MatchClause(optional: bool, paths: seq<Handle>, mwhere: Option<Handle>)
    | ReturnClause(rdistinct: bool, rprojections: seq<ProjectionItem>, rorder: seq<(Handle, bool)>,
                   rskip: Option<nat>, rlimit: Option<nat>)
    | ProcedureCall(pmode: ExecutionMode, namespace: Option<string>, procedure: string,
                    parguments: seq<Handle>, yieldItems: seq<string>)
    | CreateClause(cpaths: seq<Handle>)
    | MergeClause(mpath: Handle, onCreate: seq<Handle>, onMatch: seq<Handle>)
    | SetClause(sitems: seq<Handle>)
    | SetItem(starget: Handle, svalue: Handle, isMerge: bool)
    | DeleteClause(detach: bool, dtargets: seq<Handle>)
    | RemoveClause(ritems: seq<Handle>)
    | LoadCsvClause(url: Handle, withHeaders: bool, calias: string)
    | WithClause(wdistinct: bool, wprojections: seq<ProjectionItem>, worder: seq<(Handle, bool)>,
                 wskip: Option<nat>, wlimit: Option<nat>, wwhere: Option<Handle>)
    | LetClause(letVar: string, letExpr: Handle)
    | FilterClause(filterPred: Handle)
    | QueryStatement(qmode: ExecutionMode, loadCsv: Option<Handle>, unwinds: seq<Handle>,
                     matches: seq<Handle>, linear: seq<Handle>, withs: seq<Handle>,
                     mutations: seq<Handle>, resultClause: Option<Handle>)

  /** The kinds that folding reads but never overwrites. */
  predicate IsExpression(n: AstNode) {
    || n.BinaryExpression? || n.UnaryExpression? || n.FunctionCall? || n.CaseExpression?
    || n.ListComprehension? || n.PatternComprehension? || n.ExistsSubquery? || n.CountSubquery?
    || n.ListLiteral? || n.PropertyAccess? || n.LiteralNode? || n.Identifier? || n.Parameter?
  }

  function OptSet(o: Option<Handle>): set<Handle> {
    if o.Some? then {o.value} else {}
  }

  function OptSeq(o: Option<Handle>): seq<Handle> {
    if o.Some? then [o.value] else []
  }

  function SeqSet(hs: seq<Handle>): set<Handle> {
    set h | h in hs
  }

  function FirstSet<T(==)>(ps: seq<(Handle, T)>): set<Handle> {
    set p | p in ps :: p.0
  }

  function ItemSet(ps: seq<ProjectionItem>): set<Handle> {
    set p | p in ps :: p.expression
  }

  /** Every handle stored in a node. */
  function Handles(n: AstNode): set<Handle> {
    match n
    case NodePattern(_, _, ps) => SeqSet(ps)
    case EdgePattern(_, _, _, _, _, ps, t) => SeqSet(ps) + {t}
    case PathChain(_, _, s, es) => {s} + SeqSet(es)
    case BinaryExpression(l, _, r) => {l, r}
    case UnaryExpression(_, e) => {e}
    case FunctionCall(_, args) => SeqSet(args)
    case CaseExpression(s, bs, e) =>
      OptSet(s) + FirstSet(bs) + (set b | b in bs :: b.1) + OptSet(e)
    case ListComprehension(_, l, f, m) => {l} + OptSet(f) + OptSet(m)
    case PatternComprehension(p, f, e) => {p} + OptSet(f) + {e}
    case ExistsSubquery(q) => {q}
    case CountSubquery(q) => {q}
    case ListLiteral(es) => SeqSet(es)
    case PropertyAccess(t, _) => {t}
    case LiteralNode(_) => {}
    case Identifier(_) => {}
    case Parameter(_) => {}
    case UnwindClause(e, _) => {e}
    case WhereClause(p) => {p}
    case MatchClause(_, ps, w) => SeqSet(ps) + OptSet(w)
    case ReturnClause(_, ps, os, _, _) => ItemSet(ps) + FirstSet(os)
    case ProcedureCall(_, _, _, args, _) => SeqSet(args)
    case CreateClause(ps) => SeqSet(ps)
    case MergeClause(p, c, m) => {p} + SeqSet(c) + SeqSet(m)
    case SetClause(ss) => SeqSet(ss)
    case SetItem(t, v, _) => {t, v}
    case DeleteClause(_, ts) => SeqSet(ts)
    case RemoveClause(rs) => SeqSet(rs)
    case LoadCsvClause(u, _, _) => {u}
    case WithClause(_, ps, os, _, _, w) => ItemSet(ps) + FirstSet(os) + OptSet(w)
    case LetClause(_, e) => {e}
    case FilterClause(p) => {p}
    case QueryStatement(_, c, us, ms, ls, ws, xs, r) =>
      OptSet(c) + SeqSet(us) + SeqSet(ms) + SeqSet(ls) + SeqSet(ws) + SeqSet(xs) + OptSet(r)
  }

  // ---------- The arena ----------

  /** The arena's contents together with a rank per node that bounds its height. */
  datatype Store = Store(nodes: seq<AstNode>, rank: seq<nat>)

  predicate Known(st: Store, h: Handle) {
    h.At? ==> h.index < |st.nodes|
  }

  predicate Low(st: Store, h: Handle, bound: nat) {
    h.At? ==> h.index < |st.rank| && st.rank[h.index] < bound
  }

  ghost predicate NodeLow(st: Store, n: AstNode, bound: nat) {
    forall c :: c in Handles(n) ==> Low(st, c, bound)
  }

  /** Closed and acyclic: every stored handle is null or names a node of smaller rank. */
  ghost predicate Wf(st: Store) {
    && |st.nodes| == |st.rank|
    && forall i :: 0 <= i < |st.nodes| ==> NodeLow(st, st.nodes[i], st.rank[i])
  }

  /** One more than the rank of a present node, zero for a missing one. */
  function Rk(st: Store, h: Handle): nat {
    if h.At? && h.index < |st.rank| then st.rank[h.index] + 1 else 0
  }

  /** What every pass guarantees: nodes are only added, and expression nodes never overwritten. */
  ghost predicate Grows(a: Store, b: Store) {
    && |a.nodes| <= |b.nodes|
    && forall i {:trigger b.nodes[i]} :: 0 <= i < |a.nodes| ==>
         && (IsExpression(a.nodes[i]) ==> b.nodes[i] == a.nodes[i])
         && (!IsExpression(a.nodes[i]) ==> !IsExpression(b.nodes[i]))
  }

  lemma GrowsTransitive(a: Store, b: Store, c: Store)
    requires Grows(a, b) && Grows(b, c)
    ensures Grows(a, c)
  {
    forall i | 0 <= i < |a.nodes|
      ensures IsExpression(a.nodes[i]) ==> c.nodes[i] == a.nodes[i]
      ensures !IsExpression(a.nodes[i]) ==> !IsExpression(c.nodes[i])
    {
      assert b.nodes[i] == b.nodes[i];
    }
  }

  class QueryAstArena {
    var nodes: seq<AstNode>
    ghost var rank: seq<nat>

    ghost function View(): Store
      reads this
    {
      Store(nodes, rank)
    }

    ghost predicate Valid()
      reads this
    {
      Wf(View())
    }

    constructor ()
      ensures Valid() && nodes == []
    {
      nodes := [];
      rank := [];
    }

    /** `alloc`: the caller names, for the proof, a rank above the node's children. */
    method Alloc(node: AstNode, ghost r: nat) returns (h: Handle)
      requires Valid() && NodeLow(View(), node, r)
      modifies this
      ensures Valid() && Grows(old(View()), View())
      ensures nodes == old(nodes) + [node] && rank == old(rank) + [r]
      ensures h == At(|old(nodes)|)
    {
      h := At(|nodes|);
      nodes := nodes + [node];
      rank := rank + [r];
    }

    /** `get`: an out-of-range or null handle is an error. */
    function Get(h: Handle): (r: Result<AstNode>)
      reads this
      ensures r.Ok? <==> h.At? && h.index < |nodes|
      ensures r.Ok? ==> r.value == nodes[h.index]
    {
      if h.At? && h.index < |nodes| then Ok(nodes[h.index]) else Err("Invalid node handle")
    }

    /** `checkpoint`. */
    function Checkpoint(): (n: nat)
      reads this
      ensures n == |nodes|
    {
      |nodes|
    }

    /** `rollback_to`: a checkpoint beyond the end changes nothing. */
    method RollbackTo(checkpoint: nat)
      modifies this
      ensures nodes == if checkpoint < |old(nodes)| then old(nodes)[..checkpoint] else old(nodes)
      ensures old(Valid()) && (forall i :: 0 <= i < |nodes| ==> forall c :: c in Handles(nodes[i]) ==> Known(View(), c))
        ==> Valid()
    {
      if checkpoint < |nodes| {
        ghost var before := View();
        nodes := nodes[..checkpoint];
        rank := if checkpoint < |rank| then rank[..checkpoint] else rank;
        if Wf(before) && forall i :: 0 <= i < |nodes| ==> forall c :: c in Handles(nodes[i]) ==> Known(View(), c) {
          forall i | 0 <= i < |nodes| ensures NodeLow(View(), nodes[i], rank[i]) {
            assert NodeLow(before, before.nodes[i], before.rank[i]);
          }
        }
      }
    }

    /** An update through `get_mut` of a node that is not an expression. */
    method Update(h: Handle, node: AstNode)
      requires Valid() && h.At? && h.index < |nodes|
      requires !IsExpression(nodes[h.index]) && !IsExpression(node)
      requires NodeLow(View(), node, rank[h.index])
      modifies this
      ensures Valid() && Grows(old(View()), View())
      ensures nodes == old(nodes)[h.index := node] && rank == old(rank)
    {
      nodes := nodes[h.index := node];
    }
  }
}
