/** Expression trees: what a handle into the arena denotes. */
module Trees {
  import opened Common
  import opened Ast

  /**
   Subqueries and comprehension paths are kept by handle: the clauses below them are not
   expressions. `EOther` stands for a null handle or a node that is not an expression.
   */
  datatype Expr =
    | ELit(lit: Literal)
    | EIdent(name: string)
    | EParam(param: string)
    | EProp(target: Expr, property: string)
    | EBin(op: BinaryOp, left: Expr, right: Expr)
    | EUn(uop: UnaryOp, operand: Expr)
    | ECall(fname: string, args: seq<Expr>)
    | ECase(subject: Option<Expr>, branches: seq<Branch>, els: Option<Expr>)
    | EListComp(v: string, list: Expr, filter: Option<Expr>, body: Option<Expr>)
    | EPatComp(path: Handle, filter: Option<Expr>, proj: Expr)
    | EListLit(items: seq<Expr>)
    | ESub(counting: bool, query: Handle)
    | EOther(handle: Handle)

  datatype Branch = Branch(cond: Expr, result: Expr)

  ghost function TreeOf(st: Store, h: Handle): Expr
    requires Wf(st)
    decreases Rk(st, h)
  {
    if h.Null? || h.index >= |st.nodes| then EOther(h) else
      var n := st.nodes[h.index];
      assert NodeLow(st, n, st.rank[h.index]);
      match n
      case LiteralNode(l) => ELit(l)
      case Identifier(x) => EIdent(x)
      case Parameter(x) => EParam(x)
      case PropertyAccess(t, p) =>
        assert t in Handles(n);
        EProp(TreeOf(st, t), p)
      case BinaryExpression(l, op, r) =>
        assert l in Handles(n) && r in Handles(n);
        EBin(op, TreeOf(st, l), TreeOf(st, r))
      case UnaryExpression(op, e) =>
        assert e in Handles(n);
        EUn(op, TreeOf(st, e))
      case FunctionCall(f, args) =>
        assert forall k :: 0 <= k < |args| ==> args[k] in Handles(n);
        ECall(f, seq(|args|, k requires 0 <= k < |args| => TreeOf(st, args[k])))
      case CaseExpression(s, bs, e) =>
        assert s.Some? ==> s.value in Handles(n);
        assert e.Some? ==> e.value in Handles(n);
        assert forall k :: 0 <= k < |bs| ==> bs[k] in bs && bs[k].0 in Handles(n) && bs[k].1 in Handles(n);
        ECase(if s.Some? then Some(TreeOf(st, s.value)) else None,
              seq(|bs|, k requires 0 <= k < |bs| => Branch(TreeOf(st, bs[k].0), TreeOf(st, bs[k].1))),
              if e.Some? then Some(TreeOf(st, e.value)) else None)
      case ListComprehension(x, l, f, m) =>
        assert l in Handles(n);
        assert f.Some? ==> f.value in Handles(n);
        assert m.Some? ==> m.value in Handles(n);
        EListComp(x, TreeOf(st, l),
                  if f.Some? then Some(TreeOf(st, f.value)) else None,
                  if m.Some? then Some(TreeOf(st, m.value)) else None)
      case PatternComprehension(p, f, e) =>
        assert e in Handles(n);
        assert f.Some? ==> f.value in Handles(n);
        EPatComp(p, if f.Some? then Some(TreeOf(st, f.value)) else None, TreeOf(st, e))
      case ListLiteral(es) =>
        assert forall k :: 0 <= k < |es| ==> es[k] in Handles(n);
        EListLit(seq(|es|, k requires 0 <= k < |es| => TreeOf(st, es[k])))
      case ExistsSubquery(q) => ESub(false, q)
      case CountSubquery(q) => ESub(true, q)
      case _ => EOther(h)
  }

  ghost function TreesOf(st: Store, hs: seq<Handle>): seq<Expr>
    requires Wf(st)
  {
    seq(|hs|, k requires 0 <= k < |hs| => TreeOf(st, hs[k]))
  }

  ghost function OptTree(st: Store, o: Option<Handle>): Option<Expr>
    requires Wf(st)
  {
    if o.Some? then Some(TreeOf(st, o.value)) else None
  }

  ghost function PairsOf(st: Store, bs: seq<(Handle, Handle)>): seq<Branch>
    requires Wf(st)
  {
    seq(|bs|, k requires 0 <= k < |bs| => Branch(TreeOf(st, bs[k].0), TreeOf(st, bs[k].1)))
  }

  /** The children of a call, list or CASE node, as the helper functions name them. */
  lemma TreeParts(st: Store, h: Handle)
    requires Wf(st) && h.At? && h.index < |st.nodes|
    ensures var n := st.nodes[h.index];
      && (n.FunctionCall? ==> TreeOf(st, h) == ECall(n.fname, TreesOf(st, n.arguments)))
      && (n.ListLiteral? ==> TreeOf(st, h) == EListLit(TreesOf(st, n.elements)))
      && (n.CaseExpression? ==>
            TreeOf(st, h) == ECase(OptTree(st, n.subject), PairsOf(st, n.branches), OptTree(st, n.elseBranch)))
  {
    var n := st.nodes[h.index];
    var t := TreeOf(st, h);
    if n.FunctionCall? {
      assert t.args == TreesOf(st, n.arguments);
    } else if n.ListLiteral? {
      assert t.items == TreesOf(st, n.elements);
    } else if n.CaseExpression? {
      assert t.branches == PairsOf(st, n.branches);
    }
  }

  /** Trees survive every pass: they only run through expression nodes. */
  lemma {:induction false} TreeFrame(a: Store, b: Store, h: Handle)
    requires Wf(a) && Wf(b) && Grows(a, b) && Known(a, h)
    ensures TreeOf(b, h) == TreeOf(a, h)
    decreases Rk(a, h)
  {
    if h.At? {
      var n := a.nodes[h.index];
      assert NodeLow(a, n, a.rank[h.index]);
      if IsExpression(n) {
        assert b.nodes[h.index] == n;
        forall c | c in Handles(n)
          ensures TreeOf(b, c) == TreeOf(a, c)
        {
          TreeFrame(a, b, c);
        }
        if n.FunctionCall? {
          assert TreeOf(a, h).args == TreeOf(b, h).args;
        } else if n.ListLiteral? {
          assert TreeOf(a, h).items == TreeOf(b, h).items;
        } else if n.CaseExpression? {
          forall k | 0 <= k < |n.branches|
            ensures TreeOf(a, h).branches[k] == TreeOf(b, h).branches[k]
          {
            assert n.branches[k].0 in FirstSet(n.branches);
          }
          assert TreeOf(a, h).branches == TreeOf(b, h).branches;
        }
      } else {
        assert !IsExpression(b.nodes[h.index]);
      }
    }
  }

  lemma TreesFrame(a: Store, b: Store, hs: seq<Handle>)
    requires Wf(a) && Wf(b) && Grows(a, b) && forall k :: 0 <= k < |hs| ==> Known(a, hs[k])
    ensures TreesOf(b, hs) == TreesOf(a, hs)
  {
    forall k | 0 <= k < |hs|
      ensures TreeOf(b, hs[k]) == TreeOf(a, hs[k])
    {
      TreeFrame(a, b, hs[k]);
    }
  }
}
