/** Importing one arena into another: every handle is shifted, and every tree survives. */
module Import {
  import opened Common
  import opened Ast

  // ---------- 32-bit handles ----------

  const NULL_HANDLE: nat := 0xFFFF_FFFF

  /** The handle a 32-bit value stands for. */
  function Decoded(raw: nat): Handle {
    if raw == NULL_HANDLE then Null else At(raw)
  }

  /** `remap_handle` on the 32-bit value; addition wraps. */
  function RemapRaw(raw: nat, offset: nat): nat {
    if raw == NULL_HANDLE then raw else (raw + offset) % 0x1_0000_0000
  }

  function Remap(h: Handle, offset: nat): Handle {
    if h.Null? then h else At(h.index + offset)
  }

  /** The shifted 32-bit value names the shifted node exactly when it stays below the null pattern. */
  lemma RemapRawIff(raw: nat, offset: nat)
    requires raw < 0x1_0000_0000 && offset < 0x1_0000_0000
    ensures Decoded(RemapRaw(raw, offset)) == Remap(Decoded(raw), offset)
      <==> raw == NULL_HANDLE || raw + offset < NULL_HANDLE
  {
    if raw != NULL_HANDLE && raw + offset >= 0x1_0000_0000 {
      assert (raw + offset) % 0x1_0000_0000 == raw + offset - 0x1_0000_0000;
    }
  }

  /** One short of the null pattern, a shift by one yields the null handle; by two, the first node. */
  lemma RemapRawFails()
    ensures Decoded(0xFFFF_FFFE) == At(0xFFFF_FFFE) && Decoded(RemapRaw(0xFFFF_FFFE, 1)) == Null
    ensures Decoded(RemapRaw(0xFFFF_FFFE, 2)) == At(0)
  {
    assert 0x1_0000_0000 % 0x1_0000_0000 == 0;
  }

  // ---------- Shifting a node ----------

  function RemapAll(hs: seq<Handle>, offset: nat): seq<Handle> {
    seq(|hs|, k requires 0 <= k < |hs| => Remap(hs[k], offset))
  }

  function RemapOpt(o: Option<Handle>, offset: nat): Option<Handle> {
    if o.None? then None else Some(Remap(o.value, offset))
  }

  function RemapItems(ps: seq<ProjectionItem>, offset: nat): seq<ProjectionItem> {
    seq(|ps|, k requires 0 <= k < |ps| => ps[k].(expression := Remap(ps[k].expression, offset)))
  }

  function RemapKeys(os: seq<(Handle, bool)>, offset: nat): seq<(Handle, bool)> {
    seq(|os|, k requires 0 <= k < |os| => (Remap(os[k].0, offset), os[k].1))
  }

  function RemapPairs(bs: seq<(Handle, Handle)>, offset: nat): seq<(Handle, Handle)> {
    seq(|bs|, k requires 0 <= k < |bs| => (Remap(bs[k].0, offset), Remap(bs[k].1, offset)))
  }

  /** `remap_ast_node`. */
  function RemapNode(n: AstNode, o: nat): AstNode {
    match n
    case NodePattern(v, l, ps) => NodePattern(v, l, RemapAll(ps, o))
    case EdgePattern(v, l, d, lo, hi, ps, t) => EdgePattern(v, l, d, lo, hi, RemapAll(ps, o), Remap(t, o))
    case PathChain(v, m, s, es) => PathChain(v, m, Remap(s, o), RemapAll(es, o))
    case BinaryExpression(l, op, r) => BinaryExpression(Remap(l, o), op, Remap(r, o))
    case UnaryExpression(op, e) => UnaryExpression(op, Remap(e, o))
    case FunctionCall(f, args) => FunctionCall(f, RemapAll(args, o))
    case CaseExpression(s, bs, e) => CaseExpression(RemapOpt(s, o), RemapPairs(bs, o), RemapOpt(e, o))
    case ListComprehension(x, l, f, m) => ListComprehension(x, Remap(l, o), RemapOpt(f, o), RemapOpt(m, o))
    case PatternComprehension(p, f, e) => PatternComprehension(Remap(p, o), RemapOpt(f, o), Remap(e, o))
    case ExistsSubquery(q) => ExistsSubquery(Remap(q, o))
    case CountSubquery(q) => CountSubquery(Remap(q, o))
    case ListLiteral(es) => ListLiteral(RemapAll(es, o))
    case PropertyAccess(t, p) => PropertyAccess(Remap(t, o), p)
    case UnwindClause(e, x) => UnwindClause(Remap(e, o), x)
    case WhereClause(p) => WhereClause(Remap(p, o))
    case MatchClause(opt, ps, w) => MatchClause(opt, RemapAll(ps, o), RemapOpt(w, o))
    case ReturnClause(d, ps, os, s, l) => ReturnClause(d, RemapItems(ps, o), RemapKeys(os, o), s, l)
    case ProcedureCall(m, ns, p, args, ys) => ProcedureCall(m, ns, p, RemapAll(args, o), ys)
    case CreateClause(ps) => CreateClause(RemapAll(ps, o))
    case MergeClause(p, c, m) => MergeClause(Remap(p, o), RemapAll(c, o), RemapAll(m, o))
    case SetClause(ss) => SetClause(RemapAll(ss, o))
    case SetItem(t, v, m) => SetItem(Remap(t, o), Remap(v, o), m)
    case DeleteClause(d, ts) => DeleteClause(d, RemapAll(ts, o))
    case RemoveClause(rs) => RemoveClause(RemapAll(rs, o))
    case LoadCsvClause(u, w, x) => LoadCsvClause(Remap(u, o), w, x)
    case WithClause(d, ps, os, s, l, w) => WithClause(d, RemapItems(ps, o), RemapKeys(os, o), s, l, RemapOpt(w, o))
    case LetClause(x, e) => LetClause(x, Remap(e, o))
    case FilterClause(p) => FilterClause(Remap(p, o))
    case QueryStatement(m, c, us, ms, ls, ws, xs, r) =>
      QueryStatement(m, RemapOpt(c, o), RemapAll(us, o), RemapAll(ms, o), RemapAll(ls, o), RemapAll(ws, o),
                     RemapAll(xs, o), RemapOpt(r, o))
    case LiteralNode(_) => n
    case Identifier(_) => n
    case Parameter(_) => n
  }

  // ---------- What a handle denotes ----------

  function Firsts<T>(ps: seq<(Handle, T)>): seq<Handle> {
    seq(|ps|, k requires 0 <= k < |ps| => ps[k].0)
  }

  function Seconds(ps: seq<(Handle, Handle)>): seq<Handle> {
    seq(|ps|, k requires 0 <= k < |ps| => ps[k].1)
  }

  function Expressions(ps: seq<ProjectionItem>): seq<Handle> {
    seq(|ps|, k requires 0 <= k < |ps| => ps[k].expression)
  }

  /** The handles of a node, one place after the other. */
  function Children(n: AstNode): seq<Handle> {
    match n
    case NodePattern(_, _, ps) => ps
    case EdgePattern(_, _, _, _, _, ps, t) => ps + [t]
    case PathChain(_, _, s, es) => [s] + es
    case BinaryExpression(l, _, r) => [l, r]
    case UnaryExpression(_, e) => [e]
    case FunctionCall(_, args) => args
    case CaseExpression(s, bs, e) => OptSeq(s) + Firsts(bs) + Seconds(bs) + OptSeq(e)
    case ListComprehension(_, l, f, m) => [l] + OptSeq(f) + OptSeq(m)
    case PatternComprehension(p, f, e) => [p] + OptSeq(f) + [e]
    case ExistsSubquery(q) => [q]
    case CountSubquery(q) => [q]
    case ListLiteral(es) => es
    case PropertyAccess(t, _) => [t]
    case UnwindClause(e, _) => [e]
    case WhereClause(p) => [p]
    case MatchClause(_, ps, w) => ps + OptSeq(w)
    case ReturnClause(_, ps, os, _, _) => Expressions(ps) + Firsts(os)
    case ProcedureCall(_, _, _, args, _) => args
    case CreateClause(ps) => ps
    case MergeClause(p, c, m) => [p] + c + m
    case SetClause(ss) => ss
    case SetItem(t, v, _) => [t, v]
    case DeleteClause(_, ts) => ts
    case RemoveClause(rs) => rs
    case LoadCsvClause(u, _, _) => [u]
    case WithClause(_, ps, os, _, _, w) => Expressions(ps) + Firsts(os) + OptSeq(w)
    case LetClause(_, e) => [e]
    case FilterClause(p) => [p]
    case QueryStatement(_, c, us, ms, ls, ws, xs, r) => OptSeq(c) + us + ms + ls + ws + xs + OptSeq(r)
    case LiteralNode(_) => []
    case Identifier(_) => []
    case Parameter(_) => []
  }

  function Blank(hs: seq<Handle>): seq<Handle> {
    seq(|hs|, _ => Null)
  }

  function BlankOpt(o: Option<Handle>): Option<Handle> {
    if o.None? then None else Some(Null)
  }

  function BlankItems(ps: seq<ProjectionItem>): seq<ProjectionItem> {
    seq(|ps|, k requires 0 <= k < |ps| => ps[k].(expression := Null))
  }

  function BlankKeys(os: seq<(Handle, bool)>): seq<(Handle, bool)> {
    seq(|os|, k requires 0 <= k < |os| => (Null, os[k].1))
  }

  function BlankPairs(bs: seq<(Handle, Handle)>): seq<(Handle, Handle)> {
    seq(|bs|, _ => (Null, Null))
  }

  /** A node without its handles: what is left is its kind, its values and the number of its places. */
  function Shape(n: AstNode): AstNode {
    match n
    case NodePattern(v, l, ps) => NodePattern(v, l, Blank(ps))
    case EdgePattern(v, l, d, lo, hi, ps, _) => EdgePattern(v, l, d, lo, hi, Blank(ps), Null)
    case PathChain(v, m, _, es) => PathChain(v, m, Null, Blank(es))
    case BinaryExpression(_, op, _) => BinaryExpression(Null, op, Null)
    case UnaryExpression(op, _) => UnaryExpression(op, Null)
    case FunctionCall(f, args) => FunctionCall(f, Blank(args))
    case CaseExpression(s, bs, e) => CaseExpression(BlankOpt(s), BlankPairs(bs), BlankOpt(e))
    case ListComprehension(x, _, f, m) => ListComprehension(x, Null, BlankOpt(f), BlankOpt(m))
    case PatternComprehension(_, f, _) => PatternComprehension(Null, BlankOpt(f), Null)
    case ExistsSubquery(_) => ExistsSubquery(Null)
    case CountSubquery(_) => CountSubquery(Null)
    case ListLiteral(es) => ListLiteral(Blank(es))
    case PropertyAccess(_, p) => PropertyAccess(Null, p)
    case UnwindClause(_, x) => UnwindClause(Null, x)
    case WhereClause(_) => WhereClause(Null)
    case MatchClause(opt, ps, w) => MatchClause(opt, Blank(ps), BlankOpt(w))
    case ReturnClause(d, ps, os, s, l) => ReturnClause(d, BlankItems(ps), BlankKeys(os), s, l)
    case ProcedureCall(m, ns, p, args, ys) => ProcedureCall(m, ns, p, Blank(args), ys)
    case CreateClause(ps) => CreateClause(Blank(ps))
    case MergeClause(_, c, m) => MergeClause(Null, Blank(c), Blank(m))
    case SetClause(ss) => SetClause(Blank(ss))
    case SetItem(_, _, m) => SetItem(Null, Null, m)
    case DeleteClause(d, ts) => DeleteClause(d, Blank(ts))
    case RemoveClause(rs) => RemoveClause(Blank(rs))
    case LoadCsvClause(_, w, x) => LoadCsvClause(Null, w, x)
    case WithClause(d, ps, os, s, l, w) => WithClause(d, BlankItems(ps), BlankKeys(os), s, l, BlankOpt(w))
    case LetClause(x, _) => LetClause(x, Null)
    case FilterClause(_) => FilterClause(Null)
    case QueryStatement(m, c, us, ms, ls, ws, xs, r) =>
      QueryStatement(m, BlankOpt(c), Blank(us), Blank(ms), Blank(ls), Blank(ws), Blank(xs), BlankOpt(r))
    case LiteralNode(_) => n
    case Identifier(_) => n
    case Parameter(_) => n
  }

  lemma ChildrenAreHandles(n: AstNode)
    ensures forall c :: c in Children(n) <==> c in Handles(n)
  {
    if IsExpression(n) {
      ExpressionChildren(n);
    } else if n.ReturnClause? || n.WithClause? || n.QueryStatement? {
      ClauseChildren(n);
    } else {
      PatternChildren(n);
    }
  }

  lemma ExpressionChildren(n: AstNode)
    requires IsExpression(n)
    ensures forall c :: c in Children(n) <==> c in Handles(n)
  {
    if n.CaseExpression? { PairMembers(n.branches); }
  }

  lemma ClauseChildren(n: AstNode)
    requires n.ReturnClause? || n.WithClause? || n.QueryStatement?
    ensures forall c :: c in Children(n) <==> c in Handles(n)
  {
    match n
    case ReturnClause(_, ps, os, _, _) => ListMembers(ps, os);
    case WithClause(_, ps, os, _, _, _) => ListMembers(ps, os);
    case _ =>
  }

  lemma PatternChildren(n: AstNode)
    requires !IsExpression(n) && !n.ReturnClause? && !n.WithClause? && !n.QueryStatement?
    ensures forall c :: c in Children(n) <==> c in Handles(n)
  {
  }

  lemma PairMembers(bs: seq<(Handle, Handle)>)
    ensures forall c :: c in Firsts(bs) <==> c in FirstSet(bs)
    ensures forall c :: c in Seconds(bs) <==> c in (set b | b in bs :: b.1)
  {
    forall b | b in bs ensures b.0 in Firsts(bs) && b.1 in Seconds(bs) {
      var k :| 0 <= k < |bs| && bs[k] == b;
      assert Firsts(bs)[k] == b.0 && Seconds(bs)[k] == b.1;
    }
  }

  lemma ListMembers(ps: seq<ProjectionItem>, os: seq<(Handle, bool)>)
    ensures forall c :: c in Expressions(ps) <==> c in ItemSet(ps)
    ensures forall c :: c in Firsts(os) <==> c in FirstSet(os)
  {
    forall p | p in ps ensures p.expression in Expressions(ps) {
      var k :| 0 <= k < |ps| && ps[k] == p;
      assert Expressions(ps)[k] == p.expression;
    }
    forall o | o in os ensures o.0 in Firsts(os) {
      var k :| 0 <= k < |os| && os[k] == o;
      assert Firsts(os)[k] == o.0;
    }
  }

  /** A tree of nodes; a null or dangling handle denotes nothing. */
  datatype Tree = Missing | Node(shape: AstNode, children: seq<Tree>)

  ghost function TreeAt(st: Store, h: Handle): Tree
    requires Wf(st)
    decreases Rk(st, h)
  {
    if h.Null? || h.index >= |st.nodes| then Missing
    else
      var n := st.nodes[h.index];
      assert NodeLow(st, n, st.rank[h.index]);
      ChildrenAreHandles(n);
      var hs := Children(n);
      assert forall k :: 0 <= k < |hs| ==> hs[k] in Handles(n);
      Node(Shape(n), seq(|hs|, k requires 0 <= k < |hs| => TreeAt(st, hs[k])))
  }

  ghost function TreesAt(st: Store, hs: seq<Handle>): seq<Tree>
    requires Wf(st)
  {
    seq(|hs|, k requires 0 <= k < |hs| => TreeAt(st, hs[k]))
  }

  /** A node's tree is its shape over the trees of its children, which lie lower. */
  lemma TreeUnfold(st: Store, h: Handle)
    requires Wf(st) && h.At? && h.index < |st.nodes|
    ensures var n := st.nodes[h.index];
      && TreeAt(st, h) == Node(Shape(n), TreesAt(st, Children(n)))
      && forall k :: 0 <= k < |Children(n)| ==> Known(st, Children(n)[k]) && Rk(st, Children(n)[k]) < Rk(st, h)
  {
    var n := st.nodes[h.index];
    assert NodeLow(st, n, st.rank[h.index]);
    ChildrenAreHandles(n);
    var hs := Children(n);
    forall k | 0 <= k < |hs| ensures Known(st, hs[k]) && Rk(st, hs[k]) < Rk(st, h) {
      assert hs[k] in Handles(n);
    }
    assert TreeAt(st, h).children == TreesAt(st, hs);
  }

  // ---------- Shifting keeps the tree ----------

  lemma RemapConcat(a: seq<Handle>, b: seq<Handle>, o: nat)
    ensures RemapAll(a + b, o) == RemapAll(a, o) + RemapAll(b, o)
  {
  }

  lemma RemapOptSeq(x: Option<Handle>, o: nat)
    ensures OptSeq(RemapOpt(x, o)) == RemapAll(OptSeq(x), o) && BlankOpt(RemapOpt(x, o)) == BlankOpt(x)
  {
  }

  lemma RemapBlank(hs: seq<Handle>, o: nat)
    ensures Blank(RemapAll(hs, o)) == Blank(hs)
  {
  }

  lemma RemapPairLists(bs: seq<(Handle, Handle)>, o: nat)
    ensures Firsts(RemapPairs(bs, o)) == RemapAll(Firsts(bs), o)
    ensures Seconds(RemapPairs(bs, o)) == RemapAll(Seconds(bs), o)
    ensures BlankPairs(RemapPairs(bs, o)) == BlankPairs(bs)
  {
  }

  lemma RemapProjection(ps: seq<ProjectionItem>, os: seq<(Handle, bool)>, o: nat)
    ensures Expressions(RemapItems(ps, o)) == RemapAll(Expressions(ps), o)
    ensures Firsts(RemapKeys(os, o)) == RemapAll(Firsts(os), o)
    ensures BlankItems(RemapItems(ps, o)) == BlankItems(ps) && BlankKeys(RemapKeys(os, o)) == BlankKeys(os)
  {
  }

  ghost predicate Shifted(n: AstNode, m: AstNode, o: nat) {
    Children(m) == RemapAll(Children(n), o) && Shape(m) == Shape(n)
  }

  /** Every place of the node is shifted, and nothing else changes. */
  lemma RemapNodeParts(n: AstNode, o: nat)
    ensures Shifted(n, RemapNode(n, o), o)
  {
    if IsExpression(n) {
      RemapExpression(n, o);
    } else if n.QueryStatement? {
      RemapStatement(n, o);
    } else if n.ReturnClause? || n.WithClause? {
      RemapProjections(n, o);
    } else {
      RemapPattern(n, o);
    }
  }

  lemma RemapExpression(n: AstNode, o: nat)
    requires IsExpression(n)
    ensures Shifted(n, RemapNode(n, o), o)
  {
    if n.CaseExpression? {
      RemapCase(n, o);
    }
  }

  lemma RemapCase(n: AstNode, o: nat)
    requires n.CaseExpression?
    ensures Shifted(n, RemapNode(n, o), o)
  {
    var s, f, g, e := OptSeq(n.subject), Firsts(n.branches), Seconds(n.branches), OptSeq(n.elseBranch);
    RemapPairLists(n.branches, o);
    RemapOptSeq(n.subject, o);
    RemapOptSeq(n.elseBranch, o);
    hide RemapAll, Firsts, Seconds, OptSeq, RemapPairs;
    RemapConcat(s, f, o);
    RemapConcat(s + f, g, o);
    RemapConcat(s + f + g, e, o);
  }

  lemma RemapProjections(n: AstNode, o: nat)
    requires n.ReturnClause? || n.WithClause?
    ensures Shifted(n, RemapNode(n, o), o)
  {
    var ps := if n.ReturnClause? then n.rprojections else n.wprojections;
    var os := if n.ReturnClause? then n.rorder else n.worder;
    RemapProjection(ps, os, o);
    if n.WithClause? { RemapOptSeq(n.wwhere, o); }
    hide RemapAll, Firsts, Expressions, OptSeq, RemapItems, RemapKeys, BlankItems, BlankKeys;
    RemapConcat(Expressions(ps), Firsts(os), o);
    if n.WithClause? { RemapConcat(Expressions(ps) + Firsts(os), OptSeq(n.wwhere), o); }
  }

  lemma RemapPattern(n: AstNode, o: nat)
    requires !IsExpression(n) && !n.ReturnClause? && !n.WithClause? && !n.QueryStatement?
    ensures Shifted(n, RemapNode(n, o), o)
  {
    if n.NodePattern? || n.EdgePattern? || n.PathChain? || n.MatchClause? {
      RemapMatched(n, o);
    } else {
      RemapSimple(n, o);
    }
  }

  lemma RemapMatched(n: AstNode, o: nat)
    requires n.NodePattern? || n.EdgePattern? || n.PathChain? || n.MatchClause?
    ensures Shifted(n, RemapNode(n, o), o)
  {
  }

  lemma RemapSimple(n: AstNode, o: nat)
    requires !IsExpression(n) && !n.ReturnClause? && !n.WithClause? && !n.QueryStatement?
    requires !n.NodePattern? && !n.EdgePattern? && !n.PathChain? && !n.MatchClause?
    ensures Shifted(n, RemapNode(n, o), o)
  {
    if n.CreateClause? || n.MergeClause? || n.SetClause? || n.SetItem? || n.DeleteClause? || n.RemoveClause? {
      RemapMutation(n, o);
    }
  }

  lemma RemapMutation(n: AstNode, o: nat)
    requires n.CreateClause? || n.MergeClause? || n.SetClause? || n.SetItem? || n.DeleteClause? || n.RemoveClause?
    ensures Shifted(n, RemapNode(n, o), o)
  {
  }

  lemma RemapStatement(n: AstNode, o: nat)
    requires n.QueryStatement?
    ensures Shifted(n, RemapNode(n, o), o)
  {
    var a := OptSeq(n.loadCsv) + n.unwinds;
    var b := a + n.matches;
    var c := b + n.linear;
    var d := c + n.withs;
    var e := d + n.mutations;
    RemapOptSeq(n.loadCsv, o);
    RemapOptSeq(n.resultClause, o);
    RemapBlank(n.unwinds, o);
    RemapBlank(n.matches, o);
    RemapBlank(n.linear, o);
    RemapBlank(n.withs, o);
    RemapBlank(n.mutations, o);
    hide RemapAll, Blank;
    RemapConcat(OptSeq(n.loadCsv), n.unwinds, o);
    RemapConcat(a, n.matches, o);
    RemapConcat(b, n.linear, o);
    RemapConcat(c, n.withs, o);
    RemapConcat(d, n.mutations, o);
    RemapConcat(e, OptSeq(n.resultClause), o);
  }

  /** The nodes of `sub`, shifted behind those of `host`. */
  ghost predicate Joined(host: Store, sub: Store, all: Store) {
    && |all.nodes| == |host.nodes| + |sub.nodes| && all.rank == host.rank + sub.rank
    && (forall i {:trigger all.nodes[i]} :: 0 <= i < |host.nodes| ==> all.nodes[i] == host.nodes[i])
    && (forall i {:trigger sub.nodes[i]} :: 0 <= i < |sub.nodes| ==>
          all.nodes[|host.nodes| + i] == RemapNode(sub.nodes[i], |host.nodes|))
  }

  lemma RemappedLow(host: Store, sub: Store, all: Store, i: nat)
    requires Wf(host) && Wf(sub) && Joined(host, sub, all) && i < |sub.nodes|
    ensures NodeLow(all, all.nodes[|host.nodes| + i], all.rank[|host.nodes| + i])
  {
    var n, o := sub.nodes[i], |host.nodes|;
    assert NodeLow(sub, n, sub.rank[i]);
    RemapNodeParts(n, o);
    ChildrenAreHandles(n);
    ChildrenAreHandles(RemapNode(n, o));
    var m := all.nodes[o + i];
    forall c | c in Handles(m) ensures Low(all, c, all.rank[o + i]) {
      var hs := Children(n);
      assert c in RemapAll(hs, o);
      var k :| 0 <= k < |hs| && RemapAll(hs, o)[k] == c;
      assert hs[k] in Handles(n) && c == Remap(hs[k], o);
      if c.At? { assert all.rank[c.index] == sub.rank[hs[k].index]; }
    }
  }

  /** The joined arena is closed and acyclic. */
  lemma JoinedWf(host: Store, sub: Store, all: Store)
    requires Wf(host) && Wf(sub) && Joined(host, sub, all)
    ensures Wf(all)
  {
    forall i | 0 <= i < |all.nodes| ensures NodeLow(all, all.nodes[i], all.rank[i]) {
      if i < |host.nodes| {
        assert NodeLow(host, host.nodes[i], host.rank[i]);
      } else {
        RemappedLow(host, sub, all, i - |host.nodes|);
      }
    }
  }

  /** A shifted handle denotes what the handle did. */
  lemma {:induction false} ImportedTree(host: Store, sub: Store, all: Store, h: Handle)
    requires Wf(host) && Wf(sub) && Wf(all) && Joined(host, sub, all) && Known(sub, h)
    ensures TreeAt(all, Remap(h, |host.nodes|)) == TreeAt(sub, h)
    decreases Rk(sub, h)
  {
    if h.At? {
      hide RemapNode, Children, Shape, Handles, Wf, TreeAt;
      var n, o := sub.nodes[h.index], |host.nodes|;
      var m := all.nodes[o + h.index];
      assert m == RemapNode(n, o);
      RemapNodeParts(n, o);
      TreeUnfold(sub, h);
      TreeUnfold(all, At(o + h.index));
      hide Joined;
      forall k | 0 <= k < |Children(n)| ensures TreeAt(all, Children(m)[k]) == TreeAt(sub, Children(n)[k]) {
        ImportedTree(host, sub, all, Children(n)[k]);
      }
      assert TreesAt(all, Children(m)) == TreesAt(sub, Children(n));
    }
  }

  /** A handle of the host denotes what it did. */
  lemma {:induction false} HostTree(host: Store, sub: Store, all: Store, h: Handle)
    requires Wf(host) && Wf(sub) && Wf(all) && Joined(host, sub, all) && Known(host, h)
    ensures TreeAt(all, h) == TreeAt(host, h)
    decreases Rk(host, h)
  {
    if h.At? {
      var n := host.nodes[h.index];
      assert all.nodes[h.index] == n;
      TreeUnfold(host, h);
      TreeUnfold(all, h);
      hide Children, Shape, Handles, Wf, TreeAt, Joined;
      forall k | 0 <= k < |Children(n)| ensures TreeAt(all, Children(n)[k]) == TreeAt(host, Children(n)[k]) {
        HostTree(host, sub, all, Children(n)[k]);
      }
      assert TreesAt(all, Children(n)) == TreesAt(host, Children(n));
    }
  }

  // ---------- The builder's import ----------

  /**
   `import_subarena`. The combined length fits 32-bit handles; by `RemapRawIff` every shift
   is then exact.
   */
  method ImportSubarena(host: QueryAstArena, sub: QueryAstArena, root: Handle) returns (h: Handle)
    requires host != sub && host.Valid() && sub.Valid() && Known(sub.View(), root)
    requires |host.nodes| + |sub.nodes| <= NULL_HANDLE
    modifies host, sub
    ensures host.Valid() && |host.nodes| == |old(host.nodes)| + |old(sub.nodes)| <= NULL_HANDLE
    ensures TreeAt(host.View(), h) == TreeAt(old(sub.View()), root)
    ensures h.Null? <==> root.Null?
    ensures h.At? ==> |old(host.nodes)| <= h.index < |host.nodes|
    ensures forall g :: Known(old(host.View()), g) ==> TreeAt(host.View(), g) == TreeAt(old(host.View()), g)
    ensures forall g :: Known(old(sub.View()), g) ==>
      TreeAt(host.View(), Remap(g, |old(host.nodes)|)) == TreeAt(old(sub.View()), g)
  {
    var offset := |host.nodes|;
    ghost var before, inner := host.View(), sub.View();
    for i := 0 to |sub.nodes|
      invariant |sub.nodes| == |inner.nodes| && host.View() == before
      invariant forall k :: 0 <= k < i ==> sub.nodes[k] == RemapNode(inner.nodes[k], offset)
      invariant forall k :: i <= k < |inner.nodes| ==> sub.nodes[k] == inner.nodes[k]
    {
      sub.nodes := sub.nodes[i := RemapNode(sub.nodes[i], offset)];
    }
    for i := 0 to |sub.nodes|
      invariant |sub.nodes| == |inner.nodes| && host.nodes == before.nodes + sub.nodes[..i]
      invariant host.rank == before.rank + inner.rank[..i]
      invariant forall k :: 0 <= k < |inner.nodes| ==> sub.nodes[k] == RemapNode(inner.nodes[k], offset)
    {
      host.nodes := host.nodes + [sub.nodes[i]];
      host.rank := host.rank + [inner.rank[i]];
    }
    h := Remap(root, offset);
    ghost var all := host.View();
    assert inner.rank[..|inner.nodes|] == inner.rank;
    assert Joined(before, inner, all);
    JoinedWf(before, inner, all);
    ImportedTree(before, inner, all, root);
    forall g | Known(before, g) ensures TreeAt(all, g) == TreeAt(before, g) { HostTree(before, inner, all, g); }
    forall g | Known(inner, g)
      ensures TreeAt(all, Remap(g, offset)) == TreeAt(inner, g)
    {
      ImportedTree(before, inner, all, g);
    }
  }
}
