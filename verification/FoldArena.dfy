/** Constant folding in the arena: new nodes are allocated, expression nodes are never overwritten. */
module FoldArena {
  import opened Common
  import opened Ast
  import opened Trees
  import opened Clauses
  import opened Folding
  import opened FoldingLimits
  import opened Refining

  // ---------- What a step may change ----------

  /** Some nodes of the arena as it was when a pass began, and every node added since. */
  datatype Zone = Zone(chosen: set<nat>, start: nat)

  ghost predicate InZone(z: Zone, h: Handle) {
    h.At? ==> h.index in z.chosen || h.index >= z.start
  }

  /** The zone is closed under the handles stored in its nodes. */
  ghost predicate Closed(st: Store, z: Zone) {
    && z.start <= |st.nodes|
    && forall i {:trigger st.nodes[i]} :: 0 <= i < |st.nodes| && InZone(z, At(i)) ==>
         forall c :: c in Handles(st.nodes[i]) ==> InZone(z, c)
  }

  /** The expression handles of a clause or pattern node, in the order the passes visit them. */
  function ExprList(n: AstNode): seq<Handle> {
    match n
    case NodePattern(_, _, ps) => ps
    case EdgePattern(_, _, _, _, _, ps, _) => ps
    case UnwindClause(e, _) => [e]
    case WhereClause(p) => [p]
    case ReturnClause(_, ps, os, _, _) => ItemHandles(ps) + KeyHandles(os)
    case WithClause(_, ps, os, _, _, _) => ItemHandles(ps) + KeyHandles(os)
    case SetItem(_, v, _) => [v]
    case LoadCsvClause(u, _, _) => [u]
    case LetClause(_, e) => [e]
    case FilterClause(p) => [p]
    case _ => []
  }

  function ItemHandles(ps: seq<ProjectionItem>): seq<Handle> {
    seq(|ps|, k requires 0 <= k < |ps| => ps[k].expression)
  }

  function KeyHandles(os: seq<(Handle, bool)>): seq<Handle> {
    seq(|os|, k requires 0 <= k < |os| => os[k].0)
  }

  /** The same node over other expression handles. */
  function WithExprs(n: AstNode, hs: seq<Handle>): AstNode
    requires |hs| == |ExprList(n)|
  {
    match n
    case NodePattern(v, l, _) => NodePattern(v, l, hs)
    case EdgePattern(v, l, d, lo, hi, _, t) => EdgePattern(v, l, d, lo, hi, hs, t)
    case UnwindClause(_, x) => UnwindClause(hs[0], x)
    case WhereClause(_) => WhereClause(hs[0])
    case ReturnClause(d, ps, os, s, l) =>
      ReturnClause(d, PutItems(ps, hs[..|ps|]), PutKeys(os, hs[|ps|..]), s, l)
    case WithClause(d, ps, os, s, l, w) =>
      WithClause(d, PutItems(ps, hs[..|ps|]), PutKeys(os, hs[|ps|..]), s, l, w)
    case SetItem(t, _, m) => SetItem(t, hs[0], m)
    case LoadCsvClause(_, w, x) => LoadCsvClause(hs[0], w, x)
    case LetClause(x, _) => LetClause(x, hs[0])
    case FilterClause(_) => FilterClause(hs[0])
    case _ => n
  }

  function PutItems(ps: seq<ProjectionItem>, hs: seq<Handle>): seq<ProjectionItem>
    requires |hs| == |ps|
  {
    seq(|ps|, k requires 0 <= k < |ps| => ps[k].(expression := hs[k]))
  }

  function PutKeys(os: seq<(Handle, bool)>, hs: seq<Handle>): seq<(Handle, bool)>
    requires |hs| == |os|
  {
    seq(|os|, k requires 0 <= k < |os| => (hs[k], os[k].1))
  }

  /** What is left of a node without its expression handles. */
  function Skeleton(n: AstNode): AstNode {
    WithExprs(n, seq(|ExprList(n)|, _ => Null))
  }

  lemma WithExprsList(n: AstNode, hs: seq<Handle>)
    requires |hs| == |ExprList(n)|
    ensures ExprList(WithExprs(n, hs)) == hs && Skeleton(WithExprs(n, hs)) == Skeleton(n)
    ensures IsExpression(n) ==> WithExprs(n, hs) == n
    ensures !IsExpression(n) ==> !IsExpression(WithExprs(n, hs))
  {
    if n.ReturnClause? {
      PutListed(n.rprojections, n.rorder, hs);
      BlankListed(n.rprojections, n.rorder, hs);
      hide ItemHandles, KeyHandles, PutItems, PutKeys;
    } else if n.WithClause? {
      PutListed(n.wprojections, n.worder, hs);
      BlankListed(n.wprojections, n.worder, hs);
      hide ItemHandles, KeyHandles, PutItems, PutKeys;
    }
  }

  lemma PutListed(ps: seq<ProjectionItem>, os: seq<(Handle, bool)>, hs: seq<Handle>)
    requires |hs| == |ps| + |os|
    ensures var qs, ns := PutItems(ps, hs[..|ps|]), PutKeys(os, hs[|ps|..]);
      ItemHandles(qs) + KeyHandles(ns) == hs && |qs| == |ps| && |ns| == |os|
      && |ItemHandles(ps) + KeyHandles(os)| == |hs|
  {
    assert hs[..|ps|] + hs[|ps|..] == hs;
  }

  lemma BlankListed(ps: seq<ProjectionItem>, os: seq<(Handle, bool)>, hs: seq<Handle>)
    requires |hs| == |ps| + |os|
    ensures var qs, ns, blank := PutItems(ps, hs[..|ps|]), PutKeys(os, hs[|ps|..]), seq(|hs|, _ => Null);
      PutItems(qs, blank[..|ps|]) == PutItems(ps, blank[..|ps|])
        && PutKeys(ns, blank[|ps|..]) == PutKeys(os, blank[|ps|..])
  {
  }

  /** A node's handles are its expression handles and those of its skeleton. */
  lemma HandlesSplit(n: AstNode)
    ensures forall c :: c in Handles(n) ==> c in ExprList(n) || c in Handles(Skeleton(n))
    ensures forall c :: c in Handles(Skeleton(n)) ==> c in Handles(n) || c == Null
    ensures forall c :: c in ExprList(n) ==> c in Handles(n)
  {
    if n.ReturnClause? {
      ListedItems(n.rprojections, n.rorder);
    } else if n.WithClause? {
      ListedItems(n.wprojections, n.worder);
    }
  }

  lemma ListedItems(ps: seq<ProjectionItem>, os: seq<(Handle, bool)>)
    ensures forall c :: c in ItemSet(ps) ==> c in ItemHandles(ps)
    ensures forall c :: c in FirstSet(os) ==> c in KeyHandles(os)
  {
    forall p | p in ps ensures p.expression in ItemHandles(ps) {
      var k :| 0 <= k < |ps| && ps[k] == p;
      assert ItemHandles(ps)[k] == p.expression;
    }
    forall o | o in os ensures o.0 in KeyHandles(os) {
      var k :| 0 <= k < |os| && os[k] == o;
      assert KeyHandles(os)[k] == o.0;
    }
  }

  ghost function Exprs(st: Store, h: Handle): seq<Expr>
    requires Wf(st)
  {
    TreesOf(st, ExprList(NodeAt(st, h)))
  }

  lemma KnownExprs(st: Store, h: Handle)
    requires Wf(st)
    ensures forall k :: 0 <= k < |ExprList(NodeAt(st, h))| ==> Known(st, ExprList(NodeAt(st, h))[k])
  {
    if h.At? && h.index < |st.nodes| {
      var n := st.nodes[h.index];
      HandlesSplit(n);
      assert NodeLow(st, n, st.rank[h.index]);
      forall k | 0 <= k < |ExprList(n)| ensures Known(st, ExprList(n)[k]) {
        assert ExprList(n)[k] in Handles(n);
      }
    }
  }

  /** The expressions of the node at `h` have been folded `k` times. */
  ghost predicate Refolded(a: Store, b: Store, h: Handle, k: nat)
    requires Wf(a) && Wf(b)
  {
    Exprs(b, h) == FoldAllBy(k, Exprs(a, h))
  }

  /** Nothing happened to any expression but folding. */
  ghost predicate Refolds(a: Store, b: Store)
    requires Wf(a) && Wf(b)
  {
    forall h :: Known(a, h) ==> exists k: nat :: Refolded(a, b, h, k)
  }

  lemma RefoldedThen(a: Store, b: Store, c: Store, h: Handle, j: nat, k: nat)
    requires Wf(a) && Wf(b) && Wf(c) && Refolded(a, b, h, j) && Refolded(b, c, h, k)
    ensures Refolded(a, c, h, j + k)
  {
    FoldAllByMore(j, k, Exprs(a, h));
  }

  lemma RefoldsThen(a: Store, b: Store, c: Store)
    requires Wf(a) && Wf(b) && Wf(c) && |a.nodes| <= |b.nodes| && Refolds(a, b) && Refolds(b, c)
    ensures Refolds(a, c)
  {
    hide Refolded, Wf;
    forall h | Known(a, h) ensures exists k: nat :: Refolded(a, c, h, k) {
      assert Known(b, h);
      var j: nat :| Refolded(a, b, h, j);
      var k: nat :| Refolded(b, c, h, k);
      RefoldedThen(a, b, c, h, j, k);
    }
  }

  /** A node left alone holds the expressions it held. */
  lemma SlotKept(a: Store, b: Store, h: Handle)
    requires Wf(a) && Wf(b) && Grows(a, b) && NodeAt(b, h) == NodeAt(a, h)
    ensures Exprs(b, h) == Exprs(a, h) && Refolded(a, b, h, 0)
  {
    KnownExprs(a, h);
    TreesFrame(a, b, ExprList(NodeAt(a, h)));
    FoldAllByOne(Exprs(a, h));
  }

  lemma RefoldsAppend(a: Store, b: Store)
    requires Wf(a) && Wf(b) && Grows(a, b) && a.nodes <= b.nodes
    ensures Refolds(a, b)
  {
    forall h | Known(a, h) ensures exists k: nat :: Refolded(a, b, h, k) { SlotKept(a, b, h); }
  }

  ghost predicate ExprsIn(n: AstNode, z: Zone) {
    forall c :: c in ExprList(n) ==> InZone(z, c)
  }

  /** Only expression handles differ, and the new ones lie in the zone. */
  ghost predicate Rewritten(x: AstNode, y: AstNode, z: Zone) {
    Skeleton(x) == Skeleton(y) && !IsExpression(x) && !IsExpression(y) && ExprsIn(y, z)
  }

  /**
   `b` extends `a` by expression nodes and keeps every rank. Old nodes differ only inside
   the zone or at `feet`, and there only in their expressions, which are the old ones folded.
   */
  ghost predicate Within(a: Store, b: Store, z: Zone, feet: set<nat>) {
    && Wf(a) && Wf(b) && Grows(a, b) && Closed(a, z) && Closed(b, z)
    && |a.rank| <= |b.rank| && b.rank[..|a.rank|] == a.rank
    && (forall i {:trigger b.nodes[i]} :: 0 <= i < |a.nodes| ==>
          b.nodes[i] == a.nodes[i] || ((InZone(z, At(i)) || i in feet) && Rewritten(a.nodes[i], b.nodes[i], z)))
    && (forall i {:trigger b.nodes[i]} :: |a.nodes| <= i < |b.nodes| ==> IsExpression(b.nodes[i]))
    && Refolds(a, b)
  }

  lemma WithinTransitive(a: Store, b: Store, c: Store, z: Zone, feet: set<nat>)
    requires Within(a, b, z, feet) && Within(b, c, z, feet)
    ensures Within(a, c, z, feet)
  {
    GrowsTransitive(a, b, c);
    RefoldsThen(a, b, c);
    forall i | 0 <= i < |a.nodes|
      ensures c.nodes[i] == a.nodes[i] || ((InZone(z, At(i)) || i in feet) && Rewritten(a.nodes[i], c.nodes[i], z))
    {
      assert b.nodes[i] == b.nodes[i];
    }
    forall i | |a.nodes| <= i < |c.nodes|
      ensures IsExpression(c.nodes[i])
    {
      if i < |b.nodes| { assert IsExpression(b.nodes[i]); }
    }
    forall i | 0 <= i < |a.rank|
      ensures c.rank[i] == a.rank[i]
    {
      assert c.rank[i] == c.rank[..|b.rank|][i] && b.rank[i] == b.rank[..|a.rank|][i];
    }
    assert c.rank[..|a.rank|] == a.rank;
  }

  lemma WithinMore(a: Store, b: Store, z: Zone, feet: set<nat>, feet': set<nat>)
    requires Within(a, b, z, feet) && feet <= feet'
    ensures Within(a, b, z, feet')
  {
  }

  lemma SkeletonShaped(st: Store, x: AstNode, y: AstNode)
    requires Skeleton(x) == Skeleton(y) && NodeShaped(st, x)
    ensures NodeShaped(st, y)
  {
  }

  lemma KindsKept(a: Store, b: Store, z: Zone, feet: set<nat>, h: Handle)
    requires Within(a, b, z, feet) && Known(a, h)
    ensures Skeleton(NodeAt(b, h)) == Skeleton(NodeAt(a, h))
  {
    if h.At? { assert b.nodes[h.index] == b.nodes[h.index]; }
  }

  predicate SameKind(x: AstNode, y: AstNode) {
    && (x.NodePattern? <==> y.NodePattern?) && (x.EdgePattern? <==> y.EdgePattern?)
    && (x.PathChain? <==> y.PathChain?) && (x.MatchClause? <==> y.MatchClause?)
    && (x.WhereClause? <==> y.WhereClause?) && (x.UnwindClause? <==> y.UnwindClause?)
    && (x.LetClause? <==> y.LetClause?) && (x.FilterClause? <==> y.FilterClause?)
    && (x.WithClause? <==> y.WithClause?) && (x.ReturnClause? <==> y.ReturnClause?)
    && (IsMutation(x) <==> IsMutation(y)) && (x.SetItem? <==> y.SetItem?) && (x.LoadCsvClause? <==> y.LoadCsvClause?)
  }

  lemma SkeletonKind(x: AstNode, y: AstNode)
    requires Skeleton(x) == Skeleton(y)
    ensures SameKind(x, y)
  {
  }

  ghost predicate SameKinds(a: Store, b: Store) {
    forall h: Handle {:trigger NodeAt(b, h)} :: h.At? && Known(a, h) ==> SameKind(NodeAt(b, h), NodeAt(a, h))
  }

  lemma NodeShapedLater(a: Store, b: Store, n: AstNode)
    requires SameKinds(a, b) && NodeShaped(a, n)
    ensures NodeShaped(b, n)
  {
  }

  lemma ShapedLater(a: Store, b: Store, z: Zone, feet: set<nat>)
    requires Within(a, b, z, feet) && Shaped(a)
    ensures Shaped(b)
  {
    forall h: Handle | h.At? && Known(a, h)
      ensures SameKind(NodeAt(b, h), NodeAt(a, h))
    {
      KindsKept(a, b, z, feet, h);
      SkeletonKind(NodeAt(b, h), NodeAt(a, h));
    }
    assert SameKinds(a, b);
    forall i | 0 <= i < |b.nodes|
      ensures NodeShaped(b, b.nodes[i])
    {
      if i < |a.nodes| {
        KindsKept(a, b, z, feet, At(i));
        ShapedRewrite(a, b, i);
      } else {
        assert IsExpression(b.nodes[i]);
      }
    }
  }

  lemma ShapedRewrite(a: Store, b: Store, i: nat)
    requires SameKinds(a, b) && Shaped(a) && i < |a.nodes| && i < |b.nodes|
    requires Skeleton(b.nodes[i]) == Skeleton(a.nodes[i])
    ensures NodeShaped(b, b.nodes[i])
  {
    SkeletonShaped(a, a.nodes[i], b.nodes[i]);
    NodeShapedLater(a, b, b.nodes[i]);
  }

  lemma RankKept(a: Store, b: Store, z: Zone, feet: set<nat>, h: Handle)
    requires Within(a, b, z, feet) && Known(a, h)
    ensures Rk(b, h) == Rk(a, h) && Known(b, h)
  {
    if h.At? {
      assert b.rank[h.index] == b.rank[..|a.rank|][h.index];
    }
  }

  lemma AllocWithin(a: Store, b: Store, node: AstNode, r: nat, z: Zone)
    requires Wf(a) && Closed(a, z) && Wf(b) && Grows(a, b) && IsExpression(node)
    requires b == Store(a.nodes + [node], a.rank + [r])
    requires forall c :: c in Handles(node) ==> InZone(z, c)
    ensures Within(a, b, z, {})
    ensures InZone(z, At(|a.nodes|)) && Rk(b, At(|a.nodes|)) == r + 1
  {
    RefoldsAppend(a, b);
    forall i | 0 <= i < |b.nodes| && InZone(z, At(i))
      ensures forall c :: c in Handles(b.nodes[i]) ==> InZone(z, c)
    {
      if i < |a.nodes| { assert b.nodes[i] == a.nodes[i]; }
    }
  }

  /** Overwriting a clause or pattern node with folded expression handles. */
  lemma UpdateWithin(a: Store, b: Store, k: nat, node: AstNode, z: Zone, feet: set<nat>)
    requires Wf(a) && Closed(a, z) && Wf(b) && Grows(a, b)
    requires k < |a.nodes| && b == Store(a.nodes[k := node], a.rank)
    requires Rewritten(a.nodes[k], node, z) && (InZone(z, At(k)) || k in feet)
    requires Exprs(b, At(k)) == FoldAll(Exprs(a, At(k)))
    ensures Within(a, b, z, feet)
  {
    forall h | Known(a, h) ensures exists k: nat :: Refolded(a, b, h, k) {
      if h == At(k) {
        FoldAllByOne(Exprs(a, h));
        assert Refolded(a, b, h, 1);
      } else {
        SlotKept(a, b, h);
      }
    }
    assert b.rank[..|a.rank|] == a.rank;
    forall i | 0 <= i < |b.nodes| && InZone(z, At(i))
      ensures forall c :: c in Handles(b.nodes[i]) ==> InZone(z, c)
    {
      if i != k {
        assert b.nodes[i] == a.nodes[i];
      } else {
        HandlesSplit(node);
        HandlesSplit(a.nodes[k]);
      }
    }
  }

  // ---------- Operators ----------

  /** A handle that a fold returned: in the zone, no higher than `limit`, denoting `e`. */
  ghost predicate Denotes(st: Store, h: Handle, e: Expr, limit: nat, z: Zone) {
    Wf(st) && Known(st, h) && InZone(z, h) && Rk(st, h) <= limit && TreeOf(st, h) == e
  }

  lemma DenotesLater(a: Store, b: Store, h: Handle, e: Expr, limit: nat, z: Zone, feet: set<nat>)
    requires Denotes(a, h, e, limit, z) && Within(a, b, z, feet)
    ensures Denotes(b, h, e, limit, z)
  {
    RankKept(a, b, z, feet, h);
    TreeFrame(a, b, h);
  }

  method AllocIn(arena: QueryAstArena, node: AstNode, ghost r: nat, ghost z: Zone) returns (h: Handle)
    requires arena.Valid() && Closed(arena.View(), z)
    requires NodeLow(arena.View(), node, r) && IsExpression(node)
    requires forall c :: c in Handles(node) ==> InZone(z, c)
    modifies arena
    ensures Within(old(arena.View()), arena.View(), z, {}) && old(arena.nodes) <= arena.nodes
    ensures h.At? && h.index < |arena.nodes| && arena.nodes[h.index] == node
    ensures InZone(z, h) && Rk(arena.View(), h) == r + 1
  {
    ghost var before := arena.View();
    h := arena.Alloc(node, r);
    AllocWithin(before, arena.View(), node, r, z);
  }

  /** The operands of a node about to be built. */
  ghost predicate Operand(st: Store, h: Handle, bound: nat, z: Zone) {
    Wf(st) && Known(st, h) && InZone(z, h) && Rk(st, h) <= bound
  }

  lemma OperandLater(a: Store, b: Store, h: Handle, bound: nat, z: Zone, feet: set<nat>)
    requires Operand(a, h, bound, z) && Within(a, b, z, feet)
    ensures Operand(b, h, bound, z) && TreeOf(b, h) == TreeOf(a, h)
  {
    RankKept(a, b, z, feet, h);
    TreeFrame(a, b, h);
  }

  method AllocLiteral(arena: QueryAstArena, lit: Literal, ghost z: Zone) returns (h: Handle)
    requires arena.Valid() && Closed(arena.View(), z)
    modifies arena
    ensures Within(old(arena.View()), arena.View(), z, {}) && old(arena.nodes) <= arena.nodes
    ensures Denotes(arena.View(), h, ELit(lit), 1, z)
  {
    h := AllocIn(arena, LiteralNode(lit), 0, z);
  }

  method AllocBinary(arena: QueryAstArena, x: Handle, op: BinaryOp, y: Handle,
                     ghost bound: nat, ghost z: Zone) returns (h: Handle)
    requires Closed(arena.View(), z)
    requires Operand(arena.View(), x, bound, z) && Operand(arena.View(), y, bound, z)
    modifies arena
    ensures Within(old(arena.View()), arena.View(), z, {}) && old(arena.nodes) <= arena.nodes
    ensures Denotes(arena.View(), h, EBin(op, TreeOf(old(arena.View()), x), TreeOf(old(arena.View()), y)), bound + 1, z)
  {
    ghost var st := arena.View();
    h := AllocIn(arena, BinaryExpression(x, op, y), bound, z);
    OperandLater(st, arena.View(), x, bound, z, {});
    OperandLater(st, arena.View(), y, bound, z, {});
  }

  method AllocUnary(arena: QueryAstArena, op: UnaryOp, x: Handle, ghost bound: nat, ghost z: Zone)
    returns (h: Handle)
    requires Closed(arena.View(), z) && Operand(arena.View(), x, bound, z)
    modifies arena
    ensures Within(old(arena.View()), arena.View(), z, {}) && old(arena.nodes) <= arena.nodes
    ensures Denotes(arena.View(), h, EUn(op, TreeOf(old(arena.View()), x)), bound + 1, z)
  {
    ghost var st := arena.View();
    h := AllocIn(arena, UnaryExpression(op, x), bound, z);
    OperandLater(st, arena.View(), x, bound, z, {});
  }

  /** What the trees of two handles say about the nodes there. */
  lemma NodeShape(st: Store, h: Handle)
    requires Wf(st) && Known(st, h)
    ensures var t := TreeOf(st, h);
      if h.Null? then t == EOther(Null)
      else var n := st.nodes[h.index];
        && (n.LiteralNode? <==> t.ELit?) && (n.LiteralNode? ==> t.lit == n.lit)
        && (n.BinaryExpression? <==> t.EBin?)
        && (n.BinaryExpression? ==> t == EBin(n.bop, TreeOf(st, n.left), TreeOf(st, n.right)))
        && (n.UnaryExpression? <==> t.EUn?)
        && (n.UnaryExpression? ==> t == EUn(n.uop, TreeOf(st, n.operand)))
  {
  }

  lemma ChildOperand(st: Store, h: Handle, c: Handle, bound: nat, z: Zone)
    requires Closed(st, z) && Operand(st, h, bound, z) && h.At? && c in Handles(st.nodes[h.index])
    ensures Operand(st, c, bound, z)
  {
    assert NodeLow(st, st.nodes[h.index], st.rank[h.index]);
  }

  /** `fold_binary_op` on two folded operands. */
  method FoldBinaryOp(arena: QueryAstArena, left: Handle, op: BinaryOp, right: Handle,
                      ghost bound: nat, ghost z: Zone) returns (r: Result<Handle>)
    requires Closed(arena.View(), z)
    requires Operand(arena.View(), left, bound, z) && Operand(arena.View(), right, bound, z)
    modifies arena
    ensures Within(old(arena.View()), arena.View(), z, {}) && old(arena.nodes) <= arena.nodes
    ensures r.Ok? ==>
      Denotes(arena.View(), r.value,
              FoldBin(TreeOf(old(arena.View()), left), op, TreeOf(old(arena.View()), right)), bound + 1, z)
    ensures r.Err? ==>
      Hole in Names(TreeOf(old(arena.View()), left)) + Names(TreeOf(old(arena.View()), right))
  {
    ghost var st := arena.View();
    NodeShape(st, left);
    NodeShape(st, right);
    WithinSame(st, z);
    hide TreeOf, Within, Closed, Reassociate, EvalLiterals, Identity;
    var ln, rn := arena.Get(left), arena.Get(right);
    if ln.Err? { return Err(ln.error); }
    if rn.Err? { return Err(rn.error); }
    if ln.value.LiteralNode? && rn.value.LiteralNode? {
      var folded := EvalLiterals(ln.value.lit, op, rn.value.lit);
      if folded.Some? {
        var h := AllocLiteral(arena, folded.value, z);
        return Ok(h);
      }
    }
    var side := FoldIdentity(left, ln.value, op, right, rn.value, TreeOf(st, left), TreeOf(st, right));
    if side.Some? { return Ok(side.value); }
    r := FoldNested(arena, left, op, right, bound, z);
  }

  lemma WithinSame(st: Store, z: Zone)
    requires Wf(st) && Closed(st, z)
    ensures Within(st, st, z, {})
  {
    RefoldsAppend(st, st);
    assert st.rank[..|st.rank|] == st.rank;
  }

  ghost predicate SameLiteral(n: AstNode, t: Expr) {
    (n.LiteralNode? <==> t.ELit?) && (n.LiteralNode? ==> t.lit == n.lit)
  }

  /** The operand that a boolean or arithmetic identity leaves. */
  method FoldIdentity(left: Handle, l: AstNode, op: BinaryOp, right: Handle, r: AstNode,
                      ghost t: Expr, ghost u: Expr) returns (side: Option<Handle>)
    requires SameLiteral(l, t) && SameLiteral(r, u)
    ensures side.None? <==> Identity(t, op, u).None?
    ensures side.Some? ==>
      || (side.value == left && Identity(t, op, u).value == t)
      || (side.value == right && Identity(t, op, u).value == u)
  {
    match op {
      case And =>
        if l == LiteralNode(LBool(false)) { return Some(left); }
        if r == LiteralNode(LBool(false)) { return Some(right); }
        if l == LiteralNode(LBool(true)) { return Some(right); }
        if r == LiteralNode(LBool(true)) { return Some(left); }
      case Or =>
        if l == LiteralNode(LBool(true)) { return Some(left); }
        if r == LiteralNode(LBool(true)) { return Some(right); }
        if l == LiteralNode(LBool(false)) { return Some(right); }
        if r == LiteralNode(LBool(false)) { return Some(left); }
      case Add =>
        if r == LiteralNode(LInt(0)) { return Some(left); }
        if l == LiteralNode(LInt(0)) { return Some(right); }
      case Sub =>
        if r == LiteralNode(LInt(0)) { return Some(left); }
      case Mul =>
        if r == LiteralNode(LInt(1)) { return Some(left); }
        if l == LiteralNode(LInt(1)) { return Some(right); }
      case Div =>
        if r == LiteralNode(LInt(1)) { return Some(left); }
      case _ =>
    }
    return None;
  }

  /** The operand and the merged constant that reassociation leaves of `(x op c) op k`. */
  method PlanNested(arena: QueryAstArena, left: Handle, op: BinaryOp, k: i64)
    returns (r: Result<Option<(Handle, Literal)>>)
    requires arena.Valid() && left.At? && left.index < |arena.nodes|
    requires var l := arena.nodes[left.index]; l.BinaryExpression? && l.bop == op && op in {Add, Sub, Mul}
    ensures var st := arena.View();
      var l := arena.nodes[left.index];
      var want := Reassociate(TreeOf(st, left), op, ELit(LInt(k)));
      && (r.Ok? ==> r.value.Some? == want.Some?)
      && (r.Ok? && r.value.Some? ==>
            && r.value.value.0 in {l.left, l.right}
            && want.value == EBin(op, TreeOf(st, r.value.value.0), ELit(r.value.value.1)))
      && (r.Err? ==> Hole in Names(TreeOf(st, left)))
  {
    ghost var st := arena.View();
    var l := arena.nodes[left.index];
    assert NodeLow(st, l, st.rank[left.index]);
    assert l.left in Handles(l) && l.right in Handles(l);
    NodeShape(st, left);
    NodeShape(st, l.left);
    NodeShape(st, l.right);
    ghost var lt, rt := TreeOf(st, l.left), TreeOf(st, l.right);
    assert Names(TreeOf(st, left)) == Names(lt) + Names(rt);
    assert Names(EOther(Null)) == {Hole};
    hide TreeOf, Wf, Names;
    var innerRight := arena.Get(l.right);
    if innerRight.Err? { return Err(innerRight.error); }
    if innerRight.value.LiteralNode? && innerRight.value.lit.LInt? {
      var c := innerRight.value.lit.i;
      var m := if op == Mul then CheckedLit(c * k) else CheckedLit(c + k);
      assert m == Merged(op, rt, k);
      if m.Some? {
        return Ok(Some((l.left, m.value)));
      }
    }
    assert Merged(op, rt, k).None?;
    if op == Add {
      var innerLeft := arena.Get(l.left);
      if innerLeft.Err? { return Err(innerLeft.error); }
      if innerLeft.value.LiteralNode? && innerLeft.value.lit.LInt? {
        var m := CheckedLit(innerLeft.value.lit.i + k);
        assert m == Merged(op, lt, k);
        if m.Some? {
          return Ok(Some((l.right, m.value)));
        }
      }
    }
    return Ok(None);
  }

  /** The end of `fold_binary_op`: reassociate, or build the expression. */
  method FoldNested(arena: QueryAstArena, left: Handle, op: BinaryOp, right: Handle,
                    ghost bound: nat, ghost z: Zone) returns (r: Result<Handle>)
    requires Closed(arena.View(), z) && left.At? && right.At?
    requires Operand(arena.View(), left, bound, z) && Operand(arena.View(), right, bound, z)
    modifies arena
    ensures Within(old(arena.View()), arena.View(), z, {}) && old(arena.nodes) <= arena.nodes
    ensures r.Ok? ==>
      var l, k := TreeOf(old(arena.View()), left), TreeOf(old(arena.View()), right);
      var want := Reassociate(l, op, k);
      Denotes(arena.View(), r.value, if want.Some? then want.value else EBin(op, l, k), bound + 1, z)
    ensures r.Err? ==> Hole in Names(TreeOf(old(arena.View()), left))
  {
    hide TreeOf, Within, Closed, Wf, Names;
    ghost var st := arena.View();
    NodeShape(st, left);
    NodeShape(st, right);
    WithinSame(st, z);
    var l, k := arena.nodes[left.index], arena.nodes[right.index];
    if k.LiteralNode? && k.lit.LInt? && op in {Add, Sub, Mul} && l.BinaryExpression? && l.bop == op {
      var plan := PlanNested(arena, left, op, k.lit.i);
      if plan.Err? { return Err(plan.error); }
      if plan.value.Some? {
        var (x, c) := plan.value.value;
        ChildOperand(st, left, x, bound, z);
        RankPositive(st, left);
        var h := RebuildNested(arena, x, op, c, bound, z);
        return Ok(h);
      }
    }
    var h := AllocBinary(arena, left, op, right, bound, z);
    return Ok(h);
  }

  lemma RankPositive(st: Store, h: Handle)
    requires Wf(st) && Known(st, h) && h.At?
    ensures Rk(st, h) >= 1
  {
  }

  /** Allocates the merged constant and the shortened expression over it. */
  method RebuildNested(arena: QueryAstArena, x: Handle, op: BinaryOp, c: Literal,
                       ghost bound: nat, ghost z: Zone) returns (h: Handle)
    requires Closed(arena.View(), z) && Operand(arena.View(), x, bound, z) && bound >= 1
    modifies arena
    ensures Within(old(arena.View()), arena.View(), z, {}) && old(arena.nodes) <= arena.nodes
    ensures Denotes(arena.View(), h, EBin(op, TreeOf(old(arena.View()), x), ELit(c)), bound + 1, z)
  {
    ghost var st := arena.View();
    var newLit := AllocLiteral(arena, c, z);
    ghost var mid := arena.View();
    OperandLater(st, mid, x, bound, z, {});
    assert Closed(mid, z);
    hide TreeOf, Within, Closed, Wf;
    h := AllocBinary(arena, x, op, newLit, bound, z);
    WithinTransitive(st, mid, arena.View(), z, {});
  }

  /** `fold_unary_op` on a folded operand. */
  method FoldUnaryOp(arena: QueryAstArena, op: UnaryOp, operand: Handle,
                     ghost bound: nat, ghost z: Zone) returns (r: Result<Handle>)
    requires Closed(arena.View(), z) && Operand(arena.View(), operand, bound, z)
    modifies arena
    ensures Within(old(arena.View()), arena.View(), z, {}) && old(arena.nodes) <= arena.nodes
    ensures r.Ok? ==>
      Denotes(arena.View(), r.value, FoldUn(op, TreeOf(old(arena.View()), operand)), bound + 1, z)
    ensures r.Err? ==> Hole in Names(TreeOf(old(arena.View()), operand))
  {
    hide TreeOf, Within, Wf, Closed;
    ghost var st := arena.View();
    NodeShape(st, operand);
    WithinSame(st, z);
    var got := arena.Get(operand);
    if got.Err? { return Err(got.error); }
    var n := got.value;
    if n.UnaryExpression? {
      assert n.operand in Handles(n);
      ChildOperand(st, operand, n.operand, bound, z);
    }
    match op {
      case Not =>
        if n.LiteralNode? && n.lit.LBool? {
          var h := AllocLiteral(arena, LBool(!n.lit.b), z);
          return Ok(h);
        }
        if n.UnaryExpression? && n.uop == Not {
          return Ok(n.operand);
        }
      case Neg =>
        if n.LiteralNode? && n.lit.LInt? {
          var negated := Checked(0 - n.lit.i as int);
          if negated.Some? {
            var h := AllocLiteral(arena, LInt(negated.value), z);
            return Ok(h);
          }
        }
        if n.UnaryExpression? && n.uop == Neg {
          return Ok(n.operand);
        }
      case IsNull =>
        if n == LiteralNode(LNull) {
          var h := AllocLiteral(arena, LBool(true), z);
          return Ok(h);
        }
      case IsNotNull =>
        if n == LiteralNode(LNull) {
          var h := AllocLiteral(arena, LBool(false), z);
          return Ok(h);
        }
    }
    var h := AllocUnary(arena, op, operand, bound, z);
    return Ok(h);
  }
}
