/** The folding pass: every expression below a handle, and every clause of a statement in place. */
module FoldPass {
  import opened Common
  import opened Ast
  import opened Trees
  import opened Clauses
  import opened Folding
  import opened FoldingLimits
  import opened Refining
  import opened FoldArena
  import opened Visiting

  // ---------- Expressions ----------

  /** What folding the expression at `h` promises. */
  ghost predicate Folded(a: Store, b: Store, h: Handle, r: Result<Handle>, z: Zone)
    requires Wf(a)
  {
    && Worked(a, b, z, [h])
    && (r.Ok? ==> Denotes(b, r.value, Fold(TreeOf(a, h)), Rk(a, h), z))
    && (r.Err? ==> Gaps(a, [h]))
  }

  ghost predicate ListDenotes(st: Store, hs: seq<Handle>, es: seq<Expr>, bound: nat, z: Zone) {
    |hs| == |es| && forall k :: 0 <= k < |hs| ==> Denotes(st, hs[k], es[k], bound, z)
  }

  lemma ListDenotesLater(a: Store, b: Store, hs: seq<Handle>, es: seq<Expr>, bound: nat, z: Zone, feet: set<nat>)
    requires ListDenotes(a, hs, es, bound, z) && Within(a, b, z, feet)
    ensures ListDenotes(b, hs, es, bound, z)
  {
    forall k | 0 <= k < |hs|
      ensures Denotes(b, hs[k], es[k], bound, z)
    {
      DenotesLater(a, b, hs[k], es[k], bound, z, feet);
    }
  }

  lemma {:induction false} NamesMember(es: seq<Expr>, k: nat)
    requires k < |es|
    ensures Names(es[k]) <= NamesAll(es)
  {
    if k > 0 {
      NamesMember(es[1..], k - 1);
    }
  }

  lemma ListAppend(st: Store, hs: seq<Handle>, h: Handle, es: seq<Expr>, k: nat, bound: nat, z: Zone)
    requires k < |es| && ListDenotes(st, hs, es[..k], bound, z) && Denotes(st, h, es[k], bound, z)
    ensures ListDenotes(st, hs + [h], es[..k + 1], bound, z)
  {
    forall j | 0 <= j <= k ensures Denotes(st, (hs + [h])[j], es[..k + 1][j], bound, z) {
      if j < k { assert es[..k][j] == es[j]; }
    }
  }

  /** A loop over handles, as in the call, list and predicate cases. */
  method FoldList(arena: QueryAstArena, hs: seq<Handle>, ghost bound: nat, ghost z: Zone)
    returns (r: Result<seq<Handle>>)
    requires Closed(arena.View(), z) && Shaped(arena.View()) && arena.Valid()
    requires forall k :: 0 <= k < |hs| ==> Operand(arena.View(), hs[k], bound, z)
    modifies arena
    ensures Worked(old(arena.View()), arena.View(), z, hs)
    ensures r.Ok? ==> ListDenotes(arena.View(), r.value, FoldAll(TreesOf(old(arena.View()), hs)), bound, z)
    ensures r.Err? ==> Gaps(old(arena.View()), hs)
    decreases bound, 6
  {
    hide Worked, Gaps, Within, Closed, TreeOf, Shaped, Wf, Fold, FoldAll;
    ghost var st := arena.View();
    ghost var want := FoldAll(TreesOf(st, hs));
    var done: seq<Handle> := [];
    var k := 0;
    OperandsIn(st, hs, bound, z);
    NothingWorked(st, z);
    assert hs[..0] == [];
    while k < |hs|
      invariant 0 <= k <= |hs|
      invariant Worked(st, arena.View(), z, hs[..k])
      invariant ListDenotes(arena.View(), done, want[..k], bound, z)
      decreases |hs| - k
    {
      ghost var cur := arena.View();
      WorkedWf(st, cur, z, hs[..k]);
      OperandLater(st, cur, hs[k], bound, z, {});
      var f := FoldExpression(arena, hs[k], z);
      ghost var now := arena.View();
      assert hs[k] in hs && hs[..k + 1] == hs[..k] + [hs[k]];
      WorkedThen(st, cur, now, z, hs[..k], [hs[k]], f.Err?);
      if f.Err? {
        assert hs[..k + 1] + hs[k + 1..] == hs;
        WorkedMore(st, now, z, hs[..k + 1], hs[k + 1..], true);
        return Err(f.error);
      }
      WorkedWf(cur, now, z, [hs[k]]);
      ListDenotesLater(cur, now, done, want[..k], bound, z, {});
      ListAppend(now, done, f.value, want, k, bound, z);
      done := done + [f.value];
      k := k + 1;
    }
    assert want[..k] == want && hs[..k] == hs;
    return Ok(done);
  }

  lemma OperandsIn(st: Store, hs: seq<Handle>, bound: nat, z: Zone)
    requires forall k :: 0 <= k < |hs| ==> Operand(st, hs[k], bound, z)
    ensures AllIn(st, z, hs)
  {
  }

  lemma WithinClosed(a: Store, b: Store, z: Zone, feet: set<nat>)
    requires Within(a, b, z, feet)
    ensures Wf(b) && Closed(b, z)
  {
  }

  /** `fold_expression`. */
  method FoldExpression(arena: QueryAstArena, h: Handle, ghost z: Zone) returns (r: Result<Handle>)
    requires Closed(arena.View(), z) && Shaped(arena.View())
    requires Operand(arena.View(), h, Rk(arena.View(), h), z)
    modifies arena
    ensures Folded(old(arena.View()), arena.View(), h, r, z)
    decreases Rk(arena.View(), h), 5
  {
    LeftAlone(arena.View(), z, h);
    if h.Null? {
      return Ok(h);
    }
    var n := arena.nodes[h.index];
    match n {
      case BinaryExpression(_, _, _) => r := FoldBinaryNode(arena, h, z);
      case UnaryExpression(_, _) => r := FoldUnaryNode(arena, h, z);
      case FunctionCall(_, _) => r := FoldCallNode(arena, h, z);
      case CaseExpression(_, _, _) => r := FoldCaseNode(arena, h, z);
      case ListComprehension(_, _, _, _) => r := FoldListComprehension(arena, h, z);
      case PatternComprehension(_, _, _) => r := FoldPatternComprehension(arena, h, z);
      case ListLiteral(_) => r := FoldListNode(arena, h, z);
      case ExistsSubquery(_) => r := FoldSubqueryNode(arena, h, z);
      case CountSubquery(_) => r := FoldSubqueryNode(arena, h, z);
      case _ => return Ok(h);
    }
  }

  lemma LeftAlone(st: Store, z: Zone, h: Handle)
    requires Start(st, z)
    ensures Worked(st, st, z, [h])
  {
    NothingWorked(st, z);
    hide Worked;
    WorkedMore(st, st, z, [], [h], false);
    assert [] + [h] == [h];
  }

  ghost predicate Present(st: Store, h: Handle, z: Zone) {
    && Closed(st, z) && Shaped(st) && Wf(st)
    && h.At? && h.index < |st.nodes| && InZone(z, h)
  }

  lemma ChildReady(st: Store, h: Handle, c: Handle, z: Zone)
    requires Present(st, h, z) && c in Handles(st.nodes[h.index])
    ensures Operand(st, c, st.rank[h.index], z) && Rk(st, c) < Rk(st, h)
  {
    assert NodeLow(st, st.nodes[h.index], st.rank[h.index]);
  }

  method FoldBinaryNode(arena: QueryAstArena, h: Handle, ghost z: Zone) returns (r: Result<Handle>)
    requires Present(arena.View(), h, z) && arena.nodes[h.index].BinaryExpression?
    modifies arena
    ensures Folded(old(arena.View()), arena.View(), h, r, z)
    decreases Rk(arena.View(), h), 4
  {
    ghost var st := arena.View();
    var n := arena.nodes[h.index];
    ghost var bound := st.rank[h.index];
    BinaryParts(st, h, z);
    ghost var lt, rt := TreeOf(st, n.left), TreeOf(st, n.right);
    hide Within, Closed, TreeOf, Shaped, Wf, Names, Fold, FoldBin, Worked, Gaps;
    var left := FoldExpression(arena, n.left, z);
    ghost var one := arena.View();
    WorkedMore(st, one, z, [n.left], [n.right], left.Err?);
    if left.Err? {
      WorkedNode(st, one, z, h, true);
      return Err(left.error);
    }
    WorkedWf(st, one, z, [n.left]);
    OperandLater(st, one, n.right, bound, z, {});
    var right := FoldExpression(arena, n.right, z);
    ghost var two := arena.View();
    WorkedThen(st, one, two, z, [n.left], [n.right], right.Err?);
    WorkedNode(st, two, z, h, right.Err?);
    if right.Err? { return Err(right.error); }
    WorkedWf(one, two, z, [n.right]);
    DenotesLater(one, two, left.value, Fold(lt), Rk(st, n.left), z, {});
    r := FoldBinaryOp(arena, left.value, n.bop, right.value, bound, z);
    WorkedAlloc(st, two, arena.View(), z, [h]);
    if r.Err? { BinaryHole(st, h, lt, rt); }
  }

  lemma BinaryParts(st: Store, h: Handle, z: Zone)
    requires Present(st, h, z) && st.nodes[h.index].BinaryExpression?
    ensures var n := st.nodes[h.index];
      var bound := st.rank[h.index];
      && Rk(st, h) == bound + 1 && Operands(n) == [n.left] + [n.right] && AllIn(st, z, [n.right])
      && Operand(st, n.left, bound, z) && Operand(st, n.right, bound, z)
      && Fold(TreeOf(st, h)) == FoldBin(Fold(TreeOf(st, n.left)), n.bop, Fold(TreeOf(st, n.right)))
  {
    var n := st.nodes[h.index];
    assert n.left in Handles(n) && n.right in Handles(n);
    ChildReady(st, h, n.left, z);
    ChildReady(st, h, n.right, z);
    NodeShape(st, h);
  }

  /** A hole left in a folded operand was there before. */
  lemma BinaryHole(st: Store, h: Handle, l: Expr, r: Expr)
    requires Wf(st) && h.At? && h.index < |st.nodes| && st.nodes[h.index].BinaryExpression?
    requires l == TreeOf(st, st.nodes[h.index].left) && r == TreeOf(st, st.nodes[h.index].right)
    requires Hole in Names(Fold(l)) + Names(Fold(r))
    ensures Gaps(st, [h])
  {
    FoldNames(l);
    FoldNames(r);
    NodeShape(st, h);
    assert TreesOf(st, [h]) == [TreeOf(st, h)];
    WeightOne(TreeOf(st, h), _ => 0);
    assert Hole in Names(TreeOf(st, h));
  }

  method FoldUnaryNode(arena: QueryAstArena, h: Handle, ghost z: Zone) returns (r: Result<Handle>)
    requires Present(arena.View(), h, z) && arena.nodes[h.index].UnaryExpression?
    modifies arena
    ensures Folded(old(arena.View()), arena.View(), h, r, z)
    decreases Rk(arena.View(), h), 4
  {
    ghost var st := arena.View();
    var n := arena.nodes[h.index];
    ghost var bound := st.rank[h.index];
    UnaryParts(st, h, z);
    ghost var t := TreeOf(st, n.operand);
    hide Within, Closed, TreeOf, Shaped, Wf, Names, Fold, FoldUn, Worked, Gaps;
    var operand := FoldExpression(arena, n.operand, z);
    ghost var one := arena.View();
    WorkedNode(st, one, z, h, operand.Err?);
    if operand.Err? { return Err(operand.error); }
    WorkedWf(st, one, z, [n.operand]);
    r := FoldUnaryOp(arena, n.uop, operand.value, bound, z);
    WorkedAlloc(st, one, arena.View(), z, [h]);
    if r.Err? { UnaryHole(st, h, t); }
  }

  lemma UnaryParts(st: Store, h: Handle, z: Zone)
    requires Present(st, h, z) && st.nodes[h.index].UnaryExpression?
    ensures var n := st.nodes[h.index];
      var bound := st.rank[h.index];
      && Rk(st, h) == bound + 1 && Operands(n) == [n.operand] && Operand(st, n.operand, bound, z)
      && Fold(TreeOf(st, h)) == FoldUn(n.uop, Fold(TreeOf(st, n.operand)))
  {
    var n := st.nodes[h.index];
    assert n.operand in Handles(n);
    ChildReady(st, h, n.operand, z);
    NodeShape(st, h);
  }

  lemma UnaryHole(st: Store, h: Handle, t: Expr)
    requires Wf(st) && h.At? && h.index < |st.nodes| && st.nodes[h.index].UnaryExpression?
    requires t == TreeOf(st, st.nodes[h.index].operand) && Hole in Names(Fold(t))
    ensures Gaps(st, [h])
  {
    FoldNames(t);
    NodeShape(st, h);
    assert TreesOf(st, [h]) == [TreeOf(st, h)];
    WeightOne(TreeOf(st, h), _ => 0);
    assert Hole in Names(TreeOf(st, h));
  }

  method FoldCallNode(arena: QueryAstArena, h: Handle, ghost z: Zone) returns (r: Result<Handle>)
    requires Present(arena.View(), h, z) && arena.nodes[h.index].FunctionCall?
    modifies arena
    ensures Folded(old(arena.View()), arena.View(), h, r, z)
    decreases Rk(arena.View(), h), 4
  {
    hide Within, Closed, TreeOf, Shaped, Wf, Worked, Gaps;
    ghost var st := arena.View();
    var n := arena.nodes[h.index];
    Ranked(st);
    ghost var bound := st.rank[h.index];
    ChildrenReady(st, h, n.arguments, z);
    TreeParts(st, h);
    ghost var want := FoldAll(TreesOf(st, n.arguments));
    var args := FoldList(arena, n.arguments, bound, z);
    ghost var one := arena.View();
    WorkedNode(st, one, z, h, args.Err?);
    if args.Err? { return Err(args.error); }
    WorkedWf(st, one, z, n.arguments);
    ListHandles(one, args.value, want, bound, z);
    var f := AllocIn(arena, FunctionCall(n.fname, args.value), bound, z);
    WorkedAlloc(st, one, arena.View(), z, [h]);
    WorkedWf(st, arena.View(), z, [h]);
    TreeParts(arena.View(), f);
    ListDenotesLater(one, arena.View(), args.value, want, bound, z, {});
    assert TreesOf(arena.View(), args.value) == want;
    return Ok(f);
  }

  method FoldListNode(arena: QueryAstArena, h: Handle, ghost z: Zone) returns (r: Result<Handle>)
    requires Present(arena.View(), h, z) && arena.nodes[h.index].ListLiteral?
    modifies arena
    ensures Folded(old(arena.View()), arena.View(), h, r, z)
    decreases Rk(arena.View(), h), 4
  {
    hide Within, Closed, TreeOf, Shaped, Wf, Worked, Gaps;
    ghost var st := arena.View();
    var n := arena.nodes[h.index];
    Ranked(st);
    ghost var bound := st.rank[h.index];
    ChildrenReady(st, h, n.elements, z);
    TreeParts(st, h);
    ghost var want := FoldAll(TreesOf(st, n.elements));
    var items := FoldList(arena, n.elements, bound, z);
    ghost var one := arena.View();
    WorkedNode(st, one, z, h, items.Err?);
    if items.Err? { return Err(items.error); }
    WorkedWf(st, one, z, n.elements);
    ListHandles(one, items.value, want, bound, z);
    var f := AllocIn(arena, ListLiteral(items.value), bound, z);
    WorkedAlloc(st, one, arena.View(), z, [h]);
    WorkedWf(st, arena.View(), z, [h]);
    TreeParts(arena.View(), f);
    ListDenotesLater(one, arena.View(), items.value, want, bound, z, {});
    assert TreesOf(arena.View(), items.value) == want;
    return Ok(f);
  }

  lemma Ranked(st: Store)
    requires Wf(st)
    ensures |st.rank| == |st.nodes|
  {
  }

  lemma ChildrenReady(st: Store, h: Handle, hs: seq<Handle>, z: Zone)
    requires Present(st, h, z) && forall k :: 0 <= k < |hs| ==> hs[k] in Handles(st.nodes[h.index])
    ensures forall k :: 0 <= k < |hs| ==> Operand(st, hs[k], st.rank[h.index], z)
  {
    forall k | 0 <= k < |hs| ensures Operand(st, hs[k], st.rank[h.index], z) {
      ChildReady(st, h, hs[k], z);
    }
  }

  /** Folded handles may be stored in a new node of rank `bound`. */
  lemma ListHandles(st: Store, hs: seq<Handle>, es: seq<Expr>, bound: nat, z: Zone)
    requires ListDenotes(st, hs, es, bound, z)
    ensures forall c :: c in hs ==> Low(st, c, bound) && InZone(z, c)
  {
    forall c | c in hs ensures Low(st, c, bound) && InZone(z, c) {
      var k :| 0 <= k < |hs| && hs[k] == c;
      assert Denotes(st, hs[k], es[k], bound, z);
    }
  }

  ghost predicate OptDenotes(st: Store, o: Option<Handle>, e: Option<Expr>, bound: nat, z: Zone) {
    && (o.Some? <==> e.Some?)
    && (o.Some? ==> Denotes(st, o.value, e.value, bound, z))
  }

  lemma OptDenotesLater(a: Store, b: Store, o: Option<Handle>, e: Option<Expr>, bound: nat, z: Zone, feet: set<nat>)
    requires OptDenotes(a, o, e, bound, z) && Within(a, b, z, feet)
    ensures OptDenotes(b, o, e, bound, z)
  {
    if o.Some? {
      DenotesLater(a, b, o.value, e.value, bound, z, feet);
    }
  }

  /** An optional child: folded if present. */
  method FoldOption(arena: QueryAstArena, o: Option<Handle>, ghost bound: nat, ghost z: Zone)
    returns (r: Result<Option<Handle>>)
    requires arena.Valid() && Closed(arena.View(), z) && Shaped(arena.View())
    requires o.Some? ==> Operand(arena.View(), o.value, bound, z)
    modifies arena
    ensures Worked(old(arena.View()), arena.View(), z, OptSeq(o))
    ensures r.Ok? ==> OptDenotes(arena.View(), r.value, FoldOpt(OptTree(old(arena.View()), o)), bound, z)
    ensures r.Err? ==> Gaps(old(arena.View()), OptSeq(o))
    decreases bound, 6
  {
    NothingWorked(arena.View(), z);
    if o.None? { return Ok(None); }
    hide Worked, Closed, TreeOf, Shaped, Wf, Gaps;
    var f := FoldExpression(arena, o.value, z);
    if f.Err? { return Err(f.error); }
    return Ok(Some(f.value));
  }

  method FoldListComprehension(arena: QueryAstArena, h: Handle, ghost z: Zone) returns (r: Result<Handle>)
    requires Present(arena.View(), h, z) && arena.nodes[h.index].ListComprehension?
    modifies arena
    ensures Folded(old(arena.View()), arena.View(), h, r, z)
    decreases Rk(arena.View(), h), 4
  {
    hide Within, Closed, TreeOf, Shaped, Wf, Fold, FoldOpt, Worked, Gaps;
    ghost var st := arena.View();
    var n := arena.nodes[h.index];
    ComprehensionParts(st, h, z);
    ghost var bound := st.rank[h.index];
    ghost var lt, ft, mt := TreeOf(st, n.listExpr), OptTree(st, n.lfilter), OptTree(st, n.lmap);
    ghost var rest := OptSeq(n.lfilter) + OptSeq(n.lmap);
    var list := FoldExpression(arena, n.listExpr, z);
    ghost var one := arena.View();
    WorkedMore(st, one, z, [n.listExpr], rest, list.Err?);
    if list.Err? {
      WorkedNode(st, one, z, h, true);
      return Err(list.error);
    }
    WorkedWf(st, one, z, [n.listExpr]);
    OptionLater(st, one, n.lfilter, bound, z);
    OptionLater(st, one, n.lmap, bound, z);
    var parts := FoldOptions(arena, n.lfilter, n.lmap, bound, z);
    ghost var two := arena.View();
    WorkedThen(st, one, two, z, [n.listExpr], rest, parts.Err?);
    WorkedNode(st, two, z, h, parts.Err?);
    if parts.Err? { return Err(parts.error); }
    WorkedWf(one, two, z, rest);
    DenotesLater(one, two, list.value, Fold(lt), bound, z, {});
    var (filter, body) := parts.value;
    r := BuildComprehension(arena, n.lvar, list.value, Fold(lt), filter, FoldOpt(ft), body, FoldOpt(mt), bound, z);
    WorkedAlloc(st, two, arena.View(), z, [h]);
  }

  method FoldOptions(arena: QueryAstArena, f: Option<Handle>, m: Option<Handle>, ghost bound: nat, ghost z: Zone)
    returns (r: Result<(Option<Handle>, Option<Handle>)>)
    requires arena.Valid() && Closed(arena.View(), z) && Shaped(arena.View())
    requires f.Some? ==> Operand(arena.View(), f.value, bound, z)
    requires m.Some? ==> Operand(arena.View(), m.value, bound, z)
    modifies arena
    ensures Worked(old(arena.View()), arena.View(), z, OptSeq(f) + OptSeq(m))
    ensures r.Ok? ==> OptDenotes(arena.View(), r.value.0, FoldOpt(OptTree(old(arena.View()), f)), bound, z)
    ensures r.Ok? ==> OptDenotes(arena.View(), r.value.1, FoldOpt(OptTree(old(arena.View()), m)), bound, z)
    ensures r.Err? ==> Gaps(old(arena.View()), OptSeq(f) + OptSeq(m))
    decreases bound, 7
  {
    ghost var st := arena.View();
    hide Within, Closed, TreeOf, Shaped, Wf, Fold, Worked, Gaps;
    var filter := FoldOption(arena, f, bound, z);
    ghost var one := arena.View();
    WorkedMore(st, one, z, OptSeq(f), OptSeq(m), filter.Err?);
    if filter.Err? { return Err(filter.error); }
    WorkedWf(st, one, z, OptSeq(f));
    OptionLater(st, one, m, bound, z);
    var body := FoldOption(arena, m, bound, z);
    ghost var two := arena.View();
    WorkedThen(st, one, two, z, OptSeq(f), OptSeq(m), body.Err?);
    if body.Err? { return Err(body.error); }
    WorkedWf(one, two, z, OptSeq(m));
    OptDenotesLater(one, two, filter.value, FoldOpt(OptTree(st, f)), bound, z, {});
    return Ok((filter.value, body.value));
  }

  method BuildComprehension(arena: QueryAstArena, x: string, list: Handle, ghost lt: Expr,
                            filter: Option<Handle>, ghost ft: Option<Expr>,
                            body: Option<Handle>, ghost mt: Option<Expr>, ghost bound: nat, ghost z: Zone)
    returns (r: Result<Handle>)
    requires arena.Valid() && Closed(arena.View(), z)
    requires Denotes(arena.View(), list, lt, bound, z)
    requires OptDenotes(arena.View(), filter, ft, bound, z) && OptDenotes(arena.View(), body, mt, bound, z)
    modifies arena
    ensures Within(old(arena.View()), arena.View(), z, {}) && old(arena.nodes) <= arena.nodes
    ensures r.Ok? && Denotes(arena.View(), r.value, EListComp(x, lt, ft, mt), bound + 1, z)
  {
    ghost var st := arena.View();
    var f := AllocIn(arena, ListComprehension(x, list, filter, body), bound, z);
    DenotesLater(st, arena.View(), list, lt, bound, z, {});
    OptDenotesLater(st, arena.View(), filter, ft, bound, z, {});
    OptDenotesLater(st, arena.View(), body, mt, bound, z, {});
    return Ok(f);
  }

  lemma ComprehensionParts(st: Store, h: Handle, z: Zone)
    requires Present(st, h, z) && st.nodes[h.index].ListComprehension?
    ensures |st.rank| == |st.nodes|
    ensures var n := st.nodes[h.index];
      var bound := st.rank[h.index];
      var lt, ft, mt := TreeOf(st, n.listExpr), OptTree(st, n.lfilter), OptTree(st, n.lmap);
      && Rk(st, h) == bound + 1 && Operands(n) == [n.listExpr] + (OptSeq(n.lfilter) + OptSeq(n.lmap))
      && AllIn(st, z, OptSeq(n.lfilter) + OptSeq(n.lmap))
      && TreeOf(st, h) == EListComp(n.lvar, lt, ft, mt)
      && Fold(TreeOf(st, h)) == EListComp(n.lvar, Fold(lt), FoldOpt(ft), FoldOpt(mt))
      && Operand(st, n.listExpr, bound, z) && Rk(st, n.listExpr) < Rk(st, h)
      && (n.lfilter.Some? ==> Operand(st, n.lfilter.value, bound, z))
      && (n.lmap.Some? ==> Operand(st, n.lmap.value, bound, z))
  {
    var n := st.nodes[h.index];
    assert n.listExpr in Handles(n);
    ChildReady(st, h, n.listExpr, z);
    if n.lfilter.Some? { assert n.lfilter.value in Handles(n); ChildReady(st, h, n.lfilter.value, z); }
    if n.lmap.Some? { assert n.lmap.value in Handles(n); ChildReady(st, h, n.lmap.value, z); }
  }

  lemma OptionLater(a: Store, b: Store, o: Option<Handle>, bound: nat, z: Zone)
    requires Within(a, b, z, {})
    requires o.Some? ==> Operand(a, o.value, bound, z)
    ensures o.Some? ==> Operand(b, o.value, bound, z)
    ensures Wf(a) && Wf(b) && OptTree(b, o) == OptTree(a, o)
  {
    if o.Some? { OperandLater(a, b, o.value, bound, z, {}); }
  }

  method FoldPatternComprehension(arena: QueryAstArena, h: Handle, ghost z: Zone) returns (r: Result<Handle>)
    requires Present(arena.View(), h, z) && arena.nodes[h.index].PatternComprehension?
    modifies arena
    ensures Folded(old(arena.View()), arena.View(), h, r, z)
    decreases Rk(arena.View(), h), 4
  {
    hide Within, Closed, TreeOf, Shaped, Wf, Worked, Gaps, Fold;
    ghost var st := arena.View();
    var n := arena.nodes[h.index];
    PatternParts(st, h, z);
    ghost var bound := st.rank[h.index];
    ghost var ft, pt, first := OptTree(st, n.pfilter), TreeOf(st, n.projection), OptSeq(n.pfilter);
    var filter := FoldOption(arena, n.pfilter, bound, z);
    ghost var one := arena.View();
    WorkedMore(st, one, z, first, [n.projection], filter.Err?);
    if filter.Err? {
      WorkedNode(st, one, z, h, true);
      return Err(filter.error);
    }
    WorkedWf(st, one, z, first);
    OperandLater(st, one, n.projection, bound, z, {});
    OperandLater(st, one, n.path, bound, z, {});
    var proj := FoldExpression(arena, n.projection, z);
    ghost var two := arena.View();
    WorkedThen(st, one, two, z, first, [n.projection], proj.Err?);
    WorkedNode(st, two, z, h, proj.Err?);
    if proj.Err? { return Err(proj.error); }
    WorkedWf(one, two, z, [n.projection]);
    OptDenotesLater(one, two, filter.value, FoldOpt(ft), bound, z, {});
    OperandLater(one, two, n.path, bound, z, {});
    r := BuildPatternComprehension(arena, n.path, filter.value, FoldOpt(ft), proj.value, Fold(pt), bound, z);
    WorkedAlloc(st, two, arena.View(), z, [h]);
  }

  method BuildPatternComprehension(arena: QueryAstArena, path: Handle, filter: Option<Handle>, ghost ft: Option<Expr>,
                                   proj: Handle, ghost pt: Expr, ghost bound: nat, ghost z: Zone)
    returns (r: Result<Handle>)
    requires arena.Valid() && Closed(arena.View(), z) && Operand(arena.View(), path, bound, z)
    requires OptDenotes(arena.View(), filter, ft, bound, z) && Denotes(arena.View(), proj, pt, bound, z)
    modifies arena
    ensures Within(old(arena.View()), arena.View(), z, {}) && old(arena.nodes) <= arena.nodes
    ensures r.Ok? && Denotes(arena.View(), r.value, EPatComp(path, ft, pt), bound + 1, z)
  {
    ghost var st := arena.View();
    var f := AllocIn(arena, PatternComprehension(path, filter, proj), bound, z);
    DenotesLater(st, arena.View(), proj, pt, bound, z, {});
    OptDenotesLater(st, arena.View(), filter, ft, bound, z, {});
    return Ok(f);
  }

  lemma PatternParts(st: Store, h: Handle, z: Zone)
    requires Present(st, h, z) && st.nodes[h.index].PatternComprehension?
    ensures |st.rank| == |st.nodes|
    ensures var n := st.nodes[h.index];
      var bound := st.rank[h.index];
      && Rk(st, h) == bound + 1 && Operands(n) == OptSeq(n.pfilter) + [n.projection] && AllIn(st, z, [n.projection])
      && TreeOf(st, h) == EPatComp(n.path, OptTree(st, n.pfilter), TreeOf(st, n.projection))
      && Fold(TreeOf(st, h)) == EPatComp(n.path, FoldOpt(OptTree(st, n.pfilter)), Fold(TreeOf(st, n.projection)))
      && Operand(st, n.path, bound, z) && Operand(st, n.projection, bound, z) && Rk(st, n.projection) < Rk(st, h)
      && (n.pfilter.Some? ==> Operand(st, n.pfilter.value, bound, z))
  {
    var n := st.nodes[h.index];
    assert n.path in Handles(n) && n.projection in Handles(n);
    ChildReady(st, h, n.path, z);
    ChildReady(st, h, n.projection, z);
    if n.pfilter.Some? { assert n.pfilter.value in Handles(n); ChildReady(st, h, n.pfilter.value, z); }
  }

  // ---------- CASE ----------

  ghost predicate PairsDenote(st: Store, hs: seq<(Handle, Handle)>, bs: seq<Branch>, bound: nat, z: Zone) {
    && |hs| == |bs|
    && forall k :: 0 <= k < |hs| ==>
         Denotes(st, hs[k].0, bs[k].cond, bound, z) && Denotes(st, hs[k].1, bs[k].result, bound, z)
  }

  lemma PairsDenoteLater(a: Store, b: Store, hs: seq<(Handle, Handle)>, bs: seq<Branch>, bound: nat, z: Zone)
    requires PairsDenote(a, hs, bs, bound, z) && Within(a, b, z, {})
    ensures PairsDenote(b, hs, bs, bound, z)
  {
    forall k | 0 <= k < |hs|
      ensures Denotes(b, hs[k].0, bs[k].cond, bound, z) && Denotes(b, hs[k].1, bs[k].result, bound, z)
    {
      DenotesLater(a, b, hs[k].0, bs[k].cond, bound, z, {});
      DenotesLater(a, b, hs[k].1, bs[k].result, bound, z, {});
    }
  }

  /** What the branch loop leaves: pruned when there is no subject, folded otherwise. */
  ghost function Remaining(searched: bool, bs: seq<Branch>): Pruned {
    if searched then PruneBranches(bs) else Pruned(FoldBranches(bs), None)
  }

  /** The branch loop so far: `kept` branches, and the rest still to be pruned. */
  ghost predicate Progress(searched: bool, bs: seq<Branch>, k: nat, kept: seq<Branch>) {
    && k <= |bs|
    && Remaining(searched, bs).hit == Remaining(searched, bs[k..]).hit
    && Remaining(searched, bs).kept == kept + Remaining(searched, bs[k..]).kept
  }

  lemma ProgressStart(searched: bool, bs: seq<Branch>)
    ensures Progress(searched, bs, 0, [])
  {
    assert bs[0..] == bs;
    assert [] + Remaining(searched, bs).kept == Remaining(searched, bs).kept;
  }

  lemma ProgressStep(searched: bool, bs: seq<Branch>, k: nat, kept: seq<Branch>)
    requires k < |bs| && Progress(searched, bs, k, kept)
    ensures var b := FoldBranch(bs[k]);
      if searched && IsBool(b.cond, true) then Remaining(searched, bs) == Pruned(kept, Some(b.result))
      else if searched && IsBool(b.cond, false) then Progress(searched, bs, k + 1, kept)
      else Progress(searched, bs, k + 1, kept + [b])
  {
    assert bs[k..][1..] == bs[k + 1..];
    var b := FoldBranch(bs[k]);
    var next := Remaining(searched, bs[k + 1..]);
    assert kept + ([b] + next.kept) == kept + [b] + next.kept;
    assert kept + [] == kept;
  }

  lemma ProgressEnd(searched: bool, bs: seq<Branch>, kept: seq<Branch>)
    requires Progress(searched, bs, |bs|, kept)
    ensures Remaining(searched, bs) == Pruned(kept, None)
  {
    assert bs[|bs|..] == [];
    assert kept + [] == kept;
  }

  method FoldBranchLoop(arena: QueryAstArena, bs: seq<(Handle, Handle)>, searched: bool,
                        ghost bound: nat, ghost z: Zone)
    returns (r: Result<(seq<(Handle, Handle)>, Option<Handle>)>)
    requires arena.Valid() && Closed(arena.View(), z) && Shaped(arena.View())
    requires forall k :: 0 <= k < |bs| ==>
      Operand(arena.View(), bs[k].0, bound, z) && Operand(arena.View(), bs[k].1, bound, z)
    modifies arena
    ensures Worked(old(arena.View()), arena.View(), z, Flat(bs))
    ensures r.Ok? ==>
      var want := Remaining(searched, PairsOf(old(arena.View()), bs));
      && (want.hit.None? ==> PairsDenote(arena.View(), r.value.0, want.kept, bound, z))
      && OptDenotes(arena.View(), r.value.1, want.hit, bound, z)
    ensures r.Err? ==> Gaps(old(arena.View()), Flat(bs))
    decreases bound, 8
  {
    hide Within, Closed, TreeOf, Shaped, Wf, Fold, FoldBranch, Remaining, Progress, Worked, Gaps, Flat;
    ghost var st := arena.View();
    ghost var ts := PairsOf(st, bs);
    ghost var kept: seq<Branch> := [];
    var done: seq<(Handle, Handle)> := [];
    var k := 0;
    NothingWorked(st, z);
    ProgressStart(searched, ts);
    FlatNone(bs);
    while k < |bs|
      invariant 0 <= k <= |bs| && |ts| == |bs|
      invariant Worked(st, arena.View(), z, Flat(bs[..k]))
      invariant PairsDenote(arena.View(), done, kept, bound, z)
      invariant Progress(searched, ts, k, kept)
      decreases |bs| - k
    {
      ghost var cur := arena.View();
      ghost var b, pair := FoldBranch(ts[k]), [bs[k].0, bs[k].1];
      WorkedWf(st, cur, z, Flat(bs[..k]));
      OperandLater(st, cur, bs[k].0, bound, z, {});
      OperandLater(st, cur, bs[k].1, bound, z, {});
      var turn := FoldTurn(arena, bs[k].0, bs[k].1, searched, bound, z);
      FlatSplit(bs, k);
      WorkedThen(st, cur, arena.View(), z, Flat(bs[..k]), pair, turn.Err?);
      WorkedMore(st, arena.View(), z, Flat(bs[..k + 1]), Flat(bs[k + 1..]), turn.Err?);
      if turn.Err? { return Err(turn.error); }
      WorkedWf(cur, arena.View(), z, pair);
      PairsDenoteLater(cur, arena.View(), done, kept, bound, z);
      ProgressStep(searched, ts, k, kept);
      match turn.value {
        case Hit(result) => return Ok(([], Some(result)));
        case Skip =>
        case Retain(cond, result) =>
          PairsAppend(arena.View(), done, kept, cond, result, b, bound, z);
          done := done + [(cond, result)];
          kept := kept + [b];
      }
      k := k + 1;
    }
    ProgressEnd(searched, ts, kept);
    assert bs[..k] == bs;
    return Ok((done, None));
  }

  lemma FlatNone(bs: seq<(Handle, Handle)>)
    ensures Flat(bs[..0]) == []
  {
  }

  lemma FlatSplit(bs: seq<(Handle, Handle)>, k: nat)
    requires k < |bs|
    ensures Flat(bs[..k + 1]) == Flat(bs[..k]) + [bs[k].0, bs[k].1] && Flat(bs) == Flat(bs[..k + 1]) + Flat(bs[k + 1..])
  {
    hide Flat;
    assert bs[..k + 1] == bs[..k] + [bs[k]] && bs == bs[..k + 1] + bs[k + 1..];
    FlatConcat(bs[..k], [bs[k]]);
    FlatConcat(bs[..k + 1], bs[k + 1..]);
    FlatOne(bs[k]);
  }

  lemma FlatOne(b: (Handle, Handle))
    ensures Flat([b]) == [b.0, b.1]
  {
    assert [b][1..] == [];
  }

  lemma {:induction false} FlatConcat(a: seq<(Handle, Handle)>, b: seq<(Handle, Handle)>)
    ensures Flat(a + b) == Flat(a) + Flat(b)
    decreases |a|
  {
    if a == [] {
      assert a + b == b;
    } else {
      assert (a + b)[1..] == a[1..] + b;
      FlatConcat(a[1..], b);
    }
  }

  lemma PairsAppend(st: Store, hs: seq<(Handle, Handle)>, bs: seq<Branch>, c: Handle, t: Handle, b: Branch,
                    bound: nat, z: Zone)
    requires PairsDenote(st, hs, bs, bound, z)
    requires Denotes(st, c, b.cond, bound, z) && Denotes(st, t, b.result, bound, z)
    ensures PairsDenote(st, hs + [(c, t)], bs + [b], bound, z)
  {
  }

  /** What one turn of the branch loop decides. */
  datatype Turn = Hit(hit: Handle) | Skip | Retain(cond: Handle, result: Handle)

  method FoldTurn(arena: QueryAstArena, when_: Handle, then_: Handle, searched: bool, ghost bound: nat, ghost z: Zone)
    returns (r: Result<Turn>)
    requires Closed(arena.View(), z) && Shaped(arena.View())
    requires Operand(arena.View(), when_, bound, z) && Operand(arena.View(), then_, bound, z)
    modifies arena
    ensures Worked(old(arena.View()), arena.View(), z, [when_, then_])
    ensures r.Ok? ==>
      var b := FoldBranch(Branch(TreeOf(old(arena.View()), when_), TreeOf(old(arena.View()), then_)));
      && (r.value.Hit? <==> searched && IsBool(b.cond, true))
      && (r.value.Skip? <==> searched && IsBool(b.cond, false))
      && (r.value.Hit? ==> Denotes(arena.View(), r.value.hit, b.result, bound, z))
      && (r.value.Retain? ==> Denotes(arena.View(), r.value.cond, b.cond, bound, z))
      && (r.value.Retain? ==> Denotes(arena.View(), r.value.result, b.result, bound, z))
    ensures r.Err? ==> Gaps(old(arena.View()), [when_, then_])
    decreases bound, 7
  {
    ghost var st := arena.View();
    hide Within, Closed, TreeOf, Shaped, Wf, Names, Fold, Worked, Gaps;
    var pair := FoldPair(arena, when_, then_, bound, z);
    if pair.Err? { return Err(pair.error); }
    var (cond, result) := pair.value;
    if searched {
      var got := arena.Get(cond);
      if got.Err? {
        HoleFromNull(st, arena.View(), cond, when_, then_, bound, z);
        return Err(got.error);
      }
      NodeShape(arena.View(), cond);
      if got.value == LiteralNode(LBool(true)) { return Ok(Hit(result)); }
      if got.value == LiteralNode(LBool(false)) { return Ok(Skip); }
    }
    return Ok(Retain(cond, result));
  }

  /** A folded condition that turns out null came from a hole in the original. */
  lemma HoleFromNull(a: Store, b: Store, h: Handle, when_: Handle, then_: Handle, bound: nat, z: Zone)
    requires Wf(a) && Denotes(b, h, Fold(TreeOf(a, when_)), bound, z) && (h.Null? || h.index >= |b.nodes|)
    ensures Gaps(a, [when_, then_])
  {
    hide Fold, Names, NamesAll, SubGap;
    var e, d := TreeOf(a, when_), TreeOf(a, then_);
    FoldNames(e);
    NullHole(b, h);
    assert TreesOf(a, [when_, then_]) == [e, d];
    WeightTwo(e, d, _ => 0);
  }

  lemma NullHole(st: Store, h: Handle)
    requires Wf(st) && h.Null?
    ensures Hole in Names(TreeOf(st, h))
  {
  }

  method FoldPair(arena: QueryAstArena, when_: Handle, then_: Handle, ghost bound: nat, ghost z: Zone)
    returns (r: Result<(Handle, Handle)>)
    requires Closed(arena.View(), z) && Shaped(arena.View())
    requires Operand(arena.View(), when_, bound, z) && Operand(arena.View(), then_, bound, z)
    modifies arena
    ensures Worked(old(arena.View()), arena.View(), z, [when_, then_])
    ensures r.Ok? ==> Denotes(arena.View(), r.value.0, Fold(TreeOf(old(arena.View()), when_)), bound, z)
    ensures r.Ok? ==> Denotes(arena.View(), r.value.1, Fold(TreeOf(old(arena.View()), then_)), bound, z)
    ensures r.Err? ==> Gaps(old(arena.View()), [when_, then_])
    decreases bound, 6
  {
    hide Within, Closed, TreeOf, Shaped, Wf, Fold, Worked, Gaps;
    ghost var st := arena.View();
    assert [when_, then_] == [when_] + [then_];
    var w := FoldExpression(arena, when_, z);
    ghost var one := arena.View();
    WorkedMore(st, one, z, [when_], [then_], w.Err?);
    if w.Err? { return Err(w.error); }
    WorkedWf(st, one, z, [when_]);
    OperandLater(st, one, then_, bound, z, {});
    var t := FoldExpression(arena, then_, z);
    ghost var two := arena.View();
    WorkedThen(st, one, two, z, [when_], [then_], t.Err?);
    if t.Err? { return Err(t.error); }
    WorkedWf(one, two, z, [then_]);
    DenotesLater(one, two, w.value, Fold(TreeOf(st, when_)), bound, z, {});
    return Ok((w.value, t.value));
  }

  /** `fold_case_expression`. */
  method FoldCaseNode(arena: QueryAstArena, h: Handle, ghost z: Zone) returns (r: Result<Handle>)
    requires Present(arena.View(), h, z) && arena.nodes[h.index].CaseExpression?
    modifies arena
    ensures Folded(old(arena.View()), arena.View(), h, r, z)
    decreases Rk(arena.View(), h), 4
  {
    hide Within, Closed, TreeOf, Shaped, Wf, Fold, Remaining, Worked, Gaps, Flat;
    ghost var st := arena.View();
    var n := arena.nodes[h.index];
    CaseParts(st, h, z);
    ghost var bound := st.rank[h.index];
    ghost var ct, bt, et := OptTree(st, n.subject), PairsOf(st, n.branches), OptTree(st, n.elseBranch);
    ghost var s1, s2, s3 := OptSeq(n.subject), Flat(n.branches), OptSeq(n.elseBranch);
    CaseOutcome(ct, bt, et);
    ghost var p := Remaining(ct.None?, bt);
    var subject := FoldOption(arena, n.subject, bound, z);
    ghost var one := arena.View();
    if subject.Err? {
      WorkedMore(st, one, z, s1, s2, true);
      WorkedMore(st, one, z, s1 + s2, s3, true);
      WorkedNode(st, one, z, h, true);
      return Err(subject.error);
    }
    WorkedWf(st, one, z, s1);
    BranchesLater(st, one, n.branches, bound, z);
    var loop := FoldBranchLoop(arena, n.branches, subject.value.None?, bound, z);
    ghost var two := arena.View();
    WorkedThen(st, one, two, z, s1, s2, loop.Err?);
    WorkedMore(st, two, z, s1 + s2, s3, loop.Err?);
    WorkedNode(st, two, z, h, loop.Err?);
    if loop.Err? { return Err(loop.error); }
    var (done, hit) := loop.value;
    if hit.Some? {
      return Ok(hit.value);
    }
    WorkedWf(one, two, z, s2);
    WorkedWf(st, two, z, s1 + s2);
    OptionLater(st, two, n.elseBranch, bound, z);
    OptDenotesLater(one, two, subject.value, FoldOpt(ct), bound, z, {});
    var els := FoldOption(arena, n.elseBranch, bound, z);
    ghost var three := arena.View();
    WorkedThen(st, two, three, z, s1 + s2, s3, els.Err?);
    WorkedNode(st, three, z, h, els.Err?);
    if els.Err? { return Err(els.error); }
    if done == [] && els.value.Some? {
      return Ok(els.value.value);
    }
    WorkedWf(two, three, z, s3);
    if done == [] {
      var f := AllocLiteral(arena, LNull, z);
      WorkedAlloc(st, three, arena.View(), z, [h]);
      return Ok(f);
    }
    OptDenotesLater(two, three, subject.value, FoldOpt(ct), bound, z, {});
    PairsDenoteLater(two, three, done, p.kept, bound, z);
    r := BuildCase(arena, subject.value, FoldOpt(ct), done, p.kept, els.value, FoldOpt(et), bound, z);
    WorkedAlloc(st, three, arena.View(), z, [h]);
  }

  lemma CaseOutcome(ct: Option<Expr>, bt: seq<Branch>, et: Option<Expr>)
    ensures var p := Remaining(ct.None?, bt);
      Fold(ECase(ct, bt, et)) == if p.hit.Some? then p.hit.value else Rebuild(FoldOpt(ct), p.kept, FoldOpt(et))
  {
  }

  lemma CaseParts(st: Store, h: Handle, z: Zone)
    requires Present(st, h, z) && st.nodes[h.index].CaseExpression?
    ensures |st.rank| == |st.nodes|
    ensures var n := st.nodes[h.index];
      var bound := st.rank[h.index];
      && Rk(st, h) == bound + 1
      && TreeOf(st, h) == ECase(OptTree(st, n.subject), PairsOf(st, n.branches), OptTree(st, n.elseBranch))
      && (n.subject.Some? ==> Operand(st, n.subject.value, bound, z))
      && (n.elseBranch.Some? ==> Operand(st, n.elseBranch.value, bound, z))
      && AllIn(st, z, Flat(n.branches)) && AllIn(st, z, OptSeq(n.elseBranch))
      && Operands(n) == OptSeq(n.subject) + Flat(n.branches) + OptSeq(n.elseBranch)
      && forall k :: 0 <= k < |n.branches| ==>
           Operand(st, n.branches[k].0, bound, z) && Operand(st, n.branches[k].1, bound, z)
  {
    var n := st.nodes[h.index];
    TreeParts(st, h);
    if n.subject.Some? { assert n.subject.value in Handles(n); ChildReady(st, h, n.subject.value, z); }
    if n.elseBranch.Some? { assert n.elseBranch.value in Handles(n); ChildReady(st, h, n.elseBranch.value, z); }
    forall k | 0 <= k < |n.branches|
      ensures Operand(st, n.branches[k].0, st.rank[h.index], z) && Operand(st, n.branches[k].1, st.rank[h.index], z)
    {
      assert n.branches[k] in n.branches;
      assert n.branches[k].0 in Handles(n) && n.branches[k].1 in Handles(n);
      ChildReady(st, h, n.branches[k].0, z);
      ChildReady(st, h, n.branches[k].1, z);
    }
    forall c | c in Flat(n.branches) ensures Known(st, c) && InZone(z, c) {
      FlatMember(n.branches, c);
      var b :| b in n.branches && (c == b.0 || c == b.1);
      assert b.0 in FirstSet(n.branches);
      ChildReady(st, h, c, z);
    }
  }

  lemma {:induction false} FlatMember(bs: seq<(Handle, Handle)>, h: Handle)
    requires h in Flat(bs)
    ensures exists b :: b in bs && (h == b.0 || h == b.1)
  {
    if h == bs[0].0 || h == bs[0].1 {
      assert bs[0] in bs;
    } else {
      FlatMember(bs[1..], h);
    }
  }

  lemma BranchesLater(a: Store, b: Store, bs: seq<(Handle, Handle)>, bound: nat, z: Zone)
    requires Within(a, b, z, {})
    requires forall k :: 0 <= k < |bs| ==> Operand(a, bs[k].0, bound, z) && Operand(a, bs[k].1, bound, z)
    ensures forall k :: 0 <= k < |bs| ==> Operand(b, bs[k].0, bound, z) && Operand(b, bs[k].1, bound, z)
    ensures Wf(a) && Wf(b) && PairsOf(b, bs) == PairsOf(a, bs)
  {
    forall k | 0 <= k < |bs|
      ensures Operand(b, bs[k].0, bound, z) && Operand(b, bs[k].1, bound, z)
      ensures TreeOf(b, bs[k].0) == TreeOf(a, bs[k].0) && TreeOf(b, bs[k].1) == TreeOf(a, bs[k].1)
    {
      OperandLater(a, b, bs[k].0, bound, z, {});
      OperandLater(a, b, bs[k].1, bound, z, {});
    }
  }

  method BuildCase(arena: QueryAstArena, subject: Option<Handle>, ghost ct: Option<Expr>,
                   bs: seq<(Handle, Handle)>, ghost bt: seq<Branch>,
                   els: Option<Handle>, ghost et: Option<Expr>, ghost bound: nat, ghost z: Zone)
    returns (r: Result<Handle>)
    requires arena.Valid() && Closed(arena.View(), z)
    requires OptDenotes(arena.View(), subject, ct, bound, z) && OptDenotes(arena.View(), els, et, bound, z)
    requires PairsDenote(arena.View(), bs, bt, bound, z)
    modifies arena
    ensures Within(old(arena.View()), arena.View(), z, {}) && old(arena.nodes) <= arena.nodes
    ensures r.Ok? && Denotes(arena.View(), r.value, ECase(ct, bt, et), bound + 1, z)
  {
    ghost var st := arena.View();
    PairHandles(st, bs, bt, bound, z);
    var f := AllocIn(arena, CaseExpression(subject, bs, els), bound, z);
    OptDenotesLater(st, arena.View(), subject, ct, bound, z, {});
    OptDenotesLater(st, arena.View(), els, et, bound, z, {});
    PairsDenoteLater(st, arena.View(), bs, bt, bound, z);
    TreeParts(arena.View(), f);
    assert PairsOf(arena.View(), bs) == bt;
    return Ok(f);
  }

  lemma PairHandles(st: Store, hs: seq<(Handle, Handle)>, bs: seq<Branch>, bound: nat, z: Zone)
    requires PairsDenote(st, hs, bs, bound, z)
    ensures forall p :: p in hs ==> Low(st, p.0, bound) && InZone(z, p.0) && Low(st, p.1, bound) && InZone(z, p.1)
  {
    forall p | p in hs
      ensures Low(st, p.0, bound) && InZone(z, p.0) && Low(st, p.1, bound) && InZone(z, p.1)
    {
      var k :| 0 <= k < |hs| && hs[k] == p;
      assert Denotes(st, hs[k].0, bs[k].cond, bound, z) && Denotes(st, hs[k].1, bs[k].result, bound, z);
    }
  }

  // ---------- Clauses, in place ----------

  /** The node at `h` now holds the folded expressions, and is otherwise the same. */
  ghost predicate SlotFolded(a: Store, b: Store, h: Handle)
    requires Wf(a) && Wf(b)
  {
    Skeleton(NodeAt(b, h)) == Skeleton(NodeAt(a, h)) && Exprs(b, h) == FoldAll(Exprs(a, h))
  }

  ghost function Feet(vs: seq<Handle>): set<nat> {
    set h | h in vs && h.At? :: h.index
  }

  /** No clause or pattern node is visited twice, and none is reached from an expression. */
  ghost predicate Fresh(vs: seq<Handle>, z: Zone) {
    && (forall i :: 0 <= i < |vs| && vs[i].At? ==> !InZone(z, vs[i]))
    && forall i, j :: 0 <= i < j < |vs| && vs[i] == vs[j] ==> vs[i].Null?
  }

  ghost predicate Ready(st: Store, vs: seq<Handle>, z: Zone) {
    forall h :: h in vs ==> Known(st, h) && ExprsIn(NodeAt(st, h), z)
  }

  /** Folded at least `lo` and at most `hi` times. */
  ghost predicate Between(a: Store, b: Store, s: Handle, lo: nat, hi: nat)
    requires Wf(a) && Wf(b)
  {
    exists k: nat :: lo <= k <= hi && Refolded(a, b, s, k)
  }

  /** No slot is folded more often than the visits lead to it, and after success each visited one at least once. */
  ghost predicate Visited(a: Store, b: Store, vs: seq<Handle>, ok: bool)
    requires Wf(a) && Wf(b)
  {
    forall s :: Known(a, s) ==> Between(a, b, s, if ok && s in vs then 1 else 0, SlotsTimes(a, vs, s))
  }

  /** The slots `vs` were visited in order, to the end or up to the first error. */
  ghost predicate Pass(a: Store, b: Store, z: Zone, vs: seq<Handle>, ok: bool)
    requires Wf(a)
  {
    && Shaped(a) && Within(a, b, z, Feet(vs)) && Shaped(b) && Visited(a, b, vs, ok)
    && (!ok ==> exists h :: h in vs && Holed(a, h))
  }

  lemma ReadyLater(a: Store, b: Store, z: Zone, feet: set<nat>, vs: seq<Handle>)
    requires Within(a, b, z, feet) && Ready(a, vs, z)
    ensures Ready(b, vs, z)
  {
    forall h | h in vs
      ensures Known(b, h) && ExprsIn(NodeAt(b, h), z)
    {
      if h.At? { assert b.nodes[h.index] == b.nodes[h.index]; }
    }
  }

  /** A node the step left alone denotes what it did. */
  lemma SlotUntouched(a: Store, b: Store, z: Zone, feet: set<nat>, h: Handle)
    requires Within(a, b, z, feet) && Known(a, h)
    requires h.At? ==> !InZone(z, h) && h.index !in feet
    ensures NodeAt(b, h) == NodeAt(a, h) && Exprs(b, h) == Exprs(a, h)
  {
    if h.At? {
      assert b.nodes[h.index] == a.nodes[h.index];
      KnownExprs(a, h);
      TreesFrame(a, b, ExprList(NodeAt(a, h)));
    }
  }

  lemma PassNothing(a: Store, z: Zone)
    requires Wf(a) && Closed(a, z) && Shaped(a)
    ensures Pass(a, a, z, [], true)
  {
    WithinSame(a, z);
    WithinMore(a, a, z, {}, Feet([]));
    forall s | Known(a, s) ensures Between(a, a, s, 0, SlotsTimes(a, [], s)) { SlotKept(a, a, s); }
  }

  lemma FreshParts(vs: seq<Handle>, ws: seq<Handle>, z: Zone)
    requires Fresh(vs + ws, z)
    ensures Fresh(vs, z) && Fresh(ws, z)
    ensures forall h :: h in vs && h.At? ==> !InZone(z, h) && h.index !in Feet(ws)
    ensures forall h :: h in ws && h.At? ==> !InZone(z, h) && h.index !in Feet(vs)
  {
    var all := vs + ws;
    assert forall i :: 0 <= i < |vs| ==> all[i] == vs[i];
    assert forall i :: 0 <= i < |ws| ==> all[|vs| + i] == ws[i];
    forall h | h in vs && h.At? ensures !InZone(z, h) && h.index !in Feet(ws) {
      var i :| 0 <= i < |vs| && vs[i] == h;
      assert all[i] == h;
    }
    forall h | h in ws && h.At? ensures !InZone(z, h) && h.index !in Feet(vs) {
      var j :| 0 <= j < |ws| && ws[j] == h;
      assert all[|vs| + j] == h;
    }
  }

  lemma PassWithin(a: Store, b: Store, c: Store, z: Zone, vs: seq<Handle>, ws: seq<Handle>)
    requires Within(a, b, z, Feet(vs)) && Within(b, c, z, Feet(ws))
    ensures Within(a, c, z, Feet(vs + ws))
  {
    WithinMore(a, b, z, Feet(vs), Feet(vs + ws));
    WithinMore(b, c, z, Feet(ws), Feet(vs + ws));
    WithinTransitive(a, b, c, z, Feet(vs + ws));
  }

  /** Slots over expressions of the zone lead to `s` no more often after a step than before. */
  lemma {:induction false} ReadyShrink(a: Store, b: Store, z: Zone, feet: set<nat>, ws: seq<Handle>, s: Handle)
    requires Shaped(a) && Within(a, b, z, feet) && Ready(a, ws, z)
    ensures SlotsTimes(b, ws, s) <= SlotsTimes(a, ws, s)
    decreases |ws|
  {
    if ws != [] {
      var v := ws[0];
      assert v in ws;
      SlotWithin(a, b, z, feet, v);
      WithinKeeps(a, b, z, feet);
      hide Within, Shaped, Keeps, KeptAt, Times;
      SlotShrinks(a, b, z, v, s);
      ReadyShrink(a, b, z, feet, ws[1..], s);
    }
  }

  lemma SlotWithin(a: Store, b: Store, z: Zone, feet: set<nat>, v: Handle)
    requires Within(a, b, z, feet) && Known(a, v)
    ensures KeptAt(a, b, v)
  {
    KindsKept(a, b, z, feet, v);
  }

  lemma VisitedThen(a: Store, b: Store, c: Store, z: Zone, vs: seq<Handle>, ws: seq<Handle>, ok: bool)
    requires Shaped(a) && Within(a, b, z, Feet(vs)) && Wf(c) && Ready(a, ws, z)
    requires Visited(a, b, vs, true) && Visited(b, c, ws, ok)
    ensures Visited(a, c, vs + ws, ok)
  {
    assert Wf(a) && Wf(b) && |a.nodes| <= |b.nodes|;
    hide Within, Shaped, Ready, SlotsTimes, Refolded, Wf;
    forall s | Known(a, s)
      ensures Between(a, c, s, if ok && s in vs + ws then 1 else 0, SlotsTimes(a, vs + ws, s))
    {
      SlotsConcat(a, vs, ws, s);
      ReadyShrink(a, b, z, Feet(vs), ws, s);
      assert Known(b, s);
      var j: nat :| (if s in vs then 1 else 0) <= j <= SlotsTimes(a, vs, s) && Refolded(a, b, s, j);
      var k: nat :| (if ok && s in ws then 1 else 0) <= k <= SlotsTimes(b, ws, s) && Refolded(b, c, s, k);
      RefoldedThen(a, b, c, s, j, k);
    }
  }

  /** Visiting `vs` and then `ws`. */
  lemma PassThen(a: Store, b: Store, c: Store, z: Zone, vs: seq<Handle>, ws: seq<Handle>, ok: bool)
    requires Wf(a) && Wf(b) && Pass(a, b, z, vs, true) && Pass(b, c, z, ws, ok)
    requires Ready(a, vs, z) && Ready(a, ws, z)
    ensures Pass(a, c, z, vs + ws, ok)
  {
    hide Shaped, Visited, Within, Holed;
    assert Wf(c) by { WithinClosed(b, c, z, Feet(ws)); }
    PassWithin(a, b, c, z, vs, ws);
    VisitedThen(a, b, c, z, vs, ws, ok);
    if !ok {
      var h :| h in ws && Holed(b, h);
      WithinKeeps(a, b, z, Feet(vs));
      SlotWithin(a, b, z, Feet(vs), h);
      HoledEarlier(a, b, z, h);
      assert h in vs + ws;
    }
  }

  lemma PassFailed(a: Store, b: Store, z: Zone, vs: seq<Handle>, ws: seq<Handle>)
    requires Wf(a) && Pass(a, b, z, vs, false)
    ensures Pass(a, b, z, vs + ws, false)
  {
    hide Holed, SlotsTimes, Refolded;
    WithinMore(a, b, z, Feet(vs), Feet(vs + ws));
    hide Within, Shaped;
    forall s | Known(a, s) ensures Between(a, b, s, 0, SlotsTimes(a, vs + ws, s)) {
      SlotsConcat(a, vs, ws, s);
      assert Between(a, b, s, 0, SlotsTimes(a, vs, s));
    }
    var h :| h in vs && Holed(a, h);
    assert h in vs + ws;
  }

  /** A slot that one visit leads to, and no more, is folded once. */
  lemma OnceFolded(a: Store, b: Store, z: Zone, vs: seq<Handle>, h: Handle)
    requires Wf(a) && Pass(a, b, z, vs, true) && Known(a, h) && h in vs && SlotsTimes(a, vs, h) == 1
    ensures SlotFolded(a, b, h)
  {
    KindsKept(a, b, z, Feet(vs), h);
    assert Between(a, b, h, 1, 1);
    FoldAllByOne(Exprs(a, h));
  }

  /** Expressions of the zone lead to no slot outside it. */
  lemma {:induction false} OutsideTimes(st: Store, z: Zone, q: Handle, s: Handle)
    requires Start(st, z) && InZone(z, q) && Known(st, q) && !InZone(z, s)
    ensures SubTimes(st, q, s) == 0
    decreases Rk(st, q), 1, 0
  {
    SubTimesSum(st, q, s);
    SubVisitsIn(st, z, q);
    SubVisitsBelow(st, q);
    OutsideSlots(st, z, SubVisits(st, q), s, Rk(st, q));
  }

  lemma {:induction false} OutsideSlots(st: Store, z: Zone, vs: seq<Handle>, s: Handle, limit: nat)
    requires Start(st, z) && !InZone(z, s) && forall v :: v in vs ==> Known(st, v) && InZone(z, v) && Rk(st, v) <= limit
    ensures SlotsTimes(st, vs, s) == 0
    decreases limit, 0, |vs|
  {
    if vs != [] {
      assert vs[0] in vs;
      SlotIn(st, z, vs[0]);
      OutsideExprs(st, z, vs[0], s);
      OutsideSlots(st, z, vs[1..], s, limit);
    }
  }

  lemma {:induction false} OutsideExprs(st: Store, z: Zone, v: Handle, s: Handle)
    requires Start(st, z) && Known(st, v) && ExprsIn(NodeAt(st, v), z) && !InZone(z, s)
    ensures Times(st, Exprs(st, v), s) == 0
    decreases Rk(st, v), 0, 0
  {
    var es := Exprs(st, v);
    forall q | Nested(q) in NamesAll(es) ensures Load(st, s)(q) == 0 {
      NestedInSlot(st, v, Nested(q));
      OutsideTimes(st, z, q, s);
    }
    WeightAllLess(es, 0, Load(st, s), Load(st, s));
  }

  lemma {:induction false} FreshTimes(st: Store, z: Zone, vs: seq<Handle>, s: Handle)
    requires Start(st, z) && Ready(st, vs, z) && Fresh(vs, z) && s.At? && !InZone(z, s)
    ensures SlotsTimes(st, vs, s) == if s in vs then 1 else 0
    decreases |vs|
  {
    if vs != [] {
      assert vs[0] in vs;
      OutsideExprs(st, z, vs[0], s);
      assert vs == [vs[0]] + vs[1..];
      FreshParts([vs[0]], vs[1..], z);
      assert Ready(st, vs[1..], z) by { ReadyParts(st, [vs[0]], vs[1..], z); }
      FreshTimes(st, z, vs[1..], s);
      assert vs[0] in [vs[0]];
      assert vs[0] == s ==> s !in vs[1..];
    }
  }

  // ---------- The pass itself ----------

  lemma PassStart(a: Store, b: Store, z: Zone, vs: seq<Handle>, ok: bool)
    requires Wf(a) && Pass(a, b, z, vs, ok)
    ensures Start(b, z)
  {
  }

  lemma SlotNull(st: Store, z: Zone)
    requires Start(st, z)
    ensures Pass(st, st, z, [Null], false)
  {
    WithinSame(st, z);
    WithinMore(st, st, z, {}, Feet([Null]));
    forall s | Known(st, s) ensures Between(st, st, s, 0, SlotsTimes(st, [Null], s)) { SlotKept(st, st, s); }
    assert Holed(st, Null) && Null in [Null];
  }

  /** Reads a node's expressions, folds them in order and writes them back. */
  method FoldSlot(arena: QueryAstArena, h: Handle, ghost z: Zone) returns (ok: bool)
    requires Start(arena.View(), z) && Ready(arena.View(), [h], z) && Slot(arena.View(), h)
    modifies arena
    ensures Pass(old(arena.View()), arena.View(), z, [h], ok)
    decreases Rk(arena.View(), h), 3
  {
    ghost var st := arena.View();
    if h.Null? {
      SlotNull(st, z);
      return false;
    }
    var n := arena.nodes[h.index];
    ghost var bound := st.rank[h.index];
    assert h in [h];
    SlotOperands(st, h, z);
    assert Exprs(st, h) == TreesOf(st, ExprList(n));
    hide Worked, Shaped, Pass, Wf, Closed;
    var list := FoldList(arena, ExprList(n), bound, z);
    ghost var one := arena.View();
    WorkedWf(st, one, z, ExprList(n));
    if list.Err? {
      SlotFailed(st, one, z, h);
      return false;
    }
    SlotLater(st, one, z, {}, h);
    RankKept(st, one, z, {}, h);
    Ranked(one);
    SlotStays(st, one, z, h);
    var now := arena.nodes[h.index];
    SameLength(n, now);
    ghost var want := FoldAll(Exprs(st, h));
    var node := WithExprs(now, list.value);
    WithExprsList(now, list.value);
    RewrittenLow(one, h, node, list.value, want, bound, z);
    arena.Update(h, node);
    SlotDone(st, one, arena.View(), z, h, node, list.value, bound);
    return true;
  }

  /** Folding the expressions of a slot does not touch the slot. */
  lemma SlotStays(st: Store, one: Store, z: Zone, h: Handle)
    requires Known(st, h) && Worked(st, one, z, ExprList(NodeAt(st, h)))
    ensures Exprs(one, h) == Exprs(st, h)
  {
    ExprsLow(st, h, h);
    assert UpTo(st, one, h, 0);
    FoldAllByOne(Exprs(st, h));
  }

  lemma SlotFailed(st: Store, one: Store, z: Zone, h: Handle)
    requires Shaped(st) && h.At? && Known(st, h) && Worked(st, one, z, ExprList(NodeAt(st, h)))
      && Gaps(st, ExprList(NodeAt(st, h)))
    ensures Pass(st, one, z, [h], false)
  {
    WithinMore(st, one, z, {}, Feet([h]));
    hide Within, Refolded, Gapped;
    forall s | Known(st, s) ensures Between(st, one, s, 0, SlotsTimes(st, [h], s)) {
      OneSlot(st, h, s);
      assert UpTo(st, one, s, Times(st, Exprs(st, h), s));
    }
    assert h in [h] && Holed(st, h);
  }

  lemma OneSlot(st: Store, h: Handle, s: Handle)
    requires Wf(st)
    ensures SlotsTimes(st, [h], s) == (if h == s then 1 else 0) + Times(st, Exprs(st, h), s)
  {
    assert [h][1..] == [];
  }

  /** After the write, the slot is folded once more and everything else as it was before it. */
  lemma SlotDone(st: Store, one: Store, two: Store, z: Zone, h: Handle, node: AstNode, hs: seq<Handle>, bound: nat)
    requires Start(st, z) && h.At? && Known(st, h) && Worked(st, one, z, ExprList(NodeAt(st, h)))
      && Exprs(one, h) == Exprs(st, h)
    requires Wf(two) && Grows(one, two) && Known(one, h) && two == Store(one.nodes[h.index := node], one.rank)
    requires Rewritten(one.nodes[h.index], node, z) && ExprList(node) == hs
    requires ListDenotes(one, hs, FoldAll(Exprs(st, h)), bound, z)
    ensures Pass(st, two, z, [h], true)
  {
    hide Refolded, Exprs, Times, SlotsTimes;
    assert h in [h] && h.index in Feet([h]);
    WrittenExprs(st, one, two, h, node, hs, bound, z);
    WithinMore(st, one, z, {}, Feet([h]));
    UpdateWithin(one, two, h.index, node, z, Feet([h]));
    WithinTransitive(st, one, two, z, Feet([h]));
    ShapedLater(one, two, z, Feet([h]));
    hide Within, Shaped, Wf, Grows, Closed;
    forall s | Known(st, s) ensures Between(st, two, s, if s in [h] then 1 else 0, SlotsTimes(st, [h], s)) {
      OneSlot(st, h, s);
      if s == h {
        FoldedOnce(st, two, h);
      } else {
        ExprsAre(st, h);
        assert UpTo(st, one, s, Times(st, Exprs(st, h), s));
        var k: nat :| k <= Times(st, Exprs(st, h), s) && Refolded(st, one, s, k);
        SlotKept(one, two, s);
        RefoldedThen(st, one, two, s, k, 0);
      }
    }
  }

  lemma ExprsAre(st: Store, h: Handle)
    requires Wf(st)
    ensures Exprs(st, h) == TreesOf(st, ExprList(NodeAt(st, h)))
  {
  }

  lemma FoldedOnce(a: Store, b: Store, h: Handle)
    requires Wf(a) && Wf(b) && Exprs(b, h) == FoldAll(Exprs(a, h))
    ensures Refolded(a, b, h, 1)
  {
    FoldAllByOne(Exprs(a, h));
  }

  lemma WrittenExprs(st: Store, one: Store, two: Store, h: Handle, node: AstNode, hs: seq<Handle>, bound: nat, z: Zone)
    requires Wf(st) && Wf(one) && Wf(two) && Grows(one, two) && h.At? && Known(one, h)
    requires two == Store(one.nodes[h.index := node], one.rank) && ExprList(node) == hs
    requires ListDenotes(one, hs, FoldAll(Exprs(st, h)), bound, z)
    ensures Exprs(two, h) == FoldAll(Exprs(st, h))
  {
    assert forall k :: 0 <= k < |hs| ==> Denotes(one, hs[k], FoldAll(Exprs(st, h))[k], bound, z);
    TreesFrame(one, two, hs);
    assert TreesOf(one, hs) == FoldAll(Exprs(st, h));
  }

  lemma SameLength(x: AstNode, y: AstNode)
    requires Skeleton(x) == Skeleton(y)
    ensures |ExprList(x)| == |ExprList(y)|
  {
    var hx, hy := seq(|ExprList(x)|, _ => Null), seq(|ExprList(y)|, _ => Null);
    WithExprsList(x, hx);
    WithExprsList(y, hy);
  }

  lemma SlotOperands(st: Store, h: Handle, z: Zone)
    requires Start(st, z) && h.At? && h.index < |st.nodes| && ExprsIn(st.nodes[h.index], z)
    ensures var es := ExprList(st.nodes[h.index]);
      forall k :: 0 <= k < |es| ==> Operand(st, es[k], st.rank[h.index], z)
  {
    var n := st.nodes[h.index];
    HandlesSplit(n);
    assert NodeLow(st, n, st.rank[h.index]);
    forall k | 0 <= k < |ExprList(n)| ensures Operand(st, ExprList(n)[k], st.rank[h.index], z) {
      assert ExprList(n)[k] in ExprList(n);
    }
  }

  /** The rewritten node may stand where the old one did. */
  lemma RewrittenLow(st: Store, h: Handle, node: AstNode, hs: seq<Handle>, es: seq<Expr>, bound: nat, z: Zone)
    requires Wf(st) && h.At? && h.index < |st.nodes| && st.rank[h.index] == bound
    requires ListDenotes(st, hs, es, bound, z)
    requires ExprList(node) == hs && Skeleton(node) == Skeleton(st.nodes[h.index])
    requires !IsExpression(node) && !IsExpression(st.nodes[h.index])
    ensures NodeLow(st, node, bound) && Rewritten(st.nodes[h.index], node, z)
  {
    ListHandles(st, hs, es, bound, z);
    HandlesSplit(node);
    HandlesSplit(st.nodes[h.index]);
    assert NodeLow(st, st.nodes[h.index], bound);
  }

  /** Two visits in a row. */
  lemma TwoVisits(a: Store, b: Store, c: Store, z: Zone, vs: seq<Handle>, ws: seq<Handle>, ok: bool)
    requires Wf(a) && Wf(b) && Pass(a, b, z, vs, true) && Pass(b, c, z, ws, ok)
    requires Ready(a, vs + ws, z)
    ensures Pass(a, c, z, vs + ws, ok)
  {
    ReadyParts(a, vs, ws, z);
    PassThen(a, b, c, z, vs, ws, ok);
  }

  lemma ReadyParts(st: Store, vs: seq<Handle>, ws: seq<Handle>, z: Zone)
    requires Ready(st, vs + ws, z)
    ensures Ready(st, vs, z) && Ready(st, ws, z)
  {
    assert forall h :: h in vs ==> h in vs + ws;
    assert forall h :: h in ws ==> h in vs + ws;
  }

  lemma ReadyAfter(a: Store, b: Store, z: Zone, vs: seq<Handle>, ws: seq<Handle>, ok: bool)
    requires Wf(a) && Pass(a, b, z, vs, ok) && Ready(a, vs + ws, z)
    ensures Ready(b, ws, z)
  {
    ReadyParts(a, vs, ws, z);
    ReadyLater(a, b, z, Feet(vs), ws);
  }

  lemma PassFailedPrefix(a: Store, b: Store, z: Zone, vs: seq<Handle>, all: seq<Handle>)
    requires Wf(a) && Pass(a, b, z, vs, false) && vs <= all
    ensures Pass(a, b, z, all, false)
  {
    PassFailed(a, b, z, vs, all[|vs|..]);
    assert vs + all[|vs|..] == all;
  }

  // ---------- Walking the lists ----------

  /** A loop over one of the statement's lists. */
  method FoldEach(arena: QueryAstArena, k: Listing, hs: seq<Handle>, ghost bound: nat, ghost z: Zone) returns (ok: bool)
    requires Start(arena.View(), z) && Ready(arena.View(), AllVisits(arena.View(), k, hs), z)
    requires forall h :: h in hs ==>
      Fits(arena.View(), k, h) && Known(arena.View(), h) && Rk(arena.View(), h) <= bound
    modifies arena
    ensures Pass(old(arena.View()), arena.View(), z, AllVisits(old(arena.View()), k, hs), ok)
    decreases bound, 20
  {
    ghost var st := arena.View();
    var i := 0;
    PassNothing(st, z);
    hide Within, Closed, Shaped, Wf, Pass, Ready, Visits, AllVisits;
    EmptyVisits(st, k, hs);
    while i < |hs|
      invariant 0 <= i <= |hs|
      invariant Pass(st, arena.View(), z, AllVisits(st, k, hs[..i]), true)
      decreases |hs| - i
    {
      ghost var cur := arena.View();
      ghost var before := AllVisits(st, k, hs[..i]);
      AllVisitsStep(st, k, hs, i);
      AllVisitsPrefix(st, k, hs, i + 1);
      ReadyPrefix(st, before + Visits(st, k, hs[i]), AllVisits(st, k, hs), z);
      ElementReady(st, cur, z, before, k, hs[i]);
      ok := FoldElement(arena, k, hs[i], z);
      TwoVisits(st, cur, arena.View(), z, before, Visits(st, k, hs[i]), ok);
      if !ok {
        PassFailedPrefix(st, arena.View(), z, AllVisits(st, k, hs[..i + 1]), AllVisits(st, k, hs));
        return;
      }
      i := i + 1;
    }
    assert hs[..i] == hs;
    return true;
  }

  lemma ReadyPrefix(st: Store, vs: seq<Handle>, all: seq<Handle>, z: Zone)
    requires vs <= all && Ready(st, all, z)
    ensures Ready(st, vs, z)
  {
    assert forall h :: h in vs ==> h in all;
  }

  /** After a successful part of the pass, the next element is as it was found. */
  lemma ElementReady(a: Store, b: Store, z: Zone, before: seq<Handle>, k: Listing, h: Handle)
    requires Wf(a) && Shaped(a) && Pass(a, b, z, before, true) && Ready(a, before + Visits(a, k, h), z)
    requires Fits(a, k, h) && Known(a, h)
    ensures Start(b, z) && Wf(b) && Fits(b, k, h) && Known(b, h) && Rk(b, h) == Rk(a, h)
    ensures Visits(b, k, h) == Visits(a, k, h) && Ready(b, Visits(b, k, h), z)
  {
    PassStart(a, b, z, before, true);
    FitsLater(a, b, z, Feet(before), k, h);
    RankKept(a, b, z, Feet(before), h);
    VisitsLater(a, b, z, Feet(before), k, h);
    ReadyAfter(a, b, z, before, Visits(a, k, h), true);
  }

  method FoldElement(arena: QueryAstArena, k: Listing, h: Handle, ghost z: Zone) returns (ok: bool)
    requires Start(arena.View(), z) && Fits(arena.View(), k, h) && Known(arena.View(), h)
    requires Ready(arena.View(), Visits(arena.View(), k, h), z)
    modifies arena
    ensures Pass(old(arena.View()), arena.View(), z, Visits(old(arena.View()), k, h), ok)
    decreases Rk(arena.View(), h), 10
  {
    FitsParts(arena.View(), k, h);
    match k {
      case Items => ok := FoldSlot(arena, h, z);
      case Edges => ok := FoldEdgeNode(arena, h, z);
      case Paths => ok := FoldPathPredicates(arena, h, z);
      case Clauses => ok := FoldClause(arena, h, z);
      case Mutations => ok := FoldMutation(arena, h, z);
    }
  }

  /** One edge pattern of a chain, then its target node. */
  method FoldEdgeNode(arena: QueryAstArena, e: Handle, ghost z: Zone) returns (ok: bool)
    requires Start(arena.View(), z) && Fits(arena.View(), Edges, e)
    requires Ready(arena.View(), Visits(arena.View(), Edges, e), z)
    modifies arena
    ensures Pass(old(arena.View()), arena.View(), z, Visits(old(arena.View()), Edges, e), ok)
    decreases Rk(arena.View(), e), 5
  {
    ghost var st := arena.View();
    var t := arena.nodes[e.index].targetNode;
    FitsParts(st, Edges, e);
    assert t in Handles(st.nodes[e.index]);
    OwnedKnown(st, e, t);
    assert Visits(st, Edges, e) == [e] + [t];
    ReadyParts(st, [e], [t], z);
    ok := FoldSlot(arena, e, z);
    if !ok {
      PassFailed(st, arena.View(), z, [e], [t]);
      return;
    }
    ghost var one := arena.View();
    NotChain(st, e);
    ElementReady(st, one, z, [e], Paths, t);
    ok := FoldPathPredicates(arena, t, z);
    TwoVisits(st, one, arena.View(), z, [e], [t], ok);
  }

  lemma NotChain(st: Store, e: Handle)
    requires Shaped(st) && NodeAt(st, e).EdgePattern?
    ensures Visits(st, Paths, Target(st, e)) == [Target(st, e)]
  {
    assert NodeShaped(st, st.nodes[e.index]);
  }

  /** `fold_path_predicates`. */
  method FoldPathPredicates(arena: QueryAstArena, h: Handle, ghost z: Zone) returns (ok: bool)
    requires Start(arena.View(), z) && Fits(arena.View(), Paths, h) && Known(arena.View(), h)
    requires Ready(arena.View(), Visits(arena.View(), Paths, h), z)
    modifies arena
    ensures Pass(old(arena.View()), arena.View(), z, Visits(old(arena.View()), Paths, h), ok)
    decreases Rk(arena.View(), h), 6
  {
    ghost var st := arena.View();
    if h.Null? {
      SlotNull(st, z);
      return false;
    }
    var n := arena.nodes[h.index];
    FitsParts(st, Paths, h);
    if n.NodePattern? {
      ok := FoldSlot(arena, h, z);
      return;
    }
    ghost var bound := st.rank[h.index];
    ghost var rest := AllVisits(st, Edges, n.edges);
    assert n.startNode in Handles(n);
    OwnedKnown(st, h, n.startNode);
    assert Visits(st, Paths, n.startNode) == [n.startNode];
    ReadyParts(st, [n.startNode], rest, z);
    ok := FoldPathPredicates(arena, n.startNode, z);
    if !ok {
      PassFailed(st, arena.View(), z, [n.startNode], rest);
      return;
    }
    ghost var one := arena.View();
    ListReady(st, one, z, [n.startNode], Edges, n.edges, h);
    ok := FoldEach(arena, Edges, n.edges, bound, z);
    TwoVisits(st, one, arena.View(), z, [n.startNode], rest, ok);
  }

  /** After a successful part of the pass, the next list is as it was found. */
  lemma ListReady(a: Store, b: Store, z: Zone, before: seq<Handle>, k: Listing, hs: seq<Handle>, owner: Handle)
    requires Wf(a) && Shaped(a) && Pass(a, b, z, before, true) && Ready(a, before + AllVisits(a, k, hs), z)
    requires owner.At? && owner.index < |a.nodes|
    requires forall h :: h in hs ==> Fits(a, k, h) && h in Handles(NodeAt(a, owner))
    ensures Start(b, z) && AllVisits(b, k, hs) == AllVisits(a, k, hs) && Ready(b, AllVisits(b, k, hs), z)
    ensures forall h :: h in hs ==> Fits(b, k, h) && Known(b, h) && Rk(b, h) <= a.rank[owner.index]
  {
    PassStart(a, b, z, before, true);
    AllVisitsLater(a, b, z, Feet(before), k, hs, owner);
    ReadyAfter(a, b, z, before, AllVisits(a, k, hs), true);
    forall h | h in hs ensures Fits(b, k, h) && Known(b, h) && Rk(b, h) <= a.rank[owner.index] {
      OwnedKnown(a, owner, h);
      FitsLater(a, b, z, Feet(before), k, h);
      RankKept(a, b, z, Feet(before), h);
    }
  }

  /** A list, then an optional single slot: the WHERE of a clause. */
  method FoldWhere(arena: QueryAstArena, o: Option<Handle>, ghost bound: nat, ghost z: Zone) returns (ok: bool)
    requires Start(arena.View(), z) && Ready(arena.View(), OptSeq(o), z)
    requires o.Some? ==> o.value.At? && Slot(arena.View(), o.value) && Rk(arena.View(), o.value) <= bound
    modifies arena
    ensures Pass(old(arena.View()), arena.View(), z, OptSeq(o), ok)
    decreases bound, 20
  {
    PassNothing(arena.View(), z);
    if o.None? { return true; }
    ok := FoldSlot(arena, o.value, z);
  }

  lemma WhereReady(a: Store, b: Store, z: Zone, before: seq<Handle>, o: Option<Handle>, owner: Handle)
    requires Wf(a) && Pass(a, b, z, before, true) && Ready(a, before + OptSeq(o), z)
    requires owner.At? && owner.index < |a.nodes|
    requires o.Some? ==> o.value in Handles(NodeAt(a, owner)) && Slot(a, o.value)
    ensures Start(b, z) && Ready(b, OptSeq(o), z)
    ensures o.Some? ==> Slot(b, o.value) && Rk(b, o.value) <= a.rank[owner.index]
  {
    PassStart(a, b, z, before, true);
    ReadyAfter(a, b, z, before, OptSeq(o), true);
    if o.Some? {
      OwnedKnown(a, owner, o.value);
      SlotLater(a, b, z, Feet(before), o.value);
    }
  }

  /** `fold_match_clause`, `fold_with_clause` and the single-expression clauses. */
  method FoldClause(arena: QueryAstArena, h: Handle, ghost z: Zone) returns (ok: bool)
    requires Start(arena.View(), z) && Fits(arena.View(), Clauses, h)
    requires Ready(arena.View(), Visits(arena.View(), Clauses, h), z)
    modifies arena
    ensures Pass(old(arena.View()), arena.View(), z, Visits(old(arena.View()), Clauses, h), ok)
    decreases Rk(arena.View(), h), 8
  {
    ghost var st := arena.View();
    var n := arena.nodes[h.index];
    FitsParts(st, Clauses, h);
    ghost var bound := st.rank[h.index];
    var filter := if n.MatchClause? then n.mwhere else if n.WithClause? then n.wwhere else None;
    ghost var first := if n.MatchClause? then AllVisits(st, Paths, n.paths) else [h];
    assert Visits(st, Clauses, h) == first + OptSeq(filter) by { assert [h] + [] == [h]; }
    ReadyParts(st, first, OptSeq(filter), z);
    assert filter.Some? ==> filter.value in Handles(n) && Slot(st, filter.value);
    hide Visits, AllVisits, Within, Closed, Shaped, Pass, Ready, Handles;
    ok := FoldBeforeWhere(arena, h, z);
    if !ok {
      PassFailed(st, arena.View(), z, first, OptSeq(filter));
      return;
    }
    ghost var one := arena.View();
    WhereReady(st, one, z, first, filter, h);
    ok := FoldWhere(arena, filter, bound, z);
    TwoVisits(st, one, arena.View(), z, first, OptSeq(filter), ok);
  }

  /** The part of a clause that comes before its WHERE. */
  method FoldBeforeWhere(arena: QueryAstArena, h: Handle, ghost z: Zone) returns (ok: bool)
    requires Start(arena.View(), z) && Fits(arena.View(), Clauses, h)
    requires var n := NodeAt(arena.View(), h);
      Ready(arena.View(), if n.MatchClause? then AllVisits(arena.View(), Paths, n.paths) else [h], z)
    modifies arena
    ensures var n := NodeAt(old(arena.View()), h);
      Pass(old(arena.View()), arena.View(), z,
           if n.MatchClause? then AllVisits(old(arena.View()), Paths, n.paths) else [h], ok)
    decreases Rk(arena.View(), h), 8, 0
  {
    ghost var st := arena.View();
    var n := arena.nodes[h.index];
    FitsParts(st, Clauses, h);
    ghost var bound := st.rank[h.index];
    PassNothing(st, z);
    assert n.MatchClause? ==> forall p :: p in n.paths ==> p in Handles(n);
    hide Visits, AllVisits, Within, Closed, Shaped, Pass, Ready, Handles;
    if n.MatchClause? {
      ghost var first := AllVisits(st, Paths, n.paths);
      assert [] + first == first;
      ListReady(st, st, z, [], Paths, n.paths, h);
      ok := FoldEach(arena, Paths, n.paths, bound, z);
    } else {
      ok := FoldSlot(arena, h, z);
    }
  }

  /** `optimize_mutation_clause`. */
  method FoldMutation(arena: QueryAstArena, h: Handle, ghost z: Zone) returns (ok: bool)
    requires Start(arena.View(), z) && Fits(arena.View(), Mutations, h)
    requires Ready(arena.View(), Visits(arena.View(), Mutations, h), z)
    modifies arena
    ensures Pass(old(arena.View()), arena.View(), z, Visits(old(arena.View()), Mutations, h), ok)
    decreases Rk(arena.View(), h), 9
  {
    ghost var st := arena.View();
    if h.Null? {
      SlotNull(st, z);
      return false;
    }
    var n := arena.nodes[h.index];
    ghost var bound := st.rank[h.index];
    FitsParts(st, Mutations, h);
    PassNothing(st, z);
    match n {
      case SetClause(ss) =>
        assert [] + AllVisits(st, Items, ss) == AllVisits(st, Items, ss);
        ListReady(st, st, z, [], Items, ss, h);
        ok := FoldEach(arena, Items, ss, bound, z);
      case CreateClause(ps) =>
        assert [] + AllVisits(st, Paths, ps) == AllVisits(st, Paths, ps);
        ListReady(st, st, z, [], Paths, ps, h);
        ok := FoldEach(arena, Paths, ps, bound, z);
      case MergeClause(_, _, _) =>
        ok := FoldMerge(arena, h, z);
      case _ =>
        return true;
    }
  }

  method FoldMerge(arena: QueryAstArena, h: Handle, ghost z: Zone) returns (ok: bool)
    requires Start(arena.View(), z) && Fits(arena.View(), Mutations, h) && NodeAt(arena.View(), h).MergeClause?
    requires Ready(arena.View(), Visits(arena.View(), Mutations, h), z)
    modifies arena
    ensures Pass(old(arena.View()), arena.View(), z, Visits(old(arena.View()), Mutations, h), ok)
    decreases Rk(arena.View(), h), 8
  {
    ghost var st := arena.View();
    var n := arena.nodes[h.index];
    ghost var bound := st.rank[h.index];
    FitsParts(st, Mutations, h);
    assert n.mpath in Handles(n);
    OwnedKnown(st, h, n.mpath);
    ghost var p, c, m := Visits(st, Paths, n.mpath), AllVisits(st, Items, n.onCreate), AllVisits(st, Items, n.onMatch);
    ReadyParts(st, p, c + m, z);
    hide Visits, AllVisits, Within, Closed, Shaped, Pass, Ready;
    ok := FoldPathPredicates(arena, n.mpath, z);
    if !ok {
      PassFailed(st, arena.View(), z, p, c + m);
      return;
    }
    ghost var one := arena.View();
    assert p + (c + m) == (p + c) + m;
    ReadyParts(st, p + c, m, z);
    ListReady(st, one, z, p, Items, n.onCreate, h);
    ok := FoldEach(arena, Items, n.onCreate, bound, z);
    ghost var two := arena.View();
    TwoVisits(st, one, two, z, p, c, ok);
    if !ok {
      PassFailed(st, two, z, p + c, m);
      return;
    }
    ListReady(st, two, z, p + c, Items, n.onMatch, h);
    ok := FoldEach(arena, Items, n.onMatch, bound, z);
    TwoVisits(st, two, arena.View(), z, p + c, m, ok);
  }

  // ---------- Statements and subqueries ----------

  /** One list of the statement, after the slots `before` have been visited. */
  method FoldStage(arena: QueryAstArena, k: Listing, hs: seq<Handle>, ghost st: Store, ghost before: seq<Handle>,
                   ghost owner: Handle, ghost z: Zone) returns (ok: bool)
    requires Wf(st) && Shaped(st) && Pass(st, arena.View(), z, before, true)
    requires Ready(st, before + AllVisits(st, k, hs), z)
    requires owner.At? && owner.index < |st.nodes|
    requires forall h :: h in hs ==> Fits(st, k, h) && h in Handles(NodeAt(st, owner))
    modifies arena
    ensures Pass(st, arena.View(), z, before + AllVisits(st, k, hs), ok)
    decreases st.rank[owner.index], 30
  {
    ghost var one := arena.View();
    ListReady(st, one, z, before, k, hs, owner);
    hide Visits, AllVisits, Within, Closed, Shaped, Pass, Ready, Handles;
    ok := FoldEach(arena, k, hs, st.rank[owner.index], z);
    TwoVisits(st, one, arena.View(), z, before, AllVisits(st, k, hs), ok);
  }

  method FoldSingle(arena: QueryAstArena, o: Option<Handle>, ghost st: Store, ghost before: seq<Handle>,
                    ghost owner: Handle, ghost z: Zone) returns (ok: bool)
    requires Wf(st) && Pass(st, arena.View(), z, before, true)
    requires Ready(st, before + OptSeq(o), z)
    requires owner.At? && owner.index < |st.nodes|
    requires o.Some? ==> o.value.At? && o.value in Handles(NodeAt(st, owner)) && Slot(st, o.value)
    modifies arena
    ensures Pass(st, arena.View(), z, before + OptSeq(o), ok)
    decreases st.rank[owner.index], 30
  {
    ghost var one := arena.View();
    WhereReady(st, one, z, before, o, owner);
    hide Visits, AllVisits, Within, Closed, Shaped, Pass, Ready, Handles;
    ok := FoldWhere(arena, o, st.rank[owner.index], z);
    TwoVisits(st, one, arena.View(), z, before, OptSeq(o), ok);
  }

  /** `fold_all_expressions`; a root that is not a statement is left alone. */
  method FoldAllExpressions(arena: QueryAstArena, root: Handle, ghost z: Zone) returns (ok: bool)
    requires Start(arena.View(), z) && NodeAt(arena.View(), root).QueryStatement?
    requires Ready(arena.View(), StatementVisits(arena.View(), root), z)
    modifies arena
    ensures Pass(old(arena.View()), arena.View(), z, StatementVisits(old(arena.View()), root), ok)
    decreases Rk(arena.View(), root), 40
  {
    hide Visits, AllVisits, StatementVisits, Within, Closed, Shaped, Pass, Ready, Handles, Wf, Fits;
    ghost var st := arena.View();
    var n := arena.nodes[root.index];
    Ranked(st);
    StatementParts(st, root);
    MutationSlots(st, root);
    PassNothing(st, z);
    ghost var v1 := [] + OptSeq(n.loadCsv);
    ghost var v2 := v1 + AllVisits(st, Clauses, n.unwinds);
    ghost var v3 := v2 + AllVisits(st, Clauses, n.matches);
    ghost var v4 := v3 + AllVisits(st, Clauses, n.withs);
    ghost var v5 := v4 + AllVisits(st, Clauses, n.linear);
    ghost var v6 := v5 + AllVisits(st, Mutations, n.mutations);
    ghost var all := v6 + OptSeq(n.resultClause);
    StatementOrder(st, root);
    ReadyPrefix(st, v6, all, z);
    ReadyPrefix(st, v5, v6, z);
    ReadyPrefix(st, v4, v5, z);
    ReadyPrefix(st, v3, v4, z);
    ReadyPrefix(st, v2, v3, z);
    ReadyPrefix(st, v1, v2, z);
    ok := FoldSingle(arena, n.loadCsv, st, [], root, z);
    if !ok { PassFailedPrefix(st, arena.View(), z, v1, all); return; }
    ok := FoldStage(arena, Clauses, n.unwinds, st, v1, root, z);
    if !ok { PassFailedPrefix(st, arena.View(), z, v2, all); return; }
    ok := FoldStage(arena, Clauses, n.matches, st, v2, root, z);
    if !ok { PassFailedPrefix(st, arena.View(), z, v3, all); return; }
    ok := FoldStage(arena, Clauses, n.withs, st, v3, root, z);
    if !ok { PassFailedPrefix(st, arena.View(), z, v4, all); return; }
    ok := FoldStage(arena, Clauses, n.linear, st, v4, root, z);
    if !ok { PassFailedPrefix(st, arena.View(), z, v5, all); return; }
    ok := FoldStage(arena, Mutations, n.mutations, st, v5, root, z);
    if !ok { PassFailedPrefix(st, arena.View(), z, v6, all); return; }
    ok := FoldSingle(arena, n.resultClause, st, v6, root, z);
  }

  lemma StatementOrder(st: Store, root: Handle)
    requires NodeAt(st, root).QueryStatement?
    ensures var n := NodeAt(st, root);
      StatementVisits(st, root) == [] + OptSeq(n.loadCsv) + AllVisits(st, Clauses, n.unwinds)
      + AllVisits(st, Clauses, n.matches)
        + AllVisits(st, Clauses, n.withs) + AllVisits(st, Clauses, n.linear) + AllVisits(st, Mutations, n.mutations)
        + OptSeq(n.resultClause)
  {
    assert [] + OptSeq(NodeAt(st, root).loadCsv) == OptSeq(NodeAt(st, root).loadCsv);
  }

  /** Slots inside the zone: a pass over them stays in the zone. */
  lemma PassInZone(a: Store, b: Store, z: Zone, vs: seq<Handle>, ok: bool)
    requires Wf(a) && Pass(a, b, z, vs, ok) && forall h :: h in vs ==> InZone(z, h)
    ensures Within(a, b, z, {}) && Shaped(b)
  {
  }

  lemma ZoneReady(st: Store, z: Zone, vs: seq<Handle>)
    requires Start(st, z) && forall h :: h in vs ==> InZone(z, h) && Known(st, h)
    ensures Ready(st, vs, z)
  {
    forall h | h in vs ensures Known(st, h) && ExprsIn(NodeAt(st, h), z) {
      if h.At? { HandlesSplit(st.nodes[h.index]); }
    }
  }

  /** `fold_subquery`: a statement, a MATCH clause or a path, folded in place. */
  method FoldSubquery(arena: QueryAstArena, q: Handle, ghost z: Zone) returns (ok: bool)
    requires Start(arena.View(), z) && InZone(z, q) && Known(arena.View(), q)
    modifies arena
    ensures q.Null? ==> !ok && arena.View() == old(arena.View())
    ensures q.At? ==> Pass(old(arena.View()), arena.View(), z, SubVisits(old(arena.View()), q), ok)
    decreases Rk(arena.View(), q), 50
  {
    ghost var st := arena.View();
    if q.Null? { return false; }
    var n := arena.nodes[q.index];
    PassNothing(st, z);
    SubVisitsIn(st, z, q);
    ZoneReady(st, z, SubVisits(st, q));
    hide Visits, AllVisits, StatementVisits, Within, Closed, Shaped, Pass, Ready, Wf;
    if n.QueryStatement? {
      ok := FoldAllExpressions(arena, q, z);
    } else if n.MatchClause? {
      ok := FoldClause(arena, q, z);
    } else if n.PathChain? || n.NodePattern? {
      ok := FoldPathPredicates(arena, q, z);
    } else {
      ok := true;
    }
  }

  method FoldSubqueryNode(arena: QueryAstArena, h: Handle, ghost z: Zone) returns (r: Result<Handle>)
    requires Present(arena.View(), h, z)
    requires arena.nodes[h.index].ExistsSubquery? || arena.nodes[h.index].CountSubquery?
    modifies arena
    ensures Folded(old(arena.View()), arena.View(), h, r, z)
    decreases Rk(arena.View(), h), 4
  {
    ghost var st := arena.View();
    var n := arena.nodes[h.index];
    var q := if n.ExistsSubquery? then n.esub else n.csub;
    assert q in Handles(n);
    ChildReady(st, h, q, z);
    assert TreeOf(st, h) == ESub(n.CountSubquery?, q) && Fold(TreeOf(st, h)) == TreeOf(st, h);
    LeftAlone(st, z, h);
    hide Within, Closed, Shaped, Pass, Wf, Worked, Gaps, TreeOf;
    var ok := FoldSubquery(arena, q, z);
    if q.Null? {
      NullGap(st, q);
      SubqueryGap(st, h, q);
      return Err("Invalid node handle");
    }
    SubqueryWorked(st, arena.View(), z, h, q, ok);
    OperandLater(st, arena.View(), h, Rk(st, h), z, {});
    return if ok then Ok(h) else Err("Invalid node handle");
  }

  lemma NullGap(st: Store, q: Handle)
    requires Wf(st) && q.Null?
    ensures SubGap(st, q)
  {
  }

  lemma SubqueryGap(st: Store, h: Handle, q: Handle)
    requires Wf(st) && TreeOf(st, h).ESub? && TreeOf(st, h).query == q && SubGap(st, q)
    ensures Gaps(st, [h])
  {
    hide SubGap, TreeOf;
    assert TreesOf(st, [h]) == [TreeOf(st, h)];
    WeightOne(TreeOf(st, h), _ => 0);
    assert Nested(q) in Names(TreeOf(st, h));
  }

  /** The work on a subquery node is the pass over the slots of the subquery. */
  lemma SubqueryWorked(a: Store, b: Store, z: Zone, h: Handle, q: Handle, ok: bool)
    requires Start(a, z) && InZone(z, q) && Known(a, q) && q.At? && TreeOf(a, h).ESub? && TreeOf(a, h).query == q
    requires Pass(a, b, z, SubVisits(a, q), ok)
    ensures Worked(a, b, z, [h]) && Within(a, b, z, {}) && (!ok ==> Gaps(a, [h]))
  {
    hide Within, Shaped, Refolded, SubTimes, TreeOf, Holed, SubGap, SubVisits, SlotsTimes, Gaps, Wf, Closed;
    var vs := SubVisits(a, q);
    SubVisitsIn(a, z, q);
    PassInZone(a, b, z, vs, ok);
    WithinClosed(a, b, z, {});
    assert TreesOf(a, [h]) == [TreeOf(a, h)];
    forall s | Known(a, s) ensures UpTo(a, b, s, Times(a, TreesOf(a, [h]), s)) {
      SubTimesSum(a, q, s);
      WeightOne(TreeOf(a, h), Load(a, s));
      assert Between(a, b, s, if ok && s in vs then 1 else 0, SlotsTimes(a, vs, s));
    }
    if !ok {
      SubGapIff(a, q);
      SubqueryGap(a, h, q);
    }
  }
}
