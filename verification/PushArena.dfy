/**
 Predicate pushdown in the arena: hoists append to node patterns in place, the WHERE clause
 that is left over is rebuilt, and the arena stays closed and acyclic.
 */
module PushArena {
  import opened Common
  import opened Ast
  import opened Trees
  import opened Clauses
  import opened FoldingLimits
  import opened FoldArena
  import opened Visiting
  import opened FoldPass
  import opened Pushdown

  // ---------- Reading the arena ----------

  /** The predicate a handle stands for, a WHERE node being looked through. */
  function Condition(st: Store, h: Handle): Handle {
    if NodeAt(st, h).WhereClause? then NodeAt(st, h).rootPredicate else h
  }

  /** A conjunct is an expression or missing; it is no clause or pattern node. */
  ghost predicate Upright(es: seq<Expr>) {
    forall e :: e in es && e.EOther? ==> e.handle.Null?
  }

  ghost predicate AllOperands(st: Store, hs: seq<Handle>, z: Zone) {
    forall k :: 0 <= k < |hs| ==> Known(st, hs[k]) && InZone(z, hs[k])
  }

  lemma TreesConcat(st: Store, a: seq<Handle>, b: seq<Handle>)
    requires Wf(st)
    ensures TreesOf(st, a + b) == TreesOf(st, a) + TreesOf(st, b)
  {
  }

  /** `collect_conjuncts`. */
  method CollectConjuncts(arena: QueryAstArena, h: Handle, acc: seq<Handle>, ghost z: Zone)
    returns (r: Result<seq<Handle>>)
    requires arena.Valid() && Closed(arena.View(), z) && Known(arena.View(), h)
    requires Known(arena.View(), Condition(arena.View(), h)) && InZone(z, Condition(arena.View(), h))
    requires AllOperands(arena.View(), acc, z)
    requires Upright(Conjuncts(TreeOf(arena.View(), Condition(arena.View(), h))))
    ensures r.Ok? ==> AllOperands(arena.View(), r.value, z)
    ensures var want := Conjuncts(TreeOf(arena.View(), Condition(arena.View(), h)));
      if EOther(Null) in want then r.Err?
      else r.Ok? && TreesOf(arena.View(), r.value) == TreesOf(arena.View(), acc) + want
    decreases Rk(arena.View(), h)
  {
    hide Wf, Closed, TreeOf, Handles, Upright, AllOperands;
    ghost var st := arena.View();
    var got := arena.Get(h);
    NodeShape(st, h);
    if got.Err? {
      assert Conjuncts(EOther(Null)) == [EOther(Null)];
      return Err(got.error);
    }
    var n := got.value;
    ConditionParts(st, h, z);
    FoundTree(st, h);
    if n.BinaryExpression? && n.bop == And {
      assert Conjuncts(TreeOf(st, h)) == Conjuncts(TreeOf(st, n.left)) + Conjuncts(TreeOf(st, n.right));
      r := CollectConjuncts(arena, n.left, acc, z);
      if r.Ok? {
        r := CollectConjuncts(arena, n.right, r.value, z);
      }
    } else if n.WhereClause? {
      r := CollectConjuncts(arena, n.rootPredicate, acc, z);
    } else {
      assert AllOperands(st, acc + [h], z) by { Appended(st, acc, h, z); }
      if n == LiteralNode(LBool(true)) {
        assert TreesOf(st, acc) + [] == TreesOf(st, acc);
        return Ok(acc);
      }
      TreesConcat(st, acc, [h]);
      assert TreesOf(st, [h]) == [TreeOf(st, h)];
      return Ok(acc + [h]);
    }
  }

  lemma Appended(st: Store, acc: seq<Handle>, h: Handle, z: Zone)
    requires AllOperands(st, acc, z) && Known(st, h) && InZone(z, h)
    ensures AllOperands(st, acc + [h], z)
  {
  }

  /** What the recursive calls of `CollectConjuncts` rely on. */
  lemma ConditionParts(st: Store, h: Handle, z: Zone)
    requires Wf(st) && Closed(st, z) && h.At? && h.index < |st.nodes| && InZone(z, Condition(st, h))
    requires Upright(Conjuncts(TreeOf(st, Condition(st, h))))
    ensures var n := st.nodes[h.index];
      && (n.BinaryExpression? && n.bop == And ==>
            SpinePart(st, h, n.left, z) && SpinePart(st, h, n.right, z))
      && (n.WhereClause? ==> SpinePart(st, h, n.rootPredicate, z))
      && (!n.WhereClause? && !IsExpression(n) ==> TreeOf(st, h) == EOther(h))
  {
    var n := st.nodes[h.index];
    assert NodeLow(st, n, st.rank[h.index]);
    var all := Conjuncts(TreeOf(st, Condition(st, h)));
    if n.BinaryExpression? && n.bop == And {
      assert n.left in Handles(n) && n.right in Handles(n);
      assert all == Conjuncts(TreeOf(st, n.left)) + Conjuncts(TreeOf(st, n.right));
      SpineUpright(st, n.left, all);
      SpineUpright(st, n.right, all);
    } else if n.WhereClause? {
      assert n.rootPredicate in Handles(n);
      SpineUpright(st, n.rootPredicate, all);
    }
  }

  ghost predicate SpinePart(st: Store, h: Handle, c: Handle, z: Zone)
    requires Wf(st)
  {
    && Known(st, c) && InZone(z, c) && Rk(st, c) < Rk(st, h) && Condition(st, c) == c
    && Upright(Conjuncts(TreeOf(st, c)))
  }

  /** A subtree whose conjuncts are upright is not rooted at a WHERE node. */
  lemma SpineUpright(st: Store, h: Handle, all: seq<Expr>)
    requires Wf(st) && Known(st, h) && Upright(all)
    requires forall e :: e in Conjuncts(TreeOf(st, h)) ==> e in all
    ensures Condition(st, h) == h && Upright(Conjuncts(TreeOf(st, h)))
  {
    WhereTree(st, h);
  }

  lemma WhereTree(st: Store, h: Handle)
    requires Wf(st)
    ensures NodeAt(st, h).WhereClause? ==> Conjuncts(TreeOf(st, h)) == [EOther(h)] && EOther(h) in [EOther(h)]
  {
  }

  /** `is_constant_expression`. */
  method IsConstantExpression(arena: QueryAstArena, h: Handle) returns (r: Result<bool>)
    requires arena.Valid() && Known(arena.View(), h)
    ensures r.Ok? ==> (r.value <==> IsConstant(TreeOf(arena.View(), h)))
    ensures r.Err? ==> Hole in Names(TreeOf(arena.View(), h))
    decreases Rk(arena.View(), h), 1
  {
    hide Wf, TreeOf, IsConstant;
    ghost var st := arena.View();
    var got := arena.Get(h);
    if got.Err? {
      NodeShape(st, h);
      return Err(got.error);
    }
    var n := got.value;
    NodeLower(st, h);
    ConstantParts(st, h);
    match n {
      case LiteralNode(_) => return Ok(true);
      case Parameter(_) => return Ok(true);
      case FunctionCall(_, args) =>
        assert forall k :: 0 <= k < |args| ==> args[k] in Handles(n);
        r := AllConstant(arena, args, st.rank[h.index]);
      case ListLiteral(es) =>
        assert forall k :: 0 <= k < |es| ==> es[k] in Handles(n);
        r := AllConstant(arena, es, st.rank[h.index]);
      case UnaryExpression(_, e) =>
        assert e in Handles(n);
        r := IsConstantExpression(arena, e);
      case _ => return Ok(false);
    }
  }

  /** Which nodes are constant, and what a failure below them means. */
  lemma ConstantParts(st: Store, h: Handle)
    requires Wf(st) && h.At? && h.index < |st.nodes|
    ensures ConstantAs(st, st.nodes[h.index], TreeOf(st, h))
  {
    TreeParts(st, h);
  }

  ghost predicate ConstantAs(st: Store, n: AstNode, t: Expr)
    requires Wf(st)
  {
    if n.LiteralNode? || n.Parameter? then IsConstant(t)
    else if n.UnaryExpression? then
      (IsConstant(t) <==> IsConstant(TreeOf(st, n.operand))) && Names(TreeOf(st, n.operand)) <= Names(t)
    else if n.FunctionCall? then ConstantList(st, t, n.arguments)
    else if n.ListLiteral? then ConstantList(st, t, n.elements)
    else !IsConstant(t)
  }

  ghost predicate ConstantList(st: Store, t: Expr, hs: seq<Handle>)
    requires Wf(st)
  {
    && (IsConstant(t) <==> forall k :: 0 <= k < |hs| ==> IsConstant(TreesOf(st, hs)[k]))
    && NamesAll(TreesOf(st, hs)) <= Names(t)
  }

  lemma NodeLower(st: Store, h: Handle)
    requires Wf(st) && h.At? && h.index < |st.nodes|
    ensures |st.rank| == |st.nodes| && NodeLow(st, st.nodes[h.index], st.rank[h.index])
  {
  }

  method AllConstant(arena: QueryAstArena, hs: seq<Handle>, ghost bound: nat) returns (r: Result<bool>)
    requires arena.Valid()
    requires forall k :: 0 <= k < |hs| ==> Known(arena.View(), hs[k]) && Rk(arena.View(), hs[k]) <= bound
    ensures r.Ok? ==> (r.value <==> forall k :: 0 <= k < |hs| ==> IsConstant(TreesOf(arena.View(), hs)[k]))
    ensures r.Err? ==> Hole in NamesAll(TreesOf(arena.View(), hs))
    decreases bound, 2
  {
    for k := 0 to |hs|
      invariant forall j :: 0 <= j < k ==> IsConstant(TreesOf(arena.View(), hs)[j])
    {
      NamesMember(TreesOf(arena.View(), hs), k);
      var one := IsConstantExpression(arena, hs[k]);
      if one.Err? || !one.value { return one; }
    }
    return Ok(true);
  }

  /** A property is read off an identifier, as the builder makes it, or off a missing handle. */
  predicate Resolved(e: Expr) {
    e.EBin? && e.op == Eq ==> OnVariable(e.left) && OnVariable(e.right)
  }

  predicate OnVariable(e: Expr) {
    e.EProp? && e.target.EOther? ==> e.target.handle.Null?
  }

  /** The name behind a property target: an identifier, or a node pattern with an alias. */
  function TargetName(st: Store, e: Expr): Option<string> {
    if e.EOther? && NodeAt(st, e.handle).NodePattern? then NodeAt(st, e.handle).nvar else VariableName(e)
  }

  function HoistName(st: Store, e: Expr): Option<string> {
    if !e.EBin? || e.op != Eq then None
    else if e.left.EProp? && IsConstant(e.right) then TargetName(st, e.left.target)
    else if e.right.EProp? && IsConstant(e.left) then TargetName(st, e.right.target)
    else None
  }

  lemma FoundTree(st: Store, h: Handle)
    requires Wf(st) && Known(st, h) && h.At?
    ensures TreeOf(st, h) != EOther(Null)
  {
  }

  /** `resolve_variable_name`: an identifier, or the alias of a node pattern. */
  method ResolveVariableName(arena: QueryAstArena, h: Handle) returns (r: Result<Option<string>>)
    ensures r.Err? <==> h.Null? || h.index >= |arena.nodes|
    ensures r.Ok? ==> r.value == match arena.nodes[h.index]
      case Identifier(x) => Some(x)
      case NodePattern(x, _, _) => x
      case _ => None
  {
    var got := arena.Get(h);
    if got.Err? { return Err(got.error); }
    match got.value {
      case Identifier(x) => return Ok(Some(x));
      case NodePattern(x, _, _) => return Ok(x);
      case _ => return Ok(None);
    }
  }

  /** `extract_single_node_equality_var`. */
  method ExtractVariable(arena: QueryAstArena, h: Handle) returns (r: Result<Option<string>>)
    requires arena.Valid() && Known(arena.View(), h)
    ensures r.Ok? ==> r.value == HoistName(arena.View(), TreeOf(arena.View(), h))
    ensures r.Ok? && Resolved(TreeOf(arena.View(), h)) ==> r.value == HoistVar(TreeOf(arena.View(), h))
    ensures r.Err? ==> Hole in Names(TreeOf(arena.View(), h))
  {
    ghost var st := arena.View();
    var got := arena.Get(h);
    if got.Err? { return Err(got.error); }
    var n := got.value;
    NodeShape(st, h);
    if n.BinaryExpression? && n.bop == Eq {
      assert NodeLow(st, n, st.rank[h.index]);
      assert n.left in Handles(n) && n.right in Handles(n);
      assert Names(TreeOf(st, h)) == Names(TreeOf(st, n.left)) + Names(TreeOf(st, n.right));
      assert Names(EOther(Null)) == {Hole};
      hide Wf, IsConstant, Names, NodeLow;
      var left := arena.Get(n.left);
      if left.Err? { return Err(left.error); }
      var right := arena.Get(n.right);
      if right.Err? { return Err(right.error); }
      var one := PropertyVariable(arena, n.left, n.right);
      if one.Err? { return Err(one.error); }
      if one.value.Some? { return Ok(one.value.value); }
      var two := PropertyVariable(arena, n.right, n.left);
      if two.Err? { return Err(two.error); }
      if two.value.Some? { return Ok(two.value.value); }
    }
    return Ok(None);
  }

  /** One side of an equality: the variable whose property is compared, if the other side is constant. */
  method PropertyVariable(arena: QueryAstArena, side: Handle, other: Handle) returns (r: Result<Option<Option<string>>>)
    requires arena.Valid() && side.At? && Known(arena.View(), side) && Known(arena.View(), other)
    ensures var e, c := TreeOf(arena.View(), side), TreeOf(arena.View(), other);
      && (r.Ok? ==> r.value == if e.EProp? && IsConstant(c) then Some(TargetName(arena.View(), e.target)) else None)
      && (r.Err? ==> Hole in Names(e) + Names(c))
  {
    ghost var st := arena.View();
    PropertyTree(st, side);
    assert Names(EOther(Null)) == {Hole};
    hide TreeOf, Wf, IsConstant;
    var n := arena.nodes[side.index];
    if !n.PropertyAccess? { return Ok(None); }
    var constant := IsConstantExpression(arena, other);
    if constant.Err? { return Err(constant.error); }
    if !constant.value { return Ok(None); }
    var name := ResolveVariableName(arena, n.target);
    if name.Err? { return Err(name.error); }
    return Ok(Some(name.value));
  }

  lemma PropertyTree(st: Store, h: Handle)
    requires Wf(st) && h.At? && h.index < |st.nodes|
    ensures var n := st.nodes[h.index];
      && (n.PropertyAccess? <==> TreeOf(st, h).EProp?)
      && (n.PropertyAccess? ==>
            && Known(st, n.target)
            && TreeOf(st, h) == EProp(TreeOf(st, n.target), n.property)
            && (n.target.Null? <==> TreeOf(st, n.target) == EOther(Null))
            && (n.target.At? && st.nodes[n.target.index].NodePattern? ==> TreeOf(st, n.target) == EOther(n.target))
            && (n.target.At? && st.nodes[n.target.index].Identifier? ==>
                  TreeOf(st, n.target) == EIdent(st.nodes[n.target.index].ident))
            && (n.target.At? && !st.nodes[n.target.index].Identifier? ==> !TreeOf(st, n.target).EIdent?))
  {
    var n := st.nodes[h.index];
    assert NodeLow(st, n, st.rank[h.index]);
    if n.PropertyAccess? { assert n.target in Handles(n); }
  }

  // ---------- Overwriting nodes outside the zone ----------

  function Top(rank: seq<nat>): (t: nat)
    ensures forall i :: 0 <= i < |rank| ==> rank[i] < t
  {
    if rank == [] then 0
    else
      var t := Top(rank[1..]);
      assert forall i :: 1 <= i < |rank| ==> rank[i] == rank[1..][i - 1];
      if rank[0] < t then t else rank[0] + 1
  }

  /** New ranks that put every node outside the zone above every node inside it. */
  ghost function Lifted(st: Store, z: Zone): Store {
    Store(st.nodes, seq(|st.rank|, i requires 0 <= i < |st.rank| =>
      if InZone(z, At(i)) then st.rank[i] else st.rank[i] + Top(st.rank)))
  }

  lemma LiftedWf(st: Store, z: Zone)
    requires Wf(st) && Closed(st, z)
    ensures Wf(Lifted(st, z)) && Closed(Lifted(st, z), z)
    ensures forall h, i :: Known(st, h) && InZone(z, h) && 0 <= i < |st.rank| && !InZone(z, At(i)) ==>
      Low(Lifted(st, z), h, Lifted(st, z).rank[i])
  {
    var b := Lifted(st, z);
    forall i | 0 <= i < |b.nodes| ensures NodeLow(b, b.nodes[i], b.rank[i]) {
      assert NodeLow(st, st.nodes[i], st.rank[i]);
    }
  }

  /** An in-place update of a node outside the zone: new handles may only lead into the zone. */
  method Overwrite(arena: QueryAstArena, h: Handle, node: AstNode, ghost z: Zone)
    requires arena.Valid() && Closed(arena.View(), z)
    requires h.At? && h.index < |arena.nodes| && !InZone(z, h)
    requires !IsExpression(arena.nodes[h.index]) && !IsExpression(node)
    requires forall c :: c in Handles(node) ==>
      c in Handles(arena.nodes[h.index]) || (InZone(z, c) && Known(arena.View(), c))
    modifies arena
    ensures arena.Valid() && Closed(arena.View(), z) && Grows(old(arena.View()), arena.View())
    ensures arena.nodes == old(arena.nodes)[h.index := node]
  {
    ghost var a := arena.View();
    LiftedWf(a, z);
    arena.rank := Lifted(a, z).rank;
    assert NodeLow(arena.View(), arena.nodes[h.index], arena.rank[h.index]);
    arena.Update(h, node);
  }

  // ---------- What pushdown may change ----------

  predicate NewFilter(o: Option<Handle>, z: Zone) {
    o.Some? ==> o.value.At? && o.value.index >= z.start
  }

  /** A node pattern may gain predicates, a MATCH clause another filter; neither lies in the zone. */
  ghost predicate NodeEdited(x: AstNode, y: AstNode, z: Zone) {
    || x == y
    || (x.NodePattern? && y.NodePattern? && y.nvar == x.nvar && y.nlabel == x.nlabel
        && forall c :: c in y.npreds ==> c in x.npreds || InZone(z, c))
    || (x.MatchClause? && y.MatchClause? && y.optional == x.optional && y.paths == x.paths
        && (y.mwhere == x.mwhere || NewFilter(y.mwhere, z)))
  }

  ghost predicate Edited(a: Store, b: Store, z: Zone) {
    && Wf(a) && Wf(b) && Grows(a, b) && Closed(a, z) && Closed(b, z) && Shaped(a) && Shaped(b)
    && forall i {:trigger b.nodes[i]} :: 0 <= i < |a.nodes| ==>
         NodeEdited(a.nodes[i], b.nodes[i], z) && (InZone(z, At(i)) ==> b.nodes[i] == a.nodes[i])
  }

  lemma EditedTransitive(a: Store, b: Store, c: Store, z: Zone)
    requires Edited(a, b, z) && Edited(b, c, z)
    ensures Edited(a, c, z)
  {
    GrowsTransitive(a, b, c);
    forall i | 0 <= i < |a.nodes|
      ensures NodeEdited(a.nodes[i], c.nodes[i], z) && (InZone(z, At(i)) ==> c.nodes[i] == a.nodes[i])
    {
      assert b.nodes[i] == b.nodes[i];
    }
  }

  lemma EditedSame(a: Store, z: Zone)
    requires Wf(a) && Closed(a, z) && Shaped(a)
    ensures Edited(a, a, z)
  {
  }

  /** Kinds survive, so shapes do. */
  lemma EditedKinds(a: Store, b: Store, z: Zone)
    requires |a.nodes| <= |b.nodes|
    requires forall i {:trigger b.nodes[i]} :: 0 <= i < |a.nodes| ==> NodeEdited(a.nodes[i], b.nodes[i], z)
    ensures SameKinds(a, b)
  {
    forall h: Handle | h.At? && Known(a, h) ensures SameKind(NodeAt(b, h), NodeAt(a, h)) {
      assert NodeEdited(a.nodes[h.index], b.nodes[h.index], z);
    }
  }

  lemma ShapedEdited(a: Store, b: Store, z: Zone)
    requires Shaped(a) && |a.nodes| <= |b.nodes|
    requires forall i {:trigger b.nodes[i]} :: 0 <= i < |a.nodes| ==> NodeEdited(a.nodes[i], b.nodes[i], z)
    requires forall i {:trigger b.nodes[i]} :: |a.nodes| <= i < |b.nodes| ==>
      IsExpression(b.nodes[i]) || b.nodes[i].WhereClause?
    requires forall i {:trigger b.nodes[i]} :: 0 <= i < |a.nodes| && b.nodes[i].MatchClause? ==>
      b.nodes[i] == a.nodes[i] || IsWhere(b, b.nodes[i].mwhere)
    ensures Shaped(b)
  {
    EditedKinds(a, b, z);
    forall i | 0 <= i < |b.nodes| ensures NodeShaped(b, b.nodes[i]) {
      if i < |a.nodes| {
        assert NodeEdited(a.nodes[i], b.nodes[i], z);
        NodeShapedLater(a, b, a.nodes[i]);
      }
    }
  }

  // ---------- Frames ----------

  /** The node patterns of a path, in the order the hoist looks at them. */
  function NodesIn(st: Store, h: Handle): seq<Handle> {
    var n := NodeAt(st, h);
    if n.PathChain? then [n.startNode] + Targets(st, n.edges) else [h]
  }

  function Targets(st: Store, es: seq<Handle>): seq<Handle> {
    seq(|es|, k requires 0 <= k < |es| => Target(st, es[k]))
  }

  predicate IsPath(st: Store, h: Handle) {
    NodeAt(st, h).NodePattern? || NodeAt(st, h).PathChain?
  }

  lemma NodeFrame(a: Store, b: Store, z: Zone, h: Handle)
    requires Edited(a, b, z) && Known(a, h) && NodeAt(b, h) == NodeAt(a, h)
    ensures NodeOf(b, h) == NodeOf(a, h)
  {
    if NodeAt(a, h).NodePattern? { NodePredsFrame(a, b, z, h); }
  }

  lemma NodePredsFrame(a: Store, b: Store, z: Zone, h: Handle)
    requires Edited(a, b, z) && NodeAt(a, h).NodePattern?
    ensures TreesOf(b, NodeAt(a, h).npreds) == TreesOf(a, NodeAt(a, h).npreds)
  {
    KnownExprs(a, h);
    assert ExprList(NodeAt(a, h)) == NodeAt(a, h).npreds;
    TreesFrame(a, b, NodeAt(a, h).npreds);
  }

  lemma EdgeFrame(a: Store, b: Store, z: Zone, e: Handle)
    requires Edited(a, b, z) && NodeAt(a, e).EdgePattern?
    ensures Target(b, e) == Target(a, e) && Known(a, Target(a, e))
    ensures EdgeOf(b, e) == EdgeOf(a, e).(target := NodeOf(b, Target(a, e)))
  {
    assert b.nodes[e.index] == a.nodes[e.index];
    KnownExprs(a, e);
    assert ExprList(NodeAt(a, e)) == NodeAt(a, e).epreds;
    TreesFrame(a, b, NodeAt(a, e).epreds);
    assert NodeLow(a, a.nodes[e.index], a.rank[e.index]);
    assert Target(a, e) in Handles(a.nodes[e.index]);
  }

  lemma PathParts(st: Store, h: Handle)
    requires Wf(st) && Shaped(st) && IsPath(st, h)
    ensures var n := NodeAt(st, h);
      && Known(st, h)
      && (forall c :: c in NodesIn(st, h) ==> Known(st, c) && (c.At? ==> NodeAt(st, c).NodePattern?))
      && (n.PathChain? ==> Known(st, n.startNode) && Rk(st, n.startNode) < Rk(st, h))
      && (n.PathChain? ==> forall k :: 0 <= k < |n.edges| ==>
            NodeAt(st, n.edges[k]).EdgePattern? && Rk(st, Target(st, n.edges[k])) < Rk(st, h))
  {
    var n := NodeAt(st, h);
    if n.PathChain? {
      assert NodeShaped(st, st.nodes[h.index]) && NodeLow(st, n, st.rank[h.index]);
      assert n.startNode in Handles(n);
      forall k | 0 <= k < |n.edges|
        ensures NodeAt(st, n.edges[k]).EdgePattern? && Rk(st, Target(st, n.edges[k])) < Rk(st, h)
        ensures Known(st, Target(st, n.edges[k]))
          && (Target(st, n.edges[k]).At? ==> NodeAt(st, Target(st, n.edges[k])).NodePattern?)
      {
        var e := n.edges[k];
        assert e in Handles(n) && NodeAt(st, e).EdgePattern?;
        var m := st.nodes[e.index];
        assert NodeShaped(st, m) && NodeLow(st, m, st.rank[e.index]) && m.targetNode in Handles(m);
      }
    }
  }

  /** A path none of whose node patterns changed denotes what it did. */
  lemma PathFrame(a: Store, b: Store, z: Zone, h: Handle)
    requires Edited(a, b, z) && IsPath(a, h)
    requires forall c :: c in NodesIn(a, h) ==> NodeAt(b, c) == NodeAt(a, c)
    ensures PathOf(b, h) == PathOf(a, h)
  {
    PathParts(a, h);
    PathLayout(a, b, z, h);
    var n := NodeAt(a, h);
    if n.PathChain? {
      NodeFrame(a, b, z, n.startNode);
      forall k | 0 <= k < |n.edges| ensures EdgeOf(b, n.edges[k]) == EdgeOf(a, n.edges[k]) {
        EdgeFrame(a, b, z, n.edges[k]);
        assert Targets(a, n.edges)[k] in NodesIn(a, h);
        NodeFrame(a, b, z, Target(a, n.edges[k]));
      }
      assert EdgesOf(b, n.edges) == EdgesOf(a, n.edges);
    } else {
      assert h in NodesIn(a, h);
      NodeFrame(a, b, z, h);
    }
  }

  /** Chains and edges are never edited. */
  lemma PathLayout(a: Store, b: Store, z: Zone, h: Handle)
    requires Edited(a, b, z) && IsPath(a, h)
    ensures IsPath(b, h) && NodesIn(b, h) == NodesIn(a, h)
    ensures NodeAt(a, h).PathChain? ==> NodeAt(b, h) == NodeAt(a, h)
  {
    var n := NodeAt(a, h);
    assert NodeEdited(a.nodes[h.index], b.nodes[h.index], z);
    PathParts(a, h);
    if n.PathChain? {
      forall k | 0 <= k < |n.edges| ensures Target(b, n.edges[k]) == Target(a, n.edges[k]) {
        EdgeFrame(a, b, z, n.edges[k]);
      }
      assert Targets(b, n.edges) == Targets(a, n.edges);
    }
  }

  // ---------- One hoist ----------

  ghost predicate Distinct(hs: seq<Handle>, z: Zone) {
    && (forall i :: 0 <= i < |hs| && hs[i].At? ==> !InZone(z, hs[i]))
    && forall i, j :: 0 <= i < j < |hs| && hs[i].At? ==> hs[i] != hs[j]
  }

  /** The predicate `p` was appended to the node pattern at index `at`, and nothing else changed. */
  ghost predicate Hoisted(a: Store, b: Store, z: Zone, at: nat, p: Handle) {
    && Edited(a, b, z) && at < |a.nodes| && a.nodes[at].NodePattern? && Known(a, p)
    && b.nodes == a.nodes[at := a.nodes[at].(npreds := a.nodes[at].npreds + [p])]
  }

  lemma HoistedNode(a: Store, b: Store, z: Zone, at: nat, p: Handle, h: Handle)
    requires Hoisted(a, b, z, at, p) && Known(a, h)
    ensures h == At(at) ==> NodeOf(b, h) == NodeOf(a, h).(preds := NodeOf(a, h).preds + [TreeOf(a, p)])
    ensures h != At(at) ==> NodeOf(b, h) == NodeOf(a, h)
  {
    if h == At(at) {
      NodePredsFrame(a, b, z, h);
      TreeFrame(a, b, p);
      TreesConcat(b, a.nodes[at].npreds, [p]);
      assert TreesOf(b, [p]) == [TreeOf(b, p)];
    } else {
      NodeFrame(a, b, z, h);
    }
  }

  lemma HoistedPathAway(a: Store, b: Store, z: Zone, at: nat, p: Handle, h: Handle)
    requires Hoisted(a, b, z, at, p) && IsPath(a, h) && At(at) !in NodesIn(a, h)
    ensures PathOf(b, h) == PathOf(a, h)
  {
    PathParts(a, h);
    PathFrame(a, b, z, h);
  }

  lemma {:induction false} HoistEdgesAt(es: seq<EdgePat>, k: nat, x: string, p: Expr)
    requires k < |es| && es[k].target.variable == Some(x)
    requires forall j :: 0 <= j < k ==> es[j].target.variable != Some(x)
    ensures HoistEdges(es, x, p) == Some(es[k := es[k].(target := es[k].target.(preds := es[k].target.preds + [p]))])
    decreases k
  {
    var e := es[k].(target := es[k].target.(preds := es[k].target.preds + [p]));
    if k > 0 {
      HoistEdgesAt(es[1..], k - 1, x, p);
      assert es[1..][k - 1 := e] == es[k := e][1..];
    }
    assert es[k := e] == [es[k := e][0]] + es[k := e][1..];
  }

  lemma {:induction false} HoistEdgesNone(es: seq<EdgePat>, x: string, p: Expr)
    requires forall j :: 0 <= j < |es| ==> es[j].target.variable != Some(x)
    ensures HoistEdges(es, x, p) == None
  {
    if es != [] { HoistEdgesNone(es[1..], x, p); }
  }

  /** What a hoist into a path reports: whether, and where, the predicate went. */
  ghost predicate HoistDone(a: Store, b: Store, z: Zone, h: Handle, x: string, p: Handle, found: bool, at: nat)
    requires Wf(a) && Wf(b)
  {
    if found then
      && Hoisted(a, b, z, at, p) && At(at) in NodesIn(a, h)
      && HoistPath(PathOf(a, h), x, TreeOf(a, p)) == Some(PathOf(b, h))
    else
      b == a && HoistPath(PathOf(a, h), x, TreeOf(a, p)) == None
  }

  /** `hoist_predicate_to_path` on a node pattern. */
  method HoistToNode(arena: QueryAstArena, h: Handle, x: string, p: Handle, ghost z: Zone) returns (found: bool)
    requires Start(arena.View(), z) && NodeAt(arena.View(), h).NodePattern? && !InZone(z, h)
    requires Known(arena.View(), p) && InZone(z, p)
    modifies arena
    ensures arena.Valid() && found == (old(arena.nodes[h.index]).nvar == Some(x))
    ensures if found then Hoisted(old(arena.View()), arena.View(), z, h.index, p)
      else arena.View() == old(arena.View())
  {
    ghost var a := arena.View();
    var n := arena.nodes[h.index];
    found := n.nvar == Some(x);
    if found {
      assert forall c :: c in n.npreds ==> c in Handles(n);
      Overwrite(arena, h, n.(npreds := n.npreds + [p]), z);
      ShapedEdited(a, arena.View(), z);
    }
  }

  /** `hoist_predicate_to_path`. */
  method HoistPredicateToPath(arena: QueryAstArena, h: Handle, x: string, p: Handle, ghost z: Zone)
    returns (r: Result<bool>, ghost at: nat)
    requires Start(arena.View(), z) && IsPath(arena.View(), h) && Distinct(NodesIn(arena.View(), h), z)
    requires Known(arena.View(), p) && InZone(z, p)
    modifies arena
    ensures arena.Valid()
    ensures r.Ok? ==> HoistDone(old(arena.View()), arena.View(), z, h, x, p, r.value, at)
    ensures r.Err? ==> arena.View() == old(arena.View())
    ensures r.Err? <==> old(NodeAt(arena.View(), h)).PathChain? && old(NodeAt(arena.View(), h)).startNode.Null?
  {
    hide Wf, Shaped, Closed, Handles, TreeOf, HoistPath, HoistDone;
    ghost var a := arena.View();
    var n := arena.nodes[h.index];
    PathParts(a, h);
    at := 0;
    if n.NodePattern? {
      assert NodesIn(a, h)[0] == h;
      var found := HoistToNode(arena, h, x, p, z);
      at := h.index;
      HoistedSingle(a, arena.View(), z, h, x, p);
      return Ok(found), at;
    }
    var got := arena.Get(n.startNode);
    if got.Err? { return Err(got.error), at; }
    assert NodesIn(a, h)[0] == n.startNode;
    var found := HoistToNode(arena, n.startNode, x, p, z);
    if found {
      at := n.startNode.index;
      HoistedStart(a, arena.View(), z, h, x, p);
      return Ok(true), at;
    }
    for k := 0 to |n.edges|
      invariant arena.View() == a
      invariant forall j :: 0 <= j < k ==> NodeOf(a, Target(a, n.edges[j])).variable != Some(x)
    {
      var e := n.edges[k];
      var target := arena.nodes[e.index].targetNode;
      assert NodesIn(a, h)[k + 1] == target;
      if target.At? {
        found := HoistToNode(arena, target, x, p, z);
        if found {
          at := target.index;
          HoistedTarget(a, arena.View(), z, h, k, x, p);
          return Ok(true), at;
        }
      }
    }
    HoistedNowhere(a, z, h, x, p, at);
    return Ok(false), at;
  }

  lemma HoistedSingle(a: Store, b: Store, z: Zone, h: Handle, x: string, p: Handle)
    requires Wf(a) && NodeAt(a, h).NodePattern?
    requires if NodeAt(a, h).nvar == Some(x) then Hoisted(a, b, z, h.index, p) else b == a
    ensures Wf(b) && HoistDone(a, b, z, h, x, p, NodeAt(a, h).nvar == Some(x), h.index)
  {
    if NodeAt(a, h).nvar == Some(x) { HoistedNode(a, b, z, h.index, p, h); }
    assert NodesIn(a, h)[0] == h;
  }

  lemma HoistedNowhere(a: Store, z: Zone, h: Handle, x: string, p: Handle, at: nat)
    requires Wf(a) && NodeAt(a, h).PathChain? && NodeOf(a, NodeAt(a, h).startNode).variable != Some(x)
    requires forall j :: 0 <= j < |NodeAt(a, h).edges| ==>
      NodeOf(a, Target(a, NodeAt(a, h).edges[j])).variable != Some(x)
    requires forall j :: 0 <= j < |NodeAt(a, h).edges| ==> NodeAt(a, NodeAt(a, h).edges[j]).EdgePattern?
    ensures HoistDone(a, a, z, h, x, p, false, at)
  {
    hide Wf, HoistEdges;
    HoistEdgesNone(EdgesOf(a, NodeAt(a, h).edges), x, TreeOf(a, p));
  }

  /** The node patterns of a chain are pairwise different. */
  lemma ChainApart(st: Store, h: Handle, z: Zone)
    requires NodeAt(st, h).PathChain? && Distinct(NodesIn(st, h), z)
    ensures var n := NodeAt(st, h);
      && (n.startNode in NodesIn(st, h))
      && (forall k :: 0 <= k < |n.edges| ==> Target(st, n.edges[k]) in NodesIn(st, h))
      && (n.startNode.At? ==> forall k :: 0 <= k < |n.edges| ==> Target(st, n.edges[k]) != n.startNode)
      && forall j, k :: 0 <= j < |n.edges| && 0 <= k < |n.edges| && j != k && Target(st, n.edges[j]).At? ==>
           Target(st, n.edges[j]) != Target(st, n.edges[k])
  {
    var n, hs := NodeAt(st, h), NodesIn(st, h);
    assert hs[0] == n.startNode;
    forall k | 0 <= k < |n.edges| ensures hs[k + 1] == Target(st, n.edges[k]) {}
    forall j, k | 0 <= j < |n.edges| && 0 <= k < |n.edges| && j != k && Target(st, n.edges[j]).At?
      ensures Target(st, n.edges[j]) != Target(st, n.edges[k])
    {
      assert hs[j + 1] != hs[k + 1];
    }
  }

  lemma EdgesHoisted(a: Store, b: Store, z: Zone, at: nat, p: Handle, es: seq<Handle>)
    requires Hoisted(a, b, z, at, p) && forall k :: 0 <= k < |es| ==> NodeAt(a, es[k]).EdgePattern?
    ensures forall k :: 0 <= k < |es| ==>
      EdgeOf(b, es[k]) ==
        if Target(a, es[k]) == At(at) then EdgeOf(a, es[k]).(target := NodeOf(b, At(at))) else EdgeOf(a, es[k])
  {
    forall k | 0 <= k < |es|
      ensures EdgeOf(b, es[k]) ==
        if Target(a, es[k]) == At(at) then EdgeOf(a, es[k]).(target := NodeOf(b, At(at))) else EdgeOf(a, es[k])
    {
      EdgeFrame(a, b, z, es[k]);
      HoistedNode(a, b, z, at, p, Target(a, es[k]));
    }
  }

  lemma HoistedStart(a: Store, b: Store, z: Zone, h: Handle, x: string, p: Handle)
    requires Start(a, z) && NodeAt(a, h).PathChain? && Distinct(NodesIn(a, h), z) && NodeAt(a, h).startNode.At?
    requires Hoisted(a, b, z, NodeAt(a, h).startNode.index, p)
    requires NodeAt(a, NodeAt(a, h).startNode).NodePattern? && NodeAt(a, NodeAt(a, h).startNode).nvar == Some(x)
    ensures HoistDone(a, b, z, h, x, p, true, NodeAt(a, h).startNode.index)
  {
    var n := NodeAt(a, h);
    PathParts(a, h);
    PathLayout(a, b, z, h);
    ChainApart(a, h, z);
    HoistedNode(a, b, z, n.startNode.index, p, n.startNode);
    EdgesHoisted(a, b, z, n.startNode.index, p, n.edges);
    hide Wf, Closed, Shaped, Edited, Hoisted, TreeOf, Handles, NodesIn, Distinct, EdgeOf, TreesOf;
    assert EdgesOf(b, n.edges) == EdgesOf(a, n.edges);
  }

  lemma EdgesWithTarget(a: Store, b: Store, z: Zone, k: nat, x: string, p: Handle, hs: seq<Handle>)
    requires k < |hs| && forall j :: 0 <= j < |hs| ==> NodeAt(a, hs[j]).EdgePattern?
    requires var t := Target(a, hs[k]);
      && t.At? && Hoisted(a, b, z, t.index, p) && NodeAt(a, t).NodePattern? && NodeAt(a, t).nvar == Some(x)
      && forall j :: 0 <= j < |hs| && j != k ==> Target(a, hs[j]) != t
    requires forall j :: 0 <= j < k ==> NodeOf(a, Target(a, hs[j])).variable != Some(x)
    ensures HoistEdges(EdgesOf(a, hs), x, TreeOf(a, p)) == Some(EdgesOf(b, hs))
  {
    hide Wf, TreeOf, HoistEdges, Closed, Shaped, Handles;
    var t, es := Target(a, hs[k]), EdgesOf(a, hs);
    HoistedNode(a, b, z, t.index, p, t);
    EdgesHoisted(a, b, z, t.index, p, hs);
    assert forall j :: 0 <= j < |es| ==> es[j].target == NodeOf(a, Target(a, hs[j]));
    assert NodeOf(a, t).variable == Some(x);
    hide Hoisted, EdgeOf, NodeOf;
    HoistEdgesAt(es, k, x, TreeOf(a, p));
    assert EdgesOf(b, hs) == es[k := es[k].(target := NodeOf(b, t))];
  }

  lemma HoistedTarget(a: Store, b: Store, z: Zone, h: Handle, k: nat, x: string, p: Handle)
    requires Start(a, z) && NodeAt(a, h).PathChain? && Distinct(NodesIn(a, h), z) && k < |NodeAt(a, h).edges|
    requires var t := Target(a, NodeAt(a, h).edges[k]);
      t.At? && Hoisted(a, b, z, t.index, p) && NodeAt(a, t).NodePattern? && NodeAt(a, t).nvar == Some(x)
    requires NodeOf(a, NodeAt(a, h).startNode).variable != Some(x)
    requires forall j :: 0 <= j < k ==> NodeOf(a, Target(a, NodeAt(a, h).edges[j])).variable != Some(x)
    ensures HoistDone(a, b, z, h, x, p, true, Target(a, NodeAt(a, h).edges[k]).index)
  {
    var n := NodeAt(a, h);
    var t := Target(a, n.edges[k]);
    PathParts(a, h);
    PathLayout(a, b, z, h);
    ChainApart(a, h, z);
    HoistedNode(a, b, z, t.index, p, n.startNode);
    EdgesWithTarget(a, b, z, k, x, p, n.edges);
    hide Wf, Closed, Shaped, Hoisted, TreeOf, Handles, NodesIn, Distinct, EdgesOf, NodeOf, HoistEdges;
    assert HoistNode(NodeOf(a, n.startNode), x, TreeOf(a, p)) == None;
    assert PathOf(b, h) == Chain(n.pathVar, n.pathMode, NodeOf(a, n.startNode), EdgesOf(b, n.edges));
  }

  // ---------- When a hoist closes a cycle ----------

  function WithPredicate(a: Store, at: nat, p: Handle): seq<AstNode>
    requires at < |a.nodes| && a.nodes[at].NodePattern?
  {
    a.nodes[at := a.nodes[at].(npreds := a.nodes[at].npreds + [p])]
  }

  ghost predicate Ranked(nodes: seq<AstNode>) {
    exists rank :: Wf(Store(nodes, rank))
  }

  /** A closed part of the arena holds the predicate but not the pattern. */
  ghost predicate Separated(a: Store, at: nat, p: Handle) {
    exists z :: Closed(a, z) && InZone(z, p) && !InZone(z, At(at))
  }

  /**
   Appending a predicate to a pattern leaves the arena acyclic exactly when the predicate
   does not lead back to the pattern.
   */
  lemma HoistAcyclicIff(a: Store, at: nat, p: Handle)
    requires Wf(a) && at < |a.nodes| && a.nodes[at].NodePattern? && p.At? && p.index < |a.nodes|
    ensures Ranked(WithPredicate(a, at, p)) <==> Separated(a, at, p)
  {
    if Separated(a, at, p) {
      var z :| Closed(a, z) && InZone(z, p) && !InZone(z, At(at));
      SeparatedRank(a, at, p, z);
    }
    if Ranked(WithPredicate(a, at, p)) {
      var rank :| Wf(Store(WithPredicate(a, at, p), rank));
      RankSeparates(a, at, p, rank);
    }
  }

  lemma SeparatedRank(a: Store, at: nat, p: Handle, z: Zone)
    requires Wf(a) && at < |a.nodes| && a.nodes[at].NodePattern? && p.At? && p.index < |a.nodes|
    requires Closed(a, z) && InZone(z, p) && !InZone(z, At(at))
    ensures Wf(Store(WithPredicate(a, at, p), Lifted(a, z).rank))
  {
    LiftedWf(a, z);
    var b, c := Lifted(a, z), Store(WithPredicate(a, at, p), Lifted(a, z).rank);
    forall i | 0 <= i < |c.nodes| ensures NodeLow(c, c.nodes[i], c.rank[i]) {
      assert NodeLow(b, b.nodes[i], b.rank[i]);
      forall h | h in Handles(c.nodes[i]) ensures Low(c, h, c.rank[i]) {
        if i == at && h == p {
          assert Known(a, p) && Low(b, p, b.rank[at]);
        } else {
          assert h in Handles(b.nodes[i]);
        }
      }
    }
  }

  lemma RankSeparates(a: Store, at: nat, p: Handle, rank: seq<nat>)
    requires at < |a.nodes| && a.nodes[at].NodePattern? && p.At? && p.index < |a.nodes|
    requires Wf(Store(WithPredicate(a, at, p), rank))
    ensures Separated(a, at, p)
  {
    var c := Store(WithPredicate(a, at, p), rank);
    var z := Zone(set i: nat | i < |rank| && rank[i] <= rank[p.index], |a.nodes|);
    assert NodeLow(c, c.nodes[at], rank[at]) && p in Handles(c.nodes[at]);
    forall i | 0 <= i < |a.nodes| && InZone(z, At(i))
      ensures forall h :: h in Handles(a.nodes[i]) ==> InZone(z, h)
    {
      assert NodeLow(c, c.nodes[i], rank[i]);
    }
    assert Closed(a, z) && InZone(z, p) && !InZone(z, At(at));
  }

  /** A property read off the pattern itself: hoisting the equality into that pattern closes a cycle. */
  lemma HoistIntoOwnTarget()
    ensures var a := Store([NodePattern(Some("x"), None, []), PropertyAccess(At(0), "p"), LiteralNode(LInt(1)),
                            BinaryExpression(At(1), Eq, At(2))], [0, 1, 0, 2]);
      Wf(a) && !Ranked(WithPredicate(a, 0, At(3)))
  {
    var a := Store([NodePattern(Some("x"), None, []), PropertyAccess(At(0), "p"), LiteralNode(LInt(1)),
                    BinaryExpression(At(1), Eq, At(2))], [0, 1, 0, 2]);
    forall i | 0 <= i < |a.nodes| ensures NodeLow(a, a.nodes[i], a.rank[i]) {}
    HoistAcyclicIff(a, 0, At(3));
    forall z | Closed(a, z) && InZone(z, At(3)) ensures InZone(z, At(0)) {
      assert At(1) in Handles(a.nodes[3]) && At(0) in Handles(a.nodes[1]);
    }
  }
}
