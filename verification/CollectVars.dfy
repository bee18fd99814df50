/** The variable collectors of the pruning pass, reading the arena. */
module CollectVars {
  import opened Common
  import opened Ast
  import opened Trees
  import opened Clauses
  import opened FoldingLimits
  import opened FoldArena
  import opened Visiting
  import opened FoldPass
  import opened Matching
  import opened Pruning
  import opened PushArena
  import opened Mentions

  // ---------- What a collector promises ----------

  /** A clause, pattern or statement node: the collectors look at it and go no further. */
  predicate Proper(st: Store, q: Handle) {
    q.At? && q.index < |st.nodes| && !IsExpression(st.nodes[q.index]) && !st.nodes[q.index].WhereClause?
  }

  /** Every operand is there and is an expression, and every subquery is a statement, clause or pattern. */
  ghost predicate Clear(st: Store, e: Expr) {
    Hole !in Names(e) && Foreign !in Names(e) && forall q :: Nested(q) in Names(e) ==> Proper(st, q)
  }

  /** Adds at least `vars` to `used`; exactly `vars`, without error, when everything is clear. */
  ghost predicate Collected(used: set<string>, r: Result<set<string>>, vars: set<string>, clear: bool) {
    if clear then r == Ok(used + vars) else r.Ok? ==> used + vars <= r.value
  }

  /** A collection under way: `whole` is to be added, `rest` is still missing from `acc`. */
  ghost predicate Underway(used: set<string>, acc: set<string>, whole: set<string>, rest: set<string>, clear: bool) {
    if clear then used + whole == acc + rest else used + whole <= acc + rest
  }

  /** Adds exactly `names` to `used`, unless it fails. */
  ghost predicate Gained(used: set<string>, r: Result<set<string>>, names: set<string>) {
    r.Ok? ==> r.value == used + names
  }

  ghost predicate Gaining(used: set<string>, acc: set<string>, whole: set<string>, rest: set<string>) {
    used + whole == acc + rest
  }

  lemma GainNext(used: set<string>, r: Result<set<string>>, v: set<string>, s: Result<set<string>>, w: set<string>)
    requires Gained(used, r, v) && if r.Ok? then Gained(r.value, s, w) else s.Err?
    ensures Gained(used, s, v + w)
  {
    if r.Ok? { assert used + v + w == used + (v + w); }
  }

  lemma GainFrom(used: set<string>, v: set<string>, r: Result<set<string>>, w: set<string>)
    requires Gained(used + v, r, w)
    ensures Gained(used, r, v + w)
  {
    assert used + v + w == used + (v + w);
  }

  lemma GainOn(used: set<string>, acc: set<string>, whole: set<string>, v: set<string>, rest: set<string>,
               r: Result<set<string>>)
    requires Gaining(used, acc, whole, v + rest) && Gained(acc, r, v)
    ensures if r.Ok? then Gaining(used, r.value, whole, rest) else Gained(used, r, whole)
  {
    if r.Ok? { assert acc + v + rest == acc + (v + rest); }
  }

  lemma GainBounds(used: set<string>, acc: set<string>, whole: set<string>)
    ensures Gaining(used, used, whole, whole)
    ensures Gaining(used, acc, whole, {}) ==> Gained(used, Ok(acc), whole)
  {
    assert acc + {} == acc;
  }

  // ---------- Expressions ----------

  /** The operands a collector descends into, in order. */
  function Kids(n: AstNode): seq<Handle> {
    match n
    case ExistsSubquery(q) => [q]
    case CountSubquery(q) => [q]
    case WhereClause(p) => [p]
    case _ => Operands(n)
  }

  lemma KidsBelow(st: Store, h: Handle)
    requires Wf(st) && h.At? && h.index < |st.nodes|
    ensures forall c :: c in Kids(st.nodes[h.index]) ==> Known(st, c) && Rk(st, c) < Rk(st, h)
  {
    var n := st.nodes[h.index];
    assert NodeLow(st, n, st.rank[h.index]);
    forall c | c in Kids(n) ensures c in Handles(n) {
      if n.CaseExpression? && c in Flat(n.branches) {
        FlatMember(n.branches, c);
        var b :| b in n.branches && (c == b.0 || c == b.1);
        assert b.0 in FirstSet(n.branches);
      }
    }
  }

  ghost predicate AllClear(st: Store, es: seq<Expr>) {
    forall k :: 0 <= k < |es| ==> Clear(st, es[k])
  }

  lemma {:induction false} VarsConcat(a: seq<Expr>, b: seq<Expr>)
    ensures ExprsVars(a + b) == ExprsVars(a) + ExprsVars(b)
    ensures NamesAll(a + b) == NamesAll(a) + NamesAll(b)
  {
    if a == [] {
      assert a + b == b;
    } else {
      assert (a + b)[1..] == a[1..] + b;
      VarsConcat(a[1..], b);
    }
  }

  lemma OneVars(e: Expr)
    ensures ExprsVars([e]) == ExprVars(e) && NamesAll([e]) == Names(e)
  {
    assert [e][1..] == [];
  }

  lemma TwoVars(d: Expr, e: Expr)
    ensures ExprsVars([d, e]) == ExprVars(d) + ExprVars(e) && NamesAll([d, e]) == Names(d) + Names(e)
  {
    OneVars(d);
    OneVars(e);
    assert [d, e] == [d] + [e];
    VarsConcat([d], [e]);
  }

  lemma OptSeqVars(st: Store, o: Option<Handle>)
    requires Wf(st)
    ensures ExprsVars(TreesOf(st, OptSeq(o))) == OptVars(OptTree(st, o))
  {
    if o.Some? {
      assert TreesOf(st, OptSeq(o)) == [TreeOf(st, o.value)];
      OneVars(TreeOf(st, o.value));
    } else {
      assert TreesOf(st, OptSeq(o)) == [];
    }
  }

  lemma {:induction false} FlatVars(st: Store, bs: seq<(Handle, Handle)>)
    requires Wf(st)
    ensures ExprsVars(TreesOf(st, Flat(bs))) == BranchesVars(PairsOf(st, bs))
    decreases |bs|
  {
    var ps := PairsOf(st, bs);
    if bs == [] {
      assert TreesOf(st, Flat(bs)) == [];
    } else {
      FlatVars(st, bs[1..]);
      var c, t, rest := TreeOf(st, bs[0].0), TreeOf(st, bs[0].1), TreesOf(st, Flat(bs[1..]));
      assert TreesOf(st, Flat(bs)) == [c, t] + rest;
      assert ps[1..] == PairsOf(st, bs[1..]) && ps[0] == Branch(c, t);
      TwoVars(c, t);
      VarsConcat([c, t], rest);
    }
  }

  /** An operand the collectors read completely: a clear expression, or a node they do not enter. */
  ghost predicate Legible(st: Store, h: Handle)
    requires Wf(st)
  {
    Clear(st, TreeOf(st, h)) || Proper(st, h)
  }

  ghost predicate AllLegible(st: Store, hs: seq<Handle>)
    requires Wf(st)
  {
    forall k :: 0 <= k < |hs| ==> Legible(st, hs[k])
  }

  lemma ClearLegible(st: Store, hs: seq<Handle>)
    requires Wf(st) && AllClear(st, TreesOf(st, hs))
    ensures AllLegible(st, hs)
  {
    assert forall k :: 0 <= k < |hs| ==> TreesOf(st, hs)[k] == TreeOf(st, hs[k]);
  }

  /** The operands mention what the expression does. */
  lemma KidsMention(st: Store, h: Handle)
    requires Wf(st) && h.At? && h.index < |st.nodes| && IsExpression(st.nodes[h.index])
    requires !st.nodes[h.index].Identifier?
    ensures var n := st.nodes[h.index];
      n.ExistsSubquery? || n.CountSubquery? || ExprVars(TreeOf(st, h)) == ExprsVars(TreesOf(st, Operands(n)))
  {
    var n := st.nodes[h.index];
    var e, es := TreeOf(st, h), TreesOf(st, Operands(n));
    assert NodeLow(st, n, st.rank[h.index]);
    TreeParts(st, h);
    match n
    case PropertyAccess(t, _) =>
      assert es == [TreeOf(st, t)];
      OneVars(TreeOf(st, t));
    case BinaryExpression(l, _, r) =>
      assert es == [TreeOf(st, l), TreeOf(st, r)];
      TwoVars(TreeOf(st, l), TreeOf(st, r));
    case UnaryExpression(_, x) =>
      assert es == [TreeOf(st, x)];
      OneVars(TreeOf(st, x));
    case CaseExpression(_, _, _) => CaseMentions(st, h);
    case ListComprehension(_, _, _, _) => ListMentions(st, h);
    case PatternComprehension(_, _, _) => PatternMentions(st, h);
    case LiteralNode(_) => assert es == [];
    case Parameter(_) => assert es == [];
    case _ =>
  }

  lemma CaseMentions(st: Store, h: Handle)
    requires Wf(st) && h.At? && h.index < |st.nodes| && st.nodes[h.index].CaseExpression?
    ensures ExprVars(TreeOf(st, h)) == ExprsVars(TreesOf(st, Operands(st.nodes[h.index])))
  {
    var n := st.nodes[h.index];
    TreeParts(st, h);
    var s, b, e := TreesOf(st, OptSeq(n.subject)), TreesOf(st, Flat(n.branches)), TreesOf(st, OptSeq(n.elseBranch));
    assert TreesOf(st, Operands(n)) == s + b + e;
    OptSeqVars(st, n.subject);
    OptSeqVars(st, n.elseBranch);
    FlatVars(st, n.branches);
    VarsConcat(s + b, e);
    VarsConcat(s, b);
    CaseMembers(OptTree(st, n.subject), PairsOf(st, n.branches), OptTree(st, n.elseBranch));
  }

  lemma CaseMembers(s: Option<Expr>, bs: seq<Branch>, e: Option<Expr>)
    ensures ExprVars(ECase(s, bs, e)) == OptVars(s) + BranchesVars(bs) + OptVars(e)
  {
  }

  lemma ListMentions(st: Store, h: Handle)
    requires Wf(st) && h.At? && h.index < |st.nodes| && st.nodes[h.index].ListComprehension?
    ensures ExprVars(TreeOf(st, h)) == ExprsVars(TreesOf(st, Operands(st.nodes[h.index])))
  {
    var n := st.nodes[h.index];
    assert NodeLow(st, n, st.rank[h.index]);
    var l, f, m := TreesOf(st, [n.listExpr]), TreesOf(st, OptSeq(n.lfilter)), TreesOf(st, OptSeq(n.lmap));
    assert TreeOf(st, h) == EListComp(n.lvar, TreeOf(st, n.listExpr), OptTree(st, n.lfilter), OptTree(st, n.lmap));
    assert TreesOf(st, Operands(n)) == l + f + m && l == [TreeOf(st, n.listExpr)];
    OptSeqVars(st, n.lfilter);
    OptSeqVars(st, n.lmap);
    OneVars(TreeOf(st, n.listExpr));
    VarsConcat(l + f, m);
    VarsConcat(l, f);
  }

  lemma PatternMentions(st: Store, h: Handle)
    requires Wf(st) && h.At? && h.index < |st.nodes| && st.nodes[h.index].PatternComprehension?
    ensures ExprVars(TreeOf(st, h)) == ExprsVars(TreesOf(st, Operands(st.nodes[h.index])))
  {
    var n := st.nodes[h.index];
    assert NodeLow(st, n, st.rank[h.index]);
    var f, p := TreesOf(st, OptSeq(n.pfilter)), TreesOf(st, [n.projection]);
    assert TreeOf(st, h) == EPatComp(n.path, OptTree(st, n.pfilter), TreeOf(st, n.projection));
    assert TreesOf(st, Operands(n)) == f + p && p == [TreeOf(st, n.projection)];
    OptSeqVars(st, n.pfilter);
    OneVars(TreeOf(st, n.projection));
    VarsConcat(f, p);
  }

  /** A clear expression has clear operands, or enters a node the collectors do not. */
  lemma KidsLegible(st: Store, h: Handle)
    requires Wf(st) && h.At? && h.index < |st.nodes| && IsExpression(st.nodes[h.index]) && Clear(st, TreeOf(st, h))
    ensures AllLegible(st, Kids(st.nodes[h.index]))
  {
    var n := st.nodes[h.index];
    if n.ExistsSubquery? || n.CountSubquery? {
      var q := if n.ExistsSubquery? then n.esub else n.csub;
      assert Nested(q) in Names(TreeOf(st, h));
    } else {
      var es := TreesOf(st, Operands(n));
      OperandsCarried(st, h, _ => 0);
      hide TreeOf, Names, NamesAll, Wf;
      forall k | 0 <= k < |es| ensures Clear(st, es[k]) { NamesMember(es, k); }
      ClearLegible(st, Operands(n));
    }
  }

  /** What collecting an operand amounts to; a WHERE node is looked through. */
  ghost predicate OperandCollected(st: Store, h: Handle, used: set<string>, r: Result<set<string>>)
    requires Wf(st)
  {
    var e := TreeOf(st, Condition(st, h));
    Collected(used, r, ExprVars(e), Clear(st, e) || Proper(st, h))
  }

  /** `collect_expr_vars`. */
  method CollectExprVars(arena: QueryAstArena, h: Handle, used: set<string>) returns (r: Result<set<string>>)
    requires arena.Valid() && Known(arena.View(), h)
    ensures OperandCollected(arena.View(), h, used, r)
    ensures Gained(used, r, OperandNames(arena.View(), h))
    decreases Rk(arena.View(), h), 1
  {
    ghost var st := arena.View();
    var got := arena.Get(h);
    if got.Err? { return Err(got.error); }
    var n := got.value;
    KidsNames(st, h);
    if n.Identifier? { return Ok(used + {n.ident}); }
    KidsBelow(st, h);
    r := CollectList(arena, Kids(n), used, Rk(st, h));
    NodeCollected(st, h, used, r);
  }

  /** An operand has the names of its operands, or is one. */
  lemma KidsNames(st: Store, h: Handle)
    requires Wf(st) && There(st, h)
    ensures var n := st.nodes[h.index];
      OperandNames(st, h) == if n.Identifier? then {n.ident} else ReadNames(st, Kids(n))
  {
    hide Wf, NamesBelow;
    var n := st.nodes[h.index];
    NamesParts(st, h, false);
    assert IsOperand(st, h) ==> Parts(n) == [] && (n.Identifier? || Kids(n) == OperandsOf(n));
    assert !IsOperand(st, h) ==> Kids(n) == [];
  }

  lemma NodeCollected(st: Store, h: Handle, used: set<string>, r: Result<set<string>>)
    requires Wf(st) && h.At? && h.index < |st.nodes| && !st.nodes[h.index].Identifier?
    requires var hs := Kids(st.nodes[h.index]); Collected(used, r, ExprsVars(TreesOf(st, hs)), AllLegible(st, hs))
    ensures OperandCollected(st, h, used, r)
  {
    var n := st.nodes[h.index];
    assert TreesOf(st, Kids(n)) == [] || Kids(n) != [];
    if n.WhereClause? {
      assert NodeLow(st, n, st.rank[h.index]);
      assert TreesOf(st, [n.rootPredicate]) == [TreeOf(st, n.rootPredicate)];
      OneVars(TreeOf(st, n.rootPredicate));
      if Clear(st, TreeOf(st, n.rootPredicate)) { assert AllLegible(st, [n.rootPredicate]); }
    } else if IsExpression(n) {
      ExpressionCollected(st, h, used, r);
    }
  }

  lemma ExpressionCollected(st: Store, h: Handle, used: set<string>, r: Result<set<string>>)
    requires Wf(st) && h.At? && h.index < |st.nodes| && IsExpression(st.nodes[h.index])
      && !st.nodes[h.index].Identifier?
    requires var hs := Kids(st.nodes[h.index]); Collected(used, r, ExprsVars(TreesOf(st, hs)), AllLegible(st, hs))
    ensures OperandCollected(st, h, used, r)
  {
    var n := st.nodes[h.index];
    KidsMention(st, h);
    if Clear(st, TreeOf(st, h)) { KidsLegible(st, h); }
    if n.ExistsSubquery? || n.CountSubquery? {
      var q := if n.ExistsSubquery? then n.esub else n.csub;
      assert TreesOf(st, [q]) == [TreeOf(st, q)];
      OneVars(TreeOf(st, q));
      if Proper(st, q) { assert ExprVars(TreeOf(st, q)) == {}; }
      if Clear(st, TreeOf(st, h)) { assert Nested(q) in Names(TreeOf(st, h)); }
    }
  }

  /** Operands one after the other. */
  method CollectList(arena: QueryAstArena, hs: seq<Handle>, used: set<string>, ghost bound: nat)
    returns (r: Result<set<string>>)
    requires arena.Valid() && forall h :: h in hs ==> Known(arena.View(), h) && Rk(arena.View(), h) < bound
    ensures Collected(used, r, ExprsVars(TreesOf(arena.View(), hs)), AllLegible(arena.View(), hs))
    ensures var es := TreesOf(arena.View(), hs); Collected(used, r, ExprsVars(es), AllClear(arena.View(), es))
    ensures Gained(used, r, ReadNames(arena.View(), hs))
    decreases bound, 0
  {
    hide NamesBelow, OperandNames, Gaining, Gained, Wf, Clear;
    ghost var st := arena.View();
    ghost var es := TreesOf(st, hs);
    if AllClear(st, es) { ClearLegible(st, hs); }
    var acc := used;
    ghost var whole := ReadNames(st, hs);
    assert hs[0..] == hs;
    GainBounds(used, acc, whole);
    for k := 0 to |hs|
      invariant Underway(used, acc, ExprsVars(es), ExprsVars(es[k..]), AllLegible(st, hs))
      invariant Gaining(used, acc, whole, ReadNames(st, hs[k..]))
    {
      r := CollectExprVars(arena, hs[k], acc);
      ConditionVars(st, hs[k], acc, r);
      assert hs[k..][1..] == hs[k + 1..];
      GainOn(used, acc, whole, OperandNames(st, hs[k]), ReadNames(st, hs[k + 1..]), r);
      if r.Err? { return; }
      acc := r.value;
      assert es[k..][1..] == es[k + 1..];
    }
    assert es[|hs|..] == [];
    assert acc + ExprsVars([]) == acc;
    GainBounds(used, acc, whole);
    return Ok(acc);
  }

  /** An operand that is a WHERE node counts as foreign to its parent. */
  lemma ConditionVars(st: Store, h: Handle, used: set<string>, r: Result<set<string>>)
    requires Wf(st) && OperandCollected(st, h, used, r)
    ensures Collected(used, r, ExprVars(TreeOf(st, h)), Legible(st, h))
    ensures Collected(used, r, ExprVars(TreeOf(st, h)), Clear(st, TreeOf(st, h)))
  {
    if NodeAt(st, h).WhereClause? {
      assert TreeOf(st, h) == EOther(h);
      assert Names(EOther(h)) == {Foreign};
    }
  }

  /** One collection after another; an error ends both. */
  lemma Next(used: set<string>, r: Result<set<string>>, v: set<string>, c: bool,
             s: Result<set<string>>, w: set<string>, d: bool)
    requires Collected(used, r, v, c)
    requires if r.Ok? then Collected(r.value, s, w, d) else s.Err?
    ensures Collected(used, s, v + w, c && d)
  {
    if r.Ok? { assert used + v + w == used + (v + w); }
  }

  /** One more element of a list. */
  lemma Onward(used: set<string>, acc: set<string>, whole: set<string>, v: set<string>, rest: set<string>, clear: bool,
               r: Result<set<string>>, c: bool)
    requires Underway(used, acc, whole, v + rest, clear) && (clear ==> c) && Collected(acc, r, v, c)
    ensures r.Ok? ==> Underway(used, r.value, whole, rest, clear)
    ensures r.Err? ==> Collected(used, r, whole, clear)
  {
    if r.Ok? { assert acc + v + rest == acc + (v + rest); }
  }

  lemma Starting(used: set<string>, whole: set<string>, clear: bool)
    ensures Underway(used, used, whole, whole, clear)
  {
  }

  lemma Complete(used: set<string>, acc: set<string>, whole: set<string>, clear: bool)
    ensures Underway(used, acc, whole, {}, clear) ==> Collected(used, Ok(acc), whole, clear)
  {
    assert acc + {} == acc;
  }

  // ---------- Patterns ----------

  function AliasVars(o: Option<string>, binding: bool): set<string> {
    if binding then OptVar(o) else {}
  }

  function NodeMentions(n: NodePat, binding: bool): set<string> {
    AliasVars(n.variable, binding) + ExprsVars(n.preds)
  }

  function EdgeMentions(e: EdgePat, binding: bool): set<string> {
    AliasVars(e.variable, binding) + ExprsVars(e.preds) + NodeMentions(e.target, binding)
  }

  function EdgesMentions(es: seq<EdgePat>, binding: bool): set<string> {
    if es == [] then {} else EdgeMentions(es[0], binding) + EdgesMentions(es[1..], binding)
  }

  /** The variables a path reads, and with `binding` those it binds. */
  function PathMentions(p: PathPat, binding: bool): set<string> {
    match p
    case Single(n) => NodeMentions(n, binding)
    case Chain(v, _, s, es) => AliasVars(v, binding) + NodeMentions(s, binding) + EdgesMentions(es, binding)
  }

  function PathsMentions(ps: seq<PathPat>, binding: bool): set<string> {
    if ps == [] then {} else PathMentions(ps[0], binding) + PathsMentions(ps[1..], binding)
  }

  ghost predicate NodeClear(st: Store, n: NodePat) {
    AllClear(st, n.preds)
  }

  ghost predicate EdgeClear(st: Store, e: EdgePat) {
    AllClear(st, e.preds) && NodeClear(st, e.target)
  }

  ghost predicate PathClear(st: Store, p: PathPat) {
    match p
    case Single(n) => NodeClear(st, n)
    case Chain(_, _, s, es) => NodeClear(st, s) && forall k :: 0 <= k < |es| ==> EdgeClear(st, es[k])
  }

  ghost predicate PathsClear(st: Store, ps: seq<PathPat>) {
    forall k :: 0 <= k < |ps| ==> PathClear(st, ps[k])
  }

  /** Reading only: a pattern mentions what its predicates do. */
  lemma {:induction false} EdgesMentionsRead(es: seq<EdgePat>)
    ensures EdgesMentions(es, false) == EdgesExprVars(es)
  {
    if es != [] { EdgesMentionsRead(es[1..]); }
  }

  lemma {:induction false} PathsMentionsRead(ps: seq<PathPat>)
    ensures PathsMentions(ps, false) == PathsExprVars(ps)
  {
    if ps != [] {
      PathsMentionsRead(ps[1..]);
      if ps[0].Chain? { EdgesMentionsRead(ps[0].edges); }
    }
  }

  function WithAlias(used: set<string>, o: Option<string>, binding: bool): set<string> {
    if binding && o.Some? then used + {o.value} else used
  }

  lemma AliasAdded(used: set<string>, o: Option<string>, binding: bool)
    ensures WithAlias(used, o, binding) == used + AliasVars(o, binding)
  {
  }

  /** `collect_path_vars` on a node pattern; a missing one is skipped. */
  method CollectNodeVars(arena: QueryAstArena, h: Handle, used: set<string>, binding: bool)
    returns (r: Result<set<string>>)
    requires arena.Valid() && Shaped(arena.View()) && Known(arena.View(), h)
    requires h.At? ==> NodeAt(arena.View(), h).NodePattern?
    ensures var n := NodeOf(arena.View(), h); Collected(used, r, NodeMentions(n, binding), NodeClear(arena.View(), n))
    ensures Gained(used, r, PartName(arena.View(), h, binding))
  {
    hide NamesBelow, ReadNames, PartNames;
    if h.Null? {
      assert NodeMentions(NodeOf(arena.View(), h), binding) == {} && used + {} == used;
      return Ok(used);
    }
    var n := arena.nodes[h.index];
    PredsBelow(arena.View(), h);
    NodeNames(arena.View(), h, binding);
    r := CollectList(arena, n.npreds, WithAlias(used, n.nvar, binding), Rk(arena.View(), h));
    assert WithAlias(used, n.nvar, binding) == used + AliasVars(n.nvar, binding);
    assert forall v: set<string>, w: set<string> :: used + v + w == used + (v + w);
  }

  lemma NodeNames(st: Store, h: Handle, binding: bool)
    requires Wf(st) && There(st, h)
    ensures var n := st.nodes[h.index];
      && (n.NodePattern? ==> NamesBelow(st, h, binding) == AliasVars(n.nvar, binding) + ReadNames(st, n.npreds))
      && (n.EdgePattern? ==>
            NamesBelow(st, h, binding) ==
              AliasVars(n.evar, binding) + ReadNames(st, n.epreds) + PartName(st, n.targetNode, binding))
      && (n.PathChain? ==>
            NamesBelow(st, h, binding) ==
              AliasVars(n.pathVar, binding) + PartName(st, n.startNode, binding) + PartNames(st, n.edges, binding))
      && (n.SetItem? ==>
            NamesBelow(st, h, binding) == OperandNames(st, n.starget) + OperandNames(st, n.svalue))
  {
    hide Wf, NamesBelow, PartName, OperandNames;
    var n := st.nodes[h.index];
    NamesParts(st, h, binding);
    if n.EdgePattern? {
      assert [n.targetNode][1..] == [];
    } else if n.PathChain? {
      assert ([n.startNode] + n.edges)[1..] == n.edges;
    } else if n.SetItem? {
      assert [n.starget, n.svalue][1..] == [n.svalue] && [n.svalue][1..] == [];
      assert ReadNames(st, [n.svalue]) == OperandNames(st, n.svalue);
      assert ReadNames(st, [n.starget, n.svalue]) == OperandNames(st, n.starget) + ReadNames(st, [n.svalue]);
    }
  }

  lemma PredsBelow(st: Store, h: Handle)
    requires Wf(st) && h.At? && h.index < |st.nodes|
    ensures forall c :: c in ExprList(st.nodes[h.index]) ==> Known(st, c) && Rk(st, c) < Rk(st, h)
    ensures forall c :: c in Handles(st.nodes[h.index]) ==> Known(st, c) && Rk(st, c) < Rk(st, h)
  {
    HandlesSplit(st.nodes[h.index]);
    assert NodeLow(st, st.nodes[h.index], st.rank[h.index]);
  }

  method CollectEdgeVars(arena: QueryAstArena, h: Handle, used: set<string>, binding: bool)
    returns (r: Result<set<string>>)
    requires arena.Valid() && Shaped(arena.View()) && NodeAt(arena.View(), h).EdgePattern?
    ensures var e := EdgeOf(arena.View(), h); Collected(used, r, EdgeMentions(e, binding), EdgeClear(arena.View(), e))
    ensures Gained(used, r, NamesBelow(arena.View(), h, binding))
  {
    hide NamesBelow, ReadNames, PartNames, PartName;
    ghost var st := arena.View();
    NodeNames(st, h, binding);
    var n := arena.nodes[h.index];
    PredsBelow(st, h);
    assert n.targetNode in Handles(n) && NodeShaped(st, n);
    ghost var e := EdgeOf(st, h);
    var one := CollectList(arena, n.epreds, WithAlias(used, n.evar, binding), Rk(st, h));
    r := one;
    if one.Ok? {
      r := CollectNodeVars(arena, n.targetNode, one.value, binding);
    }
    assert WithAlias(used, n.evar, binding) == used + AliasVars(n.evar, binding);
    ghost var first := AliasVars(n.evar, binding) + ExprsVars(e.preds);
    assert used + AliasVars(n.evar, binding) + ExprsVars(e.preds) == used + first;
    Next(used, one, first, AllClear(st, e.preds), r, NodeMentions(e.target, binding), NodeClear(st, e.target));
    ghost var names := AliasVars(n.evar, binding) + ReadNames(st, n.epreds);
    GainFrom(used, AliasVars(n.evar, binding), one, ReadNames(st, n.epreds));
    GainNext(used, one, names, r, PartName(st, n.targetNode, binding));
  }

  /** `collect_path_vars`. */
  method CollectPathVars(arena: QueryAstArena, h: Handle, used: set<string>, binding: bool)
    returns (r: Result<set<string>>)
    requires arena.Valid() && Shaped(arena.View()) && IsPath(arena.View(), h)
    ensures var p := PathOf(arena.View(), h); Collected(used, r, PathMentions(p, binding), PathClear(arena.View(), p))
    ensures Gained(used, r, PartName(arena.View(), h, binding))
  {
    hide NamesBelow, ReadNames, PartNames, Gained, EdgesMentions, NodeMentions, NodeClear, EdgeClear, AliasVars;
    ghost var st := arena.View();
    var n := arena.nodes[h.index];
    PathParts(st, h);
    NodeNames(st, h, binding);
    if n.NodePattern? {
      r := CollectNodeVars(arena, h, used, binding);
      return;
    }
    assert n.startNode in NodesIn(st, h);
    ghost var s := NodeOf(st, n.startNode);
    var one := CollectNodeVars(arena, n.startNode, WithAlias(used, n.pathVar, binding), binding);
    ghost var first := AliasVars(n.pathVar, binding) + NodeMentions(s, binding);
    AliasAdded(used, n.pathVar, binding);
    assert used + AliasVars(n.pathVar, binding) + NodeMentions(s, binding) == used + first;
    r := one;
    if one.Ok? {
      r := CollectEdges(arena, n.edges, one.value, binding);
    }
    ghost var es := EdgesOf(st, n.edges);
    Next(used, one, first, NodeClear(st, s), r, EdgesMentions(es, binding),
         forall k :: 0 <= k < |es| ==> EdgeClear(st, es[k]));
    ghost var names := AliasVars(n.pathVar, binding) + PartName(st, n.startNode, binding);
    GainFrom(used, AliasVars(n.pathVar, binding), one, PartName(st, n.startNode, binding));
    GainNext(used, one, names, r, PartNames(st, n.edges, binding));
  }

  method CollectEdges(arena: QueryAstArena, hs: seq<Handle>, used: set<string>, binding: bool)
    returns (r: Result<set<string>>)
    requires arena.Valid() && Shaped(arena.View())
    requires forall k :: 0 <= k < |hs| ==> NodeAt(arena.View(), hs[k]).EdgePattern?
    ensures var es := EdgesOf(arena.View(), hs);
      Collected(used, r, EdgesMentions(es, binding), forall k :: 0 <= k < |es| ==> EdgeClear(arena.View(), es[k]))
    ensures Gained(used, r, PartNames(arena.View(), hs, binding))
  {
    hide Wf, Shaped, EdgeOf, EdgeMentions, EdgeClear, Underway, EdgesMentions, NamesBelow, Gained, Gaining;
    ghost var st := arena.View();
    ghost var es := EdgesOf(arena.View(), hs);
    ghost var clear := forall k :: 0 <= k < |es| ==> EdgeClear(st, es[k]);
    ghost var whole, names := EdgesMentions(es, binding), PartNames(st, hs, binding);
    var acc := used;
    assert es[0..] == es && hs[0..] == hs;
    Starting(used, whole, clear);
    GainBounds(used, acc, names);
    for k := 0 to |hs|
      invariant Underway(used, acc, whole, EdgesMentions(es[k..], binding), clear)
      invariant Gaining(used, acc, names, PartNames(st, hs[k..], binding))
    {
      r := CollectEdgeVars(arena, hs[k], acc, binding);
      assert hs[k..][1..] == hs[k + 1..];
      GainOn(used, acc, names, PartName(st, hs[k], binding), PartNames(st, hs[k + 1..], binding), r);
      EdgesMentionsAt(es, k, binding);
      Onward(used, acc, whole, EdgeMentions(es[k], binding), EdgesMentions(es[k + 1..], binding), clear, r,
             EdgeClear(st, es[k]));
      if r.Err? { return; }
      acc := r.value;
    }
    EdgesMentionsAt(es, |hs|, binding);
    Complete(used, acc, whole, clear);
    GainBounds(used, acc, names);
    return Ok(acc);
  }

  lemma EdgesMentionsAt(es: seq<EdgePat>, k: nat, binding: bool)
    requires k <= |es|
    ensures k < |es| ==>
      EdgesMentions(es[k..], binding) == EdgeMentions(es[k], binding) + EdgesMentions(es[k + 1..], binding)
    ensures k == |es| ==> EdgesMentions(es[k..], binding) == {}
  {
    if k < |es| { assert es[k..][1..] == es[k + 1..]; }
  }

  method CollectPaths(arena: QueryAstArena, hs: seq<Handle>, used: set<string>, binding: bool)
    returns (r: Result<set<string>>)
    requires arena.Valid() && Shaped(arena.View()) && forall k :: 0 <= k < |hs| ==> IsPath(arena.View(), hs[k])
    ensures var ps := PathsOf(arena.View(), hs);
      Collected(used, r, PathsMentions(ps, binding), PathsClear(arena.View(), ps))
    ensures Gained(used, r, PartNames(arena.View(), hs, binding))
  {
    hide Wf, Shaped, PathOf, PathMentions, PathClear, Underway, NamesBelow, PartName, Gained, Gaining;
    ghost var st := arena.View();
    ghost var ps := PathsOf(arena.View(), hs);
    ghost var whole, names := PathsMentions(ps, binding), PartNames(st, hs, binding);
    var acc := used;
    assert ps[0..] == ps && hs[0..] == hs;
    Starting(used, whole, PathsClear(st, ps));
    GainBounds(used, acc, names);
    for k := 0 to |hs|
      invariant Underway(used, acc, whole, PathsMentions(ps[k..], binding), PathsClear(st, ps))
      invariant Gaining(used, acc, names, PartNames(st, hs[k..], binding))
    {
      r := CollectPathVars(arena, hs[k], acc, binding);
      assert hs[k..][1..] == hs[k + 1..];
      GainOn(used, acc, names, PartName(st, hs[k], binding), PartNames(st, hs[k + 1..], binding), r);
      assert ps[k..][1..] == ps[k + 1..];
      Onward(used, acc, whole, PathMentions(ps[k], binding), PathsMentions(ps[k + 1..], binding), PathsClear(st, ps),
             r, PathClear(st, ps[k]));
      if r.Err? { return; }
      acc := r.value;
    }
    assert ps[|hs|..] == [];
    Complete(used, acc, whole, PathsClear(st, ps));
    GainBounds(used, acc, names);
    return Ok(acc);
  }

  // ---------- Clauses ----------

  ghost function SettingVars(st: Store, h: Handle): set<string>
    requires Wf(st)
  {
    if NodeAt(st, h).SetItem? then
      ExprVars(TreeOf(st, NodeAt(st, h).starget)) + ExprVars(TreeOf(st, NodeAt(st, h).svalue))
    else {}
  }

  ghost function SettingsVars(st: Store, hs: seq<Handle>): set<string>
    requires Wf(st)
  {
    if hs == [] then {} else SettingVars(st, hs[0]) + SettingsVars(st, hs[1..])
  }

  ghost predicate SettingClear(st: Store, h: Handle)
    requires Wf(st)
  {
    NodeAt(st, h).SetItem? ==>
      Clear(st, TreeOf(st, NodeAt(st, h).starget)) && Clear(st, TreeOf(st, NodeAt(st, h).svalue))
  }

  ghost predicate SettingsClear(st: Store, hs: seq<Handle>)
    requires Wf(st)
  {
    forall k :: 0 <= k < |hs| ==> SettingClear(st, hs[k])
  }

  /** Operands and a filter: WITH, RETURN and the rest read them off these two. */
  ghost function ListVars(st: Store, hs: seq<Handle>, w: Option<Handle>): set<string>
    requires Wf(st)
  {
    ExprsVars(TreesOf(st, hs)) + OptVars(WhereOf(st, w))
  }

  /** The variables a clause mentions, as the pass collects them. */
  ghost function ClauseVars(st: Store, h: Handle): set<string>
    requires Wf(st)
  {
    match NodeAt(st, h)
    case LoadCsvClause(u, _, x) => {x} + ExprVars(TreeOf(st, u))
    case UnwindClause(e, x) => {x} + ExprVars(TreeOf(st, e))
    case LetClause(x, e) => {x} + ExprVars(TreeOf(st, e))
    case FilterClause(p) => ExprVars(TreeOf(st, p))
    case WithClause(_, ps, os, _, _, w) => ListVars(st, ItemHandles(ps) + KeyHandles(os), w)
    case ReturnClause(_, ps, os, _, _) => ListVars(st, ItemHandles(ps) + KeyHandles(os), None)
    case MatchClause(_, ps, w) => OptVars(WhereOf(st, w)) + PathsMentions(PathsOf(st, ps), false)
    case CreateClause(ps) => PathsMentions(PathsOf(st, ps), true)
    case MergeClause(p, c, m) => PathMentions(PathOf(st, p), true) + SettingsVars(st, c) + SettingsVars(st, m)
    case SetClause(ss) => SettingsVars(st, ss)
    case DeleteClause(_, ts) => ExprsVars(TreesOf(st, ts))
    case RemoveClause(rs) => ExprsVars(TreesOf(st, rs))
    case _ => {}
  }

  ghost predicate OptClear(st: Store, o: Option<Expr>) {
    o.Some? ==> Clear(st, o.value)
  }

  ghost predicate ClauseClear(st: Store, h: Handle)
    requires Wf(st)
  {
    match NodeAt(st, h)
    case LoadCsvClause(u, _, _) => Clear(st, TreeOf(st, u))
    case UnwindClause(e, _) => Clear(st, TreeOf(st, e))
    case LetClause(_, e) => Clear(st, TreeOf(st, e))
    case FilterClause(p) => Clear(st, TreeOf(st, p))
    case WithClause(_, ps, os, _, _, w) =>
      AllClear(st, TreesOf(st, ItemHandles(ps) + KeyHandles(os))) && OptClear(st, WhereOf(st, w))
    case ReturnClause(_, ps, os, _, _) => AllClear(st, TreesOf(st, ItemHandles(ps) + KeyHandles(os)))
    case MatchClause(_, ps, w) => OptClear(st, WhereOf(st, w)) && PathsClear(st, PathsOf(st, ps))
    case CreateClause(ps) => PathsClear(st, PathsOf(st, ps))
    case MergeClause(p, c, m) => PathClear(st, PathOf(st, p)) && SettingsClear(st, c) && SettingsClear(st, m)
    case SetClause(ss) => SettingsClear(st, ss)
    case DeleteClause(_, ts) => AllClear(st, TreesOf(st, ts))
    case RemoveClause(rs) => AllClear(st, TreesOf(st, rs))
    case _ => true
  }

  /** One operand, then the next. */
  method CollectOperand(arena: QueryAstArena, h: Handle, used: set<string>) returns (r: Result<set<string>>)
    requires arena.Valid() && Known(arena.View(), h)
    ensures var e := TreeOf(arena.View(), h); Collected(used, r, ExprVars(e), Clear(arena.View(), e))
    ensures Gained(used, r, OperandNames(arena.View(), h))
  {
    r := CollectExprVars(arena, h, used);
    ConditionVars(arena.View(), h, used, r);
  }

  method CollectWhere(arena: QueryAstArena, o: Option<Handle>, used: set<string>) returns (r: Result<set<string>>)
    requires arena.Valid() && IsWhere(arena.View(), o)
    ensures var e := WhereOf(arena.View(), o); Collected(used, r, OptVars(e), OptClear(arena.View(), e))
    ensures Gained(used, r, ReadNames(arena.View(), OptSeq(o)))
  {
    if o.None? {
      assert used + {} == used;
      return Ok(used);
    }
    assert OptSeq(o)[1..] == [];
    hide OperandNames;
    r := CollectExprVars(arena, o.value, used);
  }

  method CollectSettings(arena: QueryAstArena, hs: seq<Handle>, used: set<string>) returns (r: Result<set<string>>)
    requires arena.Valid() && forall k :: 0 <= k < |hs| ==> NodeAt(arena.View(), hs[k]).SetItem?
    ensures Collected(used, r, SettingsVars(arena.View(), hs), SettingsClear(arena.View(), hs))
    ensures forall binding :: Gained(used, r, PartNames(arena.View(), hs, binding))
  {
    hide Wf, Collected, Underway, Clear, TreeOf, ExprVars, NamesBelow, OperandNames, Gained, Gaining;
    ghost var st := arena.View();
    ghost var whole, clear := SettingsVars(st, hs), SettingsClear(st, hs);
    var acc := used;
    assert hs[0..] == hs;
    Starting(used, whole, clear);
    GainBounds(used, acc, PartNames(st, hs, true));
    GainBounds(used, acc, PartNames(st, hs, false));
    for k := 0 to |hs|
      invariant Underway(used, acc, whole, SettingsVars(st, hs[k..]), clear)
      invariant Gaining(used, acc, PartNames(st, hs, true), PartNames(st, hs[k..], true))
      invariant Gaining(used, acc, PartNames(st, hs, false), PartNames(st, hs[k..], false))
    {
      var n := arena.nodes[hs[k].index];
      ghost var t, v := TreeOf(st, n.starget), TreeOf(st, n.svalue);
      PredsBelow(st, hs[k]);
      assert n.starget in Handles(n) && n.svalue in Handles(n);
      var one := CollectOperand(arena, n.starget, acc);
      r := one;
      if one.Ok? {
        r := CollectOperand(arena, n.svalue, one.value);
      }
      Next(acc, one, ExprVars(t), Clear(st, t), r, ExprVars(v), Clear(st, v));
      assert hs[k..][1..] == hs[k + 1..];
      GainNext(acc, one, OperandNames(st, n.starget), r, OperandNames(st, n.svalue));
      NodeNames(st, hs[k], true);
      NodeNames(st, hs[k], false);
      GainOn(used, acc, PartNames(st, hs, true), PartName(st, hs[k], true), PartNames(st, hs[k + 1..], true), r);
      GainOn(used, acc, PartNames(st, hs, false), PartName(st, hs[k], false), PartNames(st, hs[k + 1..], false), r);
      Onward(used, acc, whole, ExprVars(t) + ExprVars(v), SettingsVars(st, hs[k + 1..]), clear, r,
             Clear(st, t) && Clear(st, v));
      if r.Err? { return; }
      acc := r.value;
    }
    Complete(used, acc, whole, clear);
    GainBounds(used, acc, PartNames(st, hs, true));
    GainBounds(used, acc, PartNames(st, hs, false));
    return Ok(acc);
  }

  ghost predicate Collectable(st: Store, h: Handle) {
    Wf(st) && Shaped(st) && h.At? && h.index < |st.nodes|
  }

  ghost predicate ClauseCollected(st: Store, h: Handle, used: set<string>, r: Result<set<string>>)
    requires Wf(st)
  {
    Collected(used, r, ClauseVars(st, h), ClauseClear(st, h))
  }

  /** The clauses that introduce one name: LOAD CSV, UNWIND and LET. */
  method CollectNamed(arena: QueryAstArena, e: Handle, x: string, used: set<string>) returns (r: Result<set<string>>)
    requires arena.Valid() && Known(arena.View(), e)
    ensures var t := TreeOf(arena.View(), e); Collected(used, r, {x} + ExprVars(t), Clear(arena.View(), t))
    ensures Gained(used, r, {x} + OperandNames(arena.View(), e))
  {
    hide OperandNames;
    r := CollectOperand(arena, e, used);
    if r.Ok? {
      assert used + ({x} + ExprVars(TreeOf(arena.View(), e))) == used + ExprVars(TreeOf(arena.View(), e)) + {x};
      assert used + ({x} + OperandNames(arena.View(), e)) == used + OperandNames(arena.View(), e) + {x};
      return Ok(r.value + {x});
    }
  }

  method CollectProjection(arena: QueryAstArena, h: Handle, hs: seq<Handle>, w: Option<Handle>, used: set<string>)
    returns (r: Result<set<string>>)
    requires arena.Valid() && IsWhere(arena.View(), w)
    requires forall c :: c in hs ==> Known(arena.View(), c) && Rk(arena.View(), c) < Rk(arena.View(), h)
    ensures var st := arena.View();
      Collected(used, r, ListVars(st, hs, w), AllClear(st, TreesOf(st, hs)) && OptClear(st, WhereOf(st, w)))
    ensures Gained(used, r, ReadNames(arena.View(), hs + OptSeq(w)))
  {
    hide ReadNames, Gained;
    ghost var st := arena.View();
    var one := CollectList(arena, hs, used, Rk(st, h));
    r := one;
    if one.Ok? {
      r := CollectWhere(arena, w, one.value);
    }
    Next(used, one, ExprsVars(TreesOf(st, hs)), AllClear(st, TreesOf(st, hs)), r, OptVars(WhereOf(st, w)),
         OptClear(st, WhereOf(st, w)));
    GainNext(used, one, ReadNames(st, hs), r, ReadNames(st, OptSeq(w)));
    ReadNamesConcat(st, hs, OptSeq(w));
  }

  /** The clauses of a statement. */
  predicate IsClause(n: AstNode) {
    || n.LoadCsvClause? || n.UnwindClause? || n.LetClause? || n.FilterClause? || n.WithClause? || n.ReturnClause?
    || n.MatchClause? || IsMutation(n)
  }

  lemma ClauseSplit(st: Store, h: Handle)
    requires Wf(st) && There(st, h) && IsClause(st.nodes[h.index])
    ensures var n := st.nodes[h.index];
      ClauseNames(st, h) == OptVar(Introduced(n)) + ReadNames(st, OperandsOf(n)) + PartNames(st, Parts(n), Binds(n))
  {
    hide Wf, NamesBelow, ReadNames, PartNames;
    NamesParts(st, h, Binds(st.nodes[h.index]));
  }

  /** The names of a clause, kind by kind. */
  ghost function KindNames(st: Store, n: AstNode): set<string>
    requires Wf(st)
  {
    match n
    case LoadCsvClause(u, _, x) => {x} + OperandNames(st, u)
    case UnwindClause(e, x) => {x} + OperandNames(st, e)
    case LetClause(x, e) => {x} + OperandNames(st, e)
    case FilterClause(p) => OperandNames(st, p)
    case WithClause(_, ps, os, _, _, w) => ReadNames(st, ItemHandles(ps) + KeyHandles(os) + OptSeq(w))
    case ReturnClause(_, ps, os, _, _) => ReadNames(st, ItemHandles(ps) + KeyHandles(os) + OptSeq(None))
    case MatchClause(_, ps, w) => ReadNames(st, OptSeq(w)) + PartNames(st, ps, false)
    case CreateClause(ps) => PartNames(st, ps, true)
    case MergeClause(p, c, m) => PartName(st, p, true) + (PartNames(st, c, true) + PartNames(st, m, true))
    case SetClause(ss) => PartNames(st, ss, false)
    case DeleteClause(_, ts) => ReadNames(st, ts)
    case RemoveClause(rs) => ReadNames(st, rs)
    case _ => {}
  }

  lemma ClauseKinds(st: Store, h: Handle)
    requires Wf(st) && There(st, h) && IsClause(st.nodes[h.index])
    ensures ClauseNames(st, h) == KindNames(st, st.nodes[h.index])
  {
    hide Wf, ClauseNames, OperandNames, PartName;
    var n := st.nodes[h.index];
    ClauseSplit(st, h);
    match n
    case LoadCsvClause(u, _, _) => assert [u][1..] == [];
    case UnwindClause(e, _) => assert [e][1..] == [];
    case LetClause(_, e) => assert [e][1..] == [];
    case FilterClause(p) => assert [p][1..] == [];
    case ReturnClause(_, ps, os, _, _) =>
      assert ItemHandles(ps) + KeyHandles(os) + OptSeq(None) == ItemHandles(ps) + KeyHandles(os);
    case MergeClause(p, c, m) =>
      assert ([p] + (c + m))[1..] == c + m;
      PartNamesConcat(st, c, m, true);
    case _ =>
  }

  method CollectMatch(arena: QueryAstArena, h: Handle, used: set<string>) returns (r: Result<set<string>>)
    requires Collectable(arena.View(), h) && arena.nodes[h.index].MatchClause?
    ensures ClauseCollected(arena.View(), h, used, r) && Gained(used, r, ClauseNames(arena.View(), h))
  {
    hide ReadNames, PartNames, ClauseNames, Gained;
    ghost var st := arena.View();
    var n := arena.nodes[h.index];
    assert NodeShaped(st, n);
    ClauseKinds(st, h);
    var one := CollectWhere(arena, n.mwhere, used);
    r := one;
    if one.Ok? {
      r := CollectPaths(arena, n.paths, one.value, false);
    }
    ghost var f, ps := WhereOf(st, n.mwhere), PathsOf(st, n.paths);
    Next(used, one, OptVars(f), OptClear(st, f), r, PathsMentions(ps, false), PathsClear(st, ps));
    GainNext(used, one, ReadNames(st, OptSeq(n.mwhere)), r, PartNames(st, n.paths, false));
  }

  method CollectBothSettings(arena: QueryAstArena, a: seq<Handle>, b: seq<Handle>, used: set<string>)
    returns (r: Result<set<string>>)
    requires arena.Valid() && forall h :: h in a + b ==> NodeAt(arena.View(), h).SetItem?
    ensures var st := arena.View();
      Collected(used, r, SettingsVars(st, a) + SettingsVars(st, b), SettingsClear(st, a) && SettingsClear(st, b))
    ensures Gained(used, r, PartNames(arena.View(), a, true) + PartNames(arena.View(), b, true))
  {
    ghost var st := arena.View();
    assert forall k :: 0 <= k < |a| ==> a[k] in a + b;
    assert forall k :: 0 <= k < |b| ==> b[k] in a + b;
    hide Wf, SettingsVars, SettingsClear, Collected, PartNames, Gained;
    var one := CollectSettings(arena, a, used);
    r := one;
    if one.Ok? {
      r := CollectSettings(arena, b, one.value);
    }
    assert one.Err? ==> r.Err?;
    Next(used, one, SettingsVars(st, a), SettingsClear(st, a), r, SettingsVars(st, b), SettingsClear(st, b));
    GainNext(used, one, PartNames(st, a, true), r, PartNames(st, b, true));
  }

  method CollectMerge(arena: QueryAstArena, h: Handle, used: set<string>) returns (r: Result<set<string>>)
    requires Collectable(arena.View(), h) && arena.nodes[h.index].MergeClause?
    ensures ClauseCollected(arena.View(), h, used, r) && Gained(used, r, ClauseNames(arena.View(), h))
  {
    hide PartNames, PartName, ClauseNames, Gained;
    ghost var st := arena.View();
    var n := arena.nodes[h.index];
    assert NodeShaped(st, n);
    ClauseKinds(st, h);
    ghost var p := PathOf(st, n.mpath);
    ghost var c, m := SettingsVars(st, n.onCreate), SettingsVars(st, n.onMatch);
    assert ClauseVars(st, h) == PathMentions(p, true) + (c + m);
    assert ClauseClear(st, h) <==> PathClear(st, p) && (SettingsClear(st, n.onCreate) && SettingsClear(st, n.onMatch));
    hide Wf, Shaped, Handles, SettingsVars, SettingsClear, PathMentions, PathClear, PathOf, Collected, ClauseVars,
      ClauseClear;
    var one := CollectPathVars(arena, n.mpath, used, true);
    r := one;
    if one.Ok? {
      r := CollectBothSettings(arena, n.onCreate, n.onMatch, one.value);
    }
    assert one.Err? ==> r.Err?;
    Next(used, one, PathMentions(p, true), PathClear(st, p), r, c + m,
         SettingsClear(st, n.onCreate) && SettingsClear(st, n.onMatch));
    GainNext(used, one, PartName(st, n.mpath, true), r,
             PartNames(st, n.onCreate, true) + PartNames(st, n.onMatch, true));
  }

  /** One clause of `collect_used_variables`. */
  method CollectClause(arena: QueryAstArena, h: Handle, used: set<string>) returns (r: Result<set<string>>)
    requires Collectable(arena.View(), h)
    ensures ClauseCollected(arena.View(), h, used, r)
    ensures IsClause(arena.nodes[h.index]) ==> Gained(used, r, ClauseNames(arena.View(), h))
  {
    hide ReadNames, PartNames, ClauseNames, Gained, OperandNames, SettingsVars, SettingsClear, PathsMentions,
      PathsClear, Collected, Clear, ExprVars, TreeOf;
    ghost var st := arena.View();
    var n := arena.nodes[h.index];
    PredsBelow(st, h);
    if IsClause(n) { ClauseKinds(st, h); }
    assert NodeShaped(st, n);
    match n {
      case LoadCsvClause(u, _, x) => r := CollectNamed(arena, u, x, used);
      case UnwindClause(e, x) => r := CollectNamed(arena, e, x, used);
      case LetClause(x, e) => r := CollectNamed(arena, e, x, used);
      case FilterClause(p) => r := CollectOperand(arena, p, used);
      case WithClause(_, ps, os, _, _, w) =>
        r := CollectProjection(arena, h, ItemHandles(ps) + KeyHandles(os), w, used);
      case ReturnClause(_, ps, os, _, _) =>
        r := CollectProjection(arena, h, ItemHandles(ps) + KeyHandles(os), None, used);
      case MatchClause(_, _, _) => r := CollectMatch(arena, h, used);
      case CreateClause(ps) => r := CollectPaths(arena, ps, used, true);
      case MergeClause(_, _, _) => r := CollectMerge(arena, h, used);
      case SetClause(ss) => r := CollectSettings(arena, ss, used);
      case DeleteClause(_, ts) => r := CollectList(arena, ts, used, Rk(st, h));
      case RemoveClause(rs) => r := CollectList(arena, rs, used, Rk(st, h));
      case _ =>
        NothingCollected(used);
        r := Ok(used);
    }
  }

  lemma NothingCollected(used: set<string>)
    ensures Collected(used, Ok(used), {}, true) && Gained(used, Ok(used), {})
  {
    assert used + {} == used;
  }

  ghost function ClausesVars(st: Store, hs: seq<Handle>): set<string>
    requires Wf(st)
  {
    if hs == [] then {} else ClauseVars(st, hs[0]) + ClausesVars(st, hs[1..])
  }

  ghost predicate ClausesClear(st: Store, hs: seq<Handle>)
    requires Wf(st)
  {
    forall k :: 0 <= k < |hs| ==> hs[k].At? && ClauseClear(st, hs[k])
  }

  method CollectClauses(arena: QueryAstArena, hs: seq<Handle>, used: set<string>) returns (r: Result<set<string>>)
    requires arena.Valid() && Shaped(arena.View()) && forall h :: h in hs ==> Known(arena.View(), h)
    ensures Collected(used, r, ClausesVars(arena.View(), hs), ClausesClear(arena.View(), hs))
    ensures AllClauses(arena.View(), hs) ==> Gained(used, r, ClausesNames(arena.View(), hs))
  {
    hide ClauseVars, ClauseClear, Wf, Shaped, Underway, ClauseNames, Gained, Gaining, IsClause;
    ghost var st := arena.View();
    ghost var names, all := ClausesNames(st, hs), AllClauses(st, hs);
    var acc := used;
    assert hs[0..] == hs;
    GainBounds(used, acc, names);
    assert Underway(used, acc, ClausesVars(st, hs), ClausesVars(st, hs[0..]), ClausesClear(st, hs)) by {
      Starting(used, ClausesVars(st, hs), ClausesClear(st, hs));
    }
    for k := 0 to |hs|
      invariant Underway(used, acc, ClausesVars(st, hs), ClausesVars(st, hs[k..]), ClausesClear(st, hs))
      invariant all ==> Gaining(used, acc, names, ClausesNames(st, hs[k..]))
    {
      assert hs[k] in hs;
      var got := arena.Get(hs[k]);
      if got.Err? {
        GainFails(used, got.error, names);
        return Err(got.error);
      }
      r := CollectClause(arena, hs[k], acc);
      assert hs[k..][1..] == hs[k + 1..];
      if all { GainOn(used, acc, names, ClauseNames(st, hs[k]), ClausesNames(st, hs[k + 1..]), r); }
      Onward(used, acc, ClausesVars(st, hs), ClauseVars(st, hs[k]), ClausesVars(st, hs[k + 1..]), ClausesClear(st, hs),
             r, ClauseClear(st, hs[k]));
      if r.Err? { return; }
      acc := r.value;
    }
    Complete(used, acc, ClausesVars(st, hs), ClausesClear(st, hs));
    assert hs[|hs|..] == [];
    assert acc + ClausesVars(st, []) == acc;
    GainBounds(used, acc, names);
    return Ok(acc);
  }

  lemma GainFails(used: set<string>, e: string, names: set<string>)
    ensures Gained(used, Err(e), names)
  {
  }

  ghost predicate AllClauses(st: Store, hs: seq<Handle>) {
    forall k :: 0 <= k < |hs| && There(st, hs[k]) ==> IsClause(st.nodes[hs[k].index])
  }

  // ---------- The statement ----------

  /** Every clause, in the order `collect_used_variables` goes through them. */
  function CollectOrder(n: AstNode): seq<Handle>
    requires n.QueryStatement?
  {
    OptSeq(n.loadCsv) + n.unwinds + n.linear + n.withs + OptSeq(n.resultClause) + n.matches + n.mutations
  }

  /** `collect_used_variables`. */
  method CollectUsedVariables(arena: QueryAstArena, root: Handle) returns (r: Result<set<string>>)
    requires arena.Valid() && Shaped(arena.View()) && NodeAt(arena.View(), root).QueryStatement?
    ensures var st := arena.View();
      var hs := CollectOrder(NodeAt(st, root));
      Collected({}, r, ClausesVars(st, hs), ClausesClear(st, hs))
    ensures r.Ok? ==> forall x :: x in r.value <==> Mentioned(arena.View(), root, x)
  {
    ghost var st := arena.View();
    PredsBelow(st, root);
    var n := arena.nodes[root.index];
    assert forall h :: h in CollectOrder(n) ==> h in Handles(n);
    OrderedClauses(st, root);
    r := CollectClauses(arena, CollectOrder(n), {});
    hide Wf, Shaped, Mentioned, ClausesNames;
    forall x ensures x in ClausesNames(st, CollectOrder(n)) <==> Mentioned(st, root, x) {
      MentionedIff(st, root, x);
    }
  }

  /** Some clause of the statement mentions the name. */
  ghost predicate Mentioned(st: Store, root: Handle, x: string)
    requires Wf(st)
  {
    exists c :: c in Handles(NodeAt(st, root)) && Mentioning(st, c, x)
  }

  lemma OrderedClauses(st: Store, root: Handle)
    requires Wf(st) && Shaped(st) && NodeAt(st, root).QueryStatement?
    ensures AllClauses(st, CollectOrder(NodeAt(st, root)))
  {
    var n := NodeAt(st, root);
    assert NodeShaped(st, n);
    hide Wf, Shaped;
    forall h | h in CollectOrder(n) && There(st, h) ensures IsClause(st.nodes[h.index]) {
      assert NodeAt(st, h) == st.nodes[h.index];
      assert n.loadCsv.Some? ==> NodeAt(st, n.loadCsv.value).LoadCsvClause?;
    }
    forall k | 0 <= k < |CollectOrder(n)| && There(st, CollectOrder(n)[k])
      ensures IsClause(st.nodes[CollectOrder(n)[k].index])
    {
      assert CollectOrder(n)[k] in CollectOrder(n);
    }
  }

  lemma MentionedIff(st: Store, root: Handle, x: string)
    requires Wf(st) && NodeAt(st, root).QueryStatement?
    ensures x in ClausesNames(st, CollectOrder(NodeAt(st, root))) <==> Mentioned(st, root, x)
  {
    var n := NodeAt(st, root);
    ClausesNamesIff(st, CollectOrder(n), x);
    assert forall c :: c in CollectOrder(n) <==> c in Handles(n);
  }

  // ---------- What the statement reads is among it ----------

  lemma {:induction false} ClausesVarsAt(st: Store, hs: seq<Handle>, k: nat)
    requires Wf(st) && k < |hs|
    ensures ClauseVars(st, hs[k]) <= ClausesVars(st, hs)
    decreases k
  {
    if k > 0 { ClausesVarsAt(st, hs[1..], k - 1); }
  }

  lemma {:induction false} ClausesVarsConcat(st: Store, a: seq<Handle>, b: seq<Handle>)
    requires Wf(st)
    ensures ClausesVars(st, a + b) == ClausesVars(st, a) + ClausesVars(st, b)
    decreases |a|
  {
    if a == [] {
      assert a + b == b;
    } else {
      assert (a + b)[1..] == a[1..] + b;
      ClausesVarsConcat(st, a[1..], b);
    }
  }

  lemma {:induction false} ItemsListed(st: Store, ps: seq<ProjectionItem>)
    requires Wf(st)
    ensures ExprsVars(TreesOf(st, ItemHandles(ps))) == ItemsVars(ItemsOf(st, ps))
    decreases |ps|
  {
    if ps != [] {
      ItemsListed(st, ps[1..]);
      assert TreesOf(st, ItemHandles(ps))[1..] == TreesOf(st, ItemHandles(ps[1..]));
      assert ItemsOf(st, ps)[1..] == ItemsOf(st, ps[1..]);
    }
  }

  lemma {:induction false} KeysListed(st: Store, os: seq<(Handle, bool)>)
    requires Wf(st)
    ensures ExprsVars(TreesOf(st, KeyHandles(os))) == KeysVars(KeysOf(st, os))
    decreases |os|
  {
    if os != [] {
      KeysListed(st, os[1..]);
      assert TreesOf(st, KeyHandles(os))[1..] == TreesOf(st, KeyHandles(os[1..]));
      assert KeysOf(st, os)[1..] == KeysOf(st, os[1..]);
    }
  }

  lemma ProjectionListed(st: Store, ps: seq<ProjectionItem>, os: seq<(Handle, bool)>)
    requires Wf(st)
    ensures ExprsVars(TreesOf(st, ItemHandles(ps) + KeyHandles(os)))
      == ItemsVars(ItemsOf(st, ps)) + KeysVars(KeysOf(st, os))
  {
    ItemsListed(st, ps);
    KeysListed(st, os);
    TreesConcat(st, ItemHandles(ps), KeyHandles(os));
    VarsConcat(TreesOf(st, ItemHandles(ps)), TreesOf(st, KeyHandles(os)));
  }

  lemma {:induction false} UnwindsListed(st: Store, hs: seq<Handle>, us: seq<Unwind>)
    requires Wf(st) && |us| == |hs|
    requires forall k :: 0 <= k < |hs| ==> NodeAt(st, hs[k]).UnwindClause? && us[k] == UnwindOf(st, hs[k])
    ensures ClausesVars(st, hs) == UnwindsVars(us)
    decreases |hs|
  {
    if hs != [] { UnwindsListed(st, hs[1..], us[1..]); }
  }

  lemma {:induction false} LinearListed(st: Store, hs: seq<Handle>, ls: seq<Linear>)
    requires Wf(st) && |ls| == |hs|
    requires forall k :: 0 <= k < |hs| ==>
      (NodeAt(st, hs[k]).LetClause? || NodeAt(st, hs[k]).FilterClause?) && ls[k] == LinearOf(st, hs[k])
    ensures ClausesVars(st, hs) == LinearVars(ls)
    decreases |hs|
  {
    hide Wf, ClauseVars, LinearOf;
    if hs != [] {
      LinearListed(st, hs[1..], ls[1..]);
      LinearOne(st, hs[0]);
    }
  }

  lemma LinearOne(st: Store, h: Handle)
    requires Wf(st) && (NodeAt(st, h).LetClause? || NodeAt(st, h).FilterClause?)
    ensures ClauseVars(st, h) == match LinearOf(st, h) case Let(x, e) => {x} + ExprVars(e) case Keep(e) => ExprVars(e)
  {
  }

  lemma {:induction false} WithsListed(st: Store, hs: seq<Handle>, ps: seq<Projection>)
    requires Wf(st) && |ps| == |hs|
    requires forall k :: 0 <= k < |hs| ==> NodeAt(st, hs[k]).WithClause? && ps[k] == WithOf(st, hs[k])
    ensures ClausesVars(st, hs) == ProjectionsVars(ps)
    decreases |hs|
  {
    hide WithOf, ClauseVars, ProjectionVars;
    if hs != [] {
      WithListed(st, hs[0]);
      WithsListed(st, hs[1..], ps[1..]);
    }
  }

  lemma WithListed(st: Store, h: Handle)
    requires Wf(st) && NodeAt(st, h).WithClause?
    ensures ClauseVars(st, h) == ProjectionVars(WithOf(st, h))
  {
    hide Wf, ItemsOf, KeysOf, ItemHandles, KeyHandles, ItemsVars, KeysVars, ExprsVars, TreesOf;
    var n := NodeAt(st, h);
    ProjectionListed(st, n.wprojections, n.worder);
  }

  lemma {:induction false} MatchesListed(st: Store, hs: seq<Handle>)
    requires Wf(st) && forall k :: 0 <= k < |hs| ==> NodeAt(st, hs[k]).MatchClause?
    ensures ClausesVars(st, hs) == MatchesExprVars(MatchesOf(st, hs))
    decreases |hs|
  {
    hide Wf, ClauseVars, MatchOf;
    if hs != [] {
      MatchesListed(st, hs[1..]);
      assert MatchesOf(st, hs)[1..] == MatchesOf(st, hs[1..]);
      MatchListed(st, hs[0]);
    }
  }

  lemma MatchListed(st: Store, h: Handle)
    requires Wf(st) && NodeAt(st, h).MatchClause?
    ensures var c := MatchOf(st, h); ClauseVars(st, h) == OptVars(c.filter) + PathsExprVars(c.paths)
  {
    PathsMentionsRead(MatchOf(st, h).paths);
  }

  /**
   The collected set covers what the statement reads, and is exactly that when nothing is
   loaded or changed.
   */
  lemma CollectedCovers(st: Store, root: Handle)
    requires Wf(st) && Shaped(st) && NodeAt(st, root).QueryStatement?
    ensures var n := NodeAt(st, root);
      ClausesVars(st, CollectOrder(n))
        == UsedVars(StatementOf(st, root)) + ClausesVars(st, OptSeq(n.loadCsv)) + ClausesVars(st, n.mutations)
  {
    var n := NodeAt(st, root);
    assert NodeShaped(st, st.nodes[root.index]);
    var q := StatementOf(st, root);
    UnwindsListed(st, n.unwinds, q.unwinds);
    LinearListed(st, n.linear, q.linear);
    WithsListed(st, n.withs, q.withs);
    MatchesListed(st, n.matches);
    ResultListed(st, n.resultClause);
    OrderVars(st, n);
    hide ClausesVars, CollectOrder, UnwindsVars, LinearVars, ProjectionsVars, MatchesExprVars;
  }

  lemma OrderVars(st: Store, n: AstNode)
    requires Wf(st) && n.QueryStatement?
    ensures ClausesVars(st, CollectOrder(n)) ==
      ClausesVars(st, OptSeq(n.loadCsv)) + ClausesVars(st, n.unwinds) + ClausesVars(st, n.linear)
      + ClausesVars(st, n.withs)
      + ClausesVars(st, OptSeq(n.resultClause)) + ClausesVars(st, n.matches) + ClausesVars(st, n.mutations)
  {
    var a := OptSeq(n.loadCsv) + n.unwinds;
    var b := a + n.linear;
    var c := b + n.withs;
    var d := c + OptSeq(n.resultClause);
    var e := d + n.matches;
    hide ClausesVars;
    ClausesVarsConcat(st, OptSeq(n.loadCsv), n.unwinds);
    ClausesVarsConcat(st, a, n.linear);
    ClausesVarsConcat(st, b, n.withs);
    ClausesVarsConcat(st, c, OptSeq(n.resultClause));
    ClausesVarsConcat(st, d, n.matches);
    ClausesVarsConcat(st, e, n.mutations);
  }

  lemma ResultListed(st: Store, o: Option<Handle>)
    requires Wf(st) && (o.Some? ==> NodeAt(st, o.value).ReturnClause?)
    ensures ClausesVars(st, OptSeq(o)) == if ResultOf(st, o).Some? then ProjectionVars(ResultOf(st, o).value) else {}
  {
    if o.Some? {
      var n := NodeAt(st, o.value);
      ProjectionListed(st, n.rprojections, n.rorder);
      assert OptSeq(o)[1..] == [];
    }
  }
}
