/** Where pushdown brings in an evaluation error, and exactly when on two equalities over one node. */
module PushdownLimits {
  import opened Common
  import opened Ast
  import opened Trees
  import opened Semantics
  import opened Clauses
  import opened Matching
  import opened Running
  import opened Pushdown
  import opened PushdownClean
  import opened Pruning
  import opened PruneExact
  import opened Composition
  import opened NestedLimits

  /** `x.p = c`. */
  function Equal(x: string, p: string, c: Expr): Expr {
    EBin(Eq, EProp(EIdent(x), p), c)
  }

  /** `MATCH ... RETURN` with one clause. */
  function Returning(c: MatchCl): Statement {
    Statement([], [c], [], [], Some(Projection(false, [], [], None, None, None)))
  }

  /** `MATCH (x) WHERE x.a = c AND x.b = d RETURN`. */
  function Both(x: string, a: string, c: Expr, b: string, d: Expr): Statement {
    Returning(Seek(Some(x), EBin(And, Equal(x, a, c), Equal(x, b, d))))
  }

  /** The same with both equalities in the pattern. */
  function Hoisted(x: string, a: string, c: Expr, b: string, d: Expr): Statement {
    Returning(MatchCl(false, [Single(NodePat(Some(x), None, [Equal(x, a, c), Equal(x, b, d)]))], None))
  }

  lemma BothPushed(x: string, a: string, c: Expr, b: string, d: Expr)
    requires IsConstant(c) && IsConstant(d)
    ensures PushStatementOf(Both(x, a, c, b, d)) == Hoisted(x, a, c, b, d)
  {
    var p, q := Equal(x, a, c), Equal(x, b, d);
    var m := Seek(Some(x), EBin(And, p, q));
    var none, one := Progress([], m.paths, []), Progress([], [Single(NodePat(Some(x), None, [p]))], []);
    assert Conjuncts(EBin(And, p, q)) == [p] + [q] == [p, q];
    assert HoistVar(p) == Some(x) && HoistVar(q) == Some(x);
    assert PushOne(none, false, p) == one by { assert [] + [p] == [p]; }
    assert PushOne(one, false, q).paths == Hoisted(x, a, c, b, d).matches[0].paths by { assert [p] + [q] == [p, q]; }
    PushAllTwo(none, p, q);
    assert PushClause([], m) == [] + Hoisted(x, a, c, b, d).matches;
    assert [m][1..] == [];
    assert PushMatches([], [m]) == PushMatches(PushClause([], m), []) == PushClause([], m);
  }

  lemma PushAllTwo(g: Progress, p: Expr, q: Expr)
    ensures PushAll(g, false, [p, q]) == PushOne(PushOne(g, false, p), false, q)
  {
    hide PushOne;
    assert [p, q][1..] == [q] && [q][1..] == [];
    assert PushAll(PushOne(g, false, p), false, [q]) == PushAll(PushOne(PushOne(g, false, p), false, q), false, []);
  }

  // ---------- Errors of the two forms ----------

  function Met(x: string, n: Value): State {
    State(map[x := n], n, [n])
  }

  lemma EnterClean(x: string, rest: seq<Step>, w: World, g: Graph)
    ensures Clean([SEnter] + ([SHere(x)] + rest), START, w, g) <==>
      forall k :: 0 <= k < |g.nodes| ==> Clean(rest, Met(x, g.nodes[k]), w, g)
  {
    var here := [SHere(x)] + rest;
    var ss := Advance(SEnter, START, w, g);
    assert ([SEnter] + here)[1..] == here;
    AllCleanIn(here, ss, w, g);
    forall k | 0 <= k < |g.nodes| ensures Clean(here, ss[k], w, g) <==> Clean(rest, Met(x, g.nodes[k]), w, g) {
      assert here[1..] == rest && here[0] == SHere(x);
      assert map[][x := g.nodes[k]] == map[x := g.nodes[k]];
      assert Advance(SHere(x), ss[k], w, g) == [Met(x, g.nodes[k])];
      assert Met(x, g.nodes[k]) in [Met(x, g.nodes[k])];
    }
  }

  lemma ReturnClean(c: MatchCl, w: World, g: Graph)
    ensures StatementClean(Returning(c), w, g) <==> Clean(MatchSteps(c), START, w, g)
  {
    assert [c][1..] == [];
    assert MatchesSteps([c]) == MatchSteps(c) + [] == MatchSteps(c);
    assert StatementSteps(Returning(c)) == MatchSteps(c);
    hide Clean, Run, MatchSteps;
  }

  lemma BothClean(x: string, a: string, c: Expr, b: string, d: Expr, w: World, g: Graph)
    ensures StatementClean(Both(x, a, c, b, d), w, g) <==>
      forall k :: 0 <= k < |g.nodes| ==> Eval(EBin(And, Equal(x, a, c), Equal(x, b, d)), map[x := g.nodes[k]], w).Val?
  {
    var e := EBin(And, Equal(x, a, c), Equal(x, b, d));
    var rest := [SLeave, SPred(e)];
    SeekSteps(Some(x), e);
    assert Visit(Some(x)) + [SPred(e)] == [SEnter] + ([SHere(x)] + rest);
    hide MatchSteps, Seek, StatementClean, Eval;
    ReturnClean(Seek(Some(x), e), w, g);
    EnterClean(x, rest, w, g);
    forall k | 0 <= k < |g.nodes|
      ensures Clean(rest, Met(x, g.nodes[k]), w, g) <==> Eval(e, map[x := g.nodes[k]], w).Val?
    {
      LeaveClean(e, Met(x, g.nodes[k]), w, g);
    }
  }

  lemma LeaveClean(e: Expr, s: State, w: World, g: Graph)
    ensures Clean([SLeave, SPred(e)], s, w, g) <==> Eval(e, s.row, w).Val?
  {
    hide Eval;
    var t := State(s.row, VNull, []);
    assert [SLeave, SPred(e)][1..] == [SPred(e)];
    assert Advance(SLeave, s, w, g) == [t] && t in [t];
    CleanOne(SPred(e), t, w, g);
  }

  lemma HoistedClean(x: string, a: string, c: Expr, b: string, d: Expr, w: World, g: Graph)
    ensures StatementClean(Hoisted(x, a, c, b, d), w, g) <==>
      forall k :: 0 <= k < |g.nodes| ==> InTurn(Equal(x, a, c), Equal(x, b, d), map[x := g.nodes[k]], w)
  {
    var p, q := Equal(x, a, c), Equal(x, b, d);
    var m := Hoisted(x, a, c, b, d).matches[0];
    var rest := [SPred(p), SPred(q), SLeave];
    PatternSteps(x, p, q);
    hide MatchSteps, StatementClean, Eval;
    ReturnClean(m, w, g);
    EnterClean(x, rest, w, g);
    forall k | 0 <= k < |g.nodes|
      ensures Clean(rest, Met(x, g.nodes[k]), w, g) <==> InTurn(p, q, map[x := g.nodes[k]], w)
    {
      InTurnClean(p, q, Met(x, g.nodes[k]), w, g);
    }
  }

  /** The second is evaluated where the first is true. */
  predicate InTurn(p: Expr, q: Expr, row: Row, w: World) {
    Eval(p, row, w).Val? && (Accepts(p, row, w) ==> Eval(q, row, w).Val?)
  }

  lemma PatternSteps(x: string, p: Expr, q: Expr)
    ensures MatchSteps(MatchCl(false, [Single(NodePat(Some(x), None, [p, q]))], None))
         == [SEnter] + ([SHere(x)] + [SPred(p), SPred(q), SLeave])
  {
    var path := Single(NodePat(Some(x), None, [p, q]));
    assert [path][1..] == [];
    assert Preds([p, q]) == [SPred(p), SPred(q)] && Preds([]) == [];
    assert PathSteps(path) == [SEnter] + ([SHere(x)] + [SPred(p), SPred(q), SLeave]);
    assert PathsSteps([path]) == PathSteps(path) + [];
  }

  lemma InTurnClean(p: Expr, q: Expr, s: State, w: World, g: Graph)
    ensures Clean([SPred(p), SPred(q), SLeave], s, w, g) <==> InTurn(p, q, s.row, w)
  {
    hide Eval;
    var rest := [SPred(q), SLeave];
    assert [SPred(p), SPred(q), SLeave][1..] == rest && [SPred(p), SPred(q), SLeave][0] == SPred(p);
    assert Advance(SPred(p), s, w, g) == if Accepts(p, s.row, w) then [s] else [];
    assert s in [s];
    PredLeaves(q, s, w, g);
  }

  lemma PredLeaves(q: Expr, s: State, w: World, g: Graph)
    ensures Clean([SPred(q), SLeave], s, w, g) <==> Eval(q, s.row, w).Val?
  {
    hide Eval;
    assert [SPred(q), SLeave][1..] == [SLeave] && [SPred(q), SLeave][0] == SPred(q);
    forall t ensures Clean([SLeave], t, w, g) { CleanOne(SLeave, t, w, g); }
  }

  // ---------- The exact condition ----------

  /** The value of `x.p = c` where `x` is bound. */
  lemma EqualValue(x: string, p: string, c: Expr, n: Value, w: World)
    requires IsConstant(c)
    ensures Eval(Equal(x, p, c), map[x := n], w).Val? <==> Eval(c, map[], w).Val?
    ensures Eval(c, map[], w).Val? && Eval(c, map[], w).v.VNull? ==> Eval(Equal(x, p, c), map[x := n], w) == Val(VNull)
  {
    var row := map[x := n];
    ConstantEval(c, row, map[], w);
    assert Eval(EIdent(x), row, w) == Val(n);
    assert Eval(EProp(EIdent(x), p), row, w).Val?;
    EqUnfolds(Equal(x, p, c), row, w);
  }

  /** Every property is a node, and no two values of different kinds are equal. */
  function Unequal(w: World): World {
    w.(property := (v, p) => VNode(0), equal := (a, b) => VBool(false))
  }

  lemma UnequalValue(x: string, p: string, c: Expr, w: World)
    requires IsConstant(c) && Eval(c, map[], w).Val? && !Eval(c, map[], w).v.VNull?
    ensures forall n :: n in PAIR.nodes ==> Eval(Equal(x, p, c), map[x := n], Unequal(w)) == FALSE
  {
    forall n | n in PAIR.nodes ensures Eval(Equal(x, p, c), map[x := n], Unequal(w)) == FALSE {
      var row := map[x := n];
      ConstantElsewhere(c, map[], w, Unequal(w));
      ConstantEval(c, row, map[], Unequal(w));
      assert Eval(EIdent(x), row, Unequal(w)) == Val(n) && n.VNode?;
      assert Eval(EProp(EIdent(x), p), row, Unequal(w)) == Val(VNode(0));
      EqUnfolds(Equal(x, p, c), row, Unequal(w));
    }
  }

  lemma AndUnfolds(p: Expr, q: Expr, row: Row, w: World)
    ensures Eval(EBin(And, p, q), row, w) == AndVal(Eval(p, row, w), Eval(q, row, w))
  {
  }

  lemma KeepsClean(x: string, a: string, c: Expr, b: string, d: Expr, w: World, g: Graph)
    requires IsConstant(c) && IsConstant(d) && StatementClean(Both(x, a, c, b, d), w, g)
    requires Eval(d, map[], w).Val? && !Eval(d, map[], w).v.VNull? ==> Eval(c, map[], w).Val?
    ensures StatementClean(PushStatementOf(Both(x, a, c, b, d)), w, g)
  {
    hide StatementClean, Both, Hoisted, Equal, Eval, PushStatementOf;
    var p, q := Equal(x, a, c), Equal(x, b, d);
    BothPushed(x, a, c, b, d);
    BothClean(x, a, c, b, d, w, g);
    HoistedClean(x, a, c, b, d, w, g);
    forall k | 0 <= k < |g.nodes| ensures InTurn(p, q, map[x := g.nodes[k]], w) {
      AndUnfolds(p, q, map[x := g.nodes[k]], w);
      EqualValue(x, a, c, g.nodes[k], w);
      EqualValue(x, b, d, g.nodes[k], w);
    }
  }

  /** The second equality rejects every node, so the error of the first is not seen before pushdown. */
  lemma LosesClean(x: string, a: string, c: Expr, b: string, d: Expr, v: World)
    requires IsConstant(c) && IsConstant(d) && Eval(c, map[], v).Fail?
    requires forall n :: n in PAIR.nodes ==> Eval(Equal(x, b, d), map[x := n], v) == FALSE
    ensures StatementClean(Both(x, a, c, b, d), v, PAIR)
      && !StatementClean(PushStatementOf(Both(x, a, c, b, d)), v, PAIR)
  {
    hide StatementClean, Both, Hoisted, Equal, Eval, PushStatementOf;
    var p, q := Equal(x, a, c), Equal(x, b, d);
    BothPushed(x, a, c, b, d);
    BothClean(x, a, c, b, d, v, PAIR);
    HoistedClean(x, a, c, b, d, v, PAIR);
    forall k | 0 <= k < |PAIR.nodes| ensures Eval(EBin(And, p, q), map[x := PAIR.nodes[k]], v).Val? {
      assert PAIR.nodes[k] in PAIR.nodes;
      AndUnfolds(p, q, map[x := PAIR.nodes[k]], v);
    }
    EqualValue(x, a, c, PAIR.nodes[0], v);
    assert !InTurn(p, q, map[x := PAIR.nodes[0]], v);
  }

  /** The same parameters, literals and functions. */
  ghost predicate SameConstants(w: World, v: World) {
    v.param == w.param && v.literal == w.literal && v.call == w.call
  }

  /**
   `MATCH (x) WHERE x.a = c AND x.b = d RETURN` with constants `c` and `d`: pushdown keeps it
   free of errors on every graph and under every reading of properties and comparisons if and
   only if `c` has a value, unless `d` has none or is null.
   */
  lemma PushCleanIff(x: string, a: string, c: Expr, b: string, d: Expr, w: World)
    requires IsConstant(c) && IsConstant(d)
    ensures (forall v: World, g: Graph :: SameConstants(w, v) && StatementClean(Both(x, a, c, b, d), v, g) ==>
               StatementClean(PushStatementOf(Both(x, a, c, b, d)), v, g))
            <==> (Eval(d, map[], w).Val? && !Eval(d, map[], w).v.VNull? ==> Eval(c, map[], w).Val?)
  {
    hide StatementClean, Both, Eval, PushStatementOf;
    if Eval(d, map[], w).Val? && !Eval(d, map[], w).v.VNull? && Eval(c, map[], w).Fail? {
      UnequalValue(x, b, d, w);
      ConstantElsewhere(c, map[], w, Unequal(w));
      LosesClean(x, a, c, b, d, Unequal(w));
      assert SameConstants(w, Unequal(w));
    } else {
      forall v: World, g: Graph | SameConstants(w, v) && StatementClean(Both(x, a, c, b, d), v, g)
        ensures StatementClean(PushStatementOf(Both(x, a, c, b, d)), v, g)
      {
        ConstantElsewhere(c, map[], w, v);
        ConstantElsewhere(d, map[], w, v);
        KeepsClean(x, a, c, b, d, v, g);
      }
    }
  }

  /** Every parameter is a string, and every property is zero. */
  const TEXTUAL: World := PLAIN_WORLD.(param := s => Val(VString(s)), property := (v, p) => VInt(0))

  /**
   `MATCH (x) WHERE x.b = -$s AND x.a = 1 RETURN`: the second conjunct rejects every node, so the
   error of the first is never seen, until pushdown evaluates it on its own.
   */
  lemma PushdownFails()
    ensures var q := Both("x", "b", EUn(Neg, EParam("s")), "a", ELit(LInt(1)));
      StatementClean(q, TEXTUAL, PAIR) && !StatementClean(PushStatementOf(q), TEXTUAL, PAIR)
  {
    hide StatementClean, Both, Equal, Eval, PushStatementOf;
    TextualConstant();
    forall n | n in PAIR.nodes
      ensures Eval(Equal("x", "a", ELit(LInt(1))), map["x" := n], TEXTUAL) == FALSE
    {
      TextualValue(n);
    }
    LosesClean("x", "b", EUn(Neg, EParam("s")), "a", ELit(LInt(1)), TEXTUAL);
  }

  lemma TextualConstant()
    ensures Eval(EUn(Neg, EParam("s")), map[], TEXTUAL) == Fail
  {
    assert Eval(EParam("s"), map[], TEXTUAL) == Val(VString("s"));
  }

  lemma TextualValue(n: Value)
    requires n.VNode?
    ensures Eval(Equal("x", "a", ELit(LInt(1))), map["x" := n], TEXTUAL) == FALSE
  {
    var row := map["x" := n];
    assert Eval(EIdent("x"), row, TEXTUAL) == Val(n);
    assert Eval(EProp(EIdent("x"), "a"), row, TEXTUAL) == Val(VInt(0));
    assert Eval(ELit(LInt(1)), row, TEXTUAL) == Val(VInt(1));
    EqUnfolds(Equal("x", "a", ELit(LInt(1))), row, TEXTUAL);
  }
}
