/** The simplifications folding makes, as laws about whole expressions. */
module FoldingRules {
  import opened Common
  import opened Ast
  import opened Trees
  import opened Semantics
  import opened Folding

  const YES: Expr := ELit(LBool(true))
  const NO: Expr := ELit(LBool(false))

  function Num(i: i64): Expr {
    ELit(LInt(i))
  }

  // ---------- Identities ----------

  lemma SidesDecide(f: Expr)
    ensures FoldBin(f, And, YES) == FoldBin(YES, And, f) == f && FoldBin(f, Or, NO) == FoldBin(NO, Or, f) == f
    ensures FoldBin(f, And, NO) == FoldBin(NO, And, f) == NO && FoldBin(f, Or, YES) == FoldBin(YES, Or, f) == YES
  {
  }

  /** A constant side of AND or OR decides the whole, or leaves the other side. */
  lemma LogicIdentities(e: Expr)
    ensures Fold(EBin(And, e, YES)) == Fold(EBin(And, YES, e)) == Fold(e)
    ensures Fold(EBin(Or, e, NO)) == Fold(EBin(Or, NO, e)) == Fold(e)
    ensures Fold(EBin(And, e, NO)) == Fold(EBin(And, NO, e)) == NO
    ensures Fold(EBin(Or, e, YES)) == Fold(EBin(Or, YES, e)) == YES
  {
    hide FoldBin;
    SidesDecide(Fold(e));
  }

  lemma UnitsLeave(f: Expr)
    ensures FoldBin(f, Add, Num(0)) == FoldBin(Num(0), Add, f) == f
    ensures FoldBin(f, Mul, Num(1)) == FoldBin(Num(1), Mul, f) == f
    ensures FoldBin(f, Sub, Num(0)) == FoldBin(f, Div, Num(1)) == f
  {
  }

  /** Adding or subtracting zero, and multiplying or dividing by one, leaves the other side. */
  lemma NumberIdentities(e: Expr)
    ensures Fold(EBin(Add, e, Num(0))) == Fold(EBin(Add, Num(0), e)) == Fold(e)
    ensures Fold(EBin(Mul, e, Num(1))) == Fold(EBin(Mul, Num(1), e)) == Fold(e)
    ensures Fold(EBin(Sub, e, Num(0))) == Fold(EBin(Div, e, Num(1))) == Fold(e)
  {
    hide FoldBin;
    UnitsLeave(Fold(e));
  }

  // ---------- Negation ----------

  /** A negation on which no rule applies, down to its operand. */
  predicate Settled(f: Expr) {
    f.EUn? ==> FoldUn(f.uop, f.operand) == f && Settled(f.operand)
  }

  lemma {:induction false} FoldSettles(e: Expr)
    ensures Settled(Fold(e))
    decreases e, 1
  {
    match e
    case EBin(op, l, r) =>
      FoldSettles(l);
      FoldSettles(r);
      BinSettled(Fold(l), op, Fold(r));
    case EUn(op, x) =>
      FoldSettles(x);
      UnSettled(op, Fold(x));
    case ECase(s, bs, els) =>
      if els.Some? { FoldSettles(els.value); }
      if s.None? && PruneBranches(bs).hit.Some? { HitSettled(bs); }
    case _ =>
  }

  lemma BinSettled(l: Expr, op: BinaryOp, r: Expr)
    requires Settled(l) && Settled(r)
    ensures Settled(FoldBin(l, op, r))
  {
  }

  lemma UnSettled(op: UnaryOp, f: Expr)
    requires Settled(f)
    ensures Settled(FoldUn(op, f))
  {
  }

  lemma {:induction false} HitSettled(bs: seq<Branch>)
    requires PruneBranches(bs).hit.Some?
    ensures Settled(PruneBranches(bs).hit.value)
    decreases bs, 0
  {
    if bs != [] {
      assert (bs decreases to bs[0]);
      FoldSettles(bs[0].result);
      if !IsBool(FoldBranch(bs[0]).cond, true) { HitSettled(bs[1..]); }
    }
  }

  /** Two negations cancel. */
  lemma DoubleNegation(e: Expr)
    ensures Fold(EUn(Not, EUn(Not, e))) == Fold(e)
    ensures Fold(EUn(Neg, EUn(Neg, e))) == Fold(e)
  {
    FoldSettles(e);
  }

  // ---------- Constants move together ----------

  /** What the two constants of `(x op c) op d` come to, if it stays in range. */
  function Together(op: BinaryOp, c: i64, d: i64): int
    requires op in {Add, Sub, Mul}
  {
    if op == Mul then c * d else c + d
  }

  /**
   `(e op c) op d` keeps one constant when that is in range, and is left alone otherwise; so for
   every operand that does not itself fold to a number or to an operation of the same kind.
   */
  lemma ConstantsMerge(e: Expr, op: BinaryOp, c: i64, d: i64)
    requires op in {Add, Sub, Mul} && !Fold(e).ELit? && !(Fold(e).EBin? && Fold(e).op == op)
    requires c != (if op == Mul then 1 else 0) && d != (if op == Mul then 1 else 0)
    ensures Fold(EBin(op, EBin(op, e, Num(c)), Num(d))) ==
      if InI64(Together(op, c, d)) then EBin(op, Fold(e), Num(Together(op, c, d)))
      else EBin(op, EBin(op, Fold(e), Num(c)), Num(d))
  {
    var f, m := Fold(e), EBin(op, Fold(e), Num(c));
    assert FoldBin(f, op, Num(c)) == m;
    assert Fold(EBin(op, e, Num(c))) == m;
    assert FoldBin(m, op, Num(d)) ==
      if InI64(Together(op, c, d)) then EBin(op, f, Num(Together(op, c, d))) else EBin(op, m, Num(d));
  }

  /** The same for `(c + e) + d`, where the constant comes first. */
  lemma LeadingConstantMerges(e: Expr, c: i64, d: i64)
    requires !Fold(e).ELit? && c != 0 && d != 0
    ensures Fold(EBin(Add, EBin(Add, Num(c), e), Num(d))) ==
      if InI64(c + d) then EBin(Add, Fold(e), Num(c + d)) else EBin(Add, EBin(Add, Num(c), Fold(e)), Num(d))
  {
    var f, m := Fold(e), EBin(Add, Num(c), Fold(e));
    assert FoldBin(Num(c), Add, f) == m;
    assert Fold(EBin(Add, Num(c), e)) == m;
    assert FoldBin(m, Add, Num(d)) == if InI64(c + d) then EBin(Add, f, Num(c + d)) else EBin(Add, m, Num(d));
  }

  // ---------- Everywhere ----------

  ghost predicate Optionally(o: Option<Expr>, r: Option<Expr>) {
    if o.Some? then r.Some? && r.value == Fold(o.value) else r.None?
  }

  ghost predicate Pointwise(es: seq<Expr>, rs: seq<Expr>) {
    |rs| == |es| && forall k :: 0 <= k < |es| ==> rs[k] == Fold(es[k])
  }

  /**
   Folding reaches every argument, element, filter and projection, and both sides of every branch
   of a CASE with a subject; it leaves names, properties, parameters and subqueries alone.
   */
  lemma FoldReaches(e: Expr)
    ensures e.ECall? ==> Fold(e).ECall? && Fold(e).fname == e.fname && Pointwise(e.args, Fold(e).args)
    ensures e.EListLit? ==> Fold(e).EListLit? && Pointwise(e.items, Fold(e).items)
    ensures e.EListComp? ==>
      && Fold(e).EListComp? && Fold(e).v == e.v && Fold(e).list == Fold(e.list)
      && Optionally(e.filter, Fold(e).filter) && Optionally(e.body, Fold(e).body)
    ensures e.EPatComp? ==>
      && Fold(e).EPatComp? && Fold(e).path == e.path && Optionally(e.filter, Fold(e).filter)
      && Fold(e).proj == Fold(e.proj)
    ensures e.ECase? && e.subject.Some? && e.branches != [] ==>
      && Fold(e).ECase? && Optionally(e.subject, Fold(e).subject) && Optionally(e.els, Fold(e).els)
      && |Fold(e).branches| == |e.branches|
      && forall k :: 0 <= k < |e.branches| ==>
           Fold(e).branches[k] == Branch(Fold(e.branches[k].cond), Fold(e.branches[k].result))
    ensures e.EIdent? || e.EParam? || e.EProp? || e.ESub? || e.ELit? ==> Fold(e) == e
  {
  }

  // ---------- Literals ----------

  /** Text operations on literals. */
  lemma TextFolds(a: string, b: string)
    ensures var (x, y) := (ELit(LString(a)), ELit(LString(b)));
      && Fold(EBin(Concat, x, y)) == Fold(EBin(Add, x, y)) == ELit(LString(a + b))
      && Fold(EBin(StartsWith, x, y)) == ELit(LBool(b <= a))
      && Fold(EBin(Eq, x, y)) == ELit(LBool(a == b)) && Fold(EBin(Neq, x, y)) == ELit(LBool(a != b))
    ensures Fold(EBin(Contains, ELit(LString(a)), ELit(LString(b)))) == YES <==>
      exists p: string, q: string :: a == p + b + q
    ensures Fold(EBin(EndsWith, ELit(LString(a)), ELit(LString(b)))) == YES <==> exists c: string :: a == c + b
  {
    hide HasInfix, HasPrefix, HasSuffix;
  }

  /** Null tests on the literal null. */
  lemma NullFolds()
    ensures Fold(EUn(IsNull, ELit(LNull))) == YES && Fold(EUn(IsNotNull, ELit(LNull))) == NO
  {
  }

  // ---------- CASE ----------

  function Whens(bs: seq<Branch>): seq<Expr> {
    seq(|bs|, i requires 0 <= i < |bs| => Fold(bs[i].cond))
  }

  /** The branches whose condition does not fold to false, folded. */
  function Possible(bs: seq<Branch>): seq<Branch> {
    if bs == [] then []
    else if Fold(bs[0].cond) == NO then Possible(bs[1..])
    else [Branch(Fold(bs[0].cond), Fold(bs[0].result))] + Possible(bs[1..])
  }

  /**
   A CASE without subject: the first WHEN that folds to true decides; without one the branches
   that fold to false go, and if none is left the ELSE, or null, is all there is.
   */
  lemma {:induction false} CaseFolds(bs: seq<Branch>, els: Option<Expr>)
    ensures var r := Fold(ECase(None, bs, els));
      if exists i :: 0 <= i < |bs| && Whens(bs)[i] == YES then
        exists i ::
          && 0 <= i < |bs| && Whens(bs)[i] == YES && YES !in Whens(bs)[..i] && r == Fold(bs[i].result)
      else if Possible(bs) != [] then r == ECase(None, Possible(bs), if els.None? then None else Some(Fold(els.value)))
      else r == if els.None? then ELit(LNull) else Fold(els.value)
  {
    BranchesFold(bs);
    if exists i :: 0 <= i < |bs| && Whens(bs)[i] == YES {
      var i := FirstTrue(bs);
    }
  }

  lemma {:induction false} FirstTrue(bs: seq<Branch>) returns (i: nat)
    requires exists i :: 0 <= i < |bs| && Whens(bs)[i] == YES
    ensures i < |bs| && Whens(bs)[i] == YES && YES !in Whens(bs)[..i]
    ensures PruneBranches(bs).hit == Some(Fold(bs[i].result))
    decreases |bs|
  {
    if Fold(bs[0].cond) == YES {
      i := 0;
    } else {
      var k :| 0 <= k < |bs| && Whens(bs)[k] == YES;
      assert Whens(bs[1..])[k - 1] == YES;
      var j := FirstTrue(bs[1..]);
      i := j + 1;
      assert Whens(bs)[..i] == [Whens(bs)[0]] + Whens(bs[1..])[..j];
    }
  }

  lemma {:induction false} BranchesFold(bs: seq<Branch>)
    ensures YES !in Whens(bs) ==> PruneBranches(bs) == Pruned(Possible(bs), None)
    decreases |bs|
  {
    if bs != [] {
      BranchesFold(bs[1..]);
      assert Whens(bs) == [Fold(bs[0].cond)] + Whens(bs[1..]);
    }
  }
}
