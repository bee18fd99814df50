/** Folding keeps the value of every guarded expression, in every world and on every row. */
module FoldingSound {
  import opened Common
  import opened Ast
  import opened Trees
  import opened Semantics
  import opened Folding

  // ---------- One rule at a time ----------

  lemma BinMonotone(op: BinaryOp, x: Outcome, x': Outcome, y: Outcome, y': Outcome, w: World)
    requires Refines(x, x') && Refines(y, y')
    ensures Refines(BinOut(op, x, y, w), BinOut(op, x', y', w))
  {
  }

  lemma LiteralsSound(l: Literal, op: BinaryOp, r: Literal, w: World)
    requires EvalLiterals(l, op, r).Some?
    ensures BinOut(op, LitVal(l, w), LitVal(r, w), w) == LitVal(EvalLiterals(l, op, r).value, w)
  {
  }

  lemma IdentitySound(l: Expr, op: BinaryOp, r: Expr, row: Row, w: World)
    requires Identity(l, op, r).Some?
    ensures Refines(BinOut(op, Eval(l, row, w), Eval(r, row, w), w), Eval(Identity(l, op, r).value, row, w))
  {
    if op in {And, Or} { LogicIdentitySound(l, op, r, row, w); }
  }

  lemma LogicIdentitySound(l: Expr, op: BinaryOp, r: Expr, row: Row, w: World)
    requires op in {And, Or} && Identity(l, op, r).Some?
    ensures Refines(BinOut(op, Eval(l, row, w), Eval(r, row, w), w), Eval(Identity(l, op, r).value, row, w))
  {
  }

  /** `(x op c) op k` against `x op (c merged with k)`: the overflow can only disappear. */
  lemma MergeRight(op: BinaryOp, x: Outcome, c: int, k: int, w: World)
    requires op in {Add, Sub, Mul} && InI64(if op == Mul then c * k else c + k)
    ensures var m := if op == Mul then c * k else c + k;
      Refines(BinOut(op, BinOut(op, x, Val(VInt(c)), w), Val(VInt(k)), w), BinOut(op, x, Val(VInt(m)), w))
  {
    if x.Val? && x.v.VInt? && op == Mul {
      assert (x.v.i * c) * k == x.v.i * (c * k);
    }
  }

  lemma MergeLeft(x: Outcome, c: int, k: int, w: World)
    requires InI64(c + k)
    ensures Refines(BinOut(Add, BinOut(Add, Val(VInt(c)), x, w), Val(VInt(k)), w),
                    BinOut(Add, x, Val(VInt(c + k)), w))
  {
  }

  lemma ReassociateSound(l: Expr, op: BinaryOp, r: Expr, row: Row, w: World)
    requires Reassociate(l, op, r).Some?
    ensures Refines(BinOut(op, Eval(l, row, w), Eval(r, row, w), w), Eval(Reassociate(l, op, r).value, row, w))
  {
    hide BinOut;
    var k := IntOf(r).value;
    if Merged(op, l.right, k).Some? {
      MergeRight(op, Eval(l.left, row, w), IntOf(l.right).value, k, w);
    } else {
      MergeLeft(Eval(l.right, row, w), IntOf(l.left).value, k, w);
    }
  }

  lemma FoldBinSound(l: Expr, op: BinaryOp, r: Expr, row: Row, w: World)
    ensures Refines(BinOut(op, Eval(l, row, w), Eval(r, row, w), w), Eval(FoldBin(l, op, r), row, w))
  {
    hide BinOut, EvalLiterals, Identity, Reassociate, LitVal;
    if l.ELit? && r.ELit? && EvalLiterals(l.lit, op, r.lit).Some? {
      LiteralsSound(l.lit, op, r.lit, w);
    } else if Identity(l, op, r).Some? {
      IdentitySound(l, op, r, row, w);
    } else if Reassociate(l, op, r).Some? {
      ReassociateSound(l, op, r, row, w);
    }
  }

  lemma FoldUnSound(op: UnaryOp, e: Expr, row: Row, w: World)
    ensures Refines(UnOut(op, Eval(e, row, w)), Eval(FoldUn(op, e), row, w))
  {
  }

  // ---------- The whole expression ----------

  /** Folding is a refinement: where the original has a value, the folded tree has the same one. */
  lemma {:induction false} FoldSound(e: Expr, row: Row, w: World)
    requires Guarded(e)
    ensures Refines(Eval(e, row, w), Eval(Fold(e), row, w))
    decreases e, 2, 0
  {
    match e
    case EBin(op, l, r) =>
      FoldSound(l, row, w);
      FoldSound(r, row, w);
      BinMonotone(op, Eval(l, row, w), Eval(Fold(l), row, w), Eval(r, row, w), Eval(Fold(r), row, w), w);
      FoldBinSound(Fold(l), op, Fold(r), row, w);
    case EUn(op, x) =>
      FoldSound(x, row, w);
      FoldUnSound(op, Fold(x), row, w);
    case ECall(_, args) => FoldAllSound(args, row, w);
    case EListLit(es) => FoldAllSound(es, row, w);
    case ECase(_, _, _) => FoldCaseSound(e, row, w);
    case EListComp(x, l, f, m) =>
      FoldSound(l, row, w);
      var o := Eval(l, row, w);
      if o.Val? && o.v.VList? {
        FoldRowsSound(e, Bindings(row, x, o.v.items), w);
      }
    case EPatComp(p, _, _) =>
      if w.paths(p, row).Some? { FoldRowsSound(e, w.paths(p, row).value, w); }
    case _ =>
  }

  lemma {:induction false} FoldAllSound(es: seq<Expr>, row: Row, w: World)
    requires GuardedAll(es)
    ensures EvalAll(es, row, w).Some? ==> EvalAll(FoldAll(es), row, w) == EvalAll(es, row, w)
    decreases es, 1, 0
  {
    if es != [] {
      FoldSound(es[0], row, w);
      FoldAllSound(es[1..], row, w);
      assert FoldAll(es)[1..] == FoldAll(es[1..]);
    }
  }

  lemma {:induction false} FoldRowsSound(e: Expr, rows: seq<Row>, w: World)
    requires (e.EListComp? || e.EPatComp?) && Guarded(e)
    ensures EvalRows(e, rows, w).Some? ==> EvalRows(Fold(e), rows, w) == EvalRows(e, rows, w)
    decreases e, 1, |rows|
  {
    if rows != [] {
      if e.filter.Some? {
        FoldSound(e.filter.value, rows[0], w);
      }
      if e.EPatComp? {
        FoldSound(e.proj, rows[0], w);
      } else if e.body.Some? {
        FoldSound(e.body.value, rows[0], w);
      }
      FoldRowsSound(e, rows[1..], w);
    }
  }

  lemma {:induction false} FoldCaseSound(e: Expr, row: Row, w: World)
    requires e.ECase? && Guarded(e)
    ensures Refines(Eval(e, row, w), Eval(Fold(e), row, w))
    decreases e, 1, 0
  {
    var other := if e.els.None? then Val(VNull) else Eval(e.els.value, row, w);
    var other' := if e.els.None? then Val(VNull) else Eval(Fold(e.els.value), row, w);
    if e.els.Some? {
      FoldSound(e.els.value, row, w);
    }
    if e.subject.Some? {
      FoldSound(e.subject.value, row, w);
      var s := Eval(e.subject.value, row, w);
      if s.Val? {
        FoldBranchesSound(s.v, e.branches, other, other', row, w);
      }
    } else {
      PruneSound(e.branches, other, other', row, w);
    }
  }

  /** A CASE with a subject keeps all its branches, folded. */
  lemma {:induction false} FoldBranchesSound(subject: Value, bs: seq<Branch>, other: Outcome, other': Outcome,
                                             row: Row, w: World)
    requires GuardedBranches(bs) && Refines(other, other')
    ensures Refines(EvalBranches(Some(subject), bs, other, row, w),
                    EvalBranches(Some(subject), FoldBranches(bs), other', row, w))
    decreases bs, 1, 0
  {
    if bs != [] {
      BranchSound(bs[0], row, w);
      FoldBranchesSound(subject, bs[1..], other, other', row, w);
      assert FoldBranches(bs)[1..] == FoldBranches(bs[1..]);
    }
  }

  lemma {:induction false} BranchSound(b: Branch, row: Row, w: World)
    requires GuardedBranch(b)
    ensures Refines(Eval(b.cond, row, w), Eval(FoldBranch(b).cond, row, w))
    ensures Refines(Eval(b.result, row, w), Eval(FoldBranch(b).result, row, w))
    decreases b, 1, 0
  {
    match b case Branch(c, t) => FoldSound(c, row, w); FoldSound(t, row, w);
  }

  /** What a searched CASE means after pruning: the kept branches, then the constant one. */
  ghost function PrunedValue(p: Pruned, other: Outcome, row: Row, w: World): Outcome {
    EvalBranches(None, p.kept, if p.hit.Some? then Eval(p.hit.value, row, w) else other, row, w)
  }

  lemma {:induction false} PruneSound(bs: seq<Branch>, other: Outcome, other': Outcome, row: Row, w: World)
    requires GuardedBranches(bs) && Refines(other, other')
    ensures Refines(EvalBranches(None, bs, other, row, w), PrunedValue(PruneBranches(bs), other', row, w))
    decreases bs, 1, 0
  {
    if bs != [] {
      BranchSound(bs[0], row, w);
      PruneSound(bs[1..], other, other', row, w);
    }
  }
}
