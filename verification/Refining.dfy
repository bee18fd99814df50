/** Evaluation in two worlds, one of which answers wherever the other does. */
module Refining {
  import opened Common
  import opened Ast
  import opened Trees
  import opened Semantics
  import opened Folding
  import opened FoldingSound
  import opened FoldingLimits

  // ---------- Folding more than once ----------

  function FoldBy(k: nat, e: Expr): Expr {
    if k == 0 then e else Fold(FoldBy(k - 1, e))
  }

  function FoldAllBy(k: nat, es: seq<Expr>): (r: seq<Expr>)
    ensures |r| == |es|
  {
    seq(|es|, i requires 0 <= i < |es| => FoldBy(k, es[i]))
  }

  lemma {:induction false} FoldByMore(j: nat, k: nat, e: Expr)
    ensures FoldBy(k, FoldBy(j, e)) == FoldBy(j + k, e)
    decreases k
  {
    if k > 0 { FoldByMore(j, k - 1, e); }
  }

  lemma FoldAllByMore(j: nat, k: nat, es: seq<Expr>)
    ensures FoldAllBy(k, FoldAllBy(j, es)) == FoldAllBy(j + k, es)
  {
    forall i | 0 <= i < |es| ensures FoldBy(k, FoldBy(j, es[i])) == FoldBy(j + k, es[i]) { FoldByMore(j, k, es[i]); }
  }

  lemma FoldAllByOne(es: seq<Expr>)
    ensures FoldAllBy(0, es) == es && FoldAllBy(1, es) == FoldAll(es)
  {
    assert forall e: Expr :: FoldBy(1, e) == Fold(FoldBy(0, e));
  }

  lemma {:induction false} FoldByShrinks(k: nat, e: Expr, u: nat, f: Handle -> nat)
    ensures Weight(FoldBy(k, e), u, f) <= Weight(e, u, f) && Names(FoldBy(k, e)) <= Names(e)
    decreases k
  {
    if k > 0 {
      FoldByShrinks(k - 1, e, u, f);
      FoldShrinks(FoldBy(k - 1, e), u, f);
    }
  }

  lemma {:induction false} FoldAllByShrinks(k: nat, es: seq<Expr>, u: nat, f: Handle -> nat)
    ensures WeightAll(FoldAllBy(k, es), u, f) <= WeightAll(es, u, f) && NamesAll(FoldAllBy(k, es)) <= NamesAll(es)
    decreases |es|
  {
    if es != [] {
      FoldByShrinks(k, es[0], u, f);
      FoldAllByShrinks(k, es[1..], u, f);
      assert FoldAllBy(k, es)[1..] == FoldAllBy(k, es[1..]);
    }
  }

  /** Guarded each time it is folded. */
  ghost predicate GuardedBy(k: nat, e: Expr) {
    forall j: nat :: j < k ==> Guarded(FoldBy(j, e))
  }

  lemma {:induction false} FoldBySound(k: nat, e: Expr, row: Row, w: World)
    requires GuardedBy(k, e)
    ensures Refines(Eval(e, row, w), Eval(FoldBy(k, e), row, w))
    decreases k
  {
    if k > 0 {
      FoldBySound(k - 1, e, row, w);
      FoldSound(FoldBy(k - 1, e), row, w);
    }
  }

  // ---------- A world that answers more ----------

  predicate PathsRefine(x: Option<seq<Row>>, y: Option<seq<Row>>) {
    x.None? || x == y
  }

  /** `v` agrees with `w`, and answers the named subqueries and paths wherever `w` does. */
  ghost predicate WorldRefines(w: World, v: World, names: set<Name>) {
    && v == w.(subquery := v.subquery, paths := v.paths)
    && (forall c, q, row :: Nested(q) in names ==> Refines(w.subquery(c, q, row), v.subquery(c, q, row)))
    && (forall p, row :: Along(p) in names ==> PathsRefine(w.paths(p, row), v.paths(p, row)))
  }

  lemma WorldFewer(w: World, v: World, names: set<Name>, fewer: set<Name>)
    requires WorldRefines(w, v, names) && forall n :: n in fewer && (n.Nested? || n.Along?) ==> n in names
    ensures WorldRefines(w, v, fewer)
  {
  }

  lemma BinElsewhere(op: BinaryOp, x: Outcome, y: Outcome, w: World, v: World)
    requires v == w.(subquery := v.subquery, paths := v.paths)
    ensures BinOut(op, x, y, v) == BinOut(op, x, y, w)
  {
  }

  lemma {:induction false} EvalRefines(e: Expr, row: Row, w: World, v: World)
    requires WorldRefines(w, v, Names(e))
    ensures Refines(Eval(e, row, w), Eval(e, row, v))
    decreases e, 2, 0
  {
    hide BinOut;
    match e
    case EProp(t, _) => EvalRefines(t, row, w, v);
    case EBin(op, l, r) =>
      EvalRefines(l, row, w, v);
      EvalRefines(r, row, w, v);
      BinMonotone(op, Eval(l, row, w), Eval(l, row, v), Eval(r, row, w), Eval(r, row, v), w);
      BinElsewhere(op, Eval(l, row, v), Eval(r, row, v), w, v);
    case EUn(_, x) => EvalRefines(x, row, w, v);
    case ECall(_, args) => EvalAllRefines(args, row, w, v);
    case EListLit(es) => EvalAllRefines(es, row, w, v);
    case ECase(_, _, _) => CaseRefines(e, row, w, v);
    case EListComp(x, l, _, _) =>
      EvalRefines(l, row, w, v);
      var o := Eval(l, row, w);
      if o.Val? && o.v.VList? { EvalRowsRefine(e, Bindings(row, x, o.v.items), w, v); }
    case EPatComp(p, _, _) =>
      if w.paths(p, row).Some? { EvalRowsRefine(e, w.paths(p, row).value, w, v); }
    case _ =>
  }

  lemma {:induction false} EvalAllRefines(es: seq<Expr>, row: Row, w: World, v: World)
    requires WorldRefines(w, v, NamesAll(es))
    ensures EvalAll(es, row, w).Some? ==> EvalAll(es, row, v) == EvalAll(es, row, w)
    decreases es, 1, 0
  {
    if es != [] {
      EvalRefines(es[0], row, w, v);
      EvalAllRefines(es[1..], row, w, v);
    }
  }

  lemma {:induction false} CaseRefines(e: Expr, row: Row, w: World, v: World)
    requires e.ECase? && WorldRefines(w, v, Names(e))
    ensures Refines(Eval(e, row, w), Eval(e, row, v))
    decreases e, 1, 0
  {
    var x := if e.els.None? then Val(VNull) else Eval(e.els.value, row, w);
    var y := if e.els.None? then Val(VNull) else Eval(e.els.value, row, v);
    if e.els.Some? {
      assert NamesOpt(e.els) == Names(e.els.value);
      EvalRefines(e.els.value, row, w, v);
    }
    if e.subject.None? {
      BranchesRefine(None, e.branches, x, y, row, w, v);
    } else {
      assert NamesOpt(e.subject) == Names(e.subject.value);
      EvalRefines(e.subject.value, row, w, v);
      var s := Eval(e.subject.value, row, w);
      if s.Val? { BranchesRefine(Some(s.v), e.branches, x, y, row, w, v); }
    }
  }

  lemma {:induction false} BranchesRefine(subject: Option<Value>, bs: seq<Branch>, x: Outcome, y: Outcome, row: Row,
                                          w: World, v: World)
    requires WorldRefines(w, v, NamesBranches(bs)) && Refines(x, y)
    ensures Refines(EvalBranches(subject, bs, x, row, w), EvalBranches(subject, bs, y, row, v))
    decreases bs, 1, 0
  {
    if bs != [] {
      assert (bs decreases to bs[0]);
      BranchRefines(bs[0], row, w, v);
      BranchesRefine(subject, bs[1..], x, y, row, w, v);
      TestElsewhere(subject, Eval(bs[0].cond, row, v), w, v);
    }
  }

  lemma TestElsewhere(subject: Option<Value>, x: Outcome, w: World, v: World)
    requires v == w.(subquery := v.subquery, paths := v.paths)
    ensures BranchTest(subject, x, v) == BranchTest(subject, x, w)
  {
  }

  lemma {:induction false} BranchRefines(b: Branch, row: Row, w: World, v: World)
    requires WorldRefines(w, v, NamesBranch(b))
    ensures Refines(Eval(b.cond, row, w), Eval(b.cond, row, v))
      && Refines(Eval(b.result, row, w), Eval(b.result, row, v))
    decreases b, 1, 0
  {
    match b case Branch(c, t) => EvalRefines(c, row, w, v); EvalRefines(t, row, w, v);
  }

  lemma {:induction false} EvalRowsRefine(e: Expr, rows: seq<Row>, w: World, v: World)
    requires (e.EListComp? || e.EPatComp?) && WorldRefines(w, v, Names(e))
    ensures EvalRows(e, rows, w).Some? ==> EvalRows(e, rows, v) == EvalRows(e, rows, w)
    decreases e, 1, |rows|
  {
    if rows != [] {
      if e.filter.Some? {
        assert NamesOpt(e.filter) == Names(e.filter.value);
        WorldFewer(w, v, Names(e), Names(e.filter.value));
        EvalRefines(e.filter.value, rows[0], w, v);
      }
      if e.EPatComp? {
        EvalRefines(e.proj, rows[0], w, v);
      } else if e.body.Some? {
        assert NamesOpt(e.body) == Names(e.body.value);
        WorldFewer(w, v, Names(e), Names(e.body.value));
        EvalRefines(e.body.value, rows[0], w, v);
      }
      EvalRowsRefine(e, rows[1..], w, v);
    }
  }

  // ---------- Expressions that answer more ----------

  /** On every row, `f` in the world `v` has the value of `e` in `w`, if that has one. */
  ghost predicate Improves(e: Expr, f: Expr, w: World, v: World) {
    forall row :: Refines(Eval(e, row, w), Eval(f, row, v))
  }

  lemma FoldImproves(k: nat, e: Expr, w: World, v: World)
    requires GuardedBy(k, e) && WorldRefines(w, v, Names(FoldBy(k, e)))
    ensures Improves(e, FoldBy(k, e), w, v)
  {
    forall row ensures Refines(Eval(e, row, w), Eval(FoldBy(k, e), row, v)) {
      FoldBySound(k, e, row, w);
      EvalRefines(FoldBy(k, e), row, w, v);
    }
  }
}
