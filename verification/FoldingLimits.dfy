/** Where folding goes wrong, how far it shrinks an expression, and when it reaches a literal. */
module FoldingLimits {
  import opened Common
  import opened Ast
  import opened Trees
  import opened Semantics
  import opened Folding
  import opened FoldingSound

  // ---------- The unguarded CASE ----------

  /** The first kept branch whose WHEN is true on this row, if the WHENs before it have values. */
  ghost function Taken(kept: seq<Branch>, row: Row, w: World): Option<Branch> {
    if kept == [] then None
    else if BranchTest(None, Eval(kept[0].cond, row, w), w) == TRUE then Some(kept[0])
    else Taken(kept[1..], row, w)
  }

  lemma {:induction false} TakenDecides(kept: seq<Branch>, other: Outcome, row: Row, w: World)
    requires EvalBranches(None, kept, other, row, w).Val?
    ensures EvalBranches(None, kept, other, row, w)
         == if Taken(kept, row, w).Some? then Eval(Taken(kept, row, w).value.result, row, w) else other
  {
    if kept != [] && BranchTest(None, Eval(kept[0].cond, row, w), w) != TRUE {
      TakenDecides(kept[1..], other, row, w);
    }
  }

  /**
   A searched CASE one of whose WHENs folds to true: on a row where it has a value, the
   folded result is right if and only if no kept branch is taken there, or the one taken
   yields the value of the constant branch anyway.
   */
  lemma CaseHitExact(bs: seq<Branch>, els: Option<Expr>, row: Row, w: World)
    requires GuardedBranches(bs) && PruneBranches(bs).hit.Some?
    requires Eval(ECase(None, bs, els), row, w).Val?
    ensures var p := PruneBranches(bs);
      var taken := Taken(p.kept, row, w);
      && Fold(ECase(None, bs, els)) == p.hit.value
      && (Eval(ECase(None, bs, els), row, w) == Eval(Fold(ECase(None, bs, els)), row, w)
          <==> taken.None? || Eval(taken.value.result, row, w) == Eval(p.hit.value, row, w))
  {
    var p := PruneBranches(bs);
    var other := if els.None? then Val(VNull) else Eval(els.value, row, w);
    PruneSound(bs, other, other, row, w);
    TakenDecides(p.kept, Eval(p.hit.value, row, w), row, w);
  }

  /** `CASE WHEN x THEN 1 WHEN true THEN 2 END` folds to `2`, although on `x = true` it is 1. */
  lemma UnguardedCaseFails(w: World)
    ensures var e := ECase(None, [Branch(EIdent("x"), ELit(LInt(1))), Branch(ELit(LBool(true)), ELit(LInt(2)))], None);
      var row := map["x" := VBool(true)];
      && !Guarded(e)
      && Fold(e) == ELit(LInt(2))
      && Eval(e, row, w) == Val(VInt(1)) && Eval(Fold(e), row, w) == Val(VInt(2))
  {
    var b0, b1 := Branch(EIdent("x"), ELit(LInt(1))), Branch(ELit(LBool(true)), ELit(LInt(2)));
    var bs := [b0, b1];
    assert bs[1..] == [b1];
    assert PruneBranches([b1]) == Pruned([], Some(ELit(LInt(2))));
    assert PruneBranches(bs) == Pruned([b0], Some(ELit(LInt(2))));
  }

  // ---------- Size and free names ----------

  /** A tree with `u` for every node, and `f` on top for every subquery. */
  function Weight(e: Expr, u: nat, f: Handle -> nat): nat
    decreases e, 1
  {
    match e
    case EProp(t, _) => u + Weight(t, u, f)
    case EBin(_, l, r) => u + Weight(l, u, f) + Weight(r, u, f)
    case EUn(_, x) => u + Weight(x, u, f)
    case ECall(_, args) => u + WeightAll(args, u, f)
    case ECase(s, bs, els) => u + WeightOpt(s, u, f) + WeightBranches(bs, u, f) + WeightOpt(els, u, f)
    case EListComp(_, l, g, m) => u + Weight(l, u, f) + WeightOpt(g, u, f) + WeightOpt(m, u, f)
    case EPatComp(_, g, m) => u + WeightOpt(g, u, f) + Weight(m, u, f)
    case EListLit(es) => u + WeightAll(es, u, f)
    case ESub(_, q) => u + f(q)
    case _ => u
  }

  function WeightOpt(o: Option<Expr>, u: nat, f: Handle -> nat): nat
    decreases o, 1
  {
    if o.None? then 0 else Weight(o.value, u, f)
  }

  function WeightAll(es: seq<Expr>, u: nat, f: Handle -> nat): nat
    decreases es, 0
  {
    if es == [] then 0 else Weight(es[0], u, f) + WeightAll(es[1..], u, f)
  }

  function WeightBranch(b: Branch, u: nat, f: Handle -> nat): nat
    decreases b, 0
  {
    match b case Branch(c, t) => Weight(c, u, f) + Weight(t, u, f)
  }

  function WeightBranches(bs: seq<Branch>, u: nat, f: Handle -> nat): nat
    decreases bs, 0
  {
    if bs == [] then 0 else WeightBranch(bs[0], u, f) + WeightBranches(bs[1..], u, f)
  }

  /**
   Identifiers and `$`-parameters an expression reads. `Hole` is a null handle, `Foreign` a
   clause or pattern node where an operand should be, `Nested` a subquery and `Along` the
   path of a pattern comprehension.
   */
  datatype Name =
    | Variable(name: string)
    | Param(name: string)
    | Hole
    | Foreign
    | Nested(query: Handle)
    | Along(path: Handle)

  /** No subquery and no pattern comprehension. */
  predicate Unnested(names: set<Name>) {
    forall n :: n in names ==> !n.Nested? && !n.Along?
  }

  function Names(e: Expr): set<Name>
    decreases e, 1
  {
    match e
    case EIdent(x) => {Variable(x)}
    case EParam(p) => {Param(p)}
    case EProp(t, _) => Names(t)
    case EBin(_, l, r) => Names(l) + Names(r)
    case EUn(_, x) => Names(x)
    case ECall(_, args) => NamesAll(args)
    case ECase(s, bs, els) => NamesOpt(s) + NamesBranches(bs) + NamesOpt(els)
    case EListComp(x, l, f, m) => Names(l) + (NamesOpt(f) + NamesOpt(m) - {Variable(x)})
    case EPatComp(p, f, m) => {Along(p)} + NamesOpt(f) + Names(m)
    case EListLit(es) => NamesAll(es)
    case EOther(h) => if h.Null? then {Hole} else {Foreign}
    case ESub(_, q) => {Nested(q)}
    case _ => {}
  }

  function NamesOpt(o: Option<Expr>): set<Name>
    decreases o, 1
  {
    if o.None? then {} else Names(o.value)
  }

  function NamesAll(es: seq<Expr>): set<Name>
    decreases es, 0
  {
    if es == [] then {} else Names(es[0]) + NamesAll(es[1..])
  }

  function NamesBranch(b: Branch): set<Name>
    decreases b, 0
  {
    match b case Branch(c, t) => Names(c) + Names(t)
  }

  function NamesBranches(bs: seq<Branch>): set<Name>
    decreases bs, 0
  {
    if bs == [] then {} else NamesBranch(bs[0]) + NamesBranches(bs[1..])
  }

  lemma IdentityKeepsSide(l: Expr, op: BinaryOp, r: Expr)
    requires Identity(l, op, r).Some?
    ensures Identity(l, op, r).value in {l, r}
  {
  }

  lemma ReassociateShrinks(l: Expr, op: BinaryOp, r: Expr, u: nat, f: Handle -> nat)
    requires Reassociate(l, op, r).Some?
    ensures Weight(Reassociate(l, op, r).value, u, f) <= Weight(l, u, f)
    ensures Names(Reassociate(l, op, r).value) <= Names(l)
  {
    hide Merged;
    WeightAtLeast(l.left, u, f);
    WeightAtLeast(l.right, u, f);
  }

  lemma FoldBinShrinks(l: Expr, op: BinaryOp, r: Expr, u: nat, f: Handle -> nat)
    ensures Weight(FoldBin(l, op, r), u, f) <= u + Weight(l, u, f) + Weight(r, u, f)
    ensures Names(FoldBin(l, op, r)) <= Names(l) + Names(r)
  {
    assert Weight(EBin(op, l, r), u, f) == u + Weight(l, u, f) + Weight(r, u, f);
    assert Names(EBin(op, l, r)) == Names(l) + Names(r);
    assert forall k: Literal :: Weight(ELit(k), u, f) == u && Names(ELit(k)) == {};
    hide EvalLiterals, Identity, Reassociate, Weight, Names;
    if Identity(l, op, r).Some? { IdentityKeepsSide(l, op, r); }
    if Reassociate(l, op, r).Some? { ReassociateShrinks(l, op, r, u, f); }
  }

  lemma FoldUnShrinks(op: UnaryOp, e: Expr, u: nat, f: Handle -> nat)
    ensures Weight(FoldUn(op, e), u, f) <= u + Weight(e, u, f) && Names(FoldUn(op, e)) <= Names(e)
  {
  }

  /** Folding never grows a tree, never brings in a name, and repeats no subquery. */
  lemma {:induction false} FoldShrinks(e: Expr, u: nat, f: Handle -> nat)
    ensures Weight(Fold(e), u, f) <= Weight(e, u, f) && Names(Fold(e)) <= Names(e)
    decreases e, 2
  {
    hide FoldBin, FoldUn, PruneBranches;
    match e
    case EBin(op, l, r) => FoldShrinks(l, u, f); FoldShrinks(r, u, f); FoldBinShrinks(Fold(l), op, Fold(r), u, f);
    case EUn(op, x) => FoldShrinks(x, u, f); FoldUnShrinks(op, Fold(x), u, f);
    case ECall(_, args) => FoldAllShrinks(args, u, f);
    case EListLit(es) => FoldAllShrinks(es, u, f);
    case ECase(_, _, _) => FoldCaseShrinks(e, u, f);
    case EListComp(_, l, g, m) => FoldShrinks(l, u, f); FoldOptShrinks(g, u, f); FoldOptShrinks(m, u, f);
    case EPatComp(_, g, m) => FoldOptShrinks(g, u, f); FoldShrinks(m, u, f);
    case _ =>
  }

  lemma FoldNames(e: Expr)
    ensures Names(Fold(e)) <= Names(e)
  {
    FoldShrinks(e, 0, _ => 0);
  }

  lemma {:induction false} FoldCaseShrinks(e: Expr, u: nat, f: Handle -> nat)
    requires e.ECase?
    ensures Weight(Fold(e), u, f) <= Weight(e, u, f) && Names(Fold(e)) <= Names(e)
    decreases e, 1
  {
    FoldOptShrinks(e.subject, u, f);
    FoldOptShrinks(e.els, u, f);
    FoldBranchesShrink(e.branches, u, f);
    WeightAtLeast(e, u, f);
  }

  lemma WeightAtLeast(e: Expr, u: nat, f: Handle -> nat)
    ensures Weight(e, u, f) >= u
  {
  }

  lemma {:induction false} FoldOptShrinks(o: Option<Expr>, u: nat, f: Handle -> nat)
    ensures WeightOpt(FoldOpt(o), u, f) <= WeightOpt(o, u, f) && NamesOpt(FoldOpt(o)) <= NamesOpt(o)
    decreases o, 2
  {
    if o.Some? { FoldShrinks(o.value, u, f); }
  }

  lemma {:induction false} FoldAllShrinks(es: seq<Expr>, u: nat, f: Handle -> nat)
    ensures WeightAll(FoldAll(es), u, f) <= WeightAll(es, u, f) && NamesAll(FoldAll(es)) <= NamesAll(es)
    decreases es, 1
  {
    if es != [] {
      FoldShrinks(es[0], u, f);
      FoldAllShrinks(es[1..], u, f);
      assert FoldAll(es)[1..] == FoldAll(es[1..]);
    }
  }

  lemma {:induction false} FoldBranchShrinks(b: Branch, u: nat, f: Handle -> nat)
    ensures WeightBranch(FoldBranch(b), u, f) <= WeightBranch(b, u, f) && NamesBranch(FoldBranch(b)) <= NamesBranch(b)
    decreases b, 1
  {
    match b case Branch(c, t) => FoldShrinks(c, u, f); FoldShrinks(t, u, f);
  }

  lemma {:induction false} FoldBranchesShrink(bs: seq<Branch>, u: nat, f: Handle -> nat)
    ensures WeightBranches(FoldBranches(bs), u, f) <= WeightBranches(bs, u, f)
    ensures NamesBranches(FoldBranches(bs)) <= NamesBranches(bs)
    ensures var p := PruneBranches(bs);
      && WeightBranches(p.kept, u, f) + WeightOpt(p.hit, u, f) <= WeightBranches(bs, u, f)
      && NamesBranches(p.kept) + NamesOpt(p.hit) <= NamesBranches(bs)
    decreases bs, 1
  {
    if bs != [] {
      FoldBranchShrinks(bs[0], u, f);
      FoldBranchesShrink(bs[1..], u, f);
      assert FoldBranches(bs)[1..] == FoldBranches(bs[1..]);
      var rest := PruneBranches(bs[1..]);
      assert ([FoldBranch(bs[0])] + rest.kept)[1..] == rest.kept;
    }
  }

  /** Lighter subqueries make a lighter tree, and weightless ones an empty load. */
  lemma {:induction false} WeightLess(e: Expr, u: nat, f: Handle -> nat, g: Handle -> nat)
    requires forall q :: Nested(q) in Names(e) ==> f(q) <= g(q)
    ensures Weight(e, u, f) <= Weight(e, u, g)
    ensures u == 0 && (forall q :: Nested(q) in Names(e) ==> f(q) == 0) ==> Weight(e, u, f) == 0
    decreases e, 1
  {
    match e
    case EProp(t, _) => WeightLess(t, u, f, g);
    case EBin(_, l, r) => WeightLess(l, u, f, g); WeightLess(r, u, f, g);
    case EUn(_, x) => WeightLess(x, u, f, g);
    case ECall(_, args) => WeightAllLess(args, u, f, g);
    case ECase(s, bs, els) => WeightOptLess(s, u, f, g); WeightBranchesLess(bs, u, f, g); WeightOptLess(els, u, f, g);
    case EListComp(_, l, c, m) => WeightLess(l, u, f, g); WeightOptLess(c, u, f, g); WeightOptLess(m, u, f, g);
    case EPatComp(_, c, m) => WeightOptLess(c, u, f, g); WeightLess(m, u, f, g);
    case EListLit(es) => WeightAllLess(es, u, f, g);
    case ESub(_, q) => assert Nested(q) in Names(e);
    case _ =>
  }

  lemma {:induction false} WeightOptLess(o: Option<Expr>, u: nat, f: Handle -> nat, g: Handle -> nat)
    requires forall q :: Nested(q) in NamesOpt(o) ==> f(q) <= g(q)
    ensures WeightOpt(o, u, f) <= WeightOpt(o, u, g)
    ensures u == 0 && (forall q :: Nested(q) in NamesOpt(o) ==> f(q) == 0) ==> WeightOpt(o, u, f) == 0
    decreases o, 1
  {
    if o.Some? { WeightLess(o.value, u, f, g); }
  }

  lemma {:induction false} WeightAllLess(es: seq<Expr>, u: nat, f: Handle -> nat, g: Handle -> nat)
    requires forall q :: Nested(q) in NamesAll(es) ==> f(q) <= g(q)
    ensures WeightAll(es, u, f) <= WeightAll(es, u, g)
    ensures u == 0 && (forall q :: Nested(q) in NamesAll(es) ==> f(q) == 0) ==> WeightAll(es, u, f) == 0
    decreases es, 0
  {
    if es != [] {
      WeightLess(es[0], u, f, g);
      WeightAllLess(es[1..], u, f, g);
    }
  }

  lemma {:induction false} WeightBranchesLess(bs: seq<Branch>, u: nat, f: Handle -> nat, g: Handle -> nat)
    requires forall q :: Nested(q) in NamesBranches(bs) ==> f(q) <= g(q)
    ensures WeightBranches(bs, u, f) <= WeightBranches(bs, u, g)
    ensures u == 0 && (forall q :: Nested(q) in NamesBranches(bs) ==> f(q) == 0) ==> WeightBranches(bs, u, f) == 0
    decreases bs, 0
  {
    if bs != [] {
      assert (bs decreases to bs[0]);
      WeightBranchLess(bs[0], u, f, g);
      WeightBranchesLess(bs[1..], u, f, g);
    }
  }

  lemma {:induction false} WeightBranchLess(b: Branch, u: nat, f: Handle -> nat, g: Handle -> nat)
    requires forall q :: Nested(q) in NamesBranch(b) ==> f(q) <= g(q)
    ensures WeightBranch(b, u, f) <= WeightBranch(b, u, g)
    ensures u == 0 && (forall q :: Nested(q) in NamesBranch(b) ==> f(q) == 0) ==> WeightBranch(b, u, f) == 0
    decreases b, 0
  {
    match b case Branch(c, t) => WeightLess(c, u, f, g); WeightLess(t, u, f, g);
  }

  lemma {:induction false} WeightAllConcat(es: seq<Expr>, fs: seq<Expr>, u: nat, f: Handle -> nat)
    ensures WeightAll(es + fs, u, f) == WeightAll(es, u, f) + WeightAll(fs, u, f)
    ensures NamesAll(es + fs) == NamesAll(es) + NamesAll(fs)
    decreases |es|
  {
    if es == [] {
      assert es + fs == fs;
    } else {
      assert (es + fs)[1..] == es[1..] + fs;
      WeightAllConcat(es[1..], fs, u, f);
    }
  }

  lemma {:induction false} NamesFrom(es: seq<Expr>, n: Name) returns (k: nat)
    requires n in NamesAll(es)
    ensures k < |es| && n in Names(es[k])
    decreases |es|
  {
    if n in Names(es[0]) {
      k := 0;
    } else {
      k := NamesFrom(es[1..], n);
      k := k + 1;
    }
  }

  lemma {:induction false} NamesFromBranches(bs: seq<Branch>, n: Name) returns (k: nat)
    requires n in NamesBranches(bs)
    ensures k < |bs| && (n in Names(bs[k].cond) || n in Names(bs[k].result))
    decreases |bs|
  {
    if n in NamesBranch(bs[0]) {
      k := 0;
    } else {
      k := NamesFromBranches(bs[1..], n);
      k := k + 1;
    }
  }

  // ---------- Completeness on closed arithmetic ----------

  datatype Kind = IntKind | BoolKind

  /** The kind of a closed expression over integer and boolean literals. */
  function KindOf(e: Expr): Option<Kind> {
    match e
    case ELit(LInt(_)) => Some(IntKind)
    case ELit(LBool(_)) => Some(BoolKind)
    case EBin(op, l, r) =>
      if KindOf(l).None? || KindOf(l) != KindOf(r) then None
      else if KindOf(l).value.IntKind? then
        if op in {Add, Sub, Mul, Div, Mod} then Some(IntKind)
        else if op in {Eq, Neq, Lt, Lte, Gt, Gte} then Some(BoolKind)
        else None
      else if op in {And, Or, Xor, Eq, Neq} then Some(BoolKind) else None
    case EUn(op, x) =>
      if op == Not && KindOf(x) == Some(BoolKind) then Some(BoolKind)
      else if op == Neg && KindOf(x) == Some(IntKind) then Some(IntKind)
      else None
    case _ => None
  }

  /** Every step of the evaluation is in range and divides by a non-zero number. */
  ghost predicate StepsDefined(e: Expr, row: Row, w: World) {
    && Eval(e, row, w).Val?
    && match e
       case EBin(_, l, r) => StepsDefined(l, row, w) && StepsDefined(r, row, w)
       case EUn(_, x) => StepsDefined(x, row, w)
       case _ => true
  }

  ghost predicate LiteralOf(e: Expr, v: Value) {
    e.ELit? && ((v.VInt? && e.lit.LInt? && e.lit.i == v.i) || (v.VBool? && e.lit == LBool(v.b)))
  }

  /** A closed integer or boolean expression folds to the single literal of its value. */
  lemma {:induction false} FoldComplete(e: Expr, row: Row, w: World)
    requires KindOf(e).Some? && StepsDefined(e, row, w)
    ensures LiteralOf(Fold(e), Eval(e, row, w).v)
    ensures KindOf(e).value.IntKind? <==> Eval(e, row, w).v.VInt?
  {
    match e
    case EBin(op, l, r) =>
      FoldComplete(l, row, w);
      FoldComplete(r, row, w);
      LiteralsDecide(Fold(l).lit, op, Fold(r).lit, w);
    case EUn(_, x) => FoldComplete(x, row, w);
    case _ =>
  }

  lemma LiteralsDecide(l: Literal, op: BinaryOp, r: Literal, w: World)
    requires (l.LInt? && r.LInt? && op in {Add, Sub, Mul, Div, Mod, Eq, Neq, Lt, Lte, Gt, Gte})
          || (l.LBool? && r.LBool? && op in {And, Or, Xor, Eq, Neq})
    requires BinOut(op, LitVal(l, w), LitVal(r, w), w).Val?
    ensures EvalLiterals(l, op, r).Some?
    ensures LiteralOf(ELit(EvalLiterals(l, op, r).value), BinOut(op, LitVal(l, w), LitVal(r, w), w).v)
  {
  }
}
