/** Constant folding on expression trees, and what it keeps. */
module Folding {
  import opened Common
  import opened Ast
  import opened Trees
  import opened Semantics

  // ---------- The rewriting rules ----------

  function CheckedLit(x: int): Option<Literal> {
    if InI64(x) then Some(LInt(x)) else None
  }

  /** `eval_binary_literals`; the Float64 arms are not modelled. */
  function EvalLiterals(l: Literal, op: BinaryOp, r: Literal): Option<Literal> {
    if l.LInt? && r.LInt? then
      match op
      case Add => CheckedLit(l.i + r.i)
      case Sub => CheckedLit(l.i - r.i)
      case Mul => CheckedLit(l.i * r.i)
      case Div => if r.i != 0 then CheckedLit(TruncDiv(l.i, r.i)) else None
      case Mod =>
        if r.i != 0 && InI64(TruncDiv(l.i, r.i)) then CheckedLit(TruncRem(l.i, r.i)) else None
      case Eq => Some(LBool(l.i == r.i))
      case Neq => Some(LBool(l.i != r.i))
      case Lt => Some(LBool(l.i < r.i))
      case Lte => Some(LBool(l.i <= r.i))
      case Gt => Some(LBool(l.i > r.i))
      case Gte => Some(LBool(l.i >= r.i))
      case _ => None
    else if l.LBool? && r.LBool? then
      match op
      case And => Some(LBool(l.b && r.b))
      case Or => Some(LBool(l.b || r.b))
      case Xor => Some(LBool(l.b != r.b))
      case Eq => Some(LBool(l.b == r.b))
      case Neq => Some(LBool(l.b != r.b))
      case _ => None
    else if l.LString? && r.LString? then
      match op
      case Add => Some(LString(l.s + r.s))
      case Concat => Some(LString(l.s + r.s))
      case Eq => Some(LBool(l.s == r.s))
      case Neq => Some(LBool(l.s != r.s))
      case Contains => Some(LBool(HasInfix(l.s, r.s)))
      case StartsWith => Some(LBool(HasPrefix(l.s, r.s)))
      case EndsWith => Some(LBool(HasSuffix(l.s, r.s)))
      case _ => None
    else None
  }

  predicate IsBool(e: Expr, b: bool) {
    e == ELit(LBool(b))
  }

  predicate IsInt(e: Expr, i: int) {
    e.ELit? && e.lit.LInt? && e.lit.i == i
  }

  /** Boolean and arithmetic identities: the side that remains, if one applies. */
  function Identity(l: Expr, op: BinaryOp, r: Expr): Option<Expr> {
    match op
    case And =>
      if IsBool(l, false) then Some(l)
      else if IsBool(r, false) then Some(r)
      else if IsBool(l, true) then Some(r)
      else if IsBool(r, true) then Some(l)
      else None
    case Or =>
      if IsBool(l, true) then Some(l)
      else if IsBool(r, true) then Some(r)
      else if IsBool(l, false) then Some(r)
      else if IsBool(r, false) then Some(l)
      else None
    case Add => if IsInt(r, 0) then Some(l) else if IsInt(l, 0) then Some(r) else None
    case Sub => if IsInt(r, 0) then Some(l) else None
    case Mul => if IsInt(r, 1) then Some(l) else if IsInt(l, 1) then Some(r) else None
    case Div => if IsInt(r, 1) then Some(l) else None
    case _ => None
  }

  /** The integer constant of a literal tree. */
  function IntOf(e: Expr): Option<i64> {
    if e.ELit? && e.lit.LInt? then Some(e.lit.i) else None
  }

  /** `combine` of two constants, when it stays in range. */
  function Merged(op: BinaryOp, c: Expr, k: i64): Option<Literal> {
    if IntOf(c).None? then None
    else if op == Mul then CheckedLit(IntOf(c).value * k)
    else CheckedLit(IntOf(c).value + k)
  }

  /** Reassociation: `(x + 10) + 20` becomes `x + 30`, unless the constants overflow. */
  function Reassociate(l: Expr, op: BinaryOp, r: Expr): Option<Expr> {
    if IntOf(r).None? || !l.EBin? || l.op != op || op !in {Add, Sub, Mul} then None
    else
      var k := IntOf(r).value;
      if Merged(op, l.right, k).Some? then Some(EBin(op, l.left, ELit(Merged(op, l.right, k).value)))
      else if op == Add && Merged(op, l.left, k).Some?
      then Some(EBin(op, l.right, ELit(Merged(op, l.left, k).value)))
      else None
  }

  function FoldBin(l: Expr, op: BinaryOp, r: Expr): Expr {
    if l.ELit? && r.ELit? && EvalLiterals(l.lit, op, r.lit).Some?
    then ELit(EvalLiterals(l.lit, op, r.lit).value)
    else if Identity(l, op, r).Some? then Identity(l, op, r).value
    else if Reassociate(l, op, r).Some? then Reassociate(l, op, r).value
    else EBin(op, l, r)
  }

  function FoldUn(op: UnaryOp, e: Expr): Expr {
    if op == Not && e.ELit? && e.lit.LBool? then ELit(LBool(!e.lit.b))
    else if op == Neg && e.ELit? && e.lit.LInt? && Checked(0 - e.lit.i as int).Some?
    then ELit(LInt(Checked(0 - e.lit.i as int).value))
    else if op in {Not, Neg} && e.EUn? && e.uop == op then e.operand
    else if op == IsNull && e == ELit(LNull) then ELit(LBool(true))
    else if op == IsNotNull && e == ELit(LNull) then ELit(LBool(false))
    else EUn(op, e)
  }

  /** The branches kept before the loop ends, and the THEN of the branch that ended it. */
  datatype Pruned = Pruned(kept: seq<Branch>, hit: Option<Expr>)

  /** `fold_expression`. */
  function Fold(e: Expr): Expr
    decreases e, 1
  {
    match e
    case EBin(op, l, r) => FoldBin(Fold(l), op, Fold(r))
    case EUn(op, x) => FoldUn(op, Fold(x))
    case ECall(f, args) => ECall(f, FoldAll(args))
    case ECase(s, bs, els) =>
      if s.None? then
        var p := PruneBranches(bs);
        if p.hit.Some? then p.hit.value else Rebuild(None, p.kept, FoldOpt(els))
      else
        Rebuild(Some(Fold(s.value)), FoldBranches(bs), FoldOpt(els))
    case EListComp(x, l, f, m) => EListComp(x, Fold(l), FoldOpt(f), FoldOpt(m))
    case EPatComp(p, f, m) => EPatComp(p, FoldOpt(f), Fold(m))
    case EListLit(es) => EListLit(FoldAll(es))
    case _ => e
  }

  /** The end of `fold_case_expression`: a CASE without branches is its ELSE. */
  function Rebuild(s: Option<Expr>, kept: seq<Branch>, els: Option<Expr>): Expr {
    if kept != [] then ECase(s, kept, els)
    else if els.Some? then els.value
    else ELit(LNull)
  }

  function FoldOpt(o: Option<Expr>): (r: Option<Expr>)
    ensures r.Some? <==> o.Some?
    decreases o, 1
  {
    if o.None? then None else Some(Fold(o.value))
  }

  function FoldAll(es: seq<Expr>): (r: seq<Expr>)
    ensures |r| == |es|
    ensures forall k :: 0 <= k < |es| ==> r[k] == Fold(es[k])
    decreases es, 0
  {
    if es == [] then [] else [Fold(es[0])] + FoldAll(es[1..])
  }

  function FoldBranch(b: Branch): Branch
    decreases b, 0
  {
    match b case Branch(c, t) => Branch(Fold(c), Fold(t))
  }

  function FoldBranches(bs: seq<Branch>): (r: seq<Branch>)
    ensures |r| == |bs|
    ensures forall k :: 0 <= k < |bs| ==> r[k] == FoldBranch(bs[k])
    decreases bs, 0
  {
    if bs == [] then [] else [FoldBranch(bs[0])] + FoldBranches(bs[1..])
  }

  function PruneBranches(bs: seq<Branch>): Pruned
    decreases bs, 0
  {
    if bs == [] then Pruned([], None)
    else
      var b := FoldBranch(bs[0]);
      if IsBool(b.cond, true) then Pruned([], Some(b.result))
      else
        var rest := PruneBranches(bs[1..]);
        if IsBool(b.cond, false) then rest else Pruned([b] + rest.kept, rest.hit)
  }

  // ---------- The case the code gets wrong, and its guard ----------

  /**
   No CASE meets a WHEN that folds to true after a branch it had to keep. There the code
   returns the THEN of the constant branch and drops the kept ones.
   */
  predicate Guarded(e: Expr)
    decreases e, 1
  {
    match e
    case EBin(_, l, r) => Guarded(l) && Guarded(r)
    case EUn(_, x) => Guarded(x)
    case ECall(_, args) => GuardedAll(args)
    case ECase(s, bs, els) =>
      && GuardedOpt(s) && GuardedBranches(bs) && GuardedOpt(els)
      && (s.None? && PruneBranches(bs).hit.Some? ==> PruneBranches(bs).kept == [])
    case EListComp(_, l, f, m) => Guarded(l) && GuardedOpt(f) && GuardedOpt(m)
    case EPatComp(_, f, m) => GuardedOpt(f) && Guarded(m)
    case EListLit(es) => GuardedAll(es)
    case _ => true
  }

  predicate GuardedOpt(o: Option<Expr>)
    decreases o, 1
  {
    o.Some? ==> Guarded(o.value)
  }

  predicate GuardedAll(es: seq<Expr>)
    decreases es, 0
  {
    forall k :: 0 <= k < |es| ==> Guarded(es[k])
  }

  predicate GuardedBranch(b: Branch)
    decreases b, 0
  {
    match b case Branch(c, t) => Guarded(c) && Guarded(t)
  }

  predicate GuardedBranches(bs: seq<Branch>)
    decreases bs, 0
  {
    forall k :: 0 <= k < |bs| ==> GuardedBranch(bs[k])
  }
}
