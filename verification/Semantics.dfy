/**
 The value of an expression on a row, in three-valued logic with checked 64-bit integers
 (sections 20.20 and 20.7 of ISO/IEC 39075:2024).

 A `World` interprets what the optimizer does not look into: parameters, functions, properties,
 comparisons of mixed kinds. It also answers the subqueries and pattern comprehensions an
 expression holds by handle; `Nested.Deep` is the world that runs what those handles hold.
 */
module Semantics {
  import opened Common
  import opened Ast
  import opened Trees

  datatype Value =
    | VNull
    | VBool(b: bool)
    | VInt(i: int)
    | VString(s: string)
    | VFloat(bits: nat)
    | VList(items: seq<Value>)
    | VMap(entries: seq<(string, Value)>)
    | VNode(node: nat)
    | VEdge(edge: nat)

  type Row = map<string, Value>

  datatype Outcome = Val(v: Value) | Fail

  datatype World = World(
    param: string -> Outcome,
    literal: Literal -> Outcome,
    call: (string, seq<Value>) -> Outcome,
    equal: (Value, Value) -> Value,
    compare: (BinaryOp, Value, Value) -> Outcome,
    property: (Value, string) -> Value,
    subquery: (bool, Handle, Row) -> Outcome,
    paths: (Handle, Row) -> Option<seq<Row>>)

  const TRUE: Outcome := Val(VBool(true))
  const FALSE: Outcome := Val(VBool(false))

  /** `y` agrees with `x` wherever `x` is defined. */
  predicate Refines(x: Outcome, y: Outcome) {
    x.Fail? || x == y
  }

  function LitVal(l: Literal, w: World): Outcome {
    match l
    case LNull => Val(VNull)
    case LBool(b) => Val(VBool(b))
    case LInt(i) => Val(VInt(i))
    case LString(s) => Val(VString(s))
    case _ => w.literal(l)
  }

  predicate Logical(x: Outcome) {
    x.Val? && (x.v.VBool? || x.v.VNull?)
  }

  /** AND is false as soon as one side is, whatever the other side does. */
  function AndVal(x: Outcome, y: Outcome): Outcome {
    if x == FALSE || y == FALSE then FALSE
    else if !Logical(x) || !Logical(y) then Fail
    else if x.v.VNull? || y.v.VNull? then Val(VNull)
    else TRUE
  }

  function OrVal(x: Outcome, y: Outcome): Outcome {
    if x == TRUE || y == TRUE then TRUE
    else if !Logical(x) || !Logical(y) then Fail
    else if x.v.VNull? || y.v.VNull? then Val(VNull)
    else FALSE
  }

  function CheckedVal(x: int): Outcome {
    if InI64(x) then Val(VInt(x)) else Fail
  }

  /** Arithmetic is defined on integers only; anything else is a type error. */
  function ArithVal(op: BinaryOp, a: int, b: int): Outcome
    requires op in {Add, Sub, Mul, Div, Mod}
  {
    match op
    case Add => CheckedVal(a + b)
    case Sub => CheckedVal(a - b)
    case Mul => CheckedVal(a * b)
    case Div => if b == 0 then Fail else CheckedVal(TruncDiv(a, b))
    case Mod => if b == 0 || !InI64(TruncDiv(a, b)) then Fail else CheckedVal(TruncRem(a, b))
  }

  predicate OrderVal(op: BinaryOp, a: int, b: int)
    requires op in {Lt, Lte, Gt, Gte}
  {
    match op
    case Lt => a < b
    case Lte => a <= b
    case Gt => a > b
    case Gte => a >= b
  }

  predicate HasInfix(a: string, b: string)
    ensures HasInfix(a, b) <==> exists p: string, q: string :: a == p + b + q
  {
    InfixLater(a, b);
    if HasPrefix(a, b) then true else a != [] && HasInfix(a[1..], b)
  }

  /** A part stands at the front, or in the rest. */
  lemma InfixLater(a: string, b: string)
    ensures (exists p: string, q: string :: a == p + b + q) <==>
      b <= a || (a != [] && exists p: string, q: string :: a[1..] == p + b + q)
  {
    if p: string, q: string :| a == p + b + q {
      if p != [] { InfixTail(a, b, p, q); }
    }
    if b <= a { assert a == [] + b + a[|b|..]; }
    if a != [] {
      if p: string, q: string :| a[1..] == p + b + q {
        var t := [a[0]] + p;
        assert a == t + b + q;
      }
    }
  }

  lemma InfixTail(a: string, b: string, p: string, q: string)
    requires p != [] && a == p + b + q
    ensures a[1..] == p[1..] + b + q
  {
  }

  predicate HasPrefix(a: string, b: string)
    ensures HasPrefix(a, b) <==> b <= a
  {
    |b| <= |a| && a[..|b|] == b
  }

  predicate HasSuffix(a: string, b: string)
    ensures HasSuffix(a, b) <==> exists c: string :: a == c + b
  {
    assert |b| <= |a| && a[|a| - |b|..] == b ==> a == a[..|a| - |b|] + b;
    |b| <= |a| && a[|a| - |b|..] == b
  }

  predicate TextVal(op: BinaryOp, a: string, b: string)
    requires op in {Contains, StartsWith, EndsWith}
  {
    match op
    case Contains => HasInfix(a, b)
    case StartsWith => HasPrefix(a, b)
    case EndsWith => HasSuffix(a, b)
  }

  /** Values of the same simple kind compare directly. */
  predicate SameKind(a: Value, b: Value) {
    (a.VInt? && b.VInt?) || (a.VBool? && b.VBool?) || (a.VString? && b.VString?)
  }

  function BinVal(op: BinaryOp, a: Value, b: Value, w: World): Outcome {
    if op in {In, NotIn, RegexMatch} then w.compare(op, a, b)
    else if a.VNull? || b.VNull? then Val(VNull)
    else match op
      case Eq => if SameKind(a, b) then Val(VBool(a == b)) else Val(w.equal(a, b))
      case Neq => if SameKind(a, b) then Val(VBool(a != b)) else w.compare(op, a, b)
      case Xor => if a.VBool? && b.VBool? then Val(VBool(a.b != b.b)) else Fail
      case Concat => if a.VString? && b.VString? then Val(VString(a.s + b.s)) else w.compare(op, a, b)
      case Contains | StartsWith | EndsWith =>
        if a.VString? && b.VString? then Val(VBool(TextVal(op, a.s, b.s))) else w.compare(op, a, b)
      case Lt | Lte | Gt | Gte =>
        if a.VInt? && b.VInt? then Val(VBool(OrderVal(op, a.i, b.i))) else w.compare(op, a, b)
      case Add =>
        if a.VString? && b.VString? then Val(VString(a.s + b.s))
        else if a.VInt? && b.VInt? then ArithVal(op, a.i, b.i) else Fail
      case Sub | Mul | Div | Mod => if a.VInt? && b.VInt? then ArithVal(op, a.i, b.i) else Fail
      case _ => Fail
  }

  function BinOut(op: BinaryOp, x: Outcome, y: Outcome, w: World): Outcome {
    if op == And then AndVal(x, y)
    else if op == Or then OrVal(x, y)
    else if x.Fail? || y.Fail? then Fail
    else BinVal(op, x.v, y.v, w)
  }

  function UnOut(op: UnaryOp, x: Outcome): Outcome {
    if x.Fail? then Fail
    else match op
      case Not => if x.v.VBool? then Val(VBool(!x.v.b)) else if x.v.VNull? then x else Fail
      case Neg => if x.v.VInt? then CheckedVal(-x.v.i) else if x.v.VNull? then x else Fail
      case IsNull => Val(VBool(x.v.VNull?))
      case IsNotNull => Val(VBool(!x.v.VNull?))
  }

  /** Whether a CASE branch is taken: its WHEN is true, or equals the subject. */
  function BranchTest(subject: Option<Value>, cond: Outcome, w: World): Outcome {
    if cond.Fail? then Fail
    else if subject.None? then (if Logical(cond) then cond else Fail)
    else BinVal(Eq, subject.value, cond.v, w)
  }

  function Eval(e: Expr, row: Row, w: World): Outcome
    decreases e, 2, 0
  {
    match e
    case ELit(l) => LitVal(l, w)
    case EIdent(x) => if x in row then Val(row[x]) else Fail
    case EParam(p) => w.param(p)
    case EProp(t, p) =>
      var o := Eval(t, row, w);
      if o.Fail? then Fail else if o.v.VNull? then o else Val(w.property(o.v, p))
    case EBin(op, l, r) => BinOut(op, Eval(l, row, w), Eval(r, row, w), w)
    case EUn(op, x) => UnOut(op, Eval(x, row, w))
    case ECall(f, args) =>
      var vs := EvalAll(args, row, w);
      if vs.None? then Fail else w.call(f, vs.value)
    case ECase(s, bs, els) =>
      var otherwise := if els.None? then Val(VNull) else Eval(els.value, row, w);
      if s.None? then EvalBranches(None, bs, otherwise, row, w)
      else
        var subject := Eval(s.value, row, w);
        if subject.Fail? then Fail else EvalBranches(Some(subject.v), bs, otherwise, row, w)
    case EListComp(x, list, _, _) =>
      var o := Eval(list, row, w);
      if o.Fail? then Fail
      else if o.v.VNull? then o
      else if !o.v.VList? then Fail
      else Listed(EvalRows(e, Bindings(row, x, o.v.items), w))
    case EPatComp(p, _, _) =>
      var rows := w.paths(p, row);
      if rows.None? then Fail else Listed(EvalRows(e, rows.value, w))
    case EListLit(es) => Listed(EvalAll(es, row, w))
    case ESub(counting, q) => w.subquery(counting, q, row)
    case EOther(_) => Fail
  }

  function Listed(vs: Option<seq<Value>>): Outcome {
    if vs.None? then Fail else Val(VList(vs.value))
  }

  function Bindings(row: Row, x: string, vs: seq<Value>): seq<Row> {
    seq(|vs|, k requires 0 <= k < |vs| => row[x := vs[k]])
  }

  function EvalAll(es: seq<Expr>, row: Row, w: World): (r: Option<seq<Value>>)
    decreases es, 1, 0
  {
    if es == [] then Some([])
    else
      var x := Eval(es[0], row, w);
      var rest := EvalAll(es[1..], row, w);
      if x.Fail? || rest.None? then None else Some([x.v] + rest.value)
  }

  function EvalBranches(subject: Option<Value>, bs: seq<Branch>, otherwise: Outcome,
                        row: Row, w: World): Outcome
    decreases bs, 1, 0
  {
    if bs == [] then otherwise
    else
      assert (bs decreases to bs[0]);
      var Branch(cond, result) := bs[0];
      var test := BranchTest(subject, Eval(cond, row, w), w);
      if test.Fail? then Fail
      else if test == TRUE then Eval(result, row, w)
      else EvalBranches(subject, bs[1..], otherwise, row, w)
  }

  /** A comprehension body over the rows of its source. */
  function EvalRows(e: Expr, rows: seq<Row>, w: World): Option<seq<Value>>
    requires e.EListComp? || e.EPatComp?
    decreases e, 1, |rows|
  {
    if rows == [] then Some([])
    else
      var keep := if e.filter.None? then TRUE else Eval(e.filter.value, rows[0], w);
      var item := RowItem(e, rows[0], w);
      var rest := EvalRows(e, rows[1..], w);
      if !Logical(keep) || rest.None? then None
      else if keep != TRUE then rest
      else if item.Fail? then None
      else Some([item.v] + rest.value)
  }

  function RowItem(e: Expr, row: Row, w: World): Outcome
    requires e.EListComp? || e.EPatComp?
    decreases e, 0, 0
  {
    match e
    case EListComp(x, _, _, body) =>
      if body.Some? then Eval(body.value, row, w)
      else if x in row then Val(row[x]) else Fail
    case EPatComp(_, _, proj) => Eval(proj, row, w)
  }
}
