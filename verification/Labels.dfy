/**
 Label expressions such as `Person & !(Bot | Test)`: their meaning, printer, tokenizer and
 precedence parser (section 16.8 of ISO/IEC 39075:2024).

 The classification of letters and digits is a parameter `alnum`, so that every statement
 holds for the full Unicode tables as well as for plain ASCII.
 */
module Labels {
  import opened Common

  datatype LabelExpression =
    | Label(name: string)
    | And(left: LabelExpression, right: LabelExpression)
    | Or(left: LabelExpression, right: LabelExpression)
    | Not(inner: LabelExpression)
    | Wildcard

  datatype Token = Ident(name: string) | TAnd | TOr | TNot | TWildcard | LParen | RParen

  /** Does an element carrying exactly these labels satisfy the expression? */
  predicate Matches(e: LabelExpression, labels: set<string>) {
    match e
    case Label(n) => n in labels
    case And(l, r) => Matches(l, labels) && Matches(r, labels)
    case Or(l, r) => Matches(l, labels) || Matches(r, labels)
    case Not(x) => !Matches(x, labels)
    case Wildcard => true
  }

  // ---------- Printer ----------

  function Print(e: LabelExpression): string
    decreases e, 0
  {
    match e
    case Label(n) => n
    case Wildcard => "%"
    case Not(x) => if x.And? || x.Or? then "!(" + Print(x) + ")" else "!" + Print(x)
    case And(l, r) => PrintOperand(l) + " & " + PrintOperand(r)
    case Or(l, r) => Print(l) + " | " + Print(r)
  }

  /** An operand of `&`: only a disjunction is parenthesised. */
  function PrintOperand(e: LabelExpression): string
    decreases e, 1
  {
    if e.Or? then "(" + Print(e) + ")" else Print(e)
  }

  // ---------- Tokenizer ----------

  const PUNCTUATION: set<char> :=
    {' ', '\t', '\r', '\n', ':', '&', '|', '!', '%', '*', '(', ')', '`'}

  /** No punctuation character of the grammar counts as a letter or digit. */
  ghost predicate Alphabet(alnum: char -> bool) {
    forall c :: c in PUNCTUATION ==> !alnum(c)
  }

  predicate IdentChar(c: char, alnum: char -> bool) {
    alnum(c) || c == '_' || c == '-'
  }

  function UpperChar(c: char): char {
    if 'a' <= c <= 'z' then c - 'a' + 'A' else c
  }

  function Upper(s: string): (r: string)
    ensures |r| == |s|
    ensures forall i :: 0 <= i < |s| ==> r[i] == UpperChar(s[i])
  {
    seq(|s|, i requires 0 <= i < |s| => UpperChar(s[i]))
  }

  function WordToken(word: string): Token {
    if Upper(word) == "AND" then TAnd
    else if Upper(word) == "OR" then TOr
    else if Upper(word) == "NOT" then TNot
    else Ident(word)
  }

  /** End of the identifier that starts at `i`. */
  function IdentEnd(s: string, i: nat, alnum: char -> bool): (j: nat)
    requires i <= |s|
    ensures i <= j <= |s|
    ensures forall k :: i <= k < j ==> IdentChar(s[k], alnum)
    ensures j < |s| ==> !IdentChar(s[j], alnum)
    decreases |s| - i
  {
    if i < |s| && IdentChar(s[i], alnum) then IdentEnd(s, i + 1, alnum) else i
  }

  /** Position of the closing back-tick at or after `i`, or the end of the text. */
  function QuoteEnd(s: string, i: nat): (j: nat)
    requires i <= |s|
    ensures i <= j <= |s|
    ensures forall k :: i <= k < j ==> s[k] != '`'
    ensures j < |s| ==> s[j] == '`'
    decreases |s| - i
  {
    if i < |s| && s[i] != '`' then QuoteEnd(s, i + 1) else i
  }

  function Prepend(t: Token, r: Result<seq<Token>>): Result<seq<Token>> {
    if r.Ok? then Ok([t] + r.value) else r
  }

  ghost function PrependAll(ts: seq<Token>, r: Result<seq<Token>>): Result<seq<Token>> {
    if r.Ok? then Ok(ts + r.value) else r
  }

  lemma PrependNone(r: Result<seq<Token>>)
    ensures PrependAll([], r) == r
  {
    if r.Ok? { assert [] + r.value == r.value; }
  }

  lemma PrependEnd(a: seq<Token>, e: string)
    ensures PrependAll(a, Ok([])) == Ok(a) && PrependAll(a, Err(e)) == Err(e)
  {
    assert a + [] == a;
  }

  lemma PrependMore(a: seq<Token>, t: Token, r: Result<seq<Token>>)
    ensures PrependAll(a, Prepend(t, r)) == PrependAll(a + [t], r)
  {
    if r.Ok? { assert a + ([t] + r.value) == a + [t] + r.value; }
  }

  lemma PrependBoth(a: seq<Token>, b: seq<Token>, r: Result<seq<Token>>)
    ensures PrependAll(a, PrependAll(b, r)) == PrependAll(a + b, r)
  {
    if r.Ok? { assert a + (b + r.value) == a + b + r.value; }
  }

  lemma PrependThree(a: seq<Token>, t: Token, b: seq<Token>, r: Result<seq<Token>>)
    ensures PrependAll(a, PrependAll([t], PrependAll(b, r))) == PrependAll(a + [t] + b, r)
  {
    PrependBoth([t], b, r);
    PrependBoth(a, [t] + b, r);
    assert a + ([t] + b) == a + [t] + b;
  }

  predicate IsBlank(c: char) {
    c == ' ' || c == '\t' || c == '\r' || c == '\n' || c == ':'
  }

  function Symbol(c: char): Option<Token> {
    if c == '&' then Some(TAnd)
    else if c == '|' then Some(TOr)
    else if c == '!' then Some(TNot)
    else if c == '%' || c == '*' then Some(TWildcard)
    else if c == '(' then Some(LParen)
    else if c == ')' then Some(RParen)
    else None
  }

  /** The tokens of `s` from position `i` on. */
  function Lex(s: string, i: nat, alnum: char -> bool): (r: Result<seq<Token>>)
    requires i <= |s|
    decreases |s| - i
  {
    if i == |s| then Ok([])
    else if IsBlank(s[i]) then Lex(s, i + 1, alnum)
    else if Symbol(s[i]).Some? then Prepend(Symbol(s[i]).value, Lex(s, i + 1, alnum))
    else if s[i] == '`' then
      var j := QuoteEnd(s, i + 1);
      Prepend(Ident(s[i + 1..j]), Lex(s, if j < |s| then j + 1 else j, alnum))
    else if IdentChar(s[i], alnum) then
      var j := IdentEnd(s, i, alnum);
      assert j > i;
      Prepend(WordToken(s[i..j]), Lex(s, j, alnum))
    else Err("Unexpected character in label expression")
  }

  /** `tokenize_label_expr`: one pass over the text with a cursor. */
  method Tokenize(s: string, alnum: char -> bool) returns (r: Result<seq<Token>>)
    ensures r == Lex(s, 0, alnum)
  {
    hide PrependAll, Prepend, Symbol, WordToken;
    var tokens: seq<Token> := [];
    var i := 0;
    PrependNone(Lex(s, 0, alnum));
    while i < |s|
      invariant i <= |s|
      invariant Lex(s, 0, alnum) == PrependAll(tokens, Lex(s, i, alnum))
      decreases |s| - i
    {
      var c := s[i];
      ghost var before, i0 := tokens, i;
      if IsBlank(c) {
        i := i + 1;
      } else if Symbol(c).Some? {
        tokens := tokens + [Symbol(c).value];
        i := i + 1;
      } else if c == '`' {
        i := i + 1;
        var start := i;
        while i < |s| && s[i] != '`'
          invariant start <= i <= |s|
          invariant QuoteEnd(s, start) == QuoteEnd(s, i)
        {
          i := i + 1;
        }
        tokens := tokens + [Ident(s[start..i])];
        if i < |s| {
          i := i + 1;
        }
      } else if IdentChar(c, alnum) {
        var start := i;
        while i < |s| && IdentChar(s[i], alnum)
          invariant start <= i <= |s|
          invariant IdentEnd(s, start, alnum) == IdentEnd(s, i, alnum)
        {
          i := i + 1;
        }
        tokens := tokens + [WordToken(s[start..i])];
      } else {
        PrependEnd(tokens, "Unexpected character in label expression");
        return Err("Unexpected character in label expression");
      }
      if tokens != before {
        PrependMore(before, tokens[|before|], Lex(s, i, alnum));
      }
    }
    PrependEnd(tokens, "");
    r := Ok(tokens);
  }

  // ---------- Parser ----------

  type Parsed = Result<(LabelExpression, nat)>

  ghost predicate Advances(r: Parsed, ts: seq<Token>, pos: nat) {
    r.Ok? ==> pos < r.value.1 <= |ts|
  }

  function Disjunction(ts: seq<Token>, pos: nat): (r: Parsed)
    requires pos <= |ts|
    ensures Advances(r, ts, pos)
    decreases |ts| - pos, 3
  {
    var l := Conjunction(ts, pos);
    if l.Err? then l else DisjunctionRest(ts, l.value.1, l.value.0)
  }

  function DisjunctionRest(ts: seq<Token>, pos: nat, left: LabelExpression): (r: Parsed)
    requires pos <= |ts|
    ensures r.Ok? ==> pos <= r.value.1 <= |ts|
    decreases |ts| - pos, 4
  {
    if pos < |ts| && ts[pos] == TOr then
      var x := Conjunction(ts, pos + 1);
      if x.Err? then x else DisjunctionRest(ts, x.value.1, Or(left, x.value.0))
    else Ok((left, pos))
  }

  function Conjunction(ts: seq<Token>, pos: nat): (r: Parsed)
    requires pos <= |ts|
    ensures Advances(r, ts, pos)
    decreases |ts| - pos, 2
  {
    var l := Unary(ts, pos);
    if l.Err? then l else ConjunctionRest(ts, l.value.1, l.value.0)
  }

  function ConjunctionRest(ts: seq<Token>, pos: nat, left: LabelExpression): (r: Parsed)
    requires pos <= |ts|
    ensures r.Ok? ==> pos <= r.value.1 <= |ts|
    decreases |ts| - pos, 4
  {
    if pos < |ts| && ts[pos] == TAnd then
      var x := Unary(ts, pos + 1);
      if x.Err? then x else ConjunctionRest(ts, x.value.1, And(left, x.value.0))
    else Ok((left, pos))
  }

  function Unary(ts: seq<Token>, pos: nat): (r: Parsed)
    requires pos <= |ts|
    ensures Advances(r, ts, pos)
    decreases |ts| - pos, 1
  {
    if pos < |ts| && ts[pos] == TNot then
      var x := Unary(ts, pos + 1);
      if x.Err? then x else Ok((Not(x.value.0), x.value.1))
    else Primary(ts, pos)
  }

  function Primary(ts: seq<Token>, pos: nat): (r: Parsed)
    requires pos <= |ts|
    ensures Advances(r, ts, pos)
    decreases |ts| - pos, 0
  {
    if pos == |ts| then Err("Unexpected end of label expression")
    else match ts[pos]
      case Ident(n) => Ok((Label(n), pos + 1))
      case TWildcard => Ok((Wildcard, pos + 1))
      case LParen =>
        CloseParen(Disjunction(ts, pos + 1), ts, pos)
      case _ => Err("Unexpected token in label expression")
  }

  function CloseParen(x: Parsed, ts: seq<Token>, pos: nat): (r: Parsed)
    requires pos < |ts| && Advances(x, ts, pos + 1)
    ensures Advances(r, ts, pos)
  {
    if x.Err? then x
    else if x.value.1 < |ts| && ts[x.value.1] == RParen then Ok((x.value.0, x.value.1 + 1))
    else Err("Unclosed parenthesis in label expression")
  }

  function ParseTokens(ts: seq<Token>): Result<LabelExpression> {
    if ts == [] then Err("Empty label expression")
    else
      var r := Disjunction(ts, 0);
      if r.Err? then Err(r.error)
      else if r.value.1 < |ts| then Err("Unexpected trailing tokens in label expression")
      else Ok(r.value.0)
  }

  /** What `LabelExpression::parse` returns. */
  function Parse(s: string, alnum: char -> bool): Result<LabelExpression> {
    var ts := Lex(s, 0, alnum);
    if ts.Err? then Err(ts.error) else ParseTokens(ts.value)
  }

  method ParseDisjunction(ts: seq<Token>, pos: nat) returns (r: Parsed)
    requires pos <= |ts|
    ensures r == Disjunction(ts, pos)
    decreases |ts| - pos, 3
  {
    var l := ParseConjunction(ts, pos);
    if l.Err? { return l; }
    var (left, p) := l.value;
    while p < |ts| && ts[p] == TOr
      invariant pos < p <= |ts|
      invariant Disjunction(ts, pos) == DisjunctionRest(ts, p, left)
      decreases |ts| - p
    {
      var x := ParseConjunction(ts, p + 1);
      if x.Err? { return x; }
      left, p := Or(left, x.value.0), x.value.1;
    }
    return Ok((left, p));
  }

  method ParseConjunction(ts: seq<Token>, pos: nat) returns (r: Parsed)
    requires pos <= |ts|
    ensures r == Conjunction(ts, pos)
    decreases |ts| - pos, 2
  {
    var l := ParseUnary(ts, pos);
    if l.Err? { return l; }
    var (left, p) := l.value;
    while p < |ts| && ts[p] == TAnd
      invariant pos < p <= |ts|
      invariant Conjunction(ts, pos) == ConjunctionRest(ts, p, left)
      decreases |ts| - p
    {
      var x := ParseUnary(ts, p + 1);
      if x.Err? { return x; }
      left, p := And(left, x.value.0), x.value.1;
    }
    return Ok((left, p));
  }

  method ParseUnary(ts: seq<Token>, pos: nat) returns (r: Parsed)
    requires pos <= |ts|
    ensures r == Unary(ts, pos)
    decreases |ts| - pos, 1
  {
    if pos < |ts| && ts[pos] == TNot {
      var x := ParseUnary(ts, pos + 1);
      return if x.Err? then x else Ok((Not(x.value.0), x.value.1));
    }
    r := ParsePrimary(ts, pos);
  }

  method ParsePrimary(ts: seq<Token>, pos: nat) returns (r: Parsed)
    requires pos <= |ts|
    ensures r == Primary(ts, pos)
    decreases |ts| - pos, 0
  {
    if pos >= |ts| {
      return Err("Unexpected end of label expression");
    }
    match ts[pos] {
      case Ident(n) => return Ok((Label(n), pos + 1));
      case TWildcard => return Ok((Wildcard, pos + 1));
      case LParen =>
        var x := ParseDisjunction(ts, pos + 1);
        if x.Err? { return x; }
        if x.value.1 >= |ts| || ts[x.value.1] != RParen {
          return Err("Unclosed parenthesis in label expression");
        }
        return Ok((x.value.0, x.value.1 + 1));
      case _ => return Err("Unexpected token in label expression");
    }
  }

  // ---------- Printing and parsing back ----------

  /** The tree the parser builds from the printed text: `&` and `|` nest to the left. */
  function Norm(e: LabelExpression): LabelExpression
    decreases e, 0
  {
    match e
    case Not(x) => Not(Norm(x))
    case And(l, r) => AppendAnd(Norm(l), r)
    case Or(l, r) => AppendOr(Norm(l), r)
    case _ => e
  }

  function AppendAnd(acc: LabelExpression, e: LabelExpression): LabelExpression
    decreases e, 1
  {
    if e.And? then AppendAnd(AppendAnd(acc, e.left), e.right) else And(acc, Norm(e))
  }

  function AppendOr(acc: LabelExpression, e: LabelExpression): LabelExpression
    decreases e, 1
  {
    if e.Or? then AppendOr(AppendOr(acc, e.left), e.right) else Or(acc, Norm(e))
  }

  /** No right operand of `&` is itself an `&`, and likewise for `|`. */
  predicate LeftNested(e: LabelExpression) {
    match e
    case Not(x) => LeftNested(x)
    case And(l, r) => LeftNested(l) && LeftNested(r) && !r.And?
    case Or(l, r) => LeftNested(l) && LeftNested(r) && !r.Or?
    case _ => true
  }

  /** A label the printer can write without quoting. */
  ghost predicate PlainName(n: string, alnum: char -> bool) {
    && n != []
    && (forall i :: 0 <= i < |n| ==> IdentChar(n[i], alnum))
    && Upper(n) != "AND" && Upper(n) != "OR" && Upper(n) != "NOT"
  }

  ghost predicate Plain(e: LabelExpression, alnum: char -> bool) {
    match e
    case Label(n) => PlainName(n, alnum)
    case And(l, r) => Plain(l, alnum) && Plain(r, alnum)
    case Or(l, r) => Plain(l, alnum) && Plain(r, alnum)
    case Not(x) => Plain(x, alnum)
    case Wildcard => true
  }

  /** The token sequence of the printed text. */
  ghost function Toks(e: LabelExpression): (ts: seq<Token>)
    ensures ts != []
    decreases e, 0
  {
    match e
    case Label(n) => [Ident(n)]
    case Wildcard => [TWildcard]
    case Not(x) => if x.And? || x.Or? then [TNot, LParen] + Toks(x) + [RParen] else [TNot] + Toks(x)
    case And(l, r) => OperandToks(l) + [TAnd] + OperandToks(r)
    case Or(l, r) => Toks(l) + [TOr] + Toks(r)
  }

  ghost function OperandToks(e: LabelExpression): (ts: seq<Token>)
    ensures ts != []
    decreases e, 1
  {
    if e.Or? then [LParen] + Toks(e) + [RParen] else Toks(e)
  }

  /** `part` stands in `whole` at position `pos`. */
  ghost predicate Occurs<T>(part: seq<T>, whole: seq<T>, pos: nat) {
    && pos + |part| <= |whole|
    && forall k {:trigger part[k]} :: 0 <= k < |part| ==> whole[pos + k] == part[k]
  }

  lemma OccursSplit<T>(a: seq<T>, b: seq<T>, whole: seq<T>, pos: nat)
    requires Occurs(a + b, whole, pos)
    ensures Occurs(a, whole, pos) && Occurs(b, whole, pos + |a|)
  {
    forall k | 0 <= k < |a| ensures whole[pos + k] == a[k] {
      assert (a + b)[k] == a[k];
    }
    forall k | 0 <= k < |b| ensures whole[pos + |a| + k] == b[k] {
      assert (a + b)[|a| + k] == b[k];
    }
  }

  lemma OccursHead<T>(x: T, b: seq<T>, whole: seq<T>, pos: nat)
    requires Occurs([x] + b, whole, pos)
    ensures pos < |whole| && whole[pos] == x && Occurs(b, whole, pos + 1)
  {
    assert ([x] + b)[0] == x;
    OccursSplit([x], b, whole, pos);
  }

  lemma OccursCons<T>(x: T, a: seq<T>, whole: seq<T>, pos: nat)
    requires pos < |whole| && whole[pos] == x && Occurs(a, whole, pos + 1)
    ensures Occurs([x] + a, whole, pos)
  {
    forall k | 0 <= k < |[x] + a| ensures whole[pos + k] == ([x] + a)[k] {
      if k > 0 { assert ([x] + a)[k] == a[k - 1]; }
    }
  }

  /** The tail of the token stream does not continue a conjunction. */
  ghost predicate EndsConjunction(ts: seq<Token>, pos: nat) {
    pos >= |ts| || ts[pos] != TAnd
  }

  lemma {:induction false} ParsesUnit(e: LabelExpression, ts: seq<Token>, pos: nat)
    requires !e.And? && Occurs(OperandToks(e), ts, pos)
    ensures Unary(ts, pos) == Ok((Norm(e), pos + |OperandToks(e)|))
    decreases e, 2
  {
    match e
    case Label(n) => OccursHead(Ident(n), [], ts, pos);
    case Wildcard => OccursHead(TWildcard, [], ts, pos);
    case Or(_, _) => ParsesParens(e, ts, pos);
    case Not(x) =>
      if x.And? || x.Or? {
        assert Toks(e) == [TNot] + ([LParen] + Toks(x) + [RParen]);
        OccursHead(TNot, [LParen] + Toks(x) + [RParen], ts, pos);
        ParsesParens(x, ts, pos + 1);
      } else {
        assert Toks(e) == [TNot] + Toks(x);
        OccursHead(TNot, Toks(x), ts, pos);
        ParsesUnit(x, ts, pos + 1);
      }
  }

  lemma {:induction false} ParsesParens(e: LabelExpression, ts: seq<Token>, pos: nat)
    requires (e.And? || e.Or?) && Occurs([LParen] + Toks(e) + [RParen], ts, pos)
    ensures Unary(ts, pos) == Ok((Norm(e), pos + |Toks(e)| + 2))
    decreases e, 1
  {
    var end := pos + 1 + |Toks(e)|;
    assert [LParen] + Toks(e) + [RParen] == [LParen] + (Toks(e) + [RParen]);
    OccursHead(LParen, Toks(e) + [RParen], ts, pos);
    OccursSplit(Toks(e), [RParen], ts, pos + 1);
    OccursHead(RParen, [], ts, end);
    ParsesCompound(e, ts, pos + 1);
    assert DisjunctionRest(ts, end, Norm(e)) == Ok((Norm(e), end));
  }

  /** A printed `&` or `|` is read back as a whole disjunction. */
  lemma {:induction false} ParsesCompound(e: LabelExpression, ts: seq<Token>, pos: nat)
    requires (e.And? || e.Or?) && Occurs(Toks(e), ts, pos) && EndsConjunction(ts, pos + |Toks(e)|)
    ensures Disjunction(ts, pos) == DisjunctionRest(ts, pos + |Toks(e)|, Norm(e))
    decreases e, 0, 1
  {
    if e.Or? {
      OrSplit(e, ts, pos);
      ParsesWhole(e.left, ts, pos);
      ParsesOrRest(e.right, ts, pos + |Toks(e.left)|, Norm(e.left));
    } else {
      ParsesAnd(e, ts, pos);
    }
  }

  lemma {:induction false} ParsesWhole(e: LabelExpression, ts: seq<Token>, pos: nat)
    requires Occurs(Toks(e), ts, pos) && EndsConjunction(ts, pos + |Toks(e)|)
    ensures Disjunction(ts, pos) == DisjunctionRest(ts, pos + |Toks(e)|, Norm(e))
    decreases e, 3
  {
    if e.And? || e.Or? {
      ParsesCompound(e, ts, pos);
    } else {
      ParsesUnit(e, ts, pos);
      assert Conjunction(ts, pos) == Ok((Norm(e), pos + |Toks(e)|));
    }
  }

  lemma OrSplit(e: LabelExpression, ts: seq<Token>, pos: nat)
    requires e.Or? && Occurs(Toks(e), ts, pos)
    ensures |Toks(e)| == |Toks(e.left)| + 1 + |Toks(e.right)|
    ensures Occurs(Toks(e.left), ts, pos) && Occurs([TOr] + Toks(e.right), ts, pos + |Toks(e.left)|)
    ensures EndsConjunction(ts, pos + |Toks(e.left)|)
  {
    assert Toks(e) == Toks(e.left) + ([TOr] + Toks(e.right));
    OccursSplit(Toks(e.left), [TOr] + Toks(e.right), ts, pos);
    OccursHead(TOr, Toks(e.right), ts, pos + |Toks(e.left)|);
  }

  lemma {:induction false} ParsesOrRest(e: LabelExpression, ts: seq<Token>, pos: nat, acc: LabelExpression)
    requires Occurs([TOr] + Toks(e), ts, pos) && EndsConjunction(ts, pos + 1 + |Toks(e)|)
    ensures DisjunctionRest(ts, pos, acc) == DisjunctionRest(ts, pos + 1 + |Toks(e)|, AppendOr(acc, e))
    decreases e, 4
  {
    hide Conjunction, Toks, Occurs;
    OccursHead(TOr, Toks(e), ts, pos);
    if e.Or? {
      OrSplit(e, ts, pos + 1);
      OccursCons(TOr, Toks(e.left), ts, pos);
      ParsesOrRest(e.left, ts, pos, acc);
      ParsesOrRest(e.right, ts, pos + 1 + |Toks(e.left)|, AppendOr(acc, e.left));
    } else {
      ParsesConjunction(e, ts, pos + 1);
    }
  }

  /** A printed operand of `|` is exactly one conjunction. */
  lemma {:induction false} ParsesConjunction(e: LabelExpression, ts: seq<Token>, pos: nat)
    requires !e.Or? && Occurs(Toks(e), ts, pos) && EndsConjunction(ts, pos + |Toks(e)|)
    ensures Conjunction(ts, pos) == Ok((Norm(e), pos + |Toks(e)|))
    decreases e, 3
  {
    if e.And? {
      ParsesAnd(e, ts, pos);
    } else {
      ParsesUnit(e, ts, pos);
    }
  }

  lemma {:induction false} ParsesAnd(e: LabelExpression, ts: seq<Token>, pos: nat)
    requires e.And? && Occurs(Toks(e), ts, pos)
    ensures Conjunction(ts, pos) == ConjunctionRest(ts, pos + |Toks(e)|, Norm(e))
    decreases e, 0, 0
  {
    AndSplit(e, ts, pos);
    ParsesOperand(e.left, ts, pos);
    ParsesAndRest(e.right, ts, pos + |OperandToks(e.left)|, Norm(e.left));
  }

  lemma {:induction false} ParsesOperand(e: LabelExpression, ts: seq<Token>, pos: nat)
    requires Occurs(OperandToks(e), ts, pos)
    ensures Conjunction(ts, pos) == ConjunctionRest(ts, pos + |OperandToks(e)|, Norm(e))
    decreases e, 3
  {
    if e.And? {
      ParsesAnd(e, ts, pos);
    } else {
      ParsesUnit(e, ts, pos);
    }
  }

  lemma AndSplit(e: LabelExpression, ts: seq<Token>, pos: nat)
    requires e.And? && Occurs(Toks(e), ts, pos)
    ensures |Toks(e)| == |OperandToks(e.left)| + 1 + |OperandToks(e.right)|
    ensures Occurs(OperandToks(e.left), ts, pos)
    ensures Occurs([TAnd] + OperandToks(e.right), ts, pos + |OperandToks(e.left)|)
  {
    assert Toks(e) == OperandToks(e.left) + ([TAnd] + OperandToks(e.right));
    OccursSplit(OperandToks(e.left), [TAnd] + OperandToks(e.right), ts, pos);
  }

  lemma {:induction false} ParsesAndRest(e: LabelExpression, ts: seq<Token>, pos: nat, acc: LabelExpression)
    requires Occurs([TAnd] + OperandToks(e), ts, pos)
    ensures ConjunctionRest(ts, pos, acc)
         == ConjunctionRest(ts, pos + 1 + |OperandToks(e)|, AppendAnd(acc, e))
    decreases e, 4
  {
    OccursHead(TAnd, OperandToks(e), ts, pos);
    if e.And? {
      AndSplit(e, ts, pos + 1);
      OccursCons(TAnd, OperandToks(e.left), ts, pos);
      ParsesAndRest(e.left, ts, pos, acc);
      ParsesAndRest(e.right, ts, pos + 1 + |OperandToks(e.left)|, AppendAnd(acc, e.left));
    } else {
      ParsesUnit(e, ts, pos + 1);
    }
  }

  // ---------- The printed text lexes to those tokens ----------

  ghost predicate WordEnds(s: string, i: nat, alnum: char -> bool) {
    i >= |s| || !IdentChar(s[i], alnum)
  }

  lemma LexSymbol(c: char, s: string, i: nat, alnum: char -> bool)
    requires Alphabet(alnum) && i < |s| && s[i] == c && Symbol(c).Some?
    ensures Lex(s, i, alnum) == PrependAll([Symbol(c).value], Lex(s, i + 1, alnum))
    ensures WordEnds(s, i, alnum)
  {
    assert c in PUNCTUATION;
  }

  lemma LexWord(n: string, s: string, i: nat, alnum: char -> bool)
    requires Alphabet(alnum) && PlainName(n, alnum) && Occurs(n, s, i) && WordEnds(s, i + |n|, alnum)
    ensures Lex(s, i, alnum) == PrependAll([Ident(n)], Lex(s, i + |n|, alnum))
  {
    var j := IdentEnd(s, i, alnum);
    forall k | i <= k < i + |n|
      ensures IdentChar(s[k], alnum)
    {
      assert s[i + (k - i)] == n[k - i];
    }
    assert j == i + |n|;
    assert s[i] !in PUNCTUATION;
    assert s[i..j] == n;
  }

  lemma {:induction false} LexPrinted(e: LabelExpression, s: string, i: nat, alnum: char -> bool)
    requires Alphabet(alnum) && Plain(e, alnum)
    requires Occurs(Print(e), s, i) && WordEnds(s, i + |Print(e)|, alnum)
    ensures Lex(s, i, alnum) == PrependAll(Toks(e), Lex(s, i + |Print(e)|, alnum))
    decreases e, 1
  {
    match e
    case Label(n) => LexWord(n, s, i, alnum);
    case Wildcard =>
      OccursHead('%', [], s, i);
      LexSymbol('%', s, i, alnum);
    case Not(_) => LexNot(e, s, i, alnum);
    case And(_, _) => LexAnd(e, s, i, alnum);
    case Or(_, _) => LexOr(e, s, i, alnum);
  }

  lemma NotText(e: LabelExpression, alnum: char -> bool)
    requires Plain(e, alnum) && e.Not?
    ensures Plain(e.inner, alnum)
    ensures Print(e) == ['!'] + if e.inner.And? || e.inner.Or? then ['('] + Print(e.inner) + [')'] else Print(e.inner)
    ensures Toks(e) == [TNot] +
      if e.inner.And? || e.inner.Or? then [LParen] + Toks(e.inner) + [RParen] else Toks(e.inner)
  {
  }

  lemma {:induction false} LexNot(e: LabelExpression, s: string, i: nat, alnum: char -> bool)
    requires Alphabet(alnum) && Plain(e, alnum) && e.Not?
    requires Occurs(Print(e), s, i) && WordEnds(s, i + |Print(e)|, alnum)
    ensures Lex(s, i, alnum) == PrependAll(Toks(e), Lex(s, i + |Print(e)|, alnum))
    decreases e, 0
  {
    hide Lex, Plain, Occurs, Print, Toks, PrependAll;
    var x := e.inner;
    NotText(e, alnum);
    OccursHead('!', Print(e)[1..], s, i);
    LexSymbol('!', s, i, alnum);
    var after := Lex(s, i + |Print(e)|, alnum);
    if x.And? || x.Or? {
      LexParens(x, s, i + 1, alnum);
      PrependBoth([TNot], [LParen] + Toks(x) + [RParen], after);
    } else {
      LexPrinted(x, s, i + 1, alnum);
      PrependBoth([TNot], Toks(x), after);
    }
  }

  lemma PairText(e: LabelExpression, alnum: char -> bool)
    requires Plain(e, alnum) && (e.And? || e.Or?)
    ensures Plain(e.left, alnum) && Plain(e.right, alnum)
    ensures e.And? ==> Print(e) == PrintOperand(e.left) + (" & " + PrintOperand(e.right))
    ensures e.And? ==> Toks(e) == OperandToks(e.left) + [TAnd] + OperandToks(e.right)
    ensures e.Or? ==> Print(e) == Print(e.left) + (" | " + Print(e.right))
    ensures e.Or? ==> Toks(e) == Toks(e.left) + [TOr] + Toks(e.right)
  {
    if e.And? {
      Assoc(PrintOperand(e.left), " & ", PrintOperand(e.right));
    } else {
      Assoc(Print(e.left), " | ", Print(e.right));
    }
  }

  lemma Assoc(a: string, b: string, c: string)
    ensures a + b + c == a + (b + c)
  {
  }

  lemma {:induction false} LexAnd(e: LabelExpression, s: string, i: nat, alnum: char -> bool)
    requires Alphabet(alnum) && Plain(e, alnum) && e.And?
    requires Occurs(Print(e), s, i) && WordEnds(s, i + |Print(e)|, alnum)
    ensures Lex(s, i, alnum) == PrependAll(Toks(e), Lex(s, i + |Print(e)|, alnum))
    decreases e, 0
  {
    hide Lex, Plain, Occurs, PrependAll, Print, Toks, PrintOperand, OperandToks;
    PairText(e, alnum);
    var (l, r) := (e.left, e.right);
    var j := i + |PrintOperand(l)|;
    OccursSplit(PrintOperand(l), " & " + PrintOperand(r), s, i);
    LexInfix('&', PrintOperand(r), s, j, alnum);
    LexOperand(l, s, i, alnum);
    LexOperand(r, s, j + 3, alnum);
    PrependThree(OperandToks(l), TAnd, OperandToks(r), Lex(s, i + |Print(e)|, alnum));
  }

  lemma {:induction false} LexOr(e: LabelExpression, s: string, i: nat, alnum: char -> bool)
    requires Alphabet(alnum) && Plain(e, alnum) && e.Or?
    requires Occurs(Print(e), s, i) && WordEnds(s, i + |Print(e)|, alnum)
    ensures Lex(s, i, alnum) == PrependAll(Toks(e), Lex(s, i + |Print(e)|, alnum))
    decreases e, 0
  {
    hide Lex, Plain, Occurs, PrependAll, Print, Toks;
    PairText(e, alnum);
    var (l, r) := (e.left, e.right);
    var j := i + |Print(l)|;
    OccursSplit(Print(l), " | " + Print(r), s, i);
    LexInfix('|', Print(r), s, j, alnum);
    LexPrinted(l, s, i, alnum);
    LexPrinted(r, s, j + 3, alnum);
    PrependThree(Toks(l), TOr, Toks(r), Lex(s, i + |Print(e)|, alnum));
  }

  lemma LexInfix(c: char, rest: string, s: string, i: nat, alnum: char -> bool)
    requires Alphabet(alnum) && Symbol(c).Some? && Occurs([' ', c, ' '] + rest, s, i)
    ensures WordEnds(s, i, alnum) && Occurs(rest, s, i + 3)
    ensures Lex(s, i, alnum) == PrependAll([Symbol(c).value], Lex(s, i + 3, alnum))
  {
    OccursSplit([' ', c, ' '], rest, s, i);
    var mid := [' ', c, ' '];
    assert s[i + 0] == mid[0] && s[i + 1] == mid[1] && s[i + 2] == mid[2];
    assert ' ' in PUNCTUATION;
    LexSymbol(c, s, i + 1, alnum);
  }

  lemma {:induction false} LexOperand(e: LabelExpression, s: string, i: nat, alnum: char -> bool)
    requires Alphabet(alnum) && Plain(e, alnum)
    requires Occurs(PrintOperand(e), s, i) && WordEnds(s, i + |PrintOperand(e)|, alnum)
    ensures Lex(s, i, alnum) == PrependAll(OperandToks(e), Lex(s, i + |PrintOperand(e)|, alnum))
    decreases e, 3
  {
    hide Lex, Plain, Occurs, PrependAll;
    if e.Or? {
      LexParens(e, s, i, alnum);
    } else {
      LexPrinted(e, s, i, alnum);
    }
  }

  lemma {:induction false} LexParens(e: LabelExpression, s: string, i: nat, alnum: char -> bool)
    requires Alphabet(alnum) && Plain(e, alnum) && Occurs(['('] + Print(e) + [')'], s, i)
    ensures Lex(s, i, alnum) == PrependAll([LParen] + Toks(e) + [RParen], Lex(s, i + |Print(e)| + 2, alnum))
    decreases e, 2
  {
    hide Lex, Print, Toks, Plain, Occurs, PrependAll;
    var j := i + 1 + |Print(e)|;
    assert ['('] + Print(e) + [')'] == ['('] + (Print(e) + [')']);
    OccursHead('(', Print(e) + [')'], s, i);
    OccursSplit(Print(e), [')'], s, i + 1);
    OccursHead(')', [], s, j);
    LexSymbol('(', s, i, alnum);
    LexSymbol(')', s, j, alnum);
    LexPrinted(e, s, i + 1, alnum);
    var rest := Lex(s, i + |Print(e)| + 2, alnum);
    PrependBoth(Toks(e), [RParen], rest);
    PrependBoth([LParen], Toks(e) + [RParen], rest);
    assert [LParen] + Toks(e) + [RParen] == [LParen] + (Toks(e) + [RParen]);
  }

  /** Parsing the printed text always succeeds and yields the left-nested form. */
  lemma ParsePrinted(e: LabelExpression, alnum: char -> bool)
    requires Alphabet(alnum) && Plain(e, alnum)
    ensures Parse(Print(e), alnum) == Ok(Norm(e))
  {
    var s, ts := Print(e), Toks(e);
    assert s[0..|s|] == s && ts[0..|ts|] == ts;
    LexPrinted(e, s, 0, alnum);
    assert ts + [] == ts;
    ParsesWhole(e, ts, 0);
  }

  // ---------- What the left-nested form keeps ----------

  lemma {:induction false} NormMatches(e: LabelExpression, labels: set<string>)
    ensures Matches(Norm(e), labels) <==> Matches(e, labels)
    decreases e, 0
  {
    match e
    case Not(x) => NormMatches(x, labels);
    case And(l, r) => NormMatches(l, labels); AppendMatches(Norm(l), r, labels);
    case Or(l, r) => NormMatches(l, labels); AppendMatches(Norm(l), r, labels);
    case _ =>
  }

  lemma {:induction false} AppendMatches(acc: LabelExpression, e: LabelExpression, labels: set<string>)
    ensures Matches(AppendAnd(acc, e), labels) <==> Matches(acc, labels) && Matches(e, labels)
    ensures Matches(AppendOr(acc, e), labels) <==> Matches(acc, labels) || Matches(e, labels)
    decreases e, 1
  {
    NormMatches(e, labels);
    if e.And? {
      AppendMatches(acc, e.left, labels);
      AppendMatches(AppendAnd(acc, e.left), e.right, labels);
    } else if e.Or? {
      AppendMatches(acc, e.left, labels);
      AppendMatches(AppendOr(acc, e.left), e.right, labels);
    }
  }

  /** Both forms print to the same text. */
  lemma {:induction false} NormPrints(e: LabelExpression)
    ensures Print(Norm(e)) == Print(e)
    ensures Norm(e).And? == e.And? && Norm(e).Or? == e.Or?
    decreases e, 0
  {
    match e
    case Not(x) => NormPrints(x);
    case And(l, r) =>
      NormPrints(l);
      AppendAndPrints(Norm(l), r);
      assert PrintOperand(Norm(l)) == PrintOperand(l);
    case Or(l, r) =>
      NormPrints(l);
      AppendOrPrints(Norm(l), r);
    case _ =>
  }

  lemma {:induction false} AppendAndPrints(acc: LabelExpression, e: LabelExpression)
    ensures AppendAnd(acc, e).And?
    ensures Print(AppendAnd(acc, e)) == PrintOperand(acc) + " & " + PrintOperand(e)
    decreases e, 1
  {
    if e.And? {
      AppendAndPrints(acc, e.left);
      AppendAndPrints(AppendAnd(acc, e.left), e.right);
      assert PrintOperand(acc) + " & " + PrintOperand(e.left) + " & " + PrintOperand(e.right)
          == PrintOperand(acc) + " & " + (PrintOperand(e.left) + " & " + PrintOperand(e.right));
    } else {
      NormPrints(e);
    }
  }

  lemma {:induction false} AppendOrPrints(acc: LabelExpression, e: LabelExpression)
    ensures AppendOr(acc, e).Or?
    ensures Print(AppendOr(acc, e)) == Print(acc) + " | " + Print(e)
    decreases e, 1
  {
    if e.Or? {
      AppendOrPrints(acc, e.left);
      AppendOrPrints(AppendOr(acc, e.left), e.right);
      assert Print(acc) + " | " + Print(e.left) + " | " + Print(e.right)
          == Print(acc) + " | " + (Print(e.left) + " | " + Print(e.right));
    } else {
      NormPrints(e);
    }
  }

  lemma {:induction false} NormLeftNested(e: LabelExpression)
    ensures LeftNested(Norm(e))
    decreases e, 0
  {
    NormPrints(e);
    match e
    case Not(x) => NormLeftNested(x);
    case And(l, r) => NormLeftNested(l); AppendLeftNested(Norm(l), r);
    case Or(l, r) => NormLeftNested(l); AppendLeftNested(Norm(l), r);
    case _ =>
  }

  lemma {:induction false} AppendLeftNested(acc: LabelExpression, e: LabelExpression)
    requires LeftNested(acc)
    ensures LeftNested(AppendAnd(acc, e)) && LeftNested(AppendOr(acc, e))
    decreases e, 1
  {
    NormPrints(e);
    NormLeftNested(e);
    if e.And? {
      AppendLeftNested(acc, e.left);
      AppendLeftNested(AppendAnd(acc, e.left), e.right);
    } else if e.Or? {
      AppendLeftNested(acc, e.left);
      AppendLeftNested(AppendOr(acc, e.left), e.right);
    }
  }

  lemma {:induction false} NormFixed(e: LabelExpression)
    requires LeftNested(e)
    ensures Norm(e) == e
  {
    match e
    case Not(x) => NormFixed(x);
    case And(l, r) => NormFixed(l); NormFixed(r);
    case Or(l, r) => NormFixed(l); NormFixed(r);
    case _ =>
  }

  /**
   Printing then parsing: it succeeds, the result matches the same label sets and prints to
   the same text, and it is the original expression exactly when that one is left-nested.
   */
  lemma RoundTrip(e: LabelExpression, alnum: char -> bool)
    requires Alphabet(alnum) && Plain(e, alnum)
    ensures var r := Parse(Print(e), alnum);
      && r.Ok?
      && (forall labels :: Matches(r.value, labels) <==> Matches(e, labels))
      && Print(r.value) == Print(e)
      && (r.value == e <==> LeftNested(e))
  {
    ParsePrinted(e, alnum);
    forall labels: set<string>
      ensures Matches(Norm(e), labels) <==> Matches(e, labels)
    {
      NormMatches(e, labels);
    }
    NormPrints(e);
    NormLeftNested(e);
    if LeftNested(e) {
      NormFixed(e);
    }
  }

  // ---------- Exactly which expressions survive ----------

  function LabelsOf(e: LabelExpression): set<string> {
    match e
    case Label(n) => {n}
    case And(l, r) => LabelsOf(l) + LabelsOf(r)
    case Or(l, r) => LabelsOf(l) + LabelsOf(r)
    case Not(x) => LabelsOf(x)
    case Wildcard => {}
  }

  /** Every label of the expression was read from an identifier token. */
  ghost predicate Read(e: LabelExpression, ts: seq<Token>) {
    forall n :: n in LabelsOf(e) ==> Ident(n) in ts
  }

  ghost predicate ReadsTokens(r: Parsed, ts: seq<Token>) {
    r.Ok? ==> Read(r.value.0, ts)
  }

  lemma {:induction false} DisjunctionReads(ts: seq<Token>, pos: nat)
    requires pos <= |ts|
    ensures ReadsTokens(Disjunction(ts, pos), ts)
    decreases |ts| - pos, 3
  {
    ConjunctionReads(ts, pos);
    var l := Conjunction(ts, pos);
    if l.Ok? { DisjunctionRestReads(ts, l.value.1, l.value.0); }
  }

  lemma {:induction false} DisjunctionRestReads(ts: seq<Token>, pos: nat, left: LabelExpression)
    requires pos <= |ts| && Read(left, ts)
    ensures ReadsTokens(DisjunctionRest(ts, pos, left), ts)
    decreases |ts| - pos, 4
  {
    if pos < |ts| && ts[pos] == TOr {
      ConjunctionReads(ts, pos + 1);
      var x := Conjunction(ts, pos + 1);
      if x.Ok? { DisjunctionRestReads(ts, x.value.1, Or(left, x.value.0)); }
    }
  }

  lemma {:induction false} ConjunctionReads(ts: seq<Token>, pos: nat)
    requires pos <= |ts|
    ensures ReadsTokens(Conjunction(ts, pos), ts)
    decreases |ts| - pos, 2
  {
    UnaryReads(ts, pos);
    var l := Unary(ts, pos);
    if l.Ok? { ConjunctionRestReads(ts, l.value.1, l.value.0); }
  }

  lemma {:induction false} ConjunctionRestReads(ts: seq<Token>, pos: nat, left: LabelExpression)
    requires pos <= |ts| && Read(left, ts)
    ensures ReadsTokens(ConjunctionRest(ts, pos, left), ts)
    decreases |ts| - pos, 4
  {
    if pos < |ts| && ts[pos] == TAnd {
      UnaryReads(ts, pos + 1);
      var x := Unary(ts, pos + 1);
      if x.Ok? { ConjunctionRestReads(ts, x.value.1, And(left, x.value.0)); }
    }
  }

  lemma {:induction false} UnaryReads(ts: seq<Token>, pos: nat)
    requires pos <= |ts|
    ensures ReadsTokens(Unary(ts, pos), ts)
    decreases |ts| - pos, 1
  {
    if pos < |ts| && ts[pos] == TNot {
      UnaryReads(ts, pos + 1);
    } else if pos < |ts| && ts[pos] == LParen {
      DisjunctionReads(ts, pos + 1);
    }
  }

  /** No identifier holds a back-tick, and in a text without one every identifier is a plain word. */
  lemma {:induction false} LexIdents(s: string, i: nat, alnum: char -> bool, n: string)
    requires Alphabet(alnum) && i <= |s| && Lex(s, i, alnum).Ok? && Ident(n) in Lex(s, i, alnum).value
    ensures '`' !in n && ('`' !in s ==> PlainName(n, alnum))
    decreases |s| - i
  {
    var rest := Lex(s, i, alnum).value;
    if IsBlank(s[i]) {
      LexIdents(s, i + 1, alnum, n);
    } else if Symbol(s[i]).Some? {
      assert Ident(n) in Lex(s, i + 1, alnum).value;
      LexIdents(s, i + 1, alnum, n);
    } else if s[i] == '`' {
      var j := QuoteEnd(s, i + 1);
      if Ident(n) in Lex(s, if j < |s| then j + 1 else j, alnum).value {
        LexIdents(s, if j < |s| then j + 1 else j, alnum, n);
      }
    } else {
      var j := IdentEnd(s, i, alnum);
      if Ident(n) in Lex(s, j, alnum).value {
        LexIdents(s, j, alnum, n);
      } else {
        assert rest[0] == Ident(n) && n == s[i..j];
        forall k | 0 <= k < |n| ensures IdentChar(n[k], alnum) && n[k] != '`' { assert n[k] == s[i + k]; }
      }
    }
  }

  lemma {:induction false} PrintTicks(e: LabelExpression)
    requires forall n :: n in LabelsOf(e) ==> '`' !in n
    ensures '`' !in Print(e) && '`' !in PrintOperand(e)
  {
    match e
    case And(l, r) => PrintTicks(l); PrintTicks(r);
    case Or(l, r) => PrintTicks(l); PrintTicks(r);
    case Not(x) => PrintTicks(x);
    case Label(n) => assert n in LabelsOf(e);
    case Wildcard =>
  }

  lemma {:induction false} PlainLabels(e: LabelExpression, alnum: char -> bool)
    requires forall n :: n in LabelsOf(e) ==> PlainName(n, alnum)
    ensures Plain(e, alnum)
  {
    match e
    case And(l, r) => PlainLabels(l, alnum); PlainLabels(r, alnum);
    case Or(l, r) => PlainLabels(l, alnum); PlainLabels(r, alnum);
    case Not(x) => PlainLabels(x, alnum);
    case _ =>
  }

  /** An expression that comes back is written in plain words. */
  lemma ComesBackPlain(e: LabelExpression, alnum: char -> bool)
    requires Alphabet(alnum) && Parse(Print(e), alnum) == Ok(e)
    ensures Plain(e, alnum)
  {
    var s := Print(e);
    var ts := Lex(s, 0, alnum).value;
    DisjunctionReads(ts, 0);
    hide Print, Lex, Disjunction;
    forall n | n in LabelsOf(e) ensures '`' !in n { LexIdents(s, 0, alnum, n); }
    PrintTicks(e);
    forall n | n in LabelsOf(e) ensures PlainName(n, alnum) { LexIdents(s, 0, alnum, n); }
    PlainLabels(e, alnum);
  }

  /** Printing and parsing gives an expression back if and only if it is left-nested over plain words. */
  lemma RoundTripIff(e: LabelExpression, alnum: char -> bool)
    requires Alphabet(alnum)
    ensures Parse(Print(e), alnum) == Ok(e) <==> Plain(e, alnum) && LeftNested(e)
  {
    if Plain(e, alnum) {
      RoundTrip(e, alnum);
    } else if Parse(Print(e), alnum) == Ok(e) {
      ComesBackPlain(e, alnum);
    }
  }

  /** A name with a blank, and a right-nested conjunction, do not come back. */
  lemma RoundTripFails(alnum: char -> bool)
    requires Alphabet(alnum)
    ensures Parse(Print(Label("a b")), alnum) != Ok(Label("a b"))
    ensures var e := And(Label("a"), And(Label("b"), Label("c"))); Parse(Print(e), alnum) != Ok(e)
  {
    hide Parse, Print;
    assert !IdentChar("a b"[1], alnum);
    RoundTripIff(Label("a b"), alnum);
    RoundTripIff(And(Label("a"), And(Label("b"), Label("c"))), alnum);
  }
}
