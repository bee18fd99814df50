/**
 The label expression parser against an independent account of its language: how each token
 may be spelt, and a grammar for the tokens.
 */
module LabelGrammar {
  import opened Common
  import opened Labels

  // ---------- Spellings ----------

  /** What a word may consist of, beside letters and digits. */
  predicate WordChar(c: char, alnum: char -> bool) {
    alnum(c) || c in {'_', '-'}
  }

  /** The keyword, each letter in either case. */
  predicate AnyCase(w: string, keyword: string) {
    |w| == |keyword| && forall i :: 0 <= i < |w| ==>
      w[i] == keyword[i] || ('A' <= keyword[i] <= 'Z' && w[i] == keyword[i] - 'A' + 'a')
  }

  predicate IsKeyword(w: string) {
    AnyCase(w, "AND") || AnyCase(w, "OR") || AnyCase(w, "NOT")
  }

  ghost predicate IsWord(w: string, alnum: char -> bool) {
    w != [] && (forall i :: 0 <= i < |w| ==> WordChar(w[i], alnum)) && !IsKeyword(w)
  }

  /** The texts that stand for a token. */
  ghost predicate Spells(w: string, t: Token, alnum: char -> bool) {
    match t
    case Ident(n) => (w == n && IsWord(n, alnum)) || (w == "`" + n + "`" && '`' !in n)
    case TAnd => w == "&" || AnyCase(w, "AND")
    case TOr => w == "|" || AnyCase(w, "OR")
    case TNot => w == "!" || AnyCase(w, "NOT")
    case TWildcard => w == "%" || w == "*"
    case LParen => w == "("
    case RParen => w == ")"
  }

  /** The text between `a` and `b` is a token: a word is not cut short, and a last back-tick may be missing. */
  ghost predicate SpellsAt(s: string, a: nat, b: nat, t: Token, alnum: char -> bool)
    requires a < b <= |s|
  {
    || (Spells(s[a..b], t, alnum) && (WordChar(s[a], alnum) && b < |s| ==> !WordChar(s[b], alnum)))
    || (t.Ident? && b == |s| && s[a..b] == "`" + t.name && '`' !in t.name)
  }

  ghost predicate Blank(s: string, a: nat, b: nat) {
    a <= b <= |s| && forall k :: a <= k < b ==> s[k] in {' ', '\t', '\r', '\n', ':'}
  }

  /** The text between `i` and `k` spells the tokens, with any blanks around them. */
  ghost predicate Reads(s: string, i: nat, k: nat, ts: seq<Token>, alnum: char -> bool)
    requires k <= |s|
    decreases |ts|
  {
    if ts == [] then Blank(s, i, k)
    else exists a: nat, b: nat :: ReadsFirst(s, i, a, b, k, ts[0], alnum) && Reads(s, b, k, ts[1..], alnum)
  }

  ghost predicate ReadsFirst(s: string, i: nat, a: nat, b: nat, k: nat, t: Token, alnum: char -> bool)
    requires k <= |s|
  {
    i <= a < b <= k && Blank(s, i, a) && SpellsAt(s, a, b, t, alnum)
  }

  // ---------- Keywords ----------

  /** No character but the two cases of a letter has that upper case. */
  lemma UpperLetter(c: char, k: char)
    requires 'A' <= k <= 'Z'
    ensures UpperChar(c) == k <==> c == k || c == k - 'A' + 'a'
  {
  }

  lemma UpperKeyword(w: string, keyword: string)
    requires forall i :: 0 <= i < |keyword| ==> 'A' <= keyword[i] <= 'Z'
    ensures Upper(w) == keyword <==> AnyCase(w, keyword)
  {
    forall i | 0 <= i < |w| && i < |keyword|
      ensures UpperChar(w[i]) == keyword[i] <==> w[i] == keyword[i] || w[i] == keyword[i] - 'A' + 'a'
    {
      UpperLetter(w[i], keyword[i]);
    }
    if Upper(w) == keyword {
      forall i | 0 <= i < |w| ensures w[i] == keyword[i] || w[i] == keyword[i] - 'A' + 'a' {
        assert Upper(w)[i] == UpperChar(w[i]);
      }
    }
  }

  lemma Keywords(w: string)
    ensures Upper(w) == "AND" <==> AnyCase(w, "AND")
    ensures Upper(w) == "OR" <==> AnyCase(w, "OR")
    ensures Upper(w) == "NOT" <==> AnyCase(w, "NOT")
  {
    UpperKeyword(w, "AND");
    UpperKeyword(w, "OR");
    UpperKeyword(w, "NOT");
  }

  lemma PlainIsWord(n: string, alnum: char -> bool)
    ensures PlainName(n, alnum) <==> IsWord(n, alnum)
  {
    Keywords(n);
    assert forall c :: IdentChar(c, alnum) <==> WordChar(c, alnum);
  }

  /** A word is read as the one token it spells. */
  lemma WordSpells(w: string, t: Token, alnum: char -> bool)
    requires Alphabet(alnum) && w != [] && forall i :: 0 <= i < |w| ==> WordChar(w[i], alnum)
    ensures Spells(w, t, alnum) <==> t == WordToken(w)
  {
    Keywords(w);
    assert w[0] !in PUNCTUATION;
    assert !AnyCase(w, "AND") || !AnyCase(w, "NOT");
    if t.Ident? { NotTicked(w, t.name); }
  }

  lemma NotTicked(w: string, n: string)
    requires w != [] && w[0] != '`'
    ensures w != "`" + n + "`"
  {
    assert ("`" + n + "`")[0] == '`';
  }

  // ---------- The tokenizer reads exactly the spellings ----------

  lemma {:induction false} SkipBlanks(s: string, i: nat, a: nat, alnum: char -> bool)
    requires Blank(s, i, a)
    ensures Lex(s, i, alnum) == Lex(s, a, alnum)
    decreases a - i
  {
    if i < a { SkipBlanks(s, i + 1, a, alnum); }
  }

  /** Punctuation is no letter, and the letters of the keywords are. */
  ghost predicate Latin(alnum: char -> bool) {
    Alphabet(alnum) && forall c: char :: 'A' <= c <= 'Z' || 'a' <= c <= 'z' ==> alnum(c)
  }

  lemma KeywordIsWord(w: string, keyword: string, alnum: char -> bool)
    requires Latin(alnum) && AnyCase(w, keyword) && forall i :: 0 <= i < |keyword| ==> 'A' <= keyword[i] <= 'Z'
    ensures forall i :: 0 <= i < |w| ==> WordChar(w[i], alnum)
  {
  }

  /** A spelling is a symbol, a quoted name, or a word. */
  lemma SpellingKinds(w: string, t: Token, alnum: char -> bool)
    requires Latin(alnum) && Spells(w, t, alnum)
    ensures w != []
    ensures || (|w| == 1 && Symbol(w[0]) == Some(t))
            || (t.Ident? && w == "`" + t.name + "`" && '`' !in t.name)
            || (forall i :: 0 <= i < |w| ==> WordChar(w[i], alnum))
  {
    if AnyCase(w, "AND") { KeywordIsWord(w, "AND", alnum); }
    if AnyCase(w, "OR") { KeywordIsWord(w, "OR", alnum); }
    if AnyCase(w, "NOT") { KeywordIsWord(w, "NOT", alnum); }
  }

  /** One token is read off. */
  lemma LexSpelt(s: string, a: nat, b: nat, t: Token, alnum: char -> bool)
    requires Latin(alnum) && a < b <= |s| && SpellsAt(s, a, b, t, alnum)
    ensures Lex(s, a, alnum) == Prepend(t, Lex(s, b, alnum))
  {
    var w := s[a..b];
    hide Lex, Spells;
    if t.Ident? && b == |s| && w == "`" + t.name && '`' !in t.name {
      LexOpen(s, a, t.name, alnum);
    } else {
      SpellingKinds(w, t, alnum);
      if |w| == 1 && Symbol(w[0]) == Some(t) {
        LexSign(s, a, t, alnum);
      } else if t.Ident? && w == "`" + t.name + "`" {
        LexQuoted(s, a, b, t.name, alnum);
      } else {
        LexWhole(s, a, b, t, alnum);
      }
    }
  }

  lemma LexSign(s: string, a: nat, t: Token, alnum: char -> bool)
    requires a < |s| && Symbol(s[a]) == Some(t)
    ensures Lex(s, a, alnum) == Prepend(t, Lex(s, a + 1, alnum))
  {
  }

  lemma {:induction false} QuoteEndsAt(s: string, i: nat, j: nat)
    requires i <= j <= |s| && (forall k :: i <= k < j ==> s[k] != '`') && (j < |s| ==> s[j] == '`')
    ensures QuoteEnd(s, i) == j
    decreases j - i
  {
    if i < j { QuoteEndsAt(s, i + 1, j); }
  }

  lemma Ticked(n: string)
    ensures var w := "`" + n + "`";
      |w| == |n| + 2 && w[0] == '`' && w[|n| + 1] == '`' && forall k :: 0 < k <= |n| ==> w[k] == n[k - 1]
  {
  }

  lemma LexQuoted(s: string, a: nat, b: nat, n: string, alnum: char -> bool)
    requires a < b <= |s| && s[a..b] == "`" + n + "`" && '`' !in n
    ensures Lex(s, a, alnum) == Prepend(Ident(n), Lex(s, b, alnum))
  {
    var w := s[a..b];
    Ticked(n);
    assert |w| == b - a;
    assert s[a] == w[0] && s[b - 1] == w[b - 1 - a];
    forall k | a + 1 <= k < b - 1 ensures s[k] == n[k - a - 1] && s[k] != '`' {
      assert s[k] == w[k - a];
    }
    QuoteEndsAt(s, a + 1, b - 1);
    assert s[a + 1..b - 1] == n;
  }

  lemma LexOpen(s: string, a: nat, n: string, alnum: char -> bool)
    requires a < |s| && s[a..] == "`" + n && '`' !in n
    ensures Lex(s, a, alnum) == Prepend(Ident(n), Lex(s, |s|, alnum))
  {
    assert s[a] == s[a..][0] == '`';
    forall k | a + 1 <= k < |s| ensures s[k] != '`' {
      assert s[k] == s[a..][k - a] == n[k - a - 1];
    }
    QuoteEndsAt(s, a + 1, |s|);
    assert s[a + 1..|s|] == n;
  }

  lemma LexWhole(s: string, a: nat, b: nat, t: Token, alnum: char -> bool)
    requires Latin(alnum) && a < b <= |s| && Spells(s[a..b], t, alnum)
    requires forall i :: 0 <= i < b - a ==> WordChar(s[a..b][i], alnum)
    requires b < |s| ==> !WordChar(s[b], alnum)
    ensures Lex(s, a, alnum) == Prepend(t, Lex(s, b, alnum))
  {
    WordSpells(s[a..b], t, alnum);
    var j := IdentEnd(s, a, alnum);
    forall k | a <= k < b ensures IdentChar(s[k], alnum) {
      assert s[k] == s[a..b][k - a];
    }
    assert j == b;
    assert s[a] !in PUNCTUATION;
  }

  /** A spelling is read as the tokens it spells. */
  lemma {:induction false} ReadsLexes(s: string, i: nat, ts: seq<Token>, alnum: char -> bool)
    requires Latin(alnum) && i <= |s| && Reads(s, i, |s|, ts, alnum)
    ensures Lex(s, i, alnum) == Ok(ts)
    decreases |ts|
  {
    hide Lex, SpellsAt, Blank;
    if ts == [] {
      SkipBlanks(s, i, |s|, alnum);
      LexEnd(s, alnum);
    } else {
      var a: nat, b: nat :| ReadsFirst(s, i, a, b, |s|, ts[0], alnum) && Reads(s, b, |s|, ts[1..], alnum);
      SkipBlanks(s, i, a, alnum);
      LexSpelt(s, a, b, ts[0], alnum);
      ReadsLexes(s, b, ts[1..], alnum);
      assert [ts[0]] + ts[1..] == ts;
    }
  }

  lemma LexEnd(s: string, alnum: char -> bool)
    ensures Lex(s, |s|, alnum) == Ok([])
  {
  }

  /** Tokens that are read were spelt in the text. */
  lemma {:induction false} LexesReads(s: string, i: nat, ts: seq<Token>, alnum: char -> bool)
    requires Latin(alnum) && i <= |s| && Lex(s, i, alnum) == Ok(ts)
    ensures Reads(s, i, |s|, ts, alnum)
    decreases |s| - i
  {
    if i < |s| {
      if IsBlank(s[i]) {
        LexesReads(s, i + 1, ts, alnum);
        BlankBefore(s, i, ts, alnum);
      } else {
        var j := FirstEnd(s, i, alnum);
        FirstSpelt(s, i, ts[0], alnum);
        LexesReads(s, j, ts[1..], alnum);
        assert ReadsFirst(s, i, i, j, |s|, ts[0], alnum);
      }
    }
  }

  lemma BlankBefore(s: string, i: nat, ts: seq<Token>, alnum: char -> bool)
    requires i < |s| && IsBlank(s[i]) && Reads(s, i + 1, |s|, ts, alnum)
    ensures Reads(s, i, |s|, ts, alnum)
  {
    if ts != [] {
      var a: nat, b: nat :| ReadsFirst(s, i + 1, a, b, |s|, ts[0], alnum) && Reads(s, b, |s|, ts[1..], alnum);
      assert ReadsFirst(s, i, a, b, |s|, ts[0], alnum);
    }
  }

  /** Where the token that starts at `i` ends. */
  function FirstEnd(s: string, i: nat, alnum: char -> bool): (j: nat)
    requires i < |s| && !IsBlank(s[i])
    ensures i < j <= |s|
  {
    if Symbol(s[i]).Some? then i + 1
    else if s[i] == '`' then
      var j := QuoteEnd(s, i + 1);
      if j < |s| then j + 1 else j
    else if IdentChar(s[i], alnum) then IdentEnd(s, i + 1, alnum)
    else |s|
  }

  lemma FirstSpelt(s: string, i: nat, t: Token, alnum: char -> bool)
    requires Latin(alnum) && i < |s| && !IsBlank(s[i]) && Lex(s, i, alnum).Ok? && t == Lex(s, i, alnum).value[0]
    ensures SpellsAt(s, i, FirstEnd(s, i, alnum), t, alnum)
    ensures Lex(s, i, alnum) == Prepend(t, Lex(s, FirstEnd(s, i, alnum), alnum))
  {
    if Symbol(s[i]).Some? {
      assert Lex(s, i, alnum) == Prepend(Symbol(s[i]).value, Lex(s, i + 1, alnum));
      hide Lex;
      assert s[i..i + 1] == [s[i]] && s[i] in PUNCTUATION;
    } else if s[i] == '`' {
      hide Lex, Symbol;
      QuotedSpelt(s, i, alnum);
    } else {
      hide Lex, Symbol;
      WordSpelt(s, i, t, alnum);
    }
  }

  lemma QuotedSpelt(s: string, i: nat, alnum: char -> bool)
    requires Latin(alnum) && i < |s| && s[i] == '`'
    ensures var e := QuoteEnd(s, i + 1);
      && SpellsAt(s, i, FirstEnd(s, i, alnum), Ident(s[i + 1..e]), alnum)
      && Lex(s, i, alnum) == Prepend(Ident(s[i + 1..e]), Lex(s, FirstEnd(s, i, alnum), alnum))
  {
    hide Lex, Spells;
    var e := QuoteEnd(s, i + 1);
    var n := s[i + 1..e];
    LexTick(s, i, alnum);
    TickedSpells(n, alnum);
    assert '`' !in n && s[i] in PUNCTUATION;
    TickedText(s, i, e);
  }

  lemma TickedText(s: string, i: nat, e: nat)
    requires i < e <= |s| && s[i] == '`'
    ensures s[i..e] == "`" + s[i + 1..e]
    ensures e < |s| && s[e] == '`' ==> s[i..e + 1] == "`" + s[i + 1..e] + "`"
  {
  }

  lemma LexTick(s: string, i: nat, alnum: char -> bool)
    requires i < |s| && s[i] == '`'
    ensures var e := QuoteEnd(s, i + 1);
      Lex(s, i, alnum) == Prepend(Ident(s[i + 1..e]), Lex(s, if e < |s| then e + 1 else e, alnum))
  {
  }

  lemma TickedSpells(n: string, alnum: char -> bool)
    ensures '`' !in n ==> Spells("`" + n + "`", Ident(n), alnum)
  {
  }

  lemma WordSpelt(s: string, i: nat, t: Token, alnum: char -> bool)
    requires Latin(alnum) && i < |s| && !IsBlank(s[i]) && Symbol(s[i]).None? && s[i] != '`'
    requires Lex(s, i, alnum).Ok? && t == Lex(s, i, alnum).value[0]
    ensures SpellsAt(s, i, FirstEnd(s, i, alnum), t, alnum)
    ensures Lex(s, i, alnum) == Prepend(t, Lex(s, FirstEnd(s, i, alnum), alnum))
  {
    var j := IdentEnd(s, i, alnum);
    assert Lex(s, i, alnum) == Prepend(WordToken(s[i..j]), Lex(s, j, alnum));
    hide Lex, Spells, Symbol;
    assert IdentEnd(s, i, alnum) == IdentEnd(s, i + 1, alnum);
    WordSpells(s[i..j], t, alnum);
  }

  /** The tokenizer accepts exactly the spellings, and reads each as what it spells. */
  lemma TokensExactly(s: string, ts: seq<Token>, alnum: char -> bool)
    requires Latin(alnum)
    ensures Lex(s, 0, alnum) == Ok(ts) <==> Reads(s, 0, |s|, ts, alnum)
  {
    if Lex(s, 0, alnum) == Ok(ts) { LexesReads(s, 0, ts, alnum); }
    if Reads(s, 0, |s|, ts, alnum) { ReadsLexes(s, 0, ts, alnum); }
  }

  // ---------- The grammar ----------

  ghost predicate IsDisjunction(ts: seq<Token>, e: LabelExpression)
    decreases |ts|, 4
  {
    IsConjunction(ts, e) || exists i :: 0 <= i < |ts| && JoinsOr(ts, i, e)
  }

  ghost predicate JoinsOr(ts: seq<Token>, i: nat, e: LabelExpression)
    requires i < |ts|
    decreases |ts|, 0
  {
    ts[i] == TOr && e.Or? && IsDisjunction(ts[..i], e.left) && IsConjunction(ts[i + 1..], e.right)
  }

  ghost predicate IsConjunction(ts: seq<Token>, e: LabelExpression)
    decreases |ts|, 3
  {
    IsUnary(ts, e) || exists i :: 0 <= i < |ts| && JoinsAnd(ts, i, e)
  }

  ghost predicate JoinsAnd(ts: seq<Token>, i: nat, e: LabelExpression)
    requires i < |ts|
    decreases |ts|, 0
  {
    ts[i] == TAnd && e.And? && IsConjunction(ts[..i], e.left) && IsUnary(ts[i + 1..], e.right)
  }

  ghost predicate IsUnary(ts: seq<Token>, e: LabelExpression)
    decreases |ts|, 2
  {
    IsPrimary(ts, e) || (ts != [] && ts[0] == TNot && e.Not? && IsUnary(ts[1..], e.inner))
  }

  ghost predicate IsPrimary(ts: seq<Token>, e: LabelExpression)
    decreases |ts|, 1
  {
    || (e.Label? && ts == [Ident(e.name)])
    || (e.Wildcard? && ts == [TWildcard])
    || (|ts| >= 2 && ts[0] == LParen && ts[|ts| - 1] == RParen && IsDisjunction(ts[1..|ts| - 1], e))
  }

  // ---------- What the grammar derives is parsed ----------

  lemma {:induction false} DisjunctionParses(d: seq<Token>, e: LabelExpression, ts: seq<Token>, pos: nat)
    requires IsDisjunction(d, e) && Occurs(d, ts, pos) && EndsConjunction(ts, pos + |d|)
    ensures Disjunction(ts, pos) == DisjunctionRest(ts, pos + |d|, e)
    decreases |d|, 4
  {
    if IsConjunction(d, e) {
      ConjunctionParses(d, e, ts, pos);
      assert ConjunctionRest(ts, pos + |d|, e) == Ok((e, pos + |d|));
    } else {
      var i :| 0 <= i < |d| && JoinsOr(d, i, e);
      Cut(d, i, ts, pos);
      DisjunctionParses(d[..i], e.left, ts, pos);
      ConjunctionParses(d[i + 1..], e.right, ts, pos + i + 1);
      assert ConjunctionRest(ts, pos + |d|, e.right) == Ok((e.right, pos + |d|));
    }
  }

  lemma {:induction false} ConjunctionParses(d: seq<Token>, e: LabelExpression, ts: seq<Token>, pos: nat)
    requires IsConjunction(d, e) && Occurs(d, ts, pos)
    ensures Conjunction(ts, pos) == ConjunctionRest(ts, pos + |d|, e)
    decreases |d|, 3
  {
    if IsUnary(d, e) {
      UnaryParses(d, e, ts, pos);
    } else {
      var i :| 0 <= i < |d| && JoinsAnd(d, i, e);
      Cut(d, i, ts, pos);
      ConjunctionParses(d[..i], e.left, ts, pos);
      UnaryParses(d[i + 1..], e.right, ts, pos + i + 1);
    }
  }

  lemma {:induction false} UnaryParses(d: seq<Token>, e: LabelExpression, ts: seq<Token>, pos: nat)
    requires IsUnary(d, e) && Occurs(d, ts, pos)
    ensures Unary(ts, pos) == Ok((e, pos + |d|))
    decreases |d|, 2
  {
    if IsPrimary(d, e) {
      PrimaryParses(d, e, ts, pos);
    } else {
      Cut(d, 0, ts, pos);
      UnaryParses(d[1..], e.inner, ts, pos + 1);
    }
  }

  lemma {:induction false} PrimaryParses(d: seq<Token>, e: LabelExpression, ts: seq<Token>, pos: nat)
    requires IsPrimary(d, e) && Occurs(d, ts, pos)
    ensures Unary(ts, pos) == Ok((e, pos + |d|))
    decreases |d|, 1
  {
    assert ts[pos + 0] == d[0];
    if |d| >= 2 {
      var m := d[1..|d| - 1];
      var n := |d| - 1;
      assert ts[pos + n] == d[n];
      Cut(d, 0, ts, pos);
      Cut(d[1..], n - 1, ts, pos + 1);
      assert d[1..][..n - 1] == m;
      DisjunctionParses(m, e, ts, pos + 1);
      assert DisjunctionRest(ts, pos + n, e) == Ok((e, pos + n));
    }
  }

  /** Both sides of position `i`, and what stands there. */
  lemma Cut(d: seq<Token>, i: nat, ts: seq<Token>, pos: nat)
    requires i < |d| && Occurs(d, ts, pos)
    ensures Occurs(d[..i], ts, pos) && ts[pos + i] == d[i] && Occurs(d[i + 1..], ts, pos + i + 1)
  {
    var r := d[i + 1..];
    forall k | 0 <= k < |r| ensures ts[pos + i + 1 + k] == r[k] {
      assert ts[pos + (i + 1 + k)] == d[i + 1 + k];
    }
  }

  // ---------- What is parsed is derived by the grammar ----------

  lemma {:induction false} ParsedDisjunction(ts: seq<Token>, pos: nat)
    requires pos <= |ts|
    ensures var r := Disjunction(ts, pos); r.Ok? ==> IsDisjunction(ts[pos..r.value.1], r.value.0)
    decreases |ts| - pos, 3
  {
    ParsedConjunction(ts, pos);
    var l := Conjunction(ts, pos);
    if l.Ok? { ParsedDisjunctionRest(ts, pos, l.value.1, l.value.0); }
  }

  lemma {:induction false} ParsedDisjunctionRest(ts: seq<Token>, from: nat, pos: nat, left: LabelExpression)
    requires from <= pos <= |ts| && IsDisjunction(ts[from..pos], left)
    ensures var r := DisjunctionRest(ts, pos, left); r.Ok? ==> IsDisjunction(ts[from..r.value.1], r.value.0)
    decreases |ts| - pos, 4
  {
    if pos < |ts| && ts[pos] == TOr {
      ParsedConjunction(ts, pos + 1);
      var x := Conjunction(ts, pos + 1);
      if x.Ok? {
        var d, i := ts[from..x.value.1], pos - from;
        assert d[..i] == ts[from..pos] && d[i + 1..] == ts[pos + 1..x.value.1] && d[i] == ts[pos];
        assert JoinsOr(d, i, Or(left, x.value.0));
        ParsedDisjunctionRest(ts, from, x.value.1, Or(left, x.value.0));
      }
    }
  }

  lemma {:induction false} ParsedConjunction(ts: seq<Token>, pos: nat)
    requires pos <= |ts|
    ensures var r := Conjunction(ts, pos); r.Ok? ==> IsConjunction(ts[pos..r.value.1], r.value.0)
    decreases |ts| - pos, 2
  {
    ParsedUnary(ts, pos);
    var l := Unary(ts, pos);
    if l.Ok? { ParsedConjunctionRest(ts, pos, l.value.1, l.value.0); }
  }

  lemma {:induction false} ParsedConjunctionRest(ts: seq<Token>, from: nat, pos: nat, left: LabelExpression)
    requires from <= pos <= |ts| && IsConjunction(ts[from..pos], left)
    ensures var r := ConjunctionRest(ts, pos, left); r.Ok? ==> IsConjunction(ts[from..r.value.1], r.value.0)
    decreases |ts| - pos, 4
  {
    if pos < |ts| && ts[pos] == TAnd {
      ParsedUnary(ts, pos + 1);
      var x := Unary(ts, pos + 1);
      if x.Ok? {
        var d, i := ts[from..x.value.1], pos - from;
        assert d[..i] == ts[from..pos] && d[i + 1..] == ts[pos + 1..x.value.1] && d[i] == ts[pos];
        assert JoinsAnd(d, i, And(left, x.value.0));
        ParsedConjunctionRest(ts, from, x.value.1, And(left, x.value.0));
      }
    }
  }

  lemma Inner(ts: seq<Token>, a: nat, b: nat)
    requires a + 2 <= b <= |ts|
    ensures var d := ts[a..b]; d[1..|d| - 1] == ts[a + 1..b - 1] && d[|d| - 1] == ts[b - 1]
  {
    var d := ts[a..b];
    var m := d[1..|d| - 1];
    assert |m| == b - a - 2;
    forall k | 0 <= k < |m| ensures m[k] == ts[a + 1..b - 1][k] { assert m[k] == d[k + 1] == ts[a + k + 1]; }
  }

  lemma UnaryParens(ts: seq<Token>, pos: nat)
    requires pos < |ts| && ts[pos] == LParen && Unary(ts, pos).Ok?
    ensures var (x, r) := (Disjunction(ts, pos + 1), Unary(ts, pos));
      x.Ok? && r.value.0 == x.value.0 && r.value.1 == x.value.1 + 1 && ts[r.value.1 - 1] == RParen
  {
    hide Disjunction;
  }

  lemma {:induction false} ParsedUnary(ts: seq<Token>, pos: nat)
    requires pos <= |ts|
    ensures var r := Unary(ts, pos); r.Ok? ==> IsUnary(ts[pos..r.value.1], r.value.0)
    decreases |ts| - pos, 1
  {
    var r := Unary(ts, pos);
    if r.Ok? {
      var d := ts[pos..r.value.1];
      assert d[0] == ts[pos];
      if ts[pos] == TNot {
        ParsedUnary(ts, pos + 1);
        assert d[1..] == ts[pos + 1..r.value.1];
      } else if ts[pos] == LParen {
        ParsedDisjunction(ts, pos + 1);
        UnaryParens(ts, pos);
        Inner(ts, pos, r.value.1);
      }
    }
  }

  /** The parser accepts exactly what the grammar derives, and gives it its one derivation. */
  lemma TreesExactly(ts: seq<Token>, e: LabelExpression)
    ensures ParseTokens(ts) == Ok(e) <==> IsDisjunction(ts, e)
  {
    if ParseTokens(ts) == Ok(e) {
      ParsedDisjunction(ts, 0);
      assert ts[0..|ts|] == ts;
    }
    if IsDisjunction(ts, e) {
      NotEmpty(ts, e);
      DisjunctionParses(ts, e, ts, 0);
    }
  }

  lemma {:induction false} NotEmpty(ts: seq<Token>, e: LabelExpression)
    requires IsDisjunction(ts, e)
    ensures ts != []
  {
    assert ts == [] ==> !IsPrimary(ts, e);
    assert ts == [] ==> !IsUnary(ts, e);
    assert ts == [] ==> !IsConjunction(ts, e);
  }

  /** The parser as a whole: a text means an expression if and only if it spells tokens that derive it. */
  lemma ParsesExactly(s: string, e: LabelExpression, alnum: char -> bool)
    requires Latin(alnum)
    ensures Parse(s, alnum) == Ok(e) <==> exists ts :: Reads(s, 0, |s|, ts, alnum) && IsDisjunction(ts, e)
  {
    hide Reads, IsDisjunction, Lex, ParseTokens;
    var r := Lex(s, 0, alnum);
    if r.Ok? {
      TokensExactly(s, r.value, alnum);
      TreesExactly(r.value, e);
    }
    forall ts | Reads(s, 0, |s|, ts, alnum) ensures r == Ok(ts) { TokensExactly(s, ts, alnum); }
  }

  // ---------- Every way of writing an expression ----------

  /**
   An expression together with how it is written: each name plain or quoted, each operator as a
   symbol or as a keyword in any case, each wildcard as either sign, and any blanks between.
   */
  datatype Written =
    | WName(name: string, quoted: bool)
    | WAnd(left: Written, gap: string, op: string, space: string, right: Written)
    | WOr(left: Written, gap: string, op: string, space: string, right: Written)
    | WNot(op: string, space: string, inner: Written)
    | WWild(sign: char)

  function Meaning(w: Written): LabelExpression {
    match w
    case WName(n, _) => Label(n)
    case WAnd(l, _, _, _, r) => And(Meaning(l), Meaning(r))
    case WOr(l, _, _, _, r) => Or(Meaning(l), Meaning(r))
    case WNot(_, _, x) => Not(Meaning(x))
    case WWild(_) => Wildcard
  }

  /** Parentheses stand where the printer puts them. */
  function Text(w: Written): string
    decreases w, 0
  {
    match w
    case WName(n, quoted) => if quoted then "`" + n + "`" else n
    case WAnd(l, gap, op, space, r) => OperandText(l) + (gap + (op + (space + OperandText(r))))
    case WOr(l, gap, op, space, r) => Text(l) + (gap + (op + (space + Text(r))))
    case WNot(op, space, x) => op + (space + if x.WAnd? || x.WOr? then Bracketed(x) else Text(x))
    case WWild(c) => [c]
  }

  function OperandText(w: Written): string
    decreases w, 2
  {
    if w.WOr? then Bracketed(w) else Text(w)
  }

  function Bracketed(w: Written): string
    decreases w, 1
  {
    "(" + (Text(w) + ")")
  }

  predicate AllBlank(g: string) {
    forall i :: 0 <= i < |g| ==> g[i] in {' ', '\t', '\r', '\n', ':'}
  }

  /** An operator that is a word needs a blank on each side; one that is a sign needs none. */
  ghost predicate Apart(gap: string, op: string, space: string, t: Token, alnum: char -> bool) {
    && AllBlank(gap) && AllBlank(space) && Spells(op, t, alnum)
    && (|op| == 1 || (gap != [] && space != []))
  }

  ghost predicate WellWritten(w: Written, alnum: char -> bool) {
    match w
    case WName(n, quoted) => if quoted then '`' !in n else IsWord(n, alnum)
    case WAnd(l, gap, op, space, r) =>
      Apart(gap, op, space, TAnd, alnum) && WellWritten(l, alnum) && WellWritten(r, alnum)
    case WOr(l, gap, op, space, r) =>
      Apart(gap, op, space, TOr, alnum) && WellWritten(l, alnum) && WellWritten(r, alnum)
    case WNot(op, space, x) => Apart(" ", op, space, TNot, alnum) && WellWritten(x, alnum)
    case WWild(c) => c in {'%', '*'}
  }

  lemma {:induction false} ReadsJoin(s: string, i: nat, j: nat, k: nat, a: seq<Token>, b: seq<Token>,
                                     alnum: char -> bool)
    requires j <= k <= |s| && Reads(s, i, j, a, alnum) && Reads(s, j, k, b, alnum)
    ensures Reads(s, i, k, a + b, alnum)
    decreases |a|
  {
    hide SpellsAt;
    if a == [] {
      assert a + b == b;
      if b != [] {
        var x: nat, y: nat :| ReadsFirst(s, j, x, y, k, b[0], alnum) && Reads(s, y, k, b[1..], alnum);
        assert ReadsFirst(s, i, x, y, k, b[0], alnum);
      }
    } else {
      var x: nat, y: nat :| ReadsFirst(s, i, x, y, j, a[0], alnum) && Reads(s, y, j, a[1..], alnum);
      ReadsJoin(s, y, j, k, a[1..], b, alnum);
      assert (a + b)[0] == a[0] && (a + b)[1..] == a[1..] + b;
      assert ReadsFirst(s, i, x, y, k, (a + b)[0], alnum);
    }
  }

  lemma ReadsToken(s: string, a: nat, b: nat, t: Token, alnum: char -> bool)
    requires a < b <= |s| && SpellsAt(s, a, b, t, alnum)
    ensures Reads(s, a, b, [t], alnum)
  {
    assert ReadsFirst(s, a, a, b, b, [t][0], alnum) && Reads(s, b, b, [t][1..], alnum);
  }

  lemma OccursSlice(p: string, s: string, i: nat)
    requires Occurs(p, s, i)
    ensures s[i..i + |p|] == p
  {
  }

  ghost predicate Edge(s: string, i: nat, alnum: char -> bool) {
    i >= |s| || !WordChar(s[i], alnum)
  }

  lemma BlankReads(g: string, s: string, i: nat, alnum: char -> bool)
    requires Latin(alnum) && AllBlank(g) && Occurs(g, s, i)
    ensures Reads(s, i, i + |g|, [], alnum) && (g != [] ==> Edge(s, i, alnum))
  {
    forall k | i <= k < i + |g| ensures s[k] == g[k - i] {
      assert s[i + (k - i)] == g[k - i];
    }
    if g != [] { assert s[i] in PUNCTUATION; }
  }

  /** An operator sign is no word. */
  lemma SignEdge(op: string, t: Token, s: string, i: nat, alnum: char -> bool)
    requires Latin(alnum) && (t.TAnd? || t.TOr? || t.TNot?) && Spells(op, t, alnum) && |op| == 1 && Occurs(op, s, i)
    ensures Edge(s, i, alnum)
  {
    assert s[i + 0] == op[0];
    assert op[0] in PUNCTUATION;
  }

  /** Blanks, an operator, and blanks. */
  lemma OperatorReads(gap: string, op: string, space: string, t: Token, rest: string, s: string, i: nat,
                      alnum: char -> bool)
    requires Latin(alnum) && (t.TAnd? || t.TOr? || t.TNot?) && AllBlank(gap) && AllBlank(space)
    requires Spells(op, t, alnum) && (|op| == 1 || space != []) && Occurs(gap + (op + (space + rest)), s, i)
    ensures var k := i + |gap| + |op| + |space|;
      k + |rest| <= |s| && Occurs(rest, s, k) && Reads(s, i, k, [t], alnum)
    ensures |op| == 1 || gap != [] ==> Edge(s, i, alnum)
  {
    assert i + |gap| + |op| + |space| + |rest| <= |s|;
    hide Reads, Spells, Occurs;
    var a := i + |gap|;
    var b := a + |op|;
    OccursSplit(gap, op + (space + rest), s, i);
    OccursSplit(op, space + rest, s, a);
    OccursSplit(space, rest, s, b);
    BlankReads(gap, s, i, alnum);
    BlankReads(space, s, b, alnum);
    OccursSlice(op, s, a);
    if |op| == 1 { SignEdge(op, t, s, a, alnum); }
    SpellingKinds(op, t, alnum);
    ReadsToken(s, a, b, t, alnum);
    ReadsJoin(s, i, a, b, [], [t], alnum);
    ReadsJoin(s, i, b, b + |space|, [] + [t], [], alnum);
    assert [] + [t] + [] == [t];
  }

  /** A well-written text spells the tokens of its expression. */
  lemma {:induction false} TextReads(w: Written, s: string, i: nat, alnum: char -> bool)
    requires Latin(alnum) && WellWritten(w, alnum) && Occurs(Text(w), s, i) && Edge(s, i + |Text(w)|, alnum)
    ensures Reads(s, i, i + |Text(w)|, Toks(Meaning(w)), alnum)
    decreases w, 1
  {
    hide Reads, Occurs, Spells, Edge, Latin;
    match w
    case WName(n, quoted) => NameReads(n, quoted, s, i, alnum);
    case WWild(c) => WildReads(c, s, i, alnum);
    case WNot(_, _, _) => NotReads(w, s, i, alnum);
    case WAnd(_, _, _, _, _) => AndReads(w, s, i, alnum);
    case WOr(_, _, _, _, _) => OrReads(w, s, i, alnum);
  }

  lemma {:induction false} NotReads(w: Written, s: string, i: nat, alnum: char -> bool)
    requires w.WNot?
    requires Latin(alnum) && WellWritten(w, alnum) && Occurs(Text(w), s, i) && Edge(s, i + |Text(w)|, alnum)
    ensures Reads(s, i, i + |Text(w)|, Toks(Meaning(w)), alnum)
    decreases w, 0
  {
    hide Reads, Occurs, Spells, Text, Toks, Meaning, WellWritten, Latin;
    NotParts(w, alnum);
    var x := w.inner;
    var rest := if x.WAnd? || x.WOr? then Bracketed(x) else Text(x);
    var j := i + |w.op| + |w.space|;
    OperatorReads([], w.op, w.space, TNot, rest, s, i, alnum);
    assert |Text(w)| == |w.op| + |w.space| + |rest|;
    if x.WAnd? || x.WOr? {
      BracketedReads(x, s, j, alnum);
      ReadsJoin(s, i, j, j + |rest|, [TNot], [LParen] + Toks(Meaning(x)) + [RParen], alnum);
    } else {
      TextReads(x, s, j, alnum);
      ReadsJoin(s, i, j, j + |rest|, [TNot], Toks(Meaning(x)), alnum);
    }
  }

  lemma {:induction false} AndReads(w: Written, s: string, i: nat, alnum: char -> bool)
    requires w.WAnd?
    requires Latin(alnum) && WellWritten(w, alnum) && Occurs(Text(w), s, i) && Edge(s, i + |Text(w)|, alnum)
    ensures Reads(s, i, i + |Text(w)|, Toks(Meaning(w)), alnum)
    decreases w, 0
  {
    hide Reads, Occurs, Spells, Text, Toks, Meaning, WellWritten, Latin, OperandText, OperandToks, Apart, Edge;
    PairParts(w, alnum);
    var (l, r) := (OperandText(w.left), OperandText(w.right));
    var j := i + |l|;
    var k := j + |w.gap| + |w.op| + |w.space|;
    PairReads(l, w, r, TAnd, s, i, alnum);
    OperandReads(w.left, s, i, alnum);
    OperandReads(w.right, s, k, alnum);
    ReadsJoin(s, i, j, k, OperandToks(Meaning(w.left)), [TAnd], alnum);
    ReadsJoin(s, i, k, k + |r|, OperandToks(Meaning(w.left)) + [TAnd], OperandToks(Meaning(w.right)), alnum);
  }

  lemma {:induction false} OrReads(w: Written, s: string, i: nat, alnum: char -> bool)
    requires w.WOr?
    requires Latin(alnum) && WellWritten(w, alnum) && Occurs(Text(w), s, i) && Edge(s, i + |Text(w)|, alnum)
    ensures Reads(s, i, i + |Text(w)|, Toks(Meaning(w)), alnum)
    decreases w, 0
  {
    hide Reads, Occurs, Spells, Text, Toks, Meaning, WellWritten, Latin, Apart, Edge;
    PairParts(w, alnum);
    var (l, r) := (Text(w.left), Text(w.right));
    var j := i + |l|;
    var k := j + |w.gap| + |w.op| + |w.space|;
    PairReads(l, w, r, TOr, s, i, alnum);
    TextReads(w.left, s, i, alnum);
    TextReads(w.right, s, k, alnum);
    ReadsJoin(s, i, j, k, Toks(Meaning(w.left)), [TOr], alnum);
    ReadsJoin(s, i, k, k + |r|, Toks(Meaning(w.left)) + [TOr], Toks(Meaning(w.right)), alnum);
  }

  lemma NotParts(w: Written, alnum: char -> bool)
    requires w.WNot? && WellWritten(w, alnum)
    ensures Apart(" ", w.op, w.space, TNot, alnum) && WellWritten(w.inner, alnum)
    ensures var x := w.inner;
      if x.WAnd? || x.WOr?
      then Toks(Meaning(w)) == [TNot] + ([LParen] + Toks(Meaning(x)) + [RParen])
        && Text(w) == [] + (w.op + (w.space + Bracketed(x)))
      else Toks(Meaning(w)) == [TNot] + Toks(Meaning(x)) && Text(w) == [] + (w.op + (w.space + Text(x)))
  {
  }

  lemma PairParts(w: Written, alnum: char -> bool)
    requires (w.WAnd? || w.WOr?) && WellWritten(w, alnum)
    ensures WellWritten(w.left, alnum) && WellWritten(w.right, alnum)
    ensures Apart(w.gap, w.op, w.space, if w.WAnd? then TAnd else TOr, alnum)
    ensures w.WAnd? ==>
      && Text(w) == OperandText(w.left) + (w.gap + (w.op + (w.space + OperandText(w.right))))
      && Toks(Meaning(w)) == OperandToks(Meaning(w.left)) + [TAnd] + OperandToks(Meaning(w.right))
    ensures w.WOr? ==>
      && Text(w) == Text(w.left) + (w.gap + (w.op + (w.space + Text(w.right))))
      && Toks(Meaning(w)) == Toks(Meaning(w.left)) + [TOr] + Toks(Meaning(w.right))
  {
  }

  /** Around an operator: the left text ends, the operator is read, the right text follows. */
  lemma PairReads(l: string, w: Written, r: string, t: Token, s: string, i: nat, alnum: char -> bool)
    requires Latin(alnum) && (w.WAnd? || w.WOr?) && (t.TAnd? || t.TOr?) && Apart(w.gap, w.op, w.space, t, alnum)
    requires Occurs(l + (w.gap + (w.op + (w.space + r))), s, i)
    ensures var j := i + |l|; var k := j + |w.gap| + |w.op| + |w.space|;
      && Occurs(l, s, i) && Edge(s, j, alnum) && Reads(s, j, k, [t], alnum) && Occurs(r, s, k)
      && |l + (w.gap + (w.op + (w.space + r)))| == k + |r| - i
  {
    OccursSplit(l, w.gap + (w.op + (w.space + r)), s, i);
    OperatorReads(w.gap, w.op, w.space, t, r, s, i + |l|, alnum);
  }

  lemma NameReads(n: string, quoted: bool, s: string, i: nat, alnum: char -> bool)
    requires Latin(alnum) && (if quoted then '`' !in n else IsWord(n, alnum))
    requires var t := if quoted then "`" + n + "`" else n; Occurs(t, s, i) && Edge(s, i + |t|, alnum)
    ensures var t := if quoted then "`" + n + "`" else n; Reads(s, i, i + |t|, [Ident(n)], alnum)
  {
    var t := if quoted then "`" + n + "`" else n;
    OccursSlice(t, s, i);
    hide Reads;
    ReadsToken(s, i, i + |t|, Ident(n), alnum);
  }

  lemma WildReads(c: char, s: string, i: nat, alnum: char -> bool)
    requires Latin(alnum) && c in {'%', '*'} && Occurs([c], s, i)
    ensures Reads(s, i, i + 1, [TWildcard], alnum)
  {
    OccursHead(c, [], s, i);
    assert s[i..i + 1] == [c];
    SignReads(TWildcard, s, i, alnum);
  }

  /** A sign is read wherever it stands. */
  lemma SignReads(t: Token, s: string, i: nat, alnum: char -> bool)
    requires Latin(alnum) && i < |s| && s[i] in PUNCTUATION && Spells(s[i..i + 1], t, alnum)
    ensures Reads(s, i, i + 1, [t], alnum)
  {
    hide Reads, Spells;
    ReadsToken(s, i, i + 1, t, alnum);
  }

  lemma {:induction false} OperandReads(w: Written, s: string, i: nat, alnum: char -> bool)
    requires Latin(alnum) && WellWritten(w, alnum) && Occurs(OperandText(w), s, i)
    requires Edge(s, i + |OperandText(w)|, alnum)
    ensures Reads(s, i, i + |OperandText(w)|, OperandToks(Meaning(w)), alnum)
    decreases w, 3
  {
    hide Reads, Occurs;
    if w.WOr? { BracketedReads(w, s, i, alnum); } else { TextReads(w, s, i, alnum); }
  }

  lemma {:induction false} BracketedReads(w: Written, s: string, i: nat, alnum: char -> bool)
    requires Latin(alnum) && WellWritten(w, alnum) && Occurs(Bracketed(w), s, i)
    ensures Reads(s, i, i + |Bracketed(w)|, [LParen] + Toks(Meaning(w)) + [RParen], alnum)
    decreases w, 2
  {
    hide Reads, Occurs, Text, Toks, WellWritten;
    var j := i + 1 + |Text(w)|;
    OccursSplit("(", Text(w) + ")", s, i);
    OccursSplit(Text(w), ")", s, i + 1);
    OccursSlice("(", s, i);
    OccursSlice(")", s, j);
    assert s[i] == s[i..i + 1][0] && s[j] == s[j..j + 1][0];
    SignReads(LParen, s, i, alnum);
    SignReads(RParen, s, j, alnum);
    TextReads(w, s, i + 1, alnum);
    ReadsJoin(s, i, i + 1, j, [LParen], Toks(Meaning(w)), alnum);
    ReadsJoin(s, i, j, j + 1, [LParen] + Toks(Meaning(w)), [RParen], alnum);
  }

  /**
   However an expression is written, with signs or with keywords in any mix of case, with either
   wildcard and with names plain or quoted, it parses to the same left-nested form, which is also
   what its printed text parses to, and it matches the same sets of labels.
   */
  lemma ParseWritten(w: Written, alnum: char -> bool)
    requires Latin(alnum) && WellWritten(w, alnum)
    ensures Parse(Text(w), alnum) == Ok(Norm(Meaning(w)))
    ensures Plain(Meaning(w), alnum) ==> Parse(Text(w), alnum) == Parse(Print(Meaning(w)), alnum)
    ensures forall labels :: Matches(Parse(Text(w), alnum).value, labels) <==> Matches(Meaning(w), labels)
  {
    hide Lex, Reads, Toks, Text;
    var s, ts := Text(w), Toks(Meaning(w));
    TextReads(w, s, 0, alnum);
    TokensExactly(s, ts, alnum);
    ParsesWhole(Meaning(w), ts, 0);
    if Plain(Meaning(w), alnum) { ParsePrinted(Meaning(w), alnum); }
    forall labels: set<string> ensures Matches(Norm(Meaning(w)), labels) <==> Matches(Meaning(w), labels) {
      NormMatches(Meaning(w), labels);
    }
  }

  /** Either wildcard alone is satisfied by every set of labels, and a name by the sets that have it. */
  lemma AtomsMatch(c: char, n: string, alnum: char -> bool)
    requires Latin(alnum) && c in {'%', '*'} && IsWord(n, alnum)
    ensures Parse([c], alnum).Ok? && forall labels :: Matches(Parse([c], alnum).value, labels)
    ensures Parse(n, alnum).Ok? && forall labels :: Matches(Parse(n, alnum).value, labels) <==> n in labels
  {
    hide Parse;
    ParseWritten(WWild(c), alnum);
    ParseWritten(WName(n, false), alnum);
  }
}
