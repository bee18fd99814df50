/** The full-text query adapter: `data.` goes in front of field names, and nowhere else. */
module Tantivy {
  import opened Common
  import EditDistance

  // ---------- Characters and tokens ----------

  /** Unicode classes of characters; `Ordinary` is what the adapter relies on. */
  datatype Alphabet = Alphabet(alpha: char -> bool, alnum: char -> bool)

  ghost predicate Ordinary(u: Alphabet) {
    && (forall c :: u.alpha(c) ==> u.alnum(c))
    && !u.alnum(':') && !u.alnum('"') && !u.alnum('\\') && !u.alnum('.') && !u.alnum('_')
    && u.alpha('d') && u.alpha('a') && u.alpha('t')
  }

  predicate TokenChar(u: Alphabet, c: char) {
    u.alnum(c) || c == '_' || c == '.'
  }

  predicate TokenStart(u: Alphabet, c: char) {
    u.alpha(c) || c == '_'
  }

  /** The longest run of token characters in front. */
  function TokenLength(u: Alphabet, s: string): (n: nat)
    ensures n <= |s| && (n < |s| ==> !TokenChar(u, s[n]))
    ensures forall i :: 0 <= i < n ==> TokenChar(u, s[i])
  {
    if s == [] || !TokenChar(u, s[0]) then 0 else 1 + TokenLength(u, s[1..])
  }

  const DATA: string := "data."

  function LowerText(s: string): string {
    seq(|s|, i requires 0 <= i < |s| => EditDistance.Lower(s[i]))
  }

  predicate Listed(properties: seq<string>, token: string) {
    exists k :: 0 <= k < |properties| && LowerText(properties[k]) == LowerText(token)
  }

  predicate Namespaced(token: string) {
    DATA <= token
  }

  /** Whether a field name gets the prefix: never twice, and only listed names when there is a list. */
  predicate Prefixed(u: Alphabet, properties: seq<string>, token: string) {
    && !Namespaced(token)
    && if properties != [] then Listed(properties, token)
       else token != [] && forall i :: 0 <= i < |token| ==> u.alnum(token[i]) || token[i] == '_'
  }

  /** A single colon follows. */
  predicate Colon(s: string) {
    s != [] && s[0] == ':' && (|s| == 1 || s[1] != ':')
  }

  // ---------- The scanner ----------

  /** The scanner between two characters: the character before, and the quote and escape flags. */
  datatype Context = Context(prev: Option<char>, quoted: bool, escaped: bool)

  predicate Boundary(u: Alphabet, x: Context) {
    x.prev.None? || (!u.alnum(x.prev.value) && x.prev.value != '_' && x.prev.value != '.')
  }

  predicate AtToken(u: Alphabet, x: Context, c: char) {
    !x.escaped && c != '\\' && c != '"' && !x.quoted && TokenStart(u, c) && Boundary(u, x)
  }

  /** The context after one character outside a token. */
  function Step(x: Context, c: char): Context {
    if x.escaped then Context(Some(c), x.quoted, false)
    else if c == '\\' then Context(Some(c), x.quoted, true)
    else if c == '"' then Context(Some(c), !x.quoted, false)
    else Context(Some(c), x.quoted, false)
  }

  function Scan(u: Alphabet, properties: seq<string>, x: Context, s: string): string
    decreases |s|
  {
    if s == [] then []
    else if AtToken(u, x, s[0]) then
      var n := TokenLength(u, s);
      var token, rest := s[..n], s[n..];
      if n == 0 then s   // a token is never empty
      else if Colon(rest) then
        (if Prefixed(u, properties, token) then DATA else []) + token + ":"
        + Scan(u, properties, Context(Some(':'), false, false), rest[1..])
      else token + Scan(u, properties, Context(Some(token[n - 1]), false, false), rest)
    else [s[0]] + Scan(u, properties, Step(x, s[0]), s[1..])
  }

  const START: Context := Context(None, false, false)

  function Adapted(u: Alphabet, properties: seq<string>, query: string): string {
    Scan(u, properties, START, query)
  }

  lemma StartsToken(u: Alphabet, c: char)
    requires Ordinary(u)
    ensures TokenStart(u, c) ==> TokenChar(u, c)
  {
  }

  // ---------- The loop ----------

  /** The lower-cased names, as the loop looks them up. */
  method LowerNames(properties: seq<string>) returns (names: set<string>)
    ensures forall token :: LowerText(token) in names <==> Listed(properties, token)
  {
    names := {};
    for k := 0 to |properties|
      invariant forall t :: t in names <==> exists j :: 0 <= j < k && LowerText(properties[j]) == t
    {
      names := names + {LowerText(properties[k])};
    }
  }

  /** Whether the token gets the prefix, as the loop decides it. */
  method ShouldPrefix(u: Alphabet, properties: seq<string>, names: set<string>, token: string) returns (r: bool)
    requires forall t :: LowerText(t) in names <==> Listed(properties, t)
    ensures r == Prefixed(u, properties, token)
  {
    if DATA <= token { return false; }
    if properties != [] { return LowerText(token) in names; }
    if token == [] { return false; }
    for i := 0 to |token|
      invariant forall j :: 0 <= j < i ==> u.alnum(token[j]) || token[j] == '_'
    {
      if !u.alnum(token[i]) && token[i] != '_' { return false; }
    }
    return true;
  }

  predicate HasColon(q: string) {
    ':' in q
  }

  /** `adapt_tantivy_query`. */
  method AdaptTantivyQuery(u: Alphabet, query: string, properties: seq<string>) returns (result: string)
    requires Ordinary(u)
    ensures result == Adapted(u, properties, query) == Marked(u, properties, query, 0)
  {
    AdaptedExactly(u, properties, query);
    if !HasColon(query) {
      NoColon(u, properties, START, query);
      return query;
    }
    var names := LowerNames(properties);
    var x := START;
    var i := 0;
    result := [];
    assert query[0..] == query;
    hide Scan, Ordinary;
    while i < |query|
      invariant 0 <= i <= |query|
      invariant result + Scan(u, properties, x, query[i..]) == Adapted(u, properties, query)
      decreases |query| - i
    {
      var piece;
      piece, x, i := Advance(u, query, properties, names, x, i);
      Regroup(result, piece, Scan(u, properties, x, query[i..]));
      result := result + piece;
    }
    ScanEnd(u, properties, x);
    assert query[i..] == [];
  }

  /** One turn of the loop: a token, or a single character. */
  method Advance(u: Alphabet, query: string, properties: seq<string>, names: set<string>, x: Context, i: nat)
    returns (piece: string, y: Context, j: nat)
    requires Ordinary(u) && i < |query| && forall t :: LowerText(t) in names <==> Listed(properties, t)
    ensures i < j <= |query|
    ensures Scan(u, properties, x, query[i..]) == piece + Scan(u, properties, y, query[j..])
  {
    hide Scan, Ordinary, LowerText, Listed, Prefixed;
    var c := query[i];
    if !AtToken(u, x, c) {
      ScanPlain(u, properties, x, query, i);
      return [c], Step(x, c), i + 1;
    }
    StartsToken(u, c);
    var n := TokenEnd(u, query, i);
    var token := query[i..n];
    ScanToken(u, properties, x, query, i, n);
    if Colon(query[n..]) {
      var prefix := ShouldPrefix(u, properties, names, token);
      return (if prefix then DATA else []) + token + ":", Context(Some(':'), false, false), n + 1;
    }
    return token, Context(Some(query[n - 1]), false, false), n;
  }

  lemma Regroup(a: string, b: string, c: string)
    ensures a + (b + c) == (a + b) + c
  {
  }

  lemma ScanEnd(u: Alphabet, properties: seq<string>, x: Context)
    ensures Scan(u, properties, x, []) == []
  {
  }

  lemma ScanPlain(u: Alphabet, properties: seq<string>, x: Context, query: string, i: nat)
    requires i < |query| && !AtToken(u, x, query[i])
    ensures Scan(u, properties, x, query[i..]) == [query[i]] + Scan(u, properties, Step(x, query[i]), query[i + 1..])
  {
    assert query[i..][1..] == query[i + 1..];
  }

  lemma ScanToken(u: Alphabet, properties: seq<string>, x: Context, query: string, i: nat, n: nat)
    requires i < n <= |query| && AtToken(u, x, query[i]) && n == i + TokenLength(u, query[i..])
    ensures Colon(query[n..]) ==>
      Scan(u, properties, x, query[i..])
      == (if Prefixed(u, properties, query[i..n]) then DATA else []) + query[i..n] + ":"
         + Scan(u, properties, Context(Some(':'), false, false), query[n + 1..])
    ensures !Colon(query[n..]) ==>
      Scan(u, properties, x, query[i..])
      == query[i..n] + Scan(u, properties, Context(Some(query[n - 1]), false, false), query[n..])
  {
    var s := query[i..];
    assert s[..n - i] == query[i..n] && s[n - i..] == query[n..];
    if Colon(query[n..]) { assert query[n..][1..] == query[n + 1..]; }
  }

  method TokenEnd(u: Alphabet, query: string, i: nat) returns (n: nat)
    requires i < |query| && TokenChar(u, query[i])
    ensures i < n <= |query| && n == i + TokenLength(u, query[i..])
  {
    n := i;
    while n < |query| && TokenChar(u, query[n])
      invariant i <= n <= |query|
      invariant TokenLength(u, query[i..]) == n - i + TokenLength(u, query[n..])
    {
      assert query[n..][1..] == query[n + 1..];
      n := n + 1;
    }
  }

  lemma {:induction false} NoColon(u: Alphabet, properties: seq<string>, x: Context, s: string)
    requires Ordinary(u) && ':' !in s
    ensures Scan(u, properties, x, s) == s
    decreases |s|
  {
    if s != [] {
      if AtToken(u, x, s[0]) {
        var n := TokenLength(u, s);
        StartsToken(u, s[0]);
        NoColon(u, properties, Context(Some(s[n - 1]), false, false), s[n..]);
        assert s == s[..n] + s[n..];
      } else {
        NoColon(u, properties, Step(x, s[0]), s[1..]);
        assert s == [s[0]] + s[1..];
      }
    }
  }

  // ---------- Insertion only ----------

  /** The context in front of position `i`, from the text alone. */
  function At(q: string, i: nat): Context
    requires i <= |q|
  {
    if i == 0 then START else Step(At(q, i - 1), q[i - 1])
  }

  /** A field name to be prefixed starts at `i`: outside quotes and escapes, at a boundary, before one colon. */
  predicate FieldAt(u: Alphabet, properties: seq<string>, q: string, i: nat)
    requires i < |q|
  {
    && AtToken(u, At(q, i), q[i])
    && var n := TokenLength(u, q[i..]);
      Colon(q[i + n..]) && Prefixed(u, properties, q[i..i + n])
  }

  /** The text from `i` on, with the prefix in front of every field name. */
  function Spliced(u: Alphabet, properties: seq<string>, q: string, i: nat): string
    requires i <= |q|
    decreases |q| - i
  {
    if i == |q| then []
    else (if FieldAt(u, properties, q, i) then DATA else []) + ([q[i]] + Spliced(u, properties, q, i + 1))
  }

  /** Inside a token nothing starts, and neither quotes nor escapes change. */
  lemma {:induction false} InsideToken(u: Alphabet, q: string, i: nat, k: nat)
    requires Ordinary(u) && i < k <= |q| && AtToken(u, At(q, i), q[i])
    requires forall j :: i <= j < k ==> TokenChar(u, q[j])
    ensures At(q, k) == Context(Some(q[k - 1]), false, false)
    decreases k
  {
    if k > i + 1 { InsideToken(u, q, i, k - 1); }
  }

  lemma {:induction false} TokenCopied(u: Alphabet, properties: seq<string>, q: string, i: nat, k: nat, n: nat)
    requires Ordinary(u) && i < k <= n <= |q| && AtToken(u, At(q, i), q[i])
    requires forall j :: i <= j < n ==> TokenChar(u, q[j])
    ensures Spliced(u, properties, q, k) == q[k..n] + Spliced(u, properties, q, n)
    decreases n - k
  {
    if k < n {
      InsideToken(u, q, i, k);
      assert !Boundary(u, At(q, k));
      TokenCopied(u, properties, q, i, k + 1, n);
      assert q[k..n] == [q[k]] + q[k + 1..n];
      assert Spliced(u, properties, q, k) == [] + ([q[k]] + Spliced(u, properties, q, k + 1));
    }
  }

  /** The scanner inserts the prefix in front of exactly the field names, and changes nothing else. */
  lemma {:induction false} ScanSpliced(u: Alphabet, properties: seq<string>, q: string, i: nat)
    requires Ordinary(u) && i <= |q|
    ensures Scan(u, properties, At(q, i), q[i..]) == Spliced(u, properties, q, i)
    decreases |q| - i
  {
    if i < |q| {
      if AtToken(u, At(q, i), q[i]) {
        TokenSpliced(u, properties, q, i);
      } else {
        ScanPlain(u, properties, At(q, i), q, i);
        ScanSpliced(u, properties, q, i + 1);
        assert Spliced(u, properties, q, i) == [] + ([q[i]] + Spliced(u, properties, q, i + 1));
      }
    } else {
      assert q[i..] == [];
    }
  }

  lemma {:induction false} TokenSpliced(u: Alphabet, properties: seq<string>, q: string, i: nat)
    requires Ordinary(u) && i < |q| && AtToken(u, At(q, i), q[i])
    ensures Scan(u, properties, At(q, i), q[i..]) == Spliced(u, properties, q, i)
    decreases |q| - i, 0
  {
    hide Scan, Spliced, Prefixed, TokenLength, At, Ordinary, AtToken, TokenChar;
    TokenSpan(u, q, i);
    var n := i + TokenLength(u, q[i..]);
    if Colon(q[n..]) {
      ScanSpliced(u, properties, q, n + 1);
      ColonCopied(u, properties, q, n);
    } else {
      ScanSpliced(u, properties, q, n);
    }
    TokenCopied(u, properties, q, i, i + 1, n);
    ScanToken(u, properties, At(q, i), q, i, n);
    SpliceToken(u, properties, q, i, n);
    Assembled(u, properties, q, i, n);
  }

  /** Where the token at `i` ends, and the context there. */
  lemma TokenSpan(u: Alphabet, q: string, i: nat)
    requires Ordinary(u) && i < |q| && AtToken(u, At(q, i), q[i])
    ensures var n := i + TokenLength(u, q[i..]);
      && i < n <= |q| && (forall j :: i <= j < n ==> TokenChar(u, q[j]))
      && At(q, n) == Context(Some(q[n - 1]), false, false)
      && (Colon(q[n..]) ==> n < |q| && q[n] == ':' && At(q, n + 1) == Context(Some(':'), false, false))
  {
    StartsToken(u, q[i]);
    var n := i + TokenLength(u, q[i..]);
    assert forall j :: i <= j < n ==> q[j] == q[i..][j - i];
    InsideToken(u, q, i, n);
  }

  lemma Assembled(u: Alphabet, properties: seq<string>, q: string, i: nat, n: nat)
    requires i < n <= |q|
    requires var pre := if Prefixed(u, properties, q[i..n]) then DATA else [];
      if Colon(q[n..]) then
        && Spliced(u, properties, q, i) == pre + (q[i..n] + Spliced(u, properties, q, n))
        && Spliced(u, properties, q, n) == ":" + Spliced(u, properties, q, n + 1)
        && Scan(u, properties, At(q, i), q[i..]) == pre + q[i..n] + ":" + Spliced(u, properties, q, n + 1)
      else
        && Spliced(u, properties, q, i) == [] + (q[i..n] + Spliced(u, properties, q, n))
        && Scan(u, properties, At(q, i), q[i..]) == q[i..n] + Spliced(u, properties, q, n)
    ensures Scan(u, properties, At(q, i), q[i..]) == Spliced(u, properties, q, i)
  {
    hide Scan, Spliced, Prefixed, At;
    if Colon(q[n..]) {
      var pre := if Prefixed(u, properties, q[i..n]) then DATA else [];
      Regroup(pre, q[i..n], ":" + Spliced(u, properties, q, n + 1));
      Regroup(pre + q[i..n], ":", Spliced(u, properties, q, n + 1));
    }
  }

  lemma ColonCopied(u: Alphabet, properties: seq<string>, q: string, n: nat)
    requires Ordinary(u) && n < |q| && q[n] == ':'
    ensures Spliced(u, properties, q, n) == ":" + Spliced(u, properties, q, n + 1)
  {
    assert Spliced(u, properties, q, n) == [] + ([q[n]] + Spliced(u, properties, q, n + 1));
  }

  lemma SpliceToken(u: Alphabet, properties: seq<string>, q: string, i: nat, n: nat)
    requires i < n <= |q| && AtToken(u, At(q, i), q[i]) && n == i + TokenLength(u, q[i..])
    requires Spliced(u, properties, q, i + 1) == q[i + 1..n] + Spliced(u, properties, q, n)
    ensures Spliced(u, properties, q, i) ==
      (if Colon(q[n..]) && Prefixed(u, properties, q[i..n]) then DATA else [])
      + (q[i..n] + Spliced(u, properties, q, n))
  {
    assert q[i..n] == [q[i]] + q[i + 1..n];
    assert [q[i]] + (q[i + 1..n] + Spliced(u, properties, q, n)) == q[i..n] + Spliced(u, properties, q, n);
  }

  /** For every query and list: the output is the input with `data.` in front of exactly the field names. */
  lemma InsertionOnly(u: Alphabet, properties: seq<string>, q: string)
    requires Ordinary(u)
    ensures Adapted(u, properties, q) == Spliced(u, properties, q, 0)
  {
    ScanSpliced(u, properties, q, 0);
    assert q[0..] == q;
  }

  // ---------- Field names, read off the text ----------

  /** The backslashes right in front of position `i`. */
  function Slashes(q: string, i: nat): nat
    requires i <= |q|
  {
    if i == 0 || q[i - 1] != '\\' then 0 else 1 + Slashes(q, i - 1)
  }

  /** The quotes in front of position `i` that no odd run of backslashes escapes. */
  function Quotes(q: string, i: nat): nat
    requires i <= |q|
  {
    if i == 0 then 0 else Quotes(q, i - 1) + (if q[i - 1] == '"' && Slashes(q, i - 1) % 2 == 0 then 1 else 0)
  }

  /** The words are equal up to ASCII case. */
  predicate SameWord(a: string, b: string) {
    |a| == |b| && forall i :: 0 <= i < |a| ==> EditDistance.SameLetter(a[i], b[i])
  }

  /** Letters, digits, underscores and dots from `i` to `n`, and none of them at `n`. */
  predicate Word(u: Alphabet, q: string, i: nat, n: nat) {
    && i < n <= |q| && (forall j :: i <= j < n ==> u.alnum(q[j]) || q[j] in {'_', '.'})
    && (n < |q| ==> !u.alnum(q[n]) && q[n] !in {'_', '.'})
  }

  /**
   A field name stands from `i` to `n`: a word that starts with a letter or underscore, behind
   nothing that belongs to a word, not escaped, outside quotes, and followed by one colon only.
   */
  predicate FieldName(u: Alphabet, q: string, i: nat, n: nat) {
    && Word(u, q, i, n) && (u.alpha(q[i]) || q[i] == '_')
    && (i > 0 ==> !u.alnum(q[i - 1]) && q[i - 1] !in {'_', '.'})
    && Slashes(q, i) % 2 == 0 && Quotes(q, i) % 2 == 0
    && n < |q| && q[n] == ':' && (n + 1 < |q| ==> q[n + 1] != ':')
  }

  /** The name is to be prefixed: not yet, and on the list; without a list, when it has no dot. */
  predicate Wanted(properties: seq<string>, name: string) {
    && !("data." <= name)
    && if properties == [] then '.' !in name else exists p :: p in properties && SameWord(p, name)
  }

  ghost predicate WantedAt(u: Alphabet, properties: seq<string>, q: string, i: nat) {
    exists n: nat :: FieldName(u, q, i, n) && Wanted(properties, q[i..n])
  }

  lemma {:induction false} FlagsTold(q: string, i: nat)
    requires i <= |q|
    ensures var x := At(q, i);
      && (x.escaped <==> Slashes(q, i) % 2 == 1) && (x.quoted <==> Quotes(q, i) % 2 == 1)
      && x.prev == if i == 0 then None else Some(q[i - 1])
    decreases i
  {
    if i > 0 { FlagsTold(q, i - 1); }
  }

  lemma LowerSame(a: string, b: string)
    ensures LowerText(a) == LowerText(b) <==> SameWord(a, b)
  {
    var x, y := LowerText(a), LowerText(b);
    assert |x| == |a| && |y| == |b|;
    if x == y {
      forall i | 0 <= i < |a| ensures EditDistance.SameLetter(a[i], b[i]) { assert x[i] == y[i]; }
    }
    if SameWord(a, b) {
      forall i | 0 <= i < |x| ensures x[i] == y[i] { assert EditDistance.SameLetter(a[i], b[i]); }
    }
  }

  lemma ListedSame(properties: seq<string>, token: string)
    ensures Listed(properties, token) <==> exists p :: p in properties && SameWord(p, token)
  {
    forall k | 0 <= k < |properties|
      ensures LowerText(properties[k]) == LowerText(token) <==> SameWord(properties[k], token)
    {
      LowerSame(properties[k], token);
    }
    hide LowerText, SameWord;
    if Listed(properties, token) {
      var k :| 0 <= k < |properties| && LowerText(properties[k]) == LowerText(token);
      assert properties[k] in properties;
    }
    if p :| p in properties && SameWord(p, token) {
      var k :| 0 <= k < |properties| && properties[k] == p;
    }
  }

  lemma WantedIff(u: Alphabet, properties: seq<string>, token: string)
    requires Ordinary(u) && token != [] && forall i :: 0 <= i < |token| ==> TokenChar(u, token[i])
    ensures Prefixed(u, properties, token) <==> Wanted(properties, token)
  {
    ListedSame(properties, token);
    hide Listed, SameWord;
  }

  /** The word at `i` is the longest run of token characters. */
  lemma WordUnique(u: Alphabet, q: string, i: nat, n: nat)
    requires i < |q|
    ensures Word(u, q, i, n) <==> n == i + TokenLength(u, q[i..]) > i
  {
    var s, m := q[i..], TokenLength(u, q[i..]);
    assert forall k :: 0 <= k < |s| ==> s[k] == q[i + k];
    assert forall j :: i <= j < i + m ==> TokenChar(u, s[j - i]) && s[j - i] == q[j];
    assert i + m < |q| ==> !TokenChar(u, q[i + m]);
  }

  lemma FieldNameIff(u: Alphabet, q: string, i: nat)
    requires Ordinary(u) && i < |q|
    ensures var n := i + TokenLength(u, q[i..]);
      FieldName(u, q, i, n) <==> AtToken(u, At(q, i), q[i]) && Colon(q[n..])
  {
    FlagsTold(q, i);
    var n := i + TokenLength(u, q[i..]);
    WordUnique(u, q, i, n);
    StartsToken(u, q[i]);
    hide At, Slashes, Quotes, Word;
    assert q[i..][0] == q[i];
    assert n < |q| ==> q[n..][0] == q[n];
    assert n + 1 < |q| ==> q[n..][1] == q[n + 1];
  }

  lemma FieldIff(u: Alphabet, properties: seq<string>, q: string, i: nat)
    requires Ordinary(u) && i < |q|
    ensures FieldAt(u, properties, q, i) <==> WantedAt(u, properties, q, i)
  {
    var n := i + TokenLength(u, q[i..]);
    FieldNameIff(u, q, i);
    WordUnique(u, q, i, n);
    assert forall j :: 0 <= j < n - i ==> q[i..n][j] == q[i..][j];
    if n > i { WantedIff(u, properties, q[i..n]); }
    forall m: nat | FieldName(u, q, i, m) ensures m == n { WordUnique(u, q, i, m); }
  }

  /** The text with the prefix in front of every field name that is to be prefixed. */
  ghost function Marked(u: Alphabet, properties: seq<string>, q: string, i: nat): string
    requires i <= |q|
    decreases |q| - i
  {
    if i == |q| then []
    else (if WantedAt(u, properties, q, i) then "data." else []) + ([q[i]] + Marked(u, properties, q, i + 1))
  }

  lemma {:induction false} SplicedMarked(u: Alphabet, properties: seq<string>, q: string, i: nat)
    requires Ordinary(u) && i <= |q|
    ensures Spliced(u, properties, q, i) == Marked(u, properties, q, i)
    decreases |q| - i
  {
    hide FieldAt, WantedAt, Ordinary;
    if i < |q| {
      FieldIff(u, properties, q, i);
      SplicedMarked(u, properties, q, i + 1);
    }
  }

  /** For every query and list, what the adapter inserts and where, read off the text alone. */
  lemma AdaptedExactly(u: Alphabet, properties: seq<string>, q: string)
    requires Ordinary(u)
    ensures Adapted(u, properties, q) == Marked(u, properties, q, 0)
  {
    InsertionOnly(u, properties, q);
    SplicedMarked(u, properties, q, 0);
  }

  // ---------- Idempotence ----------

  /** Scanning keeps the first character, or puts the prefix in front of a letter. */
  lemma FirstKept(u: Alphabet, properties: seq<string>, x: Context, s: string)
    requires Ordinary(u)
    ensures var o := Scan(u, properties, x, s);
      && (o == [] <==> s == [])
      && (s != [] ==> o[0] == s[0] || (o[0] == 'd' && TokenStart(u, s[0])))
  {
    if s != [] && AtToken(u, x, s[0]) {
      StartsToken(u, s[0]);
      var n := TokenLength(u, s);
      assert s[..n][0] == s[0];
    }
  }

  /** Text that starts with a run of token characters and goes on with something else. */
  lemma {:induction false} TokenOf(u: Alphabet, t: string, r: string)
    requires (forall i :: 0 <= i < |t| ==> TokenChar(u, t[i])) && (r == [] || !TokenChar(u, r[0]))
    ensures TokenLength(u, t + r) == |t|
    decreases |t|
  {
    if t == [] {
      assert t + r == r;
    } else {
      assert (t + r)[1..] == t[1..] + r;
      TokenOf(u, t[1..], r);
    }
  }

  /** Scanning text whose first token is `t`, followed by `r`. */
  lemma ScanSplit(u: Alphabet, properties: seq<string>, x: Context, t: string, r: string)
    requires t != [] && AtToken(u, x, t[0]) && (forall i :: 0 <= i < |t| ==> TokenChar(u, t[i]))
    requires r == [] || !TokenChar(u, r[0])
    ensures Colon(r) ==>
      Scan(u, properties, x, t + r) == (if Prefixed(u, properties, t) then DATA else []) + t + ":"
        + Scan(u, properties, Context(Some(':'), false, false), r[1..])
    ensures !Colon(r) ==>
      Scan(u, properties, x, t + r) == t + Scan(u, properties, Context(Some(t[|t| - 1]), false, false), r)
  {
    TokenOf(u, t, r);
    assert (t + r)[0] == t[0] && (t + r)[..|t|] == t && (t + r)[|t|..] == r;
  }

  lemma {:induction false} ScanTwice(u: Alphabet, properties: seq<string>, x: Context, s: string)
    requires Ordinary(u)
    ensures Scan(u, properties, x, Scan(u, properties, x, s)) == Scan(u, properties, x, s)
    decreases |s|
  {
    if s != [] {
      if AtToken(u, x, s[0]) {
        TokenTwice(u, properties, x, s);
      } else {
        var o := Scan(u, properties, Step(x, s[0]), s[1..]);
        ScanTwice(u, properties, Step(x, s[0]), s[1..]);
        var whole := [s[0]] + o;
        assert whole[0] == s[0] && whole[1..] == o;
      }
    }
  }

  lemma {:induction false} TokenTwice(u: Alphabet, properties: seq<string>, x: Context, s: string)
    requires Ordinary(u) && s != [] && AtToken(u, x, s[0])
    ensures Scan(u, properties, x, Scan(u, properties, x, s)) == Scan(u, properties, x, s)
    decreases |s|, 0
  {
    StartsToken(u, s[0]);
    var n := TokenLength(u, s);
    var t, r := s[..n], s[n..];
    assert s == t + r && t[0] == s[0];
    ScanSplit(u, properties, x, t, r);
    if Colon(r) {
      var y := Context(Some(':'), false, false);
      var o := Scan(u, properties, y, r[1..]);
      ScanTwice(u, properties, y, r[1..]);
      FirstKept(u, properties, y, r[1..]);
      ColonAfter(r[1..], o);
      hide Scan;
      FieldTwice(u, properties, x, t, o);
    } else {
      var y := Context(Some(t[n - 1]), false, false);
      var o := Scan(u, properties, y, r);
      ScanTwice(u, properties, y, r);
      FirstKept(u, properties, y, r);
      StillNoColon(u, properties, y, r);
      ScanSplit(u, properties, x, t, o);
    }
  }

  lemma ColonAfter(r: string, o: string)
    requires (o == [] <==> r == []) && (r != [] ==> o[0] == r[0] || o[0] == 'd') && (r == [] || r[0] != ':')
    ensures Colon(":" + o) && (":" + o)[1..] == o
  {
  }

  /** A field name that was prefixed is namespaced now, and one that was not still is not. */
  lemma FieldTwice(u: Alphabet, properties: seq<string>, x: Context, t: string, o: string)
    requires Ordinary(u) && t != [] && AtToken(u, x, t[0]) && (forall i :: 0 <= i < |t| ==> TokenChar(u, t[i]))
    requires Colon(":" + o) && (":" + o)[1..] == o
    requires Scan(u, properties, Context(Some(':'), false, false), o) == o
    ensures var whole := (if Prefixed(u, properties, t) then DATA else []) + t + ":" + o;
      Scan(u, properties, x, whole) == whole
  {
    var pre := if Prefixed(u, properties, t) then DATA else [];
    var p := pre + t;
    assert p == if Prefixed(u, properties, t) then DATA + t else t;
    PrefixToken(u, properties, x, t);
    SettledField(u, properties, x, p, o);
    Regroup(p, ":", o);
  }

  /** A field name that needs no prefix, in front of settled text. */
  lemma SettledField(u: Alphabet, properties: seq<string>, x: Context, p: string, o: string)
    requires p != [] && AtToken(u, x, p[0]) && (forall i :: 0 <= i < |p| ==> TokenChar(u, p[i]))
    requires !Prefixed(u, properties, p) && !TokenChar(u, ':') && Colon(":" + o) && (":" + o)[1..] == o
    requires Scan(u, properties, Context(Some(':'), false, false), o) == o
    ensures Scan(u, properties, x, p + (":" + o)) == p + (":" + o)
  {
    ScanSplit(u, properties, x, p, ":" + o);
    hide Scan, Prefixed, AtToken, TokenChar;
    assert [] + p == p;
    Regroup(p, ":", o);
  }

  lemma PrefixToken(u: Alphabet, properties: seq<string>, x: Context, t: string)
    requires Ordinary(u) && t != [] && AtToken(u, x, t[0]) && (forall i :: 0 <= i < |t| ==> TokenChar(u, t[i]))
    ensures var p := if Prefixed(u, properties, t) then DATA + t else t;
      && !Prefixed(u, properties, p) && AtToken(u, x, p[0]) && !TokenChar(u, ':')
      && forall i :: 0 <= i < |p| ==> TokenChar(u, p[i])
  {
    assert DATA == ['d', 'a', 't', 'a', '.'];
    assert (DATA + t)[0] == 'd';
  }

  lemma StillNoColon(u: Alphabet, properties: seq<string>, x: Context, r: string)
    requires Ordinary(u) && !Colon(r) && (r == [] || !TokenChar(u, r[0]))
    ensures var o := Scan(u, properties, x, r); !Colon(o) && (o == [] || !TokenChar(u, o[0]))
  {
    if r != [] {
      var o := Scan(u, properties, Step(x, r[0]), r[1..]);
      assert !TokenStart(u, r[0]) by { StartsToken(u, r[0]); }
      FirstKept(u, properties, Step(x, r[0]), r[1..]);
      if r[0] == ':' {
        assert r[1..][0] == ':';
        assert !TokenStart(u, ':');
      }
    }
  }

  /** Adapting twice is adapting once. */
  lemma Idempotent(u: Alphabet, properties: seq<string>, q: string)
    requires Ordinary(u)
    ensures Adapted(u, properties, Adapted(u, properties, q)) == Adapted(u, properties, q)
  {
    ScanTwice(u, properties, START, q);
  }
}
