/** Edit distance up to ASCII case, and the closest-match search built on it. */
module EditDistance {
  import opened Common

  // ---------- Letters ----------

  function Lower(c: char): char {
    if 'A' <= c <= 'Z' then c + ' ' else c
  }

  /** The same character, or the two cases of one ASCII letter. */
  predicate SameLetter(x: char, y: char)
    ensures SameLetter(x, y) <==>
      || x == y
      || ('A' <= x <= 'Z' && y as int == x as int + 32) || ('A' <= y <= 'Z' && x as int == y as int + 32)
  {
    Lower(x) == Lower(y)
  }

  ghost predicate SameText(a: string, b: string) {
    |a| == |b| && forall i :: 0 <= i < |a| ==> SameLetter(a[i], b[i])
  }

  // ---------- The recurrence ----------

  function Cost(x: char, y: char): nat {
    if SameLetter(x, y) then 0 else 1
  }

  function Min(x: nat, y: nat): nat {
    if x < y then x else y
  }

  function Front(s: string): string
    requires s != []
  {
    s[..|s| - 1]
  }

  function Last(s: string): char
    requires s != []
  {
    s[|s| - 1]
  }

  function Dist(a: string, b: string): nat
    decreases |a| + |b|
  {
    if a == [] then |b|
    else if b == [] then |a|
    else Min(Min(Dist(Front(a), b) + 1, Dist(a, Front(b)) + 1), Dist(Front(a), Front(b)) + Cost(Last(a), Last(b)))
  }

  // ---------- Edit scripts ----------

  datatype Edit = Insert(at: nat, c: char) | Delete(at: nat) | Replace(at: nat, c: char)

  predicate Fits(s: string, e: Edit) {
    match e
    case Insert(i, _) => i <= |s|
    case Delete(i) => i < |s|
    case Replace(i, _) => i < |s|
  }

  function Edited(s: string, e: Edit): string
    requires Fits(s, e)
  {
    match e
    case Insert(i, c) => s[..i] + [c] + s[i..]
    case Delete(i) => s[..i] + s[i + 1..]
    case Replace(i, c) => s[..i] + [c] + s[i + 1..]
  }

  /** The script can be followed from `s`. */
  predicate Follows(s: string, es: seq<Edit>)
    decreases |es|
  {
    es == [] || (Fits(s, es[0]) && Follows(Edited(s, es[0]), es[1..]))
  }

  function Result(s: string, es: seq<Edit>): string
    requires Follows(s, es)
    decreases |es|
  {
    if es == [] then s else Result(Edited(s, es[0]), es[1..])
  }

  /** A script from `a` to `b`, up to case. */
  ghost predicate Turns(a: string, b: string, es: seq<Edit>) {
    Follows(a, es) && SameText(Result(a, es), b)
  }

  // ---------- A metric ----------

  lemma {:induction false} Symmetric(a: string, b: string)
    ensures Dist(a, b) == Dist(b, a)
    decreases |a| + |b|
  {
    if a != [] && b != [] {
      Symmetric(Front(a), b);
      Symmetric(a, Front(b));
      Symmetric(Front(a), Front(b));
    }
  }

  lemma {:induction false} LengthGap(a: string, b: string)
    ensures |a| <= |b| + Dist(a, b) && |b| <= |a| + Dist(a, b) && Dist(a, b) <= |a| + |b|
    decreases |a| + |b|
  {
    if a != [] && b != [] {
      LengthGap(Front(a), b);
      LengthGap(a, Front(b));
      LengthGap(Front(a), Front(b));
    }
  }

  lemma {:induction false} ZeroIff(a: string, b: string)
    ensures Dist(a, b) == 0 <==> SameText(a, b)
    decreases |a| + |b|
  {
    if a != [] && b != [] {
      ZeroIff(Front(a), Front(b));
      assert SameText(a, b) ==> SameText(Front(a), Front(b)) && SameLetter(Last(a), Last(b));
      if Dist(a, b) == 0 {
        assert SameText(Front(a), Front(b)) && SameLetter(Last(a), Last(b));
        forall i | 0 <= i < |a| ensures SameLetter(a[i], b[i]) {
          if i < |a| - 1 { assert a[i] == Front(a)[i] && b[i] == Front(b)[i]; }
        }
      }
    }
  }

  /** One step of the recurrence, as bounds. */
  lemma StepBounds(a: string, b: string)
    ensures a != [] ==> Dist(a, b) <= Dist(Front(a), b) + 1
    ensures b != [] ==> Dist(a, b) <= Dist(a, Front(b)) + 1
    ensures a != [] && b != [] ==> Dist(a, b) <= Dist(Front(a), Front(b)) + Cost(Last(a), Last(b))
  {
    if a != [] { LengthGap(Front(a), b); }
    if b != [] { LengthGap(a, Front(b)); }
  }

  lemma {:induction false} Triangle(a: string, b: string, c: string)
    ensures Dist(a, c) <= Dist(a, b) + Dist(b, c)
    decreases |a| + |b| + |c|
  {
    LengthGap(a, b);
    LengthGap(b, c);
    LengthGap(a, c);
    if a != [] && b != [] && c != [] {
      StepBounds(a, c);
      if Dist(a, b) == Dist(Front(a), b) + 1 {
        Triangle(Front(a), b, c);
      } else if Dist(b, c) == Dist(b, Front(c)) + 1 {
        Triangle(a, b, Front(c));
      } else if Dist(a, b) == Dist(a, Front(b)) + 1 {
        if Dist(b, c) == Dist(Front(b), c) + 1 {
          Triangle(a, Front(b), c);
        } else {
          Triangle(a, Front(b), Front(c));
        }
      } else if Dist(b, c) == Dist(Front(b), c) + 1 {
        Triangle(Front(a), Front(b), c);
      } else {
        Triangle(Front(a), Front(b), Front(c));
      }
    }
  }

  // ---------- The least number of edits ----------

  lemma {:induction false} CommonSuffix(x: string, y: string, s: string)
    ensures Dist(x + s, y + s) <= Dist(x, y)
    decreases |s|
  {
    hide Dist, Front, Last;
    if s == [] {
      assert x + s == x && y + s == y;
    } else {
      LastOfSum(x, s);
      LastOfSum(y, s);
      CommonSuffix(x, y, Front(s));
      StepBounds(x + s, y + s);
    }
  }

  lemma LastOfSum(x: string, s: string)
    requires s != []
    ensures Front(x + s) == x + Front(s) && Last(x + s) == Last(s) && |Front(s)| < |s|
  {
  }

  lemma EditCosts(s: string, e: Edit)
    requires Fits(s, e)
    ensures Dist(s, Edited(s, e)) <= 1
  {
    hide Dist;
    match e
    case Insert(i, c) =>
      assert s == s[..i] + s[i..];
      LetterCosts(s[..i], c, c);
      CommonSuffix(s[..i], s[..i] + [c], s[i..]);
    case Delete(i) =>
      SplitAt(s, i);
      LetterCosts(s[..i], s[i], s[i]);
      CommonSuffix(s[..i] + [s[i]], s[..i], s[i + 1..]);
    case Replace(i, c) =>
      SplitAt(s, i);
      LetterCosts(s[..i], s[i], c);
      CommonSuffix(s[..i] + [s[i]], s[..i] + [c], s[i + 1..]);
  }

  lemma SplitAt(s: string, i: nat)
    requires i < |s|
    ensures s == (s[..i] + [s[i]]) + s[i + 1..]
  {
  }

  /** One letter more, less or different at the end costs at most one. */
  lemma LetterCosts(p: string, c: char, d: char)
    ensures Dist(p, p + [d]) <= 1 && Dist(p + [c], p) <= 1 && Dist(p + [c], p + [d]) <= 1
  {
    hide Dist;
    ZeroIff(p, p);
    assert Front(p + [c]) == p && Front(p + [d]) == p;
    StepBounds(p, p + [d]);
    StepBounds(p + [c], p);
    StepBounds(p + [c], p + [d]);
  }

  lemma {:induction false} ScriptCosts(s: string, es: seq<Edit>)
    requires Follows(s, es)
    ensures Dist(s, Result(s, es)) <= |es|
    decreases |es|
  {
    if es == [] {
      ZeroIff(s, s);
    } else {
      EditCosts(s, es[0]);
      ScriptCosts(Edited(s, es[0]), es[1..]);
      Triangle(s, Edited(s, es[0]), Result(s, es));
    }
  }

  /** No script is shorter than the distance. */
  lemma NoShorter(a: string, b: string, es: seq<Edit>)
    requires Turns(a, b, es)
    ensures Dist(a, b) <= |es|
  {
    ScriptCosts(a, es);
    ZeroIff(Result(a, es), b);
    Triangle(a, Result(a, es), b);
  }

  /** A script can be followed in front of any suffix. */
  lemma {:induction false} FollowsWithSuffix(s: string, es: seq<Edit>, t: string)
    requires Follows(s, es)
    ensures Follows(s + t, es) && Result(s + t, es) == Result(s, es) + t
    decreases |es|
  {
    if es == [] {
      assert Result(s, es) == s;
    } else {
      EditedWithSuffix(s, es[0], t);
      hide Edited;
      FollowsWithSuffix(Edited(s, es[0]), es[1..], t);
    }
  }

  lemma EditedWithSuffix(s: string, e: Edit, t: string)
    requires Fits(s, e)
    ensures Fits(s + t, e) && Edited(s + t, e) == Edited(s, e) + t
  {
    match e
    case Insert(i, c) => assert (s + t)[..i] == s[..i] && (s + t)[i..] == s[i..] + t;
    case Delete(i) => assert (s + t)[..i] == s[..i] && (s + t)[i + 1..] == s[i + 1..] + t;
    case Replace(i, c) => assert (s + t)[..i] == s[..i] && (s + t)[i + 1..] == s[i + 1..] + t;
  }

  lemma {:induction false} FollowsOn(s: string, es: seq<Edit>, e: Edit)
    requires Follows(s, es) && Fits(Result(s, es), e)
    ensures Follows(s, es + [e]) && Result(s, es + [e]) == Edited(Result(s, es), e)
    decreases |es|
  {
    if es == [] {
      assert es + [e] == [e] && [e][1..] == [];
    } else {
      assert (es + [e])[1..] == es[1..] + [e];
      FollowsOn(Edited(s, es[0]), es[1..], e);
    }
  }

  /** The last letter goes, then the rest is edited. */
  lemma DeleteFirst(a: string, b: string, rest: seq<Edit>)
    requires a != [] && Turns(Front(a), b, rest)
    ensures Turns(a, b, [Delete(|a| - 1)] + rest)
  {
    var es := [Delete(|a| - 1)] + rest;
    assert Edited(a, es[0]) == Front(a) && es[1..] == rest;
  }

  /** The rest is edited, then a last letter is added. */
  lemma InsertLast(a: string, b: string, rest: seq<Edit>)
    requires b != [] && Turns(a, Front(b), rest)
    ensures Turns(a, b, rest + [Insert(|Result(a, rest)|, Last(b))])
  {
    hide Result, Follows, SameText, Edited, Front, Last;
    var t := Result(a, rest);
    var e := Insert(|t|, Last(b));
    InsertedLast(t, Last(b));
    FollowsOn(a, rest, e);
    SameTextAppend(t, Front(b), Last(b), Last(b));
    SplitLast(b);
  }

  /** The last letters agree. */
  lemma KeepLast(a: string, b: string, rest: seq<Edit>)
    requires a != [] && b != [] && Turns(Front(a), Front(b), rest) && SameLetter(Last(a), Last(b))
    ensures Turns(a, b, rest)
  {
    hide Result, Follows, SameText, Front, Last;
    SplitLast(a);
    SplitLast(b);
    FollowsWithSuffix(Front(a), rest, [Last(a)]);
    SameTextAppend(Result(Front(a), rest), Front(b), Last(a), Last(b));
  }

  /** The rest is edited, then the last letter is replaced. */
  lemma ReplaceLast(a: string, b: string, rest: seq<Edit>)
    requires a != [] && b != [] && Turns(Front(a), Front(b), rest)
    ensures Turns(a, b, rest + [Replace(|Result(Front(a), rest)|, Last(b))])
  {
    hide Result, Follows, SameText, Edited, Front, Last;
    var t := Result(Front(a), rest);
    var e := Replace(|t|, Last(b));
    FollowsWithSuffix(Front(a), rest, [Last(a)]);
    SplitLast(a);
    SplitLast(b);
    ReplacedLast(t, Last(a), Last(b));
    FollowsOn(a, rest, e);
    SameTextAppend(t, Front(b), Last(b), Last(b));
  }

  lemma InsertedLast(t: string, c: char)
    ensures Edited(t, Insert(|t|, c)) == t + [c]
  {
  }

  lemma ReplacedLast(t: string, c: char, d: char)
    ensures Edited(t + [c], Replace(|t|, d)) == t + [d]
  {
  }

  lemma SplitLast(s: string)
    requires s != []
    ensures Front(s) + [Last(s)] == s
  {
  }

  lemma SameTextAppend(s: string, t: string, x: char, y: char)
    requires SameText(s, t) && SameLetter(x, y)
    ensures SameText(s + [x], t + [y])
  {
  }

  /** A script of that length exists. */
  lemma {:induction false} Shortest(a: string, b: string) returns (es: seq<Edit>)
    ensures |es| == Dist(a, b) && Turns(a, b, es)
    decreases |a| + |b|
  {
    hide Turns;
    if a == [] && b == [] {
      es := [];
      assert Turns(a, b, es) by { Untouched(a); }
    } else if a != [] && (b == [] || Dist(a, b) == Dist(Front(a), b) + 1) {
      var rest := Shortest(Front(a), b);
      LengthGap(Front(a), b);
      DeleteFirst(a, b, rest);
      es := [Delete(|a| - 1)] + rest;
    } else if a == [] || Dist(a, b) == Dist(a, Front(b)) + 1 {
      var rest := Shortest(a, Front(b));
      assert Follows(a, rest) by { TurnsFollows(a, Front(b), rest); }
      InsertLast(a, b, rest);
      es := rest + [Insert(|Result(a, rest)|, Last(b))];
    } else {
      var rest := Shortest(Front(a), Front(b));
      assert Follows(Front(a), rest) by { TurnsFollows(Front(a), Front(b), rest); }
      if SameLetter(Last(a), Last(b)) {
        KeepLast(a, b, rest);
        es := rest;
      } else {
        ReplaceLast(a, b, rest);
        es := rest + [Replace(|Result(Front(a), rest)|, Last(b))];
      }
    }
  }

  lemma Untouched(a: string)
    ensures Turns(a, a, [])
  {
  }

  lemma TurnsFollows(a: string, b: string, es: seq<Edit>)
    requires Turns(a, b, es)
    ensures Follows(a, es)
  {
  }

  ghost predicate Least(a: string, b: string, d: nat) {
    (forall es :: Turns(a, b, es) ==> d <= |es|) && exists es :: Turns(a, b, es) && |es| == d
  }

  /** The recurrence computes the least number of edits. */
  lemma DistLeast(a: string, b: string)
    ensures Least(a, b, Dist(a, b))
  {
    forall es | Turns(a, b, es) ensures Dist(a, b) <= |es| { NoShorter(a, b, es); }
    var es := Shortest(a, b);
  }

  // ---------- The table ----------

  /** One cell from its three neighbours. */
  lemma Cell(a: string, b: string, i: nat, j: nat)
    requires i <= |a| && j <= |b|
    ensures i == 0 ==> Dist(a[..i], b[..j]) == j
    ensures j == 0 ==> Dist(a[..i], b[..j]) == i
    ensures i > 0 && j > 0 ==>
      Dist(a[..i], b[..j]) == Min(Min(Dist(a[..i - 1], b[..j]) + 1, Dist(a[..i], b[..j - 1]) + 1),
                                  Dist(a[..i - 1], b[..j - 1]) + Cost(a[i - 1], b[j - 1]))
  {
    if i > 0 && j > 0 {
      assert Front(a[..i]) == a[..i - 1] && Front(b[..j]) == b[..j - 1];
      assert Last(a[..i]) == a[i - 1] && Last(b[..j]) == b[j - 1];
    }
  }

  /** `levenshtein`: the result is the least number of edits from one text to the other. */
  method Levenshtein(a: string, b: string) returns (d: nat)
    ensures d == Dist(a, b) && Least(a, b, d)
  {
    var m, n := |a|, |b|;
    DistLeast(a, b);
    hide Dist, Least, Min;
    var dp := new nat[m + 1, n + 1];
    for i := 0 to m + 1
      invariant forall k :: 0 <= k < i ==> dp[k, 0] == k
    {
      dp[i, 0] := i;
    }
    for j := 0 to n + 1
      invariant forall k :: 0 <= k <= m ==> dp[k, 0] == k
      invariant forall k :: 0 <= k < j ==> dp[0, k] == Dist(a[..0], b[..k])
    {
      Cell(a, b, 0, j);
      dp[0, j] := j;
    }
    for i := 1 to m + 1
      invariant forall k :: i <= k <= m ==> dp[k, 0] == k
      invariant forall k, l :: 0 <= k < i && 0 <= l <= n ==> dp[k, l] == Dist(a[..k], b[..l])
    {
      Cell(a, b, i, 0);
      for j := 1 to n + 1
        invariant forall k :: i < k <= m ==> dp[k, 0] == k
        invariant forall k, l :: 0 <= k < i && 0 <= l <= n ==> dp[k, l] == Dist(a[..k], b[..l])
        invariant forall l :: 0 <= l < j ==> dp[i, l] == Dist(a[..i], b[..l])
      {
        Cell(a, b, i, j);
        var cost := if SameLetter(a[i - 1], b[j - 1]) then 0 else 1;
        dp[i, j] := Min(Min(dp[i - 1, j] + 1, dp[i, j - 1] + 1), dp[i - 1, j - 1] + cost);
      }
    }
    d := dp[m, n];
    assert a[..m] == a && b[..n] == b;
  }

  /** The best of the candidates seen so far. */
  ghost predicate BestSoFar(target: string, candidates: seq<string>, bound: nat, k: nat, best: Option<(nat, nat)>) {
    && k <= |candidates|
    && match best
       case None => forall j :: 0 <= j < k ==> Dist(target, candidates[j]) > bound
       case Some((i, d)) =>
         && i < k && d == Dist(target, candidates[i]) && d <= bound
         && (forall j :: 0 <= j < k ==> d <= Dist(target, candidates[j]))
         && (forall j :: 0 <= j < i ==> d < Dist(target, candidates[j]))
  }

  /** `find_closest_match`: the earliest candidate of least distance within the bound, or none if there is none. */
  method FindClosestMatch(target: string, candidates: seq<string>, bound: nat) returns (r: Option<string>)
    ensures r.None? <==> forall k :: 0 <= k < |candidates| ==> Dist(target, candidates[k]) > bound
    ensures r.Some? ==> exists k: nat :: Closest(target, candidates, bound, k) && r.value == candidates[k]
  {
    var best: Option<(nat, nat)> := None;
    hide Dist, Least;
    for k := 0 to |candidates|
      invariant BestSoFar(target, candidates, bound, k, best)
    {
      var dist := Levenshtein(target, candidates[k]);
      if dist <= bound {
        if best.None? {
          best := Some((k, dist));
        } else if dist < best.value.1 {
          best := Some((k, dist));
        }
      }
    }
    if best.None? { return None; }
    assert Closest(target, candidates, bound, best.value.0);
    return Some(candidates[best.value.0]);
  }

  /** Candidate `k` is within the bound, no other is closer, and every earlier one is farther. */
  ghost predicate Closest(target: string, candidates: seq<string>, bound: nat, k: nat) {
    && k < |candidates| && Dist(target, candidates[k]) <= bound
    && (forall j :: 0 <= j < |candidates| ==> Dist(target, candidates[k]) <= Dist(target, candidates[j]))
    && (forall j :: 0 <= j < k ==> Dist(target, candidates[k]) < Dist(target, candidates[j]))
  }
}
