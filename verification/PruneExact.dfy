/**
 When dropping aliases is exactly right. On statements of bare node patterns, counting rows
 over a graph of two nodes shows that the binding condition of pruning is also necessary.
 */
module PruneExact {
  import opened Common
  import opened Semantics
  import opened Clauses
  import opened FoldingLimits
  import opened Matching
  import opened Running
  import opened Pushdown
  import opened Pruning
  import opened PrunedStatement

  // ---------- Statements of bare node patterns ----------

  predicate BareNodeMatch(c: MatchCl) {
    !c.optional && c.filter.None? && forall p :: p in c.paths ==> p.Single? && p.node.labels.None? && p.node.preds == []
  }

  /** MATCH clauses of node patterns without labels or predicates, then RETURN. */
  predicate BareStatement(q: Statement) {
    && q.unwinds == [] && q.linear == [] && q.withs == [] && q.result.Some? && q.result.value.filter.None?
    && (forall e :: e in HeadExprs(q.result.value) ==> Unnested(Names(e)))
    && forall c :: c in q.matches ==> BareNodeMatch(c)
  }

  /** The alias of each pattern, in order. */
  function PathAliases(ps: seq<PathPat>): seq<Option<string>> {
    seq(|ps|, k requires 0 <= k < |ps| => if ps[k].Single? then ps[k].node.variable else None)
  }

  function Aliases(cs: seq<MatchCl>): seq<Option<string>> {
    if cs == [] then [] else PathAliases(cs[0].paths) + Aliases(cs[1..])
  }

  function Visit(o: Option<string>): seq<Step> {
    [SEnter] + (if o.Some? then [SHere(o.value)] else []) + [SLeave]
  }

  function VisitAll(os: seq<Option<string>>): seq<Step> {
    if os == [] then [] else Visit(os[0]) + VisitAll(os[1..])
  }

  lemma {:induction false} VisitConcat(a: seq<Option<string>>, b: seq<Option<string>>)
    ensures VisitAll(a + b) == VisitAll(a) + VisitAll(b)
    decreases |a|
  {
    if a == [] {
      assert a + b == b;
    } else {
      assert (a + b)[1..] == a[1..] + b;
      VisitConcat(a[1..], b);
      StepsAssoc(Visit(a[0]), VisitAll(a[1..]), VisitAll(b));
    }
  }

  lemma {:induction false} PathsVisit(ps: seq<PathPat>)
    requires forall p :: p in ps ==> p.Single? && p.node.labels.None? && p.node.preds == []
    ensures PathsSteps(ps) == VisitAll(PathAliases(ps))
    decreases |ps|
  {
    if ps != [] {
      assert ps[0] in ps;
      PathsVisit(ps[1..]);
      assert PathAliases(ps)[1..] == PathAliases(ps[1..]);
      assert PathSteps(ps[0]) == Visit(ps[0].node.variable);
    }
  }

  lemma {:induction false} MatchesVisit(cs: seq<MatchCl>)
    requires forall c :: c in cs ==> BareNodeMatch(c)
    ensures MatchesSteps(cs) == VisitAll(Aliases(cs))
    decreases |cs|
  {
    if cs != [] {
      assert cs[0] in cs;
      PathsVisit(cs[0].paths);
      MatchesVisit(cs[1..]);
      VisitConcat(PathAliases(cs[0].paths), Aliases(cs[1..]));
      assert PathsSteps(cs[0].paths) + [] == PathsSteps(cs[0].paths);
    }
  }

  // ---------- Rows over two nodes ----------

  /** Two nodes and no edges; a projection returns one empty row per row. */
  const PAIR: Graph :=
    Graph([VNode(1), VNode(2)], v => {}, (e, v) => [], (m, t) => true,
          (f, ts: seq<seq<Outcome>>) => seq(|ts|, k => map[]))

  /** A pattern doubles the rows unless its alias is bound already. */
  function Rows(os: seq<Option<string>>, bound: set<string>): (n: nat)
    ensures n > 0
    decreases |os|
  {
    if os == [] then 1
    else if os[0].None? then 2 * Rows(os[1..], bound)
    else if os[0].value in bound then Rows(os[1..], bound)
    else 2 * Rows(os[1..], bound + {os[0].value})
  }

  ghost predicate OverPair(row: Row) {
    forall x :: x in row ==> row[x] == VNode(1) || row[x] == VNode(2)
  }

  function Visited(row: Row): State {
    State(row, VNull, [])
  }

  /** Two states through the same steps. */
  lemma RunTwo(steps: seq<Step>, a: State, b: State, w: World)
    ensures RunAll(steps, [a, b], w, PAIR) == Run(steps, a, w, PAIR) + Run(steps, b, w, PAIR)
  {
    hide Run, RunAll;
    assert [a, b] == [a] + [b];
    RunAllConcat(steps, [a], [b], w, PAIR);
    RunAllOne(steps, a, w, PAIR);
    RunAllOne(steps, b, w, PAIR);
  }

  lemma StepTwo(st: Step, a: State, b: State, w: World)
    ensures RunAll([st], [a, b], w, PAIR) == Advance(st, a, w, PAIR) + Advance(st, b, w, PAIR)
  {
    RunSingle(st, a, w, PAIR);
    RunSingle(st, b, w, PAIR);
    hide Run, RunAll;
    RunTwo([st], a, b, w);
  }

  lemma VisitFree(s: State, w: World)
    ensures Run(Visit(None), s, w, PAIR) == [Visited(s.row), Visited(s.row)]
  {
    var one, two := State(s.row, VNode(1), [VNode(1)]), State(s.row, VNode(2), [VNode(2)]);
    assert Visit(None) == [SEnter] + [SLeave];
    RunSingle(SEnter, s, w, PAIR);
    hide Run, RunAll;
    RunConcat([SEnter], [SLeave], s, w, PAIR);
    assert Advance(SEnter, s, w, PAIR) == [one, two];
    StepTwo(SLeave, one, two, w);
  }

  lemma EnterBound(s: State, x: string, w: World)
    ensures var one, two := State(s.row, VNode(1), [VNode(1)]), State(s.row, VNode(2), [VNode(2)]);
      Run(Visit(Some(x)), s, w, PAIR) == RunAll([SLeave], Join(one, x, VNode(1)) + Join(two, x, VNode(2)), w, PAIR)
  {
    var one, two := State(s.row, VNode(1), [VNode(1)]), State(s.row, VNode(2), [VNode(2)]);
    RunSingle(SEnter, s, w, PAIR);
    hide Run, RunAll, Join;
    RunConcat([SEnter] + [SHere(x)], [SLeave], s, w, PAIR);
    RunConcat([SEnter], [SHere(x)], s, w, PAIR);
    assert Advance(SEnter, s, w, PAIR) == [one, two];
    StepTwo(SHere(x), one, two, w);
  }

  lemma VisitFresh(s: State, x: string, w: World)
    requires x !in s.row
    ensures Run(Visit(Some(x)), s, w, PAIR) == [Visited(s.row[x := VNode(1)]), Visited(s.row[x := VNode(2)])]
  {
    hide Run, RunAll;
    var one, two := State(s.row, VNode(1), [VNode(1)]), State(s.row, VNode(2), [VNode(2)]);
    EnterBound(s, x, w);
    var a, b := one.(row := s.row[x := VNode(1)]), two.(row := s.row[x := VNode(2)]);
    assert Join(one, x, VNode(1)) + Join(two, x, VNode(2)) == [a, b];
    StepTwo(SLeave, a, b, w);
  }

  lemma VisitAgain(s: State, x: string, w: World)
    requires x in s.row && (s.row[x] == VNode(1) || s.row[x] == VNode(2))
    ensures Run(Visit(Some(x)), s, w, PAIR) == [Visited(s.row)]
  {
    hide Run, RunAll;
    var one, two := State(s.row, VNode(1), [VNode(1)]), State(s.row, VNode(2), [VNode(2)]);
    var t := if s.row[x] == VNode(1) then one else two;
    EnterBound(s, x, w);
    assert Join(one, x, VNode(1)) + Join(two, x, VNode(2)) == [t];
    RunAllOne([SLeave], t, w, PAIR);
    RunSingle(SLeave, t, w, PAIR);
  }

  lemma {:induction false} VisitCount(os: seq<Option<string>>, s: State, w: World)
    requires OverPair(s.row)
    ensures |Run(VisitAll(os), s, w, PAIR)| == Rows(os, s.row.Keys)
    decreases |os|
  {
    hide Run, RunAll, Visit;
    if os != [] {
      var rest := os[1..];
      RunConcat(Visit(os[0]), VisitAll(rest), s, w, PAIR);
      if os[0].None? {
        VisitFree(s, w);
        VisitCount(rest, Visited(s.row), w);
        RunTwo(VisitAll(rest), Visited(s.row), Visited(s.row), w);
      } else if os[0].value in s.row {
        VisitAgain(s, os[0].value, w);
        VisitCount(rest, Visited(s.row), w);
        RunAllOne(VisitAll(rest), Visited(s.row), w, PAIR);
      } else {
        var x := os[0].value;
        var a, b := Visited(s.row[x := VNode(1)]), Visited(s.row[x := VNode(2)]);
        VisitFresh(s, x, w);
        VisitCount(rest, a, w);
        VisitCount(rest, b, w);
        assert a.row.Keys == b.row.Keys == s.row.Keys + {x};
        RunTwo(VisitAll(rest), a, b, w);
      }
    } else {
      RunNothing(s, w);
    }
  }

  lemma RunNothing(s: State, w: World)
    ensures Run([], s, w, PAIR) == [s]
  {
  }

  lemma StatementCount(q: Statement, w: World)
    requires BareStatement(q)
    ensures |RunStatement(q, w, PAIR)| == Rows(Aliases(q.matches), {})
  {
    MatchesVisit(q.matches);
    assert StatementSteps(q) == VisitAll(Aliases(q.matches));
    hide Run, VisitAll, Rows;
    VisitCount(Aliases(q.matches), START, w);
    assert START.row.Keys == {};
  }

  // ---------- Dropping aliases ----------

  function DropAll(os: seq<Option<string>>, used: set<string>): seq<Option<string>> {
    seq(|os|, k requires 0 <= k < |os| => Drop(os[k], used))
  }

  /** A dropped alias that is bound before, or twice in the list. */
  predicate Repeats(os: seq<Option<string>>, bound: set<string>, used: set<string>) {
    if os == [] then false
    else if os[0].None? then Repeats(os[1..], bound, used)
    else (os[0].value in bound && Drop(os[0], used).None?) || Repeats(os[1..], bound + {os[0].value}, used)
  }

  ghost predicate Kept(bound: set<string>, left: set<string>, used: set<string>) {
    left <= bound && forall x :: x in bound && x !in left ==> Drop(Some(x), used).None?
  }

  /** Dropping aliases never loses rows, and keeps their number exactly when none repeats. */
  lemma {:induction false} DropCount(os: seq<Option<string>>, bound: set<string>, left: set<string>, used: set<string>)
    requires Kept(bound, left, used) && forall x :: x in left ==> Drop(Some(x), used).Some?
    ensures Rows(DropAll(os, used), left) >= Rows(os, bound)
    ensures Rows(DropAll(os, used), left) == Rows(os, bound) <==> !Repeats(os, bound, used)
    decreases |os|
  {
    if os != [] {
      var rest := os[1..];
      assert DropAll(os, used)[1..] == DropAll(rest, used);
      if os[0].None? {
        DropCount(rest, bound, left, used);
      } else {
        var x := os[0].value;
        if Drop(os[0], used).None? {
          DropCount(rest, bound + {x}, left, used);
          if x in bound { assert bound + {x} == bound; }
        } else {
          DropCount(rest, bound + {x}, left + {x}, used);
          if x in bound { assert bound + {x} == bound && left + {x} == left; }
        }
      }
    }
  }

  function AliasNames(os: seq<Option<string>>): seq<string> {
    if os == [] then [] else (if os[0].Some? then [os[0].value] else []) + AliasNames(os[1..])
  }

  lemma {:induction false} VisitBinders(os: seq<Option<string>>)
    ensures Binders(VisitAll(os)) == AliasNames(os)
    decreases |os|
  {
    if os != [] {
      VisitBinders(os[1..]);
      BindersConcat(Visit(os[0]), VisitAll(os[1..]));
      var here := if os[0].Some? then [SHere(os[0].value)] else [];
      BindersConcat([SEnter] + here, [SLeave]);
      BindersConcat([SEnter], here);
    }
  }

  /** A name that the pass drops, met a second time at position `j`. */
  predicate DoubledAt(names: seq<string>, bound: set<string>, used: set<string>, j: nat) {
    j < |names| && Drop(Some(names[j]), used).None? && (names[j] in bound || names[j] in names[..j])
  }

  ghost predicate Doubled(names: seq<string>, bound: set<string>, used: set<string>) {
    exists j: nat :: DoubledAt(names, bound, used, j)
  }

  lemma {:induction false} RepeatsDoubled(os: seq<Option<string>>, bound: set<string>, used: set<string>)
    ensures Repeats(os, bound, used) <==> Doubled(AliasNames(os), bound, used)
    decreases |os|
  {
    if os != [] {
      var rest := AliasNames(os[1..]);
      if os[0].None? {
        assert AliasNames(os) == rest;
        RepeatsDoubled(os[1..], bound, used);
      } else {
        RepeatsDoubled(os[1..], bound + {os[0].value}, used);
        DoubledCons(os[0].value, rest, bound, used);
      }
    }
  }

  lemma DoubledCons(x: string, names: seq<string>, bound: set<string>, used: set<string>)
    ensures Doubled([x] + names, bound, used) <==>
      (x in bound && Drop(Some(x), used).None?) || Doubled(names, bound + {x}, used)
  {
    var all := [x] + names;
    assert DoubledAt(all, bound, used, 0) <==> x in bound && Drop(Some(x), used).None?;
    if Doubled(all, bound, used) {
      var j: nat :| DoubledAt(all, bound, used, j);
      if j > 0 { DoubledNext(x, names, bound, used, j - 1); }
    }
    if Doubled(names, bound + {x}, used) {
      var j: nat :| DoubledAt(names, bound + {x}, used, j);
      DoubledNext(x, names, bound, used, j);
    }
  }

  lemma DoubledNext(x: string, names: seq<string>, bound: set<string>, used: set<string>, j: nat)
    ensures DoubledAt([x] + names, bound, used, j + 1) <==> DoubledAt(names, bound + {x}, used, j)
  {
    if j < |names| { assert ([x] + names)[..j + 1] == [x] + names[..j]; }
  }

  // ---------- The exact condition ----------

  lemma {:induction false} AliasesBound(cs: seq<MatchCl>, x: string)
    requires forall c :: c in cs ==> BareNodeMatch(c)
    ensures x in AliasNames(Aliases(cs)) <==> exists c, p :: c in cs && p in c.paths && x in NodeAliases(p)
    decreases |cs|
  {
    if cs != [] {
      var here, rest := PathAliases(cs[0].paths), Aliases(cs[1..]);
      assert cs[0] in cs && cs == [cs[0]] + cs[1..];
      AliasesBound(cs[1..], x);
      NamesConcat(here, rest);
      PathAliasesBound(cs[0].paths, x);
      if p :| p in cs[0].paths && x in NodeAliases(p) { assert cs[0] in cs; }
    }
  }

  lemma {:induction false} NamesConcat(a: seq<Option<string>>, b: seq<Option<string>>)
    ensures AliasNames(a + b) == AliasNames(a) + AliasNames(b)
    decreases |a|
  {
    if a == [] {
      assert a + b == b;
    } else {
      assert (a + b)[1..] == a[1..] + b;
      NamesConcat(a[1..], b);
    }
  }

  lemma {:induction false} PathAliasesBound(ps: seq<PathPat>, x: string)
    requires forall p :: p in ps ==> p.Single?
    ensures x in AliasNames(PathAliases(ps)) <==> exists p :: p in ps && x in NodeAliases(p)
    decreases |ps|
  {
    if ps != [] {
      assert ps[0] in ps && ps == [ps[0]] + ps[1..];
      PathAliasesBound(ps[1..], x);
      assert PathAliases(ps)[1..] == PathAliases(ps[1..]);
    }
  }

  lemma BoundOnceDoubled(q: Statement, used: set<string>)
    requires BareStatement(q)
    ensures BoundOnce(q, used) <==> !Doubled(AliasNames(Aliases(q.matches)), {}, used)
  {
    var names := AliasNames(Aliases(q.matches));
    MatchesVisit(q.matches);
    VisitBinders(Aliases(q.matches));
    assert Binders(MatchesSteps(q.matches)) == names;
    forall c, p | c in q.matches && p in c.paths ensures EdgeAliases(p) !! Dropped(q, used) {
      assert BareNodeMatch(c);
    }
    forall i | 0 <= i < |names| ensures names[i] in Dropped(q, used) <==> Drop(Some(names[i]), used).None? {
      AliasesBound(q.matches, names[i]);
    }
    hide Dropped, Binders, MatchesSteps, EdgeAliases;
    OnceDoubled(names, Dropped(q, used), used);
  }

  lemma OnceDoubled(names: seq<string>, dropped: set<string>, used: set<string>)
    requires forall i :: 0 <= i < |names| ==> (names[i] in dropped <==> Drop(Some(names[i]), used).None?)
    ensures Once(names, dropped) <==> !Doubled(names, {}, used)
  {
    if !Once(names, dropped) {
      var i, j :| 0 <= i < j < |names| && names[i] in dropped && names[i] == names[j];
      assert names[..j][i] == names[j];
      assert DoubledAt(names, {}, used, j);
    }
    if Doubled(names, {}, used) {
      var j: nat :| DoubledAt(names, {}, used, j);
      var i :| 0 <= i < j && names[..j][i] == names[j];
      assert names[i] in dropped;
    }
  }

  lemma {:induction false} PrunedAliases(cs: seq<MatchCl>, used: set<string>)
    requires forall c :: c in cs ==> BareNodeMatch(c)
    ensures Aliases(PruneMatches(cs, used)) == DropAll(Aliases(cs), used)
    ensures forall c :: c in PruneMatches(cs, used) ==> BareNodeMatch(c)
    decreases |cs|
  {
    if cs != [] {
      assert cs[0] in cs;
      PrunedAliases(cs[1..], used);
      var after := PruneMatches(cs, used);
      assert after[1..] == PruneMatches(cs[1..], used) && after[0] == PruneMatch(cs[0], used);
      assert forall k :: 0 <= k < |cs[0].paths| ==> cs[0].paths[k] in cs[0].paths;
      assert PathAliases(after[0].paths) == DropAll(PathAliases(cs[0].paths), used);
      assert after == [after[0]] + after[1..];
    }
  }

  lemma PrunedCount(q: Statement, used: set<string>, w: World)
    requires BareStatement(q)
    ensures |RunStatement(PruneWith(q, used), w, PAIR)| == |RunStatement(q, w, PAIR)| <==> BoundOnce(q, used)
  {
    var p, os := PruneWith(q, used), Aliases(q.matches);
    PrunedAliases(q.matches, used);
    hide RunStatement, BoundOnce, Rows, Repeats, Doubled, Aliases, AliasNames;
    StatementCount(q, w);
    StatementCount(p, w);
    DropCount(os, {}, {}, used);
    RepeatsDoubled(os, {}, used);
    BoundOnceDoubled(q, used);
  }

  const PLAIN_WORLD: World :=
    World(p => Fail, l => Fail, (f, vs) => Fail, (a, b) => VNull, (op, a, b) => Fail, (v, p) => VNull,
          (c, q, row) => Fail, (p, row) => None)

  /**
   Dropping the unreferenced internal aliases of bare node patterns leaves the result alone in
   every world and on every graph if and only if each of them is bound once.
   */
  lemma PruneSameIff(q: Statement, used: set<string>)
    requires BareStatement(q) && UsedVars(q) <= used
    ensures (forall w: World, g: Graph :: RunStatement(PruneWith(q, used), w, g) == RunStatement(q, w, g)) <==>
      BoundOnce(q, used)
  {
    if BoundOnce(q, used) {
      hide RunStatement, BoundOnce, BlindStatement, UsedVars, PruneWith, BareStatement, Dropped;
      forall w: World, g: Graph ensures RunStatement(PruneWith(q, used), w, g) == RunStatement(q, w, g) {
        BareBlind(q, Dropped(q, used), w);
        PruneWithSame(q, used, w, g);
      }
    } else {
      hide RunStatement, BoundOnce, UsedVars, PruneWith;
      PrunedCount(q, used, PLAIN_WORLD);
      assert RunStatement(PruneWith(q, used), PLAIN_WORLD, PAIR) != RunStatement(q, PLAIN_WORLD, PAIR);
    }
  }

  lemma BareBlind(q: Statement, d: set<string>, w: World)
    requires BareStatement(q)
    ensures BlindStatement(q, d, w)
  {
    hide HeadExprs;
    forall c | c in q.matches ensures MatchExprs(c) == {} {
      assert BareNodeMatch(c) && forall p :: p in c.paths ==> PathExprs(p) == {};
    }
    forall e | e in SeenExprs(q) ensures BlindTo(e, d, w) { assert Unnested(Names(e)); }
  }

  // ---------- An alias bound twice ----------

  const TWICE: Statement :=
    var p := Single(NodePat(Some("_a"), None, []));
    Statement([], [MatchCl(false, [p, p], None)], [], [], Some(Projection(false, [], [], None, None, None)))

  /** The pass drops an alias that two patterns join on, and the statement then returns more rows. */
  lemma BoundTwiceFails(w: World)
    ensures BareStatement(TWICE) && UsedVars(TWICE) == {} && !BoundOnce(TWICE, {})
    ensures |RunStatement(TWICE, w, PAIR)| == 2 && |RunStatement(PruneWith(TWICE, {}), w, PAIR)| == 4
  {
    TwiceAliases();
    TwiceUses();
    var a, n: Option<string> := Some("_a"), None;
    assert [a, a][1..] == [a] && [n, n][1..] == [n] && DropAll([a, a], {}) == [n, n];
    assert Rows([a], {} + {"_a"}) == 1;
    assert Rows([n], {}) == 2 * Rows([n][1..], {}) == 2;
    assert Rows([a, a], {}) == 2;
    assert Rows([n, n], {}) == 2 * Rows([n, n][1..], {}) == 4;
    hide RunStatement, Rows, UsedVars;
    PrunedAliases(TWICE.matches, {});
    StatementCount(TWICE, w);
    StatementCount(PruneWith(TWICE, {}), w);
    PrunedCount(TWICE, {}, w);
  }

  lemma TwiceAliases()
    ensures BareStatement(TWICE) && Aliases(TWICE.matches) == [Some("_a"), Some("_a")]
  {
    assert TWICE.matches[1..] == [];
    assert Aliases(TWICE.matches) == PathAliases(TWICE.matches[0].paths) + [];
  }

  lemma TwiceUses()
    ensures UsedVars(TWICE) == {}
  {
    var p := Single(NodePat(Some("_a"), None, []));
    assert PathExprVars(p) == {};
    assert [p, p][1..] == [p];
    assert PathsExprVars([p]) == {};
    assert PathsExprVars([p, p]) == {};
    assert MatchesExprVars([MatchCl(false, [p, p], None)]) == {};
  }
}
