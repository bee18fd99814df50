/** Where preservation fails with subqueries: an unguarded CASE below EXISTS, and an alias read only there. */
module NestedLimits {
  import opened Common
  import opened Ast
  import opened Trees
  import opened Semantics
  import opened Clauses
  import opened Matching
  import opened Folding
  import opened Running
  import opened Pruning
  import opened PrunedStatement
  import opened PruneExact
  import opened PushdownClean
  import opened Composition
  import opened FoldingLimits
  import opened Nested
  import opened Sighting

  // ---------- One node and a filter ----------

  /** `MATCH (x) WHERE e`. */
  function Seek(o: Option<string>, e: Expr): MatchCl {
    MatchCl(false, [Single(NodePat(o, None, []))], Some(e))
  }

  /** `MATCH (x) WHERE EXISTS { q } RETURN`. */
  function Ask(o: Option<string>, q: Handle): Statement {
    Statement([], [Seek(o, ESub(false, q))], [], [], Some(Projection(false, [], [], None, None, None)))
  }

  /** Every node has every property, and it is true. */
  const GENEROUS: World := PLAIN_WORLD.(property := (v, p) => VBool(true))

  function Bound(row: Row, o: Option<string>, k: nat): Row {
    if o.None? then row else row[o.value := VNode(k)]
  }

  function Pick(e: Expr, row: Row, w: World): seq<State> {
    if Accepts(e, row, w) then [Visited(row)] else []
  }

  lemma SeekSteps(o: Option<string>, e: Expr)
    ensures MatchSteps(Seek(o, e)) == Visit(o) + [SPred(e)]
  {
    var p := Single(NodePat(o, None, []));
    assert [p][1..] == [];
    assert PathSteps(p) == Visit(o);
    assert PathsSteps([p]) == Visit(o) + [];
    assert Preds([e]) == [SPred(e)];
  }

  lemma VisitOnce(s: State, o: Option<string>, w: World)
    requires o.Some? ==> o.value !in s.row
    ensures Run(Visit(o), s, w, PAIR) == [Visited(Bound(s.row, o, 1)), Visited(Bound(s.row, o, 2))]
  {
    hide Run, Visit;
    if o.None? { VisitFree(s, w); } else { VisitFresh(s, o.value, w); }
  }

  lemma SeekRun(s: State, o: Option<string>, e: Expr, w: World)
    requires o.Some? ==> o.value !in s.row
    ensures Run(MatchSteps(Seek(o, e)), s, w, PAIR) == Pick(e, Bound(s.row, o, 1), w) + Pick(e, Bound(s.row, o, 2), w)
  {
    hide Run, RunAll, Visit, Accepts, MatchSteps, Seek;
    var a, b := Visited(Bound(s.row, o, 1)), Visited(Bound(s.row, o, 2));
    SeekSteps(o, e);
    VisitOnce(s, o, w);
    RunConcat(Visit(o), [SPred(e)], s, w, PAIR);
    StepTwo(SPred(e), a, b, w);
  }

  lemma {:induction false} MovesClean(steps: seq<Step>, s: State, w: World, g: Graph)
    requires forall k :: 0 <= k < |steps| ==> steps[k].SEnter? || steps[k].SHere? || steps[k].SLeave?
    ensures Clean(steps, s, w, g)
    decreases |steps|
  {
    if steps != [] {
      forall t | t in Advance(steps[0], s, w, g) ensures Clean(steps[1..], t, w, g) { MovesClean(steps[1..], t, w, g); }
    }
  }

  lemma SeekClean(s: State, o: Option<string>, e: Expr, w: World)
    requires o.Some? ==> o.value !in s.row
    requires Eval(e, Bound(s.row, o, 1), w).Val? && Eval(e, Bound(s.row, o, 2), w).Val?
    ensures Clean(MatchSteps(Seek(o, e)), s, w, PAIR)
  {
    hide Clean, Visit, MatchSteps, Seek, Run, Eval, Bound;
    var one, two := Visited(Bound(s.row, o, 1)), Visited(Bound(s.row, o, 2));
    SeekSteps(o, e);
    VisitOnce(s, o, w);
    VisitClean(o, s, w, PAIR);
    CleanOne(SPred(e), one, w, PAIR);
    CleanOne(SPred(e), two, w, PAIR);
    TwoClean(Visit(o), [SPred(e)], s, one, two, w, PAIR);
  }

  lemma VisitClean(o: Option<string>, s: State, w: World, g: Graph)
    ensures Clean(Visit(o), s, w, g)
  {
    hide Clean;
    MovesClean(Visit(o), s, w, g);
  }

  lemma TwoClean(a: seq<Step>, b: seq<Step>, s: State, one: State, two: State, w: World, g: Graph)
    requires Clean(a, s, w, g) && Run(a, s, w, g) == [one, two] && Clean(b, one, w, g) && Clean(b, two, w, g)
    ensures Clean(a + b, s, w, g)
  {
    hide Clean, Run;
    CleanConcat(a, b, s, w, g);
  }

  // ---------- EXISTS over one node and a filter ----------

  /** What EXISTS says of `MATCH (m) WHERE e`, when the filter has the same value on both nodes. */
  lemma SeekExists(st: Store, q: Handle, m: string, e: Expr, row: Row, o: Outcome, w: World)
    requires Wf(st) && QueryOf(st, q) == QMatch(Seek(Some(m), e)) && m !in row
    requires forall v: World, k :: 1 <= k <= 2 && v == w.(subquery := v.subquery, paths := v.paths) ==>
      Eval(e, Bound(row, Some(m), k), v) == o
    ensures o == TRUE ==> Deep(st, w, PAIR).subquery(false, q, row) == TRUE
    ensures o.Val? && o != TRUE ==> Deep(st, w, PAIR).subquery(false, q, row) == FALSE
    ensures o.Fail? ==> Deep(st, w, PAIR).subquery(false, q, row) != TRUE
  {
    var v, c := DeepBelow(st, w, PAIR, Rk(st, q)), Seek(Some(m), e);
    assert v == w.(subquery := v.subquery, paths := v.paths);
    assert Deep(st, w, PAIR).subquery(false, q, row) == Verdict(false, QueryAnswer(QMatch(c), row, v, PAIR));
    hide Run, Clean, MatchSteps, Eval, Seek, DeepBelow, QueryOf, Deep, SubValue, PathRows, Wf, Rk;
    var one, two := Bound(row, Some(m), 1), Bound(row, Some(m), 2);
    SeekRun(From(row), Some(m), e, v);
    assert Eval(e, one, v) == o && Eval(e, two, v) == o;
    var found := Run(MatchSteps(c), From(row), v, PAIR);
    if o == TRUE {
      assert found == [Visited(one), Visited(two)];
    } else {
      assert found == [];
    }
    assert QueryRows(QMatch(c), row, v, PAIR) == RowsOf(found);
    if o.Val? { SeekClean(From(row), Some(m), e, v); }
  }

  /** What the statement around it returns. */
  lemma AskRows(o: Option<string>, q: Handle, w: World, out: Outcome)
    requires forall k :: 1 <= k <= 2 ==> w.subquery(false, q, Bound(map[], o, k)) == out
    ensures |RunStatement(Ask(o, q), w, PAIR)| == if out == TRUE then 2 else 0
    ensures out.Val? ==> StatementClean(Ask(o, q), w, PAIR)
  {
    AskSteps(o, q);
    var s, e := Ask(o, q), ESub(false, q);
    hide Run, Clean, MatchSteps, Seek;
    SeekRun(START, o, e, w);
    assert Eval(e, Bound(map[], o, 1), w) == out && Eval(e, Bound(map[], o, 2), w) == out;
    if out.Val? { SeekClean(START, o, e, w); }
  }

  lemma AskSteps(o: Option<string>, q: Handle)
    ensures StatementSteps(Ask(o, q)) == MatchSteps(Seek(o, ESub(false, q)))
  {
    var c := Seek(o, ESub(false, q));
    hide MatchSteps, Seek;
    assert [c][1..] == [];
    assert MatchesSteps([c]) == MatchSteps(c) + [];
  }

  // ---------- An unguarded CASE below EXISTS ----------

  /** `CASE WHEN m.a THEN false WHEN true THEN true END`. */
  const RISKY: Expr :=
    ECase(None,
          [Branch(EProp(EIdent("m"), "a"), ELit(LBool(false))), Branch(ELit(LBool(true)), ELit(LBool(true)))],
          None)

  lemma RiskyFolds()
    ensures Fold(RISKY) == ELit(LBool(true)) && !Guarded(RISKY)
  {
    var b0, b1 := RISKY.branches[0], RISKY.branches[1];
    assert RISKY.branches == [b0, b1] && RISKY.branches[1..] == [b1];
    assert PruneBranches([b1]) == Pruned([], Some(ELit(LBool(true))));
    assert PruneBranches(RISKY.branches) == Pruned([b0], Some(ELit(LBool(true))));
  }

  lemma RiskyValue(row: Row, v: World)
    requires "m" in row && row["m"].VNode? && v.property == GENEROUS.property
    ensures Eval(RISKY, row, v) == FALSE
  {
    assert Eval(EIdent("m"), row, v) == Val(row["m"]);
    assert Eval(EProp(EIdent("m"), "a"), row, v) == TRUE;
  }

  /** The clause below EXISTS before and after it is folded in place, in any two arenas. */
  lemma CaseBelowExists(a: Store, b: Store, q: Handle)
    requires Wf(a) && QueryOf(a, q) == QMatch(Seek(Some("m"), RISKY))
    requires Wf(b) && QueryOf(b, q) == QMatch(FoldMatch(Seek(Some("m"), RISKY)))
    ensures var s := Ask(Some("n"), q);
      && StatementGuarded(s) && StatementClean(s, Deep(a, GENEROUS, PAIR), PAIR)
      && RunStatement(s, Deep(a, GENEROUS, PAIR), PAIR) == []
      && |RunStatement(s, Deep(b, GENEROUS, PAIR), PAIR)| == 2
  {
    var s := Ask(Some("n"), q);
    var wa, wb := Deep(a, GENEROUS, PAIR), Deep(b, GENEROUS, PAIR);
    RiskySeek();
    hide Deep, RunStatement, StatementClean, QueryOf, Eval, Fold, Seek, FoldMatch;
    forall k | 1 <= k <= 2
      ensures wa.subquery(false, q, Bound(map[], Some("n"), k)) == FALSE
        && wb.subquery(false, q, Bound(map[], Some("n"), k)) == TRUE
    {
      var row := Bound(map[], Some("n"), k);
      forall v: World, j | 1 <= j <= 2 && v == GENEROUS.(subquery := v.subquery, paths := v.paths)
        ensures Eval(RISKY, Bound(row, Some("m"), j), v) == FALSE
          && Eval(ELit(LBool(true)), Bound(row, Some("m"), j), v) == TRUE
      {
        RiskyValue(Bound(row, Some("m"), j), v);
        TrueValue(Bound(row, Some("m"), j), v);
      }
      SeekExists(a, q, "m", RISKY, row, FALSE, GENEROUS);
      SeekExists(b, q, "m", ELit(LBool(true)), row, TRUE, GENEROUS);
    }
    AskRows(Some("n"), q, wa, FALSE);
    AskRows(Some("n"), q, wb, TRUE);
    AskGuarded(Some("n"), q);
  }

  /**
   `MATCH (x) WHERE EXISTS { MATCH (m) WHERE ... } RETURN` in an arena, with the root last; the
   predicate below EXISTS is node `k`: 1 is `y.a`, 3 is true, 4 is a CASE over `y.a`.
   */
  function Sample(x: string, y: string, k: nat): Store {
    Store([Identifier(y), PropertyAccess(At(0), "a"), LiteralNode(LBool(false)), LiteralNode(LBool(true)),
           CaseExpression(None, [(At(1), At(2)), (At(3), At(3))], None), WhereClause(At(k)),
           NodePattern(Some("m"), None, []), MatchClause(false, [At(6)], Some(At(5))), ExistsSubquery(At(7)),
           WhereClause(At(8)), NodePattern(Some(x), None, []), MatchClause(false, [At(10)], Some(At(9))),
           ReturnClause(false, [], [], None, None),
           QueryStatement(Normal, None, [], [At(11)], [], [], [], Some(At(12)))],
          [0, 1, 2, 3, 4, 5, 6, 7, 8, 9, 10, 11, 12, 13])
  }

  predicate Inside(st: Store, y: string, k: nat) {
    && |st.nodes| == |st.rank| == 14
    && st.nodes[0] == Identifier(y) && st.nodes[1] == PropertyAccess(At(0), "a")
    && st.nodes[2] == LiteralNode(LBool(false)) && st.nodes[3] == LiteralNode(LBool(true))
    && st.nodes[4] == CaseExpression(None, [(At(1), At(2)), (At(3), At(3))], None) && st.nodes[5] == WhereClause(At(k))
    && st.nodes[6] == NodePattern(Some("m"), None, []) && st.nodes[7] == MatchClause(false, [At(6)], Some(At(5)))
  }

  predicate Around(st: Store, x: string) {
    && |st.nodes| == |st.rank| == 14 && st.nodes[8] == ExistsSubquery(At(7)) && st.nodes[9] == WhereClause(At(8))
    && st.nodes[10] == NodePattern(Some(x), None, []) && st.nodes[11] == MatchClause(false, [At(10)], Some(At(9)))
    && st.nodes[12] == ReturnClause(false, [], [], None, None)
    && st.nodes[13] == QueryStatement(Normal, None, [], [At(11)], [], [], [], Some(At(12)))
  }

  lemma SampleNodes(x: string, y: string, k: nat)
    ensures var st := Sample(x, y, k); Inside(st, y, k) && Around(st, x) && forall i :: 0 <= i < 14 ==> st.rank[i] == i
  {
  }

  lemma InsideLow(st: Store, y: string, k: nat, i: nat)
    requires Inside(st, y, k) && k < 5 && i < 8
    ensures forall c :: c in Handles(st.nodes[i]) ==> c.At? && c.index < i
  {
  }

  lemma AroundLow(st: Store, x: string, i: nat)
    requires Around(st, x) && 8 <= i < 14
    ensures forall c :: c in Handles(st.nodes[i]) ==> c.At? && c.index < i
  {
  }

  lemma SampleWf(x: string, y: string, k: nat)
    requires k < 5
    ensures Wf(Sample(x, y, k))
  {
    hide Sample, Inside, Around;
    var st := Sample(x, y, k);
    SampleNodes(x, y, k);
    SampleSize(st, y, k);
    forall i | 0 <= i < |st.nodes| ensures NodeLow(st, st.nodes[i], st.rank[i]) {
      if i < 8 { InsideLow(st, y, k, i); } else { AroundLow(st, x, i); }
    }
  }

  lemma SampleSize(st: Store, y: string, k: nat)
    requires Inside(st, y, k)
    ensures |st.nodes| == |st.rank| == 14
  {
  }

  lemma CaseHeld(st: Store, k: nat)
    requires Wf(st) && Inside(st, "m", k)
    ensures TreeOf(st, At(4)) == RISKY && TreeOf(st, At(3)) == ELit(LBool(true))
  {
    var n := st.nodes[4];
    hide Wf, Inside;
    LeavesHeld(st, "m", k);
    assert TreeOf(st, At(4)).branches == RISKY.branches;
  }

  lemma LeavesHeld(st: Store, y: string, k: nat)
    requires Wf(st) && Inside(st, y, k)
    ensures TreeOf(st, At(1)) == EProp(EIdent(y), "a")
    ensures TreeOf(st, At(2)) == ELit(LBool(false)) && TreeOf(st, At(3)) == ELit(LBool(true))
  {
    hide Wf;
    assert TreeOf(st, At(0)) == EIdent(y);
  }

  lemma SeekHeld(st: Store, h: Handle, p: Handle, f: Handle, x: string)
    requires Wf(st) && NodeAt(st, h) == MatchClause(false, [p], Some(f))
      && NodeAt(st, p) == NodePattern(Some(x), None, [])
    requires NodeAt(st, f).WhereClause?
    ensures MatchOf(st, h) == Seek(Some(x), TreeOf(st, NodeAt(st, f).rootPredicate))
  {
    hide Wf, TreeOf;
    assert TreesOf(st, []) == [];
    assert PathsOf(st, [p]) == [Single(NodePat(Some(x), None, []))];
  }

  /** The arena holds the statement and the clause below EXISTS. */
  lemma SampleHolds(x: string, y: string, k: nat)
    requires k < 5
    ensures var st := Sample(x, y, k);
      Wf(st) && StatementOf(st, At(13)) == Ask(Some(x), At(7))
        && QueryOf(st, At(7)) == QMatch(Seek(Some("m"), TreeOf(st, At(k))))
  {
    hide Sample, Wf, Seek, Inside, Around, TreeOf;
    var st := Sample(x, y, k);
    SampleWf(x, y, k);
    SampleNodes(x, y, k);
    ClauseHeld(st, y, k);
    StatementHeld(st, x);
  }

  lemma ClauseHeld(st: Store, y: string, k: nat)
    requires Wf(st) && Inside(st, y, k)
    ensures QueryOf(st, At(7)) == QMatch(Seek(Some("m"), TreeOf(st, At(k))))
  {
    hide Wf, TreeOf;
    SeekHeld(st, At(7), At(6), At(5), "m");
  }

  lemma StatementHeld(st: Store, x: string)
    requires Wf(st) && Around(st, x)
    ensures StatementOf(st, At(13)) == Ask(Some(x), At(7))
  {
    hide Wf, Seek;
    SeekHeld(st, At(11), At(10), At(9), x);
    assert TreeOf(st, At(8)) == ESub(false, At(7));
    assert MatchesOf(st, [At(11)]) == [Seek(Some(x), ESub(false, At(7)))];
    assert ItemsOf(st, []) == [] && KeysOf(st, []) == [];
  }

  /** With the CASE as it was, and as folding leaves it. */
  lemma CaseSample(k: nat)
    requires k < 5
    ensures Wf(Sample("n", "m", k))
    ensures k == 4 ==> QueryOf(Sample("n", "m", k), At(7)) == QMatch(Seek(Some("m"), RISKY))
    ensures k == 3 ==> QueryOf(Sample("n", "m", k), At(7)) == QMatch(FoldMatch(Seek(Some("m"), RISKY)))
  {
    hide Sample, Wf, Seek, Inside, Around, TreeOf, QueryOf, FoldMatch;
    SampleHolds("n", "m", k);
    SampleNodes("n", "m", k);
    CaseHeld(Sample("n", "m", k), k);
    RiskySeek();
  }

  lemma RiskySeek()
    ensures FoldMatch(Seek(Some("m"), RISKY)) == Seek(Some("m"), ELit(LBool(true)))
  {
    RiskyFolds();
  }

  /**
   `MATCH (n) WHERE EXISTS { MATCH (m) WHERE CASE WHEN m.a THEN false WHEN true THEN true END } RETURN`:
   once the clause below EXISTS is folded, no rows become all rows, although the
   expressions of the statement itself are guarded and none of them fails.
   */
  lemma NestedCaseFails()
    ensures var a, b, s := Sample("n", "m", 4), Sample("n", "m", 3), Ask(Some("n"), At(7));
      && Wf(a) && Wf(b) && StatementOf(a, At(13)) == s && StatementOf(b, At(13)) == FoldStatement(s) == s
      && QueryOf(a, At(7)) == QMatch(Seek(Some("m"), RISKY))
      && QueryOf(b, At(7)) == QMatch(FoldMatch(Seek(Some("m"), RISKY)))
      && StatementGuarded(s) && StatementClean(s, Deep(a, GENEROUS, PAIR), PAIR)
      && RunStatement(s, Deep(a, GENEROUS, PAIR), PAIR) == [] && |RunStatement(s, Deep(b, GENEROUS, PAIR), PAIR)| == 2
  {
    hide Sample, Wf, Seek, QueryOf, StatementOf, Deep, RunStatement, StatementClean, StatementGuarded, FoldStatement,
      FoldMatch;
    AskFolds(Some("n"), At(7));
    SampleHolds("n", "m", 4);
    SampleHolds("n", "m", 3);
    CaseSample(4);
    CaseSample(3);
    CaseBelowExists(Sample("n", "m", 4), Sample("n", "m", 3), At(7));
  }

  lemma AskFolds(o: Option<string>, q: Handle)
    ensures FoldStatement(Ask(o, q)) == Ask(o, q)
  {
    var c, p := Seek(o, ESub(false, q)), Single(NodePat(o, None, []));
    assert FoldAll([]) == [];
    assert FoldPath(p) == p;
    assert FoldMatch(c).paths == [p];
    assert FoldOpt(c.filter) == Some(Fold(ESub(false, q))) == c.filter;
    assert FoldMatch(c) == c;
    var r := Ask(o, q).result.value;
    assert FoldProjection(r).items == r.items && FoldProjection(r).order == r.order;
    assert FoldStatement(Ask(o, q)).matches == [c];
  }

  lemma TrueValue(row: Row, v: World)
    ensures Eval(ELit(LBool(true)), row, v) == TRUE
  {
  }

  lemma AskGuarded(o: Option<string>, q: Handle)
    ensures StatementGuarded(Ask(o, q))
  {
    var s := Ask(o, q);
    assert MatchExprs(s.matches[0]) == {ESub(false, q)} by {
      assert PathExprs(s.matches[0].paths[0]) == {};
    }
    assert StatementExprs(s) == {ESub(false, q)};
  }

  // ---------- An alias read only below EXISTS ----------

  /** On the generous world the clause accepts every node while the alias is bound, and fails without it. */
  lemma AliasBelowExists(st: Store, q: Handle, x: string, m: string, p: string)
    requires Wf(st) && QueryOf(st, q) == QMatch(Seek(Some(m), EProp(EIdent(x), p))) && m != x
    ensures var w := Deep(st, GENEROUS, PAIR);
      |RunStatement(Ask(Some(x), q), w, PAIR)| == 2 && RunStatement(Ask(None, q), w, PAIR) == []
  {
    var e, w := EProp(EIdent(x), p), Deep(st, GENEROUS, PAIR);
    hide Deep, RunStatement, StatementClean, QueryOf, Eval, Seek;
    forall k | 1 <= k <= 2 ensures w.subquery(false, q, Bound(map[], Some(x), k)) == TRUE {
      var row := Bound(map[], Some(x), k);
      forall v: World, j | 1 <= j <= 2 && v == GENEROUS.(subquery := v.subquery, paths := v.paths)
        ensures Eval(e, Bound(row, Some(m), j), v) == TRUE
      {
        AliasValue(x, p, Bound(row, Some(m), j), v);
      }
      SeekExists(st, q, m, e, row, TRUE, GENEROUS);
    }
    forall v: World, j | 1 <= j <= 2 && v == GENEROUS.(subquery := v.subquery, paths := v.paths)
      ensures Eval(e, Bound(map[], Some(m), j), v) == Fail
    {
      AliasValue(x, p, Bound(map[], Some(m), j), v);
    }
    SeekExists(st, q, m, e, map[], Fail, GENEROUS);
    AskRows(Some(x), q, w, TRUE);
    AskRows(None, q, w, w.subquery(false, q, map[]));
  }

  lemma AliasValue(x: string, p: string, row: Row, v: World)
    requires v.property == GENEROUS.property && (x in row ==> row[x].VNode?)
    ensures Eval(EProp(EIdent(x), p), row, v) == if x in row then TRUE else Fail
  {
    assert Eval(EIdent(x), row, v) == if x in row then Val(row[x]) else Fail;
  }

  /**
   `MATCH (_a) WHERE EXISTS { MATCH (m) WHERE _a.a } RETURN`. The collectors do not look
   below EXISTS, so pruning drops the alias, and all rows become no rows.
   */
  lemma NestedAliasFails()
    ensures var st, s := Sample("_a", "_a", 1), Ask(Some("_a"), At(7));
      && Wf(st) && StatementOf(st, At(13)) == s
      && QueryOf(st, At(7)) == QMatch(Seek(Some("m"), EProp(EIdent("_a"), "a")))
      && UsedVars(s) == {} && BoundOnce(s, {})
      && |RunStatement(s, Deep(st, GENEROUS, PAIR), PAIR)| == 2
      && RunStatement(PruneWith(s, {}), Deep(st, GENEROUS, PAIR), PAIR) == []
  {
    hide Sample, Inside, Around, Wf, StatementOf, QueryOf, Deep, RunStatement, UsedVars, BoundOnce, PruneWith, Seek,
      TreeOf;
    SampleHolds("_a", "_a", 1);
    SampleNodes("_a", "_a", 1);
    LeavesHeld(Sample("_a", "_a", 1), "_a", 1);
    AskPruned("_a", At(7));
    AliasBelowExists(Sample("_a", "_a", 1), At(7), "_a", "m", "a");
  }

  lemma AskPruned(x: string, q: Handle)
    ensures var s := Ask(Some(x), q);
      && UsedVars(s) == {} && BoundOnce(s, {}) && PruneWith(s, {}) == Ask(Drop(Some(x), {}), q)
      && Dropped(s, {}) == if Internal(x) then {x} else {}
  {
    var s, c := Ask(Some(x), q), Seek(Some(x), ESub(false, q));
    AskUses(x, q);
    AskBinders(x, q);
    AskDrops(x, q);
    hide UsedVars, Binders, MatchesSteps, Dropped;
    var one, left := Single(NodePat(Some(x), None, [])), Single(NodePat(Drop(Some(x), {}), None, []));
    assert PrunePath(one, {}) == left;
    assert PruneMatch(c, {}).paths == [left];
    assert PruneMatches([c], {}) == [Seek(Drop(Some(x), {}), ESub(false, q))];
    assert EdgeAliases(c.paths[0]) == {};
  }

  lemma AskDrops(x: string, q: Handle)
    ensures Dropped(Ask(Some(x), q), {}) == if Internal(x) then {x} else {}
  {
    var c := Seek(Some(x), ESub(false, q));
    assert c in Ask(Some(x), q).matches && c.paths[0] in c.paths && NodeAliases(c.paths[0]) == {x};
  }

  lemma AskUses(x: string, q: Handle)
    ensures UsedVars(Ask(Some(x), q)) == {}
  {
    var c, p := Seek(Some(x), ESub(false, q)), Single(NodePat(Some(x), None, []));
    assert [p][1..] == [] && [c][1..] == [];
    assert PathExprVars(p) == {};
    assert PathsExprVars([p]) == {};
    assert OptVars(c.filter) == ExprVars(ESub(false, q)) == {};
    assert MatchesExprVars([c]) == {};
  }

  lemma AskBinders(x: string, q: Handle)
    ensures Binders(MatchesSteps(Ask(Some(x), q).matches)) == [x]
  {
    var c, o, e := Seek(Some(x), ESub(false, q)), Some(x), ESub(false, q);
    SeekSteps(o, e);
    assert [c][1..] == [];
    assert MatchesSteps([c]) == (Visit(o) + [SPred(e)]) + [] == Visit(o) + [SPred(e)];
    hide MatchSteps, MatchesSteps;
    assert VisitAll([o]) == Visit(o) + VisitAll([o][1..]) == Visit(o);
    assert AliasNames([o]) == [x] + AliasNames([o][1..]) == [x];
    VisitBinders([o]);
    PredsBindNothing([SPred(e)]);
    BindersConcat(Visit(o), [SPred(e)]);
    assert Ask(o, q).matches == [c];
  }

  lemma AskSeen(x: string, q: Handle)
    ensures SeenExprs(Ask(Some(x), q)) == {ESub(false, q)}
  {
    var s := Ask(Some(x), q);
    assert MatchExprs(s.matches[0]) == {ESub(false, q)} by {
      assert PathExprs(s.matches[0].paths[0]) == {};
    }
  }

  /** `MATCH (m) WHERE y.p` sees `m` and `y` and nothing else. */
  lemma SeekUnseen(x: string, y: string, m: string, p: string, w: World)
    requires x != y && x != m
    ensures QueryUnseen(QMatch(Seek(Some(m), EProp(EIdent(y), p))), {x}, w)
  {
    var e := EProp(EIdent(y), p);
    var c := Seek(Some(m), e);
    assert c.paths[1..] == [] && PathsVars(c.paths) == {m};
    assert MatchExprs(c) == {e} by {
      assert PathExprs(c.paths[0]) == {};
    }
    assert Names(e) == {Variable(y)};
  }

  lemma AskSame(st: Store, q: Handle, x: string, y: string, m: string, p: string, w: World, g: Graph)
    requires Wf(st) && QueryOf(st, q) == QMatch(Seek(Some(m), EProp(EIdent(y), p))) && m != x
      && !(Internal(x) && y == x)
    ensures RunStatement(PruneWith(Ask(Some(x), q), {}), Deep(st, w, g), g)
      == RunStatement(Ask(Some(x), q), Deep(st, w, g), g)
  {
    hide Deep, RunStatement, UsedVars, BoundOnce, PruneWith, QueryOf, Seek, SeenExprs, Dropped, Blinded, Wf,
      QueryUnseen, DeepBelow;
    AskPruned(x, q);
    if Internal(x) {
      AskSeen(x, q);
      SeekUnseen(x, y, m, p, DeepBelow(st, w, g, Rk(st, q)));
      AnswerBlind(st, q, {x}, w, g);
      assert Names(ESub(false, q)) == {Nested(q)};
      DeepBlind(st, {x}, w, g, {Nested(q)});
      PruneWithSame(Ask(Some(x), q), {}, Deep(st, w, g), g);
    }
  }

  /**
   `MATCH (x) WHERE EXISTS { MATCH (m) WHERE y.p } RETURN`, in any arena: pruning keeps the rows
   in every world and on every graph if and only if the alias is not internal, or not read below EXISTS.
   */
  lemma NestedAliasIff(st: Store, q: Handle, x: string, y: string, m: string, p: string)
    requires Wf(st) && QueryOf(st, q) == QMatch(Seek(Some(m), EProp(EIdent(y), p))) && m != x
    ensures (forall w: World, g: Graph ::
               RunStatement(PruneWith(Ask(Some(x), q), {}), Deep(st, w, g), g)
               == RunStatement(Ask(Some(x), q), Deep(st, w, g), g))
            <==> !(Internal(x) && y == x)
  {
    hide Deep, RunStatement, PruneWith, QueryOf, Seek, Wf, BoundOnce, UsedVars, Dropped;
    if Internal(x) && y == x {
      AskPruned(x, q);
      AliasBelowExists(st, q, x, m, p);
      assert RunStatement(PruneWith(Ask(Some(x), q), {}), Deep(st, GENEROUS, PAIR), PAIR)
        != RunStatement(Ask(Some(x), q), Deep(st, GENEROUS, PAIR), PAIR);
    } else {
      forall w: World, g: Graph
        ensures RunStatement(PruneWith(Ask(Some(x), q), {}), Deep(st, w, g), g)
          == RunStatement(Ask(Some(x), q), Deep(st, w, g), g)
      {
        AskSame(st, q, x, y, m, p, w, g);
      }
    }
  }
}
