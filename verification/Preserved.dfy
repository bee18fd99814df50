/** What a run of the optimizer does to the meaning of a statement, subqueries included. */
module Preserved {
  import opened Ast
  import opened Trees
  import opened Semantics
  import opened Clauses
  import opened Matching
  import opened Folding
  import opened FoldingLimits
  import opened Refining
  import opened Running
  import opened FoldArena
  import opened Visiting
  import opened FoldPass
  import opened Renewing
  import opened Preparation
  import opened Pruning
  import opened PrunedStatement
  import opened Pushdown
  import opened PushdownClean
  import opened Composition
  import opened Optimizer
  import opened Nested
  import opened Sighting

  // ---------- The statement as a whole ----------

  lemma {:induction false} VisitedTimes(st: Store, vs: seq<Handle>, s: Handle)
    requires Wf(st) && s in vs
    ensures SlotsTimes(st, vs, s) > 0
    decreases |vs|
  {
    if vs[0] != s { VisitedTimes(st, vs[1..], s); }
  }

  /** A subquery of the statement lies in the zone, below the root. */
  lemma NameInside(a: Store, z: Zone, root: Handle, s: Handle, n: Name)
    requires Prepared(a, z, root) && s in ReadVisits(a, root) && n in NamesAll(Exprs(a, s)) && (n.Nested? || n.Along?)
    ensures Known(a, Inner(n)) && InZone(z, Inner(n)) && Rk(a, Inner(n)) < Rk(a, root)
  {
    ReadVisited(a, root);
    SubVisitsBelow(a, root);
    NestedInSlot(a, s, n);
  }

  lemma ExprGuarded(a: Store, z: Zone, root: Handle, e: Expr)
    requires Prepared(a, z, root) && DeepGuarded(a, RunVisits(a, root), root) && InSlots(a, ReadVisits(a, root), e)
    ensures Guarded(e)
  {
    var s :| s in ReadVisits(a, root) && e in Exprs(a, s);
    GuardedHere(a, RunVisits(a, root), root, s);
    ReadVisited(a, root);
    VisitedTimes(a, RunVisits(a, root), s);
    assert Guarded(FoldBy(0, e));
  }

  lemma ExprGains(a: Store, b: Store, z: Zone, root: Handle, e: Expr, w: World, g: Graph)
    requires Prepared(a, z, root) && Renews(a, b, z, RunVisits(a, root)) && Wf(b)
    requires DeepGuarded(a, RunVisits(a, root), root) && InSlots(a, ReadVisits(a, root), e)
    ensures WorldRefines(Deep(a, w, g), Deep(b, w, g), Names(Fold(e)))
  {
    var s :| s in ReadVisits(a, root) && e in Exprs(a, s);
    var i :| 0 <= i < |Exprs(a, s)| && Exprs(a, s)[i] == e;
    NamesMember(Exprs(a, s), i);
    FoldNames(e);
    hide Prepared, Renews, DeepGuarded, ReadVisits, RunVisits, Names, NamesAll, Exprs, SubValue, PathRows, Gained, Wf;
    forall n | n in Names(Fold(e)) && (n.Nested? || n.Along?) ensures Gained(a, b, Inner(n), w, g) {
      NameInside(a, z, root, s, n);
      GuardedBelow(a, RunVisits(a, root), root, s, n);
      SubqueryGains(a, b, z, RunVisits(a, root), Inner(n), w, g);
    }
    GainedRefines(a, b, w, g, Names(Fold(e)));
  }

  lemma GainedRefines(a: Store, b: Store, w: World, g: Graph, names: set<Name>)
    requires Wf(a) && Wf(b)
    requires forall n :: n in names && (n.Nested? || n.Along?) ==> Gained(a, b, Inner(n), w, g)
    ensures WorldRefines(Deep(a, w, g), Deep(b, w, g), names)
  {
    hide SubValue, PathRows;
    forall r | Nested(r) in names ensures Gained(a, b, r, w, g) { assert Inner(Nested(r)) == r; }
    forall p | Along(p) in names ensures Gained(a, b, p, w, g) { assert Inner(Along(p)) == p; }
  }

  /** No subquery of the statement, at any depth, reads or binds a variable in `d`. */
  ghost predicate Overlooked(st: Store, root: Handle, d: set<string>)
    requires Wf(st)
  {
    forall n :: Below(st, root, n) ==> Overlooks(st, Inner(n), d)
  }

  /** What the subqueries overlooked before the run, they overlook after it. */
  lemma ExprBlind(a: Store, b: Store, z: Zone, root: Handle, e: Expr, d: set<string>, w: World, g: Graph)
    requires Prepared(a, z, root) && Renews(a, b, z, RunVisits(a, root)) && Wf(b) && Shaped(b)
    requires DeepGuarded(a, RunVisits(a, root), root) && Overlooked(a, root, d) && InSlots(a, ReadVisits(a, root), e)
    ensures BlindTo(e, d, Deep(b, w, g))
  {
    var s :| s in ReadVisits(a, root) && e in Exprs(a, s);
    var i :| 0 <= i < |Exprs(a, s)| && Exprs(a, s)[i] == e;
    NamesMember(Exprs(a, s), i);
    RenewsStart(a, b, z, RunVisits(a, root));
    hide Prepared, Renews, DeepGuarded, ReadVisits, RunVisits, Names, NamesAll, Exprs, Wf, Shaped, Blinded, Keeps,
      Start;
    forall n | n in Names(e) && (n.Nested? || n.Along?) ensures Blinded(b, Inner(n), d, w, g) {
      NameInside(a, z, root, s, n);
      GuardedBelow(a, RunVisits(a, root), root, s, n);
      assert Below(a, root, n);
      forall x | x in d ensures !Sees(b, Inner(n), x) {
        if Sees(b, Inner(n), x) { SeesEarlier(a, b, z, RunVisits(a, root), Inner(n), x, w, g); }
      }
      SubqueryBlind(b, Inner(n), d, w, g);
    }
    DeepBlind(b, d, w, g, Names(e));
  }

  /**
   The optimized statement returns what the statement returned, subqueries included: the
   statement had no evaluation error, and every CASE that is read was guarded each time it
   was folded; at the aggressive level, no alias that is dropped is a join, or is read or
   bound below a subquery or pattern comprehension. It has no evaluation error either, if
   every hoisted equality compares with a constant that has a value.
   */
  lemma OptimizePreserves(a: Store, b: Store, z: Zone, root: Handle, level: Level, used: set<string>,
                          w: World, g: Graph)
    requires Prepared(a, z, root) && Wf(b) && Shaped(b) && OptimizedRoot(a, b, root, level, used)
    requires if level.NoOptimization? then b == a else
      Renews(a, b, z, RunVisits(a, root)) && DeepGuarded(a, RunVisits(a, root), root)
    requires StatementClean(StatementOf(a, root), Deep(a, w, g), g)
    requires level.Aggressive? ==>
      BoundOnce(StatementOf(a, root), used) && Overlooked(a, root, Dropped(StatementOf(a, root), used))
    ensures RunStatement(StatementOf(b, root), Deep(b, w, g), g) == RunStatement(StatementOf(a, root), Deep(a, w, g), g)
    ensures level.NoOptimization? || HoistsSteady([], FoldStatement(StatementOf(a, root)).matches, w) ==>
      StatementClean(StatementOf(b, root), Deep(b, w, g), g)
  {
    hide Wf, Renews, DeepGuarded, RunVisits, ReadVisits, StatementOf, StatementExprs, SeenExprs, Deep, RunStatement,
      StatementClean, BoundOnce, Guarded, WorldRefines, UsedVars, FoldStatement, PushStatementOf, PruneWith, Shaped,
      Overlooked, BlindTo, HoistsSteady;
    PreparedWf(a, z, root);
    if !level.NoOptimization? {
      var q := StatementOf(a, root);
      var d := Dropped(q, used);
      StatementListed(a, root);
      SeenAmong(q);
      forall e | e in StatementExprs(q)
        ensures Guarded(e) && WorldRefines(Deep(a, w, g), Deep(b, w, g), Names(Fold(e)))
        ensures level.Aggressive? ==> BlindTo(e, d, Deep(b, w, g))
      {
        ExprGuarded(a, z, root, e);
        ExprGains(a, b, z, root, e, w, g);
        if level.Aggressive? { ExprBlind(a, b, z, root, e, d, w, g); }
      }
      OptimizedSame(level, q, used, Deep(a, w, g), Deep(b, w, g), g);
      if HoistsSteady([], FoldStatement(q).matches, w) { SteadyDeep(b, FoldStatement(q).matches, w, g); }
    }
  }

  /** Constants mention no subquery. */
  lemma SteadyDeep(st: Store, cs: seq<MatchCl>, w: World, g: Graph)
    requires Wf(st) && HoistsSteady([], cs, w)
    ensures HoistsSteady([], cs, Deep(st, w, g))
  {
    var v := Deep(st, w, g);
    assert v == w.(subquery := v.subquery, paths := v.paths);
    hide Wf, Deep, Hoistable, Eval;
    forall k | 0 <= k < |cs| ensures ClauseSteady([] + cs[..k], cs[k], v) {
      assert ClauseSteady([] + cs[..k], cs[k], w);
      forall p | cs[k].filter.Some? && p in Conjuncts(cs[k].filter.value) && Steady(p, w) ensures Steady(p, v) {
        if HoistVar(p).Some? { ConstantElsewhere(ConstantSide(p), map[], w, v); }
      }
    }
  }
}
