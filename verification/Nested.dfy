/**
 Subqueries mean what they hold: EXISTS and COUNT run the statement, clause or path below
 them from the row they are evaluated on, and a pattern comprehension runs its path.
 Folding them in place can then only gain values.
 */
module Nested {
  import opened Common
  import opened Ast
  import opened Trees
  import opened Semantics
  import opened Clauses
  import opened Matching
  import opened FoldingLimits
  import opened Refining
  import opened Running
  import opened FoldArena
  import opened Visiting
  import opened FoldPass
  import opened FoldedStatement
  import opened Renewing

  // ---------- What a subquery yields ----------

  datatype Query = QStatement(statement: Statement) | QMatch(clause: MatchCl) | QPath(path: PathPat) | QOther

  ghost function QueryOf(st: Store, q: Handle): Query
    requires Wf(st)
  {
    var n := NodeAt(st, q);
    if n.QueryStatement? then QStatement(StatementOf(st, q))
    else if n.MatchClause? then QMatch(MatchOf(st, q))
    else if n.PathChain? || n.NodePattern? then QPath(PathOf(st, q))
    else QOther
  }

  function From(row: Row): State {
    State(row, VNull, [])
  }

  function QueryRows(q: Query, row: Row, w: World, g: Graph): seq<Row> {
    match q
    case QStatement(s) => Answers(s, From(row), w, g)
    case QMatch(c) => RowsOf(Run(MatchSteps(c), From(row), w, g))
    case QPath(p) => RowsOf(Run(PathSteps(p), From(row), w, g))
    case QOther => []
  }

  ghost predicate QueryClean(q: Query, row: Row, w: World, g: Graph) {
    match q
    case QStatement(s) => AnswersClean(s, From(row), w, g)
    case QMatch(c) => Clean(MatchSteps(c), From(row), w, g)
    case QPath(p) => Clean(PathSteps(p), From(row), w, g)
    case QOther => true
  }

  ghost predicate QueryImproves(p: Query, q: Query, w: World, v: World) {
    match p
    case QStatement(s) => q.QStatement? && StatementImproves(s, q.statement, w, v)
    case QMatch(c) => q.QMatch? && MatchImproves(c, q.clause, w, v)
    case QPath(x) => q.QPath? && PathImproves(x, q.path, w, v)
    case QOther => q.QOther?
  }

  lemma QueryImproved(p: Query, q: Query, row: Row, w: World, v: World, g: Graph)
    requires QueryClean(p, row, w, g) && QueryImproves(p, q, w, v)
    ensures QueryRows(q, row, v, g) == QueryRows(p, row, w, g) && QueryClean(q, row, v, g)
  {
    hide Answers, AnswersClean, Run, Clean, StatementImproves, MatchSteps, PathSteps, MatchImproves, PathImproves,
      StepsImprove;
    match p
    case QStatement(s) => AnswersImproved(s, q.statement, From(row), w, v, g);
    case QMatch(c) =>
      MatchStepsImprove(c, q.clause, w, v);
      RunImproved(MatchSteps(c), MatchSteps(q.clause), From(row), w, v, g);
    case QPath(x) =>
      PathStepsImprove(x, q.path, w, v);
      RunImproved(PathSteps(x), PathSteps(q.path), From(row), w, v, g);
    case QOther =>
  }

  /** An error inside a subquery is an error of the subquery. */
  ghost function QueryAnswer(q: Query, row: Row, w: World, g: Graph): Option<seq<Row>> {
    if QueryClean(q, row, w, g) then Some(QueryRows(q, row, w, g)) else None
  }

  function Verdict(counting: bool, rows: Option<seq<Row>>): Outcome {
    if rows.None? then Fail else if counting then Val(VInt(|rows.value|)) else Val(VBool(rows.value != []))
  }

  ghost function SubValue(st: Store, counting: bool, q: Handle, row: Row, w: World, g: Graph): Outcome
    requires Wf(st)
    decreases Rk(st, q), 1
  {
    if QueryOf(st, q).QOther? then w.subquery(counting, q, row)
    else Verdict(counting, QueryAnswer(QueryOf(st, q), row, DeepBelow(st, w, g, Rk(st, q)), g))
  }

  ghost function PathRows(st: Store, p: Handle, row: Row, w: World, g: Graph): Option<seq<Row>>
    requires Wf(st)
    decreases Rk(st, p), 1
  {
    if QueryOf(st, p).QOther? then w.paths(p, row)
    else QueryAnswer(QueryOf(st, p), row, DeepBelow(st, w, g, Rk(st, p)), g)
  }

  /** The world in which subqueries below a rank mean what they hold. */
  ghost function DeepBelow(st: Store, w: World, g: Graph, limit: nat): World
    requires Wf(st)
    decreases limit, 0
  {
    w.(subquery := (c, q, row) => if Rk(st, q) < limit then SubValue(st, c, q, row, w, g) else Fail,
       paths := (p, row) => if Rk(st, p) < limit then PathRows(st, p, row, w, g) else None)
  }

  /** The world in which every subquery of the arena means what it holds. */
  ghost function Deep(st: Store, w: World, g: Graph): World
    requires Wf(st)
  {
    w.(subquery := (c, q, row) => SubValue(st, c, q, row, w, g), paths := (p, row) => PathRows(st, p, row, w, g))
  }

  // ---------- From better slots to better queries ----------

  ghost predicate SlotImproves(a: Store, b: Store, s: Handle, w: World, v: World)
    requires Wf(a) && Wf(b)
  {
    Skeleton(NodeAt(b, s)) == Skeleton(NodeAt(a, s)) && AllImprove(Exprs(a, s), Exprs(b, s), w, v)
  }

  ghost predicate SlotsImprove(a: Store, b: Store, vs: seq<Handle>, w: World, v: World)
    requires Wf(a) && Wf(b)
  {
    forall s :: s in vs ==> SlotImproves(a, b, s, w, v)
  }

  lemma NodeLift(a: Store, b: Store, h: Handle, w: World, v: World)
    requires Wf(a) && Wf(b) && SlotImproves(a, b, h, w, v)
    ensures NodeImproves(NodeOf(a, h), NodeOf(b, h), w, v)
  {
    hide Improves;
    SkeletonKind(NodeAt(a, h), NodeAt(b, h));
  }

  lemma EdgeLift(a: Store, b: Store, e: Handle, w: World, v: World)
    requires Wf(a) && Wf(b) && SlotImproves(a, b, e, w, v) && SlotImproves(a, b, Target(a, e), w, v)
    ensures EdgeImproves(EdgeOf(a, e), EdgeOf(b, e), w, v)
  {
    hide Improves, NodeImproves, NodeOf;
    SkeletonKind(NodeAt(a, e), NodeAt(b, e));
    SkeletonTarget(NodeAt(a, e), NodeAt(b, e));
    NodeLift(a, b, Target(a, e), w, v);
    if !NodeAt(a, e).EdgePattern? { EmptyNode(w, v); }
  }

  lemma EmptyNode(w: World, v: World)
    ensures NodeImproves(NodePat(None, None, []), NodePat(None, None, []), w, v)
  {
  }

  lemma PathLift(a: Store, b: Store, z: Zone, h: Handle, w: World, v: World)
    requires Keeps(a, b, z) && InZone(z, h) && Known(a, h) && SlotsImprove(a, b, Visits(a, Paths, h), w, v)
    ensures PathImproves(PathOf(a, h), PathOf(b, h), w, v)
  {
    assert KeptAt(a, b, h);
    var n := NodeAt(a, h);
    SkeletonLists(n, NodeAt(b, h));
    SkeletonKind(n, NodeAt(b, h));
    hide Keeps, NodeOf, EdgeOf, NodeImproves, EdgeImproves, SlotImproves;
    if n.PathChain? {
      assert n.startNode in Visits(a, Paths, h);
      NodeLift(a, b, n.startNode, w, v);
      forall k | 0 <= k < |n.edges| ensures EdgeImproves(EdgeOf(a, n.edges[k]), EdgeOf(b, n.edges[k]), w, v) {
        VisitedMember(a, Edges, n.edges, k);
        assert n.edges[k] in Visits(a, Edges, n.edges[k]) && Target(a, n.edges[k]) in Visits(a, Edges, n.edges[k]);
        EdgeLift(a, b, n.edges[k], w, v);
      }
    } else {
      assert h in Visits(a, Paths, h);
      NodeLift(a, b, h, w, v);
    }
  }

  lemma WhereLift(a: Store, b: Store, o: Option<Handle>, w: World, v: World)
    requires Wf(a) && Wf(b) && SlotsImprove(a, b, OptSeq(o), w, v)
    ensures OptImproves(WhereOf(a, o), WhereOf(b, o), w, v)
  {
    hide Improves;
    if o.Some? {
      assert o.value in OptSeq(o);
      SkeletonKind(NodeAt(a, o.value), NodeAt(b, o.value));
      if NodeAt(a, o.value).WhereClause? {
        assert Exprs(a, o.value)[0] == TreeOf(a, NodeAt(a, o.value).rootPredicate);
        assert Exprs(b, o.value)[0] == TreeOf(b, NodeAt(b, o.value).rootPredicate);
      }
    }
  }

  lemma MatchLift(a: Store, b: Store, z: Zone, h: Handle, w: World, v: World)
    requires Keeps(a, b, z) && InZone(z, h) && Known(a, h) && SlotsImprove(a, b, Visits(a, Clauses, h), w, v)
    requires NodeAt(a, h).MatchClause?
    ensures MatchImproves(MatchOf(a, h), MatchOf(b, h), w, v)
  {
    assert KeptAt(a, b, h);
    var n := NodeAt(a, h);
    KeepsWf(a, b, z);
    SkeletonLists(n, NodeAt(b, h));
    assert Visits(a, Clauses, h) == AllVisits(a, Paths, n.paths) + OptSeq(n.mwhere);
    assert SlotsImprove(a, b, OptSeq(n.mwhere), w, v) && SlotsImprove(a, b, AllVisits(a, Paths, n.paths), w, v);
    hide Keeps, PathOf, PathImproves, SlotImproves, AllVisits, Visits;
    WhereLift(a, b, n.mwhere, w, v);
    forall k | 0 <= k < |n.paths| ensures PathImproves(PathOf(a, n.paths[k]), PathOf(b, n.paths[k]), w, v) {
      assert n.paths[k] in Handles(n);
      ZoneChild(a, z, h, n.paths[k]);
      VisitedMember(a, Paths, n.paths, k);
      PathLift(a, b, z, n.paths[k], w, v);
    }
  }

  lemma UnwindLift(a: Store, b: Store, h: Handle, w: World, v: World)
    requires Wf(a) && Wf(b) && SlotImproves(a, b, h, w, v) && NodeAt(a, h).UnwindClause?
    ensures UnwindOf(b, h).alias == UnwindOf(a, h).alias && Improves(UnwindOf(a, h).list, UnwindOf(b, h).list, w, v)
  {
    hide Improves;
    assert Exprs(a, h)[0] == TreeOf(a, ExprList(NodeAt(a, h))[0]);
    assert Exprs(b, h)[0] == TreeOf(b, ExprList(NodeAt(b, h))[0]);
  }

  lemma LinearLift(a: Store, b: Store, h: Handle, w: World, v: World)
    requires Wf(a) && Wf(b) && SlotImproves(a, b, h, w, v) && (NodeAt(a, h).LetClause? || NodeAt(a, h).FilterClause?)
    ensures LinearImproves(LinearOf(a, h), LinearOf(b, h), w, v)
  {
    hide Improves;
    assert Exprs(a, h)[0] == TreeOf(a, ExprList(NodeAt(a, h))[0]);
    assert Exprs(b, h)[0] == TreeOf(b, ExprList(NodeAt(b, h))[0]);
  }

  lemma ListLift(a: Store, b: Store, xs: seq<ProjectionItem>, os: seq<(Handle, bool)>,
                 ys: seq<ProjectionItem>, ps: seq<(Handle, bool)>, w: World, v: World)
    requires Wf(a) && Wf(b) && SameFrame(xs, os, ys, ps)
    requires AllImprove(TreesOf(a, ItemHandles(xs) + KeyHandles(os)),
                        TreesOf(b, ItemHandles(ys) + KeyHandles(ps)), w, v)
    ensures ItemsImprove(ItemsOf(a, xs), ItemsOf(b, ys), w, v) && KeysImprove(KeysOf(a, os), KeysOf(b, ps), w, v)
  {
    hide Improves, TreeOf, Wf;
    var ax, bx := ItemHandles(xs) + KeyHandles(os), ItemHandles(ys) + KeyHandles(ps);
    forall i | 0 <= i < |ax| ensures Improves(TreeOf(a, ax[i]), TreeOf(b, bx[i]), w, v) {
      assert TreesOf(a, ax)[i] == TreeOf(a, ax[i]) && TreesOf(b, bx)[i] == TreeOf(b, bx[i]);
    }
    forall i | 0 <= i < |os| ensures Improves(TreeOf(a, os[i].0), TreeOf(b, ps[i].0), w, v) {
      assert ax[|xs| + i] == os[i].0 && bx[|xs| + i] == ps[i].0;
    }
    forall i | 0 <= i < |xs| ensures Improves(TreeOf(a, xs[i].expression), TreeOf(b, ys[i].expression), w, v) {
      assert ax[i] == xs[i].expression && bx[i] == ys[i].expression;
    }
  }

  lemma WithLift(a: Store, b: Store, h: Handle, w: World, v: World)
    requires Wf(a) && Wf(b) && NodeAt(a, h).WithClause? && SlotsImprove(a, b, Visits(a, Clauses, h), w, v)
    ensures ProjectionImproves(WithOf(a, h), WithOf(b, h), w, v)
  {
    hide AllImprove, Improves, SameFrame, TreeOf, ItemsOf, KeysOf, ItemHandles, KeyHandles, Skeleton;
    var x, y := NodeAt(a, h), NodeAt(b, h);
    assert Visits(a, Clauses, h) == [h] + OptSeq(x.wwhere);
    assert h in Visits(a, Clauses, h) && SlotsImprove(a, b, OptSeq(x.wwhere), w, v);
    WithSkeleton(x, y);
    WhereLift(a, b, x.wwhere, w, v);
    ListLift(a, b, x.wprojections, x.worder, y.wprojections, y.worder, w, v);
  }

  lemma ResultLift(a: Store, b: Store, h: Handle, w: World, v: World)
    requires Wf(a) && Wf(b) && NodeAt(a, h).ReturnClause? && SlotImproves(a, b, h, w, v)
    ensures ResultOf(b, Some(h)).Some?
      && ProjectionImproves(ResultOf(a, Some(h)).value, ResultOf(b, Some(h)).value, w, v)
  {
    hide AllImprove, Improves, SameFrame, TreeOf, ItemsOf, KeysOf, ItemHandles, KeyHandles, Skeleton;
    var x, y := NodeAt(a, h), NodeAt(b, h);
    ReturnSkeleton(x, y);
    ListLift(a, b, x.rprojections, x.rorder, y.rprojections, y.rorder, w, v);
  }

  /** The slots a query reads: all but those of LOAD CSV and the mutations. */
  function ReadVisits(st: Store, q: Handle): seq<Handle> {
    match NodeAt(st, q)
    case QueryStatement(_, _, us, ms, ls, ws, _, r) =>
      AllVisits(st, Clauses, us) + AllVisits(st, Clauses, ms) + AllVisits(st, Clauses, ws)
      + AllVisits(st, Clauses, ls) + OptSeq(r)
    case _ => SubVisits(st, q)
  }

  lemma ReadVisited(st: Store, q: Handle)
    ensures forall v :: v in ReadVisits(st, q) ==> v in SubVisits(st, q)
  {
    hide AllVisits;
  }

  lemma StatementLift(a: Store, b: Store, z: Zone, q: Handle, w: World, v: World)
    requires Keeps(a, b, z) && InZone(z, q) && Known(a, q) && NodeAt(a, q).QueryStatement?
    requires Wf(a) && Wf(b) && SlotsImprove(a, b, ReadVisits(a, q), w, v)
    ensures StatementImproves(StatementOf(a, q), StatementOf(b, q), w, v)
  {
    hide Keeps, Wf, SlotsImprove, ReadVisits, AllVisits, Visits, MatchOf, UnwindOf, LinearOf, WithOf, ResultOf,
      Improves, MatchImproves, LinearImproves, ProjectionImproves, Shaped, Handles, NodeShaped, Known, InZone,
      SlotImproves;
    var n := NodeAt(a, q);
    StatementSame(a, b, z, q);
    ReadParts(a, b, q, w, v);
    forall k | 0 <= k < |n.unwinds|
      ensures UnwindOf(b, n.unwinds[k]).alias == UnwindOf(a, n.unwinds[k]).alias
      ensures Improves(UnwindOf(a, n.unwinds[k]).list, UnwindOf(b, n.unwinds[k]).list, w, v)
    {
      ListedSlot(a, b, n.unwinds, k, w, v);
      UnwindLift(a, b, n.unwinds[k], w, v);
    }
    forall k | 0 <= k < |n.matches| ensures MatchImproves(MatchOf(a, n.matches[k]), MatchOf(b, n.matches[k]), w, v) {
      ListedSlots(a, b, n.matches, k, w, v);
      assert n.matches[k] in n.matches;
      MatchLift(a, b, z, n.matches[k], w, v);
    }
    forall k | 0 <= k < |n.linear| ensures LinearImproves(LinearOf(a, n.linear[k]), LinearOf(b, n.linear[k]), w, v) {
      ListedSlot(a, b, n.linear, k, w, v);
      LinearLift(a, b, n.linear[k], w, v);
    }
    forall k | 0 <= k < |n.withs| ensures ProjectionImproves(WithOf(a, n.withs[k]), WithOf(b, n.withs[k]), w, v) {
      ListedSlots(a, b, n.withs, k, w, v);
      WithLift(a, b, n.withs[k], w, v);
    }
    if n.resultClause.Some? { ResultLift(a, b, n.resultClause.value, w, v); }
    NoResult(a, b, n.resultClause);
  }

  lemma NoResult(a: Store, b: Store, o: Option<Handle>)
    requires Wf(a) && Wf(b)
    ensures o.None? ==> ResultOf(a, o).None? && ResultOf(b, o).None?
    ensures o.Some? && NodeAt(a, o.value).ReturnClause? ==> ResultOf(a, o).Some?
  {
  }

  /** The statement node stays, and its lists hold what its shape says. */
  lemma StatementSame(a: Store, b: Store, z: Zone, q: Handle)
    requires Keeps(a, b, z) && InZone(z, q) && Known(a, q) && NodeAt(a, q).QueryStatement?
    ensures Wf(a) && Wf(b) && NodeAt(b, q) == NodeAt(a, q)
    ensures var n := NodeAt(a, q);
      && (forall k :: 0 <= k < |n.unwinds| ==> NodeAt(a, n.unwinds[k]).UnwindClause?)
      && (forall m :: m in n.matches ==> NodeAt(a, m).MatchClause? && InZone(z, m) && Known(a, m))
      && (forall k :: 0 <= k < |n.linear| ==> NodeAt(a, n.linear[k]).LetClause? || NodeAt(a, n.linear[k]).FilterClause?)
      && (forall k :: 0 <= k < |n.withs| ==> NodeAt(a, n.withs[k]).WithClause?)
      && (n.resultClause.Some? ==> NodeAt(a, n.resultClause.value).ReturnClause?)
  {
    var n := NodeAt(a, q);
    assert KeptAt(a, b, q);
    SkeletonLists(n, NodeAt(b, q));
    assert NodeShaped(a, a.nodes[q.index]);
    forall m | m in n.matches ensures InZone(z, m) && Known(a, m) { ZoneChild(a, z, q, m); }
  }

  lemma ReadParts(a: Store, b: Store, q: Handle, w: World, v: World)
    requires Wf(a) && Wf(b) && NodeAt(a, q).QueryStatement? && SlotsImprove(a, b, ReadVisits(a, q), w, v)
    ensures var n := NodeAt(a, q);
      && SlotsImprove(a, b, AllVisits(a, Clauses, n.unwinds), w, v)
      && SlotsImprove(a, b, AllVisits(a, Clauses, n.matches), w, v)
      && SlotsImprove(a, b, AllVisits(a, Clauses, n.linear), w, v)
      && SlotsImprove(a, b, AllVisits(a, Clauses, n.withs), w, v)
      && (n.resultClause.Some? ==> SlotImproves(a, b, n.resultClause.value, w, v))
  {
    hide AllVisits, SlotImproves;
    var n := NodeAt(a, q);
    assert n.resultClause.Some? ==> n.resultClause.value in OptSeq(n.resultClause);
  }

  lemma ListedSlots(a: Store, b: Store, hs: seq<Handle>, k: nat, w: World, v: World)
    requires Wf(a) && Wf(b) && k < |hs| && SlotsImprove(a, b, AllVisits(a, Clauses, hs), w, v)
    ensures SlotsImprove(a, b, Visits(a, Clauses, hs[k]), w, v)
  {
    VisitedMember(a, Clauses, hs, k);
  }

  lemma ListedSlot(a: Store, b: Store, hs: seq<Handle>, k: nat, w: World, v: World)
    requires Wf(a) && Wf(b) && k < |hs| && SlotsImprove(a, b, AllVisits(a, Clauses, hs), w, v)
    requires NodeAt(a, hs[k]).UnwindClause? || NodeAt(a, hs[k]).LetClause? || NodeAt(a, hs[k]).FilterClause?
    ensures SlotImproves(a, b, hs[k], w, v)
  {
    VisitedMember(a, Clauses, hs, k);
    assert hs[k] in Visits(a, Clauses, hs[k]);
  }

  lemma QueryLift(a: Store, b: Store, z: Zone, q: Handle, w: World, v: World)
    requires Keeps(a, b, z) && InZone(z, q) && Known(a, q) && SlotsImprove(a, b, ReadVisits(a, q), w, v)
    ensures Wf(a) && Wf(b) && QueryImproves(QueryOf(a, q), QueryOf(b, q), w, v)
  {
    assert KeptAt(a, b, q);
    KeepsWf(a, b, z);
    SkeletonLists(NodeAt(a, q), NodeAt(b, q));
    SkeletonKind(NodeAt(a, q), NodeAt(b, q));
    hide Keeps, SlotsImprove, StatementImproves, MatchImproves, PathImproves, StatementOf, MatchOf, PathOf;
    var n := NodeAt(a, q);
    if n.QueryStatement? {
      StatementLift(a, b, z, q, w, v);
    } else if n.MatchClause? {
      MatchLift(a, b, z, q, w, v);
    } else if n.PathChain? || n.NodePattern? {
      PathLift(a, b, z, q, w, v);
    }
  }

  // ---------- Folding in place gains values ----------

  /** The expressions of a slot are guarded each time they are folded. */
  ghost predicate SlotGuarded(st: Store, s: Handle, n: nat)
    requires Wf(st)
  {
    forall e :: e in Exprs(st, s) ==> GuardedBy(n, e)
  }

  /** `s` is a slot the query reads, or one that a subquery below it reads. */
  ghost predicate Reads(st: Store, q: Handle, s: Handle)
    requires Wf(st)
    decreases Rk(st, q)
  {
    || s in ReadVisits(st, q)
    || exists n :: Below(st, q, n) && Rk(st, Inner(n)) < Rk(st, q) && Reads(st, Inner(n), s)
  }

  /** A subquery or pattern named in a slot the query reads. */
  ghost predicate Below(st: Store, q: Handle, n: Name)
    requires Wf(st)
  {
    (n.Nested? || n.Along?) && exists s :: s in ReadVisits(st, q) && n in NamesAll(Exprs(st, s))
  }

  /** Every slot the query reads, at any depth, is guarded as often as the visits `vs` lead to it. */
  ghost predicate DeepGuarded(st: Store, vs: seq<Handle>, q: Handle)
    requires Wf(st)
  {
    forall s :: Reads(st, q, s) ==> SlotGuarded(st, s, SlotsTimes(st, vs, s))
  }

  lemma GuardedBelow(st: Store, vs: seq<Handle>, q: Handle, s: Handle, n: Name)
    requires Wf(st) && DeepGuarded(st, vs, q) && s in ReadVisits(st, q) && n in NamesAll(Exprs(st, s))
    requires (n.Nested? || n.Along?) && Rk(st, Inner(n)) < Rk(st, q)
    ensures DeepGuarded(st, vs, Inner(n))
  {
    assert Below(st, q, n);
  }

  lemma GuardedHere(st: Store, vs: seq<Handle>, q: Handle, s: Handle)
    requires Wf(st) && DeepGuarded(st, vs, q) && s in ReadVisits(st, q)
    ensures SlotGuarded(st, s, SlotsTimes(st, vs, s))
  {
    assert Reads(st, q, s);
  }

  /** What lies below a name has only gained values. */
  ghost predicate Gained(a: Store, b: Store, q: Handle, w: World, g: Graph)
    requires Wf(a) && Wf(b)
  {
    && (forall c, row :: Refines(SubValue(a, c, q, row, w, g), SubValue(b, c, q, row, w, g)))
    && (forall row :: PathsRefine(PathRows(a, q, row, w, g), PathRows(b, q, row, w, g)))
  }

  /** Slots that were folded, in worlds that gained values below them. */
  lemma SlotGains(a: Store, b: Store, z: Zone, vs: seq<Handle>, s: Handle, w: World, v: World)
    requires Renews(a, b, z, vs) && Known(a, s) && InZone(z, s) && SlotGuarded(a, s, SlotsTimes(a, vs, s))
    requires forall e :: e in Exprs(b, s) ==> WorldRefines(w, v, Names(e))
    ensures SlotImproves(a, b, s, w, v)
  {
    assert KeptAt(a, b, s);
    var es, fs := Exprs(a, s), Exprs(b, s);
    var k: nat :| k <= SlotsTimes(a, vs, s) && Refolded(a, b, s, k);
    hide Renews, SlotsTimes, Exprs, Improves, WorldRefines;
    forall i | 0 <= i < |es| ensures Improves(es[i], fs[i], w, v) {
      assert es[i] in es && fs[i] in fs && fs[i] == FoldBy(k, es[i]);
      assert GuardedBy(k, es[i]);
      FoldImproves(k, es[i], w, v);
    }
  }

  /** A subquery folded in place, with everything below it, answers wherever it did, and the same. */
  lemma {:induction false} SubqueryGains(a: Store, b: Store, z: Zone, vs: seq<Handle>, q: Handle, w: World, g: Graph)
    requires Renews(a, b, z, vs) && Known(a, q) && InZone(z, q) && DeepGuarded(a, vs, q)
    ensures Wf(a) && Wf(b) && Gained(a, b, q, w, g)
    ensures QueryImproves(QueryOf(a, q), QueryOf(b, q), DeepBelow(a, w, g, Rk(a, q)), DeepBelow(b, w, g, Rk(b, q)))
    decreases Rk(a, q)
  {
    var wa, wb := DeepBelow(a, w, g, Rk(a, q)), DeepBelow(b, w, g, Rk(b, q));
    RenewsStart(a, b, z, vs);
    ReadVisited(a, q);
    SubVisitsIn(a, z, q);
    SubVisitsBelow(a, q);
    SubVisitsKept(a, b, z, q);
    SubVisitsBelow(b, q);
    hide Renews, Keeps, Start, SubVisits, ReadVisits, SubValue, PathRows, SlotsTimes, DeepBelow, Wf, SlotImproves,
      Gained, Below, DeepGuarded;
    forall s | s in ReadVisits(a, q) ensures SlotImproves(a, b, s, wa, wb) {
      forall e | e in Exprs(b, s) ensures WorldRefines(wa, wb, Names(e)) {
        forall n | n in Names(e) && (n.Nested? || n.Along?)
          ensures Rk(a, Inner(n)) < Rk(a, q) && Rk(b, Inner(n)) < Rk(b, q) && Gained(a, b, Inner(n), w, g)
        {
          NameBelow(a, b, z, vs, s, e, n);
          GuardedBelow(a, vs, q, s, n);
          SubqueryGains(a, b, z, vs, Inner(n), w, g);
        }
        BelowRefines(a, b, q, w, g, Names(e));
      }
      assert SlotGuarded(a, s, SlotsTimes(a, vs, s)) by { GuardedHere(a, vs, q, s); }
      SlotGains(a, b, z, vs, s, wa, wb);
    }
    QueryLift(a, b, z, q, wa, wb);
    AnswerGains(a, b, q, w, g);
  }

  lemma RenewsStart(a: Store, b: Store, z: Zone, vs: seq<Handle>)
    requires Renews(a, b, z, vs)
    ensures Wf(a) && Wf(b) && Start(a, z) && Keeps(a, b, z) && |a.nodes| <= |b.nodes|
  {
  }

  /** A name left in a folded slot was there before, below the slot, in both arenas. */
  lemma NameBelow(a: Store, b: Store, z: Zone, vs: seq<Handle>, s: Handle, e: Expr, n: Name)
    requires Renews(a, b, z, vs) && Known(a, s) && InZone(z, s) && e in Exprs(b, s) && n in Names(e)
      && (n.Nested? || n.Along?)
    ensures Wf(a) && Wf(b) && n in NamesAll(Exprs(a, s)) && Known(a, Inner(n)) && InZone(z, Inner(n))
    ensures Rk(a, Inner(n)) < Rk(a, s) && Rk(b, Inner(n)) < Rk(b, s)
  {
    hide Exprs, Names, NamesAll, Wf, SlotsTimes;
    KeptIn(a, b, z, s);
    hide Renews, Keeps;
    var es, fs := Exprs(a, s), Exprs(b, s);
    var k: nat :| Refolded(a, b, s, k);
    FoldAllByShrinks(k, es, 0, _ => 0);
    var i :| 0 <= i < |fs| && fs[i] == e;
    NamesMember(fs, i);
    NestedInSlot(a, s, n);
    NestedInSlot(b, s, n);
  }

  lemma BelowRefines(a: Store, b: Store, q: Handle, w: World, g: Graph, names: set<Name>)
    requires Wf(a) && Wf(b)
    requires forall n :: n in names && (n.Nested? || n.Along?) ==>
      Rk(a, Inner(n)) < Rk(a, q) && Rk(b, Inner(n)) < Rk(b, q) && Gained(a, b, Inner(n), w, g)
    ensures WorldRefines(DeepBelow(a, w, g, Rk(a, q)), DeepBelow(b, w, g, Rk(b, q)), names)
  {
    hide SubValue, PathRows;
    forall r | Nested(r) in names ensures Rk(a, r) < Rk(a, q) && Rk(b, r) < Rk(b, q) && Gained(a, b, r, w, g) {
      assert Inner(Nested(r)) == r;
    }
    forall p | Along(p) in names ensures Rk(a, p) < Rk(a, q) && Rk(b, p) < Rk(b, q) && Gained(a, b, p, w, g) {
      assert Inner(Along(p)) == p;
    }
  }

  lemma AnswerGains(a: Store, b: Store, q: Handle, w: World, g: Graph)
    requires Wf(a) && Wf(b)
    requires QueryImproves(QueryOf(a, q), QueryOf(b, q), DeepBelow(a, w, g, Rk(a, q)), DeepBelow(b, w, g, Rk(b, q)))
    ensures Gained(a, b, q, w, g)
  {
    var wa, wb := DeepBelow(a, w, g, Rk(a, q)), DeepBelow(b, w, g, Rk(b, q));
    var x, y := QueryOf(a, q), QueryOf(b, q);
    hide QueryImproves, QueryClean, QueryRows, DeepBelow, QueryOf;
    assert x.QOther? <==> y.QOther? by { KindsImprove(x, y, wa, wb); }
    forall row ensures PathsRefine(QueryAnswer(x, row, wa, g), QueryAnswer(y, row, wb, g)) {
      if QueryClean(x, row, wa, g) { QueryImproved(x, y, row, wa, wb, g); }
    }
  }

  lemma KindsImprove(p: Query, q: Query, w: World, v: World)
    requires QueryImproves(p, q, w, v)
    ensures p.QOther? <==> q.QOther?
  {
  }
}
