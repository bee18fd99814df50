/**
 Which variables of the outer row a subquery sees. One that neither reads nor binds a
 variable, at any depth, answers alike on rows that differ in that variable only.
 */
module Sighting {
  import opened Common
  import opened Ast
  import opened Trees
  import opened Semantics
  import opened Clauses
  import opened Matching
  import opened FoldingLimits
  import opened Refining
  import opened Running
  import opened Pruning
  import opened PrunedStatement
  import opened FoldArena
  import opened Visiting
  import opened FoldPass
  import opened FoldedStatement
  import opened Renewing
  import opened Nested

  // ---------- Every expression of a statement lies in a slot it reads ----------

  ghost predicate InSlots(st: Store, vs: seq<Handle>, e: Expr)
    requires Wf(st)
  {
    exists s :: s in vs && e in Exprs(st, s)
  }

  ghost predicate AllListed(st: Store, vs: seq<Handle>, es: set<Expr>)
    requires Wf(st)
  {
    forall e :: e in es ==> InSlots(st, vs, e)
  }

  lemma ListedMore(st: Store, vs: seq<Handle>, ws: seq<Handle>, es: set<Expr>)
    requires Wf(st) && AllListed(st, vs, es) && forall s :: s in vs ==> s in ws
    ensures AllListed(st, ws, es)
  {
    hide Exprs;
  }

  lemma NodeListed(st: Store, h: Handle)
    requires Wf(st)
    ensures AllListed(st, [h], NodeExprs(NodeOf(st, h)))
  {
    assert h in [h];
  }

  lemma EdgeListed(st: Store, e: Handle)
    requires Wf(st)
    ensures AllListed(st, [e, Target(st, e)], EdgeExprs(EdgeOf(st, e)))
  {
    var vs := [e, Target(st, e)];
    assert e in vs && Target(st, e) in vs;
    NodeListed(st, Target(st, e));
  }

  lemma PathListed(st: Store, h: Handle)
    requires Wf(st)
    ensures AllListed(st, Visits(st, Paths, h), PathExprs(PathOf(st, h)))
  {
    var n, vs := NodeAt(st, h), Visits(st, Paths, h);
    hide Wf, Exprs, NodeOf, EdgeOf, NodeExprs, EdgeExprs;
    if n.PathChain? {
      NodeListed(st, n.startNode);
      assert n.startNode in vs;
      ListedMore(st, [n.startNode], vs, NodeExprs(NodeOf(st, n.startNode)));
      forall k | 0 <= k < |n.edges| ensures AllListed(st, vs, EdgeExprs(EdgeOf(st, n.edges[k]))) {
        var e := n.edges[k];
        VisitedMember(st, Edges, n.edges, k);
        EdgeListed(st, e);
        assert e in Visits(st, Edges, e) && Target(st, e) in Visits(st, Edges, e);
        ListedMore(st, [e, Target(st, e)], vs, EdgeExprs(EdgeOf(st, e)));
      }
    } else {
      NodeListed(st, h);
      assert h in vs;
      ListedMore(st, [h], vs, NodeExprs(NodeOf(st, h)));
    }
  }

  lemma WhereListed(st: Store, o: Option<Handle>)
    requires Wf(st)
    ensures AllListed(st, OptSeq(o), OptExprs(WhereOf(st, o)))
  {
    if o.Some? && NodeAt(st, o.value).WhereClause? {
      assert o.value in OptSeq(o) && Exprs(st, o.value)[0] == TreeOf(st, NodeAt(st, o.value).rootPredicate);
    }
  }

  lemma MatchListed(st: Store, h: Handle)
    requires Wf(st) && NodeAt(st, h).MatchClause?
    ensures AllListed(st, Visits(st, Clauses, h), MatchExprs(MatchOf(st, h)))
  {
    var n, vs := NodeAt(st, h), Visits(st, Clauses, h);
    assert vs == AllVisits(st, Paths, n.paths) + OptSeq(n.mwhere);
    hide Wf, Exprs, PathOf, PathExprs, AllVisits, Visits;
    WhereListed(st, n.mwhere);
    ListedMore(st, OptSeq(n.mwhere), vs, OptExprs(WhereOf(st, n.mwhere)));
    forall k | 0 <= k < |n.paths| ensures AllListed(st, vs, PathExprs(PathOf(st, n.paths[k]))) {
      VisitedMember(st, Paths, n.paths, k);
      PathListed(st, n.paths[k]);
      ListedMore(st, Visits(st, Paths, n.paths[k]), vs, PathExprs(PathOf(st, n.paths[k])));
    }
  }

  lemma ItemsListed(st: Store, h: Handle, ps: seq<ProjectionItem>, os: seq<(Handle, bool)>)
    requires Wf(st) && ExprList(NodeAt(st, h)) == ItemHandles(ps) + KeyHandles(os)
    ensures AllListed(st, [h], (set i | i in ItemsOf(st, ps) :: i.value) + (set k | k in KeysOf(st, os) :: k.value))
  {
    var hs := ItemHandles(ps) + KeyHandles(os);
    assert h in [h];
    forall k | 0 <= k < |ps| ensures TreeOf(st, ps[k].expression) in Exprs(st, h) {
      assert hs[k] == ps[k].expression && Exprs(st, h)[k] == TreeOf(st, hs[k]);
    }
    forall k | 0 <= k < |os| ensures TreeOf(st, os[k].0) in Exprs(st, h) {
      assert hs[|ps| + k] == os[k].0 && Exprs(st, h)[|ps| + k] == TreeOf(st, hs[|ps| + k]);
    }
  }

  lemma WithListed(st: Store, h: Handle)
    requires Wf(st) && NodeAt(st, h).WithClause?
    ensures AllListed(st, Visits(st, Clauses, h), ProjectionExprs(WithOf(st, h)))
  {
    var n, vs := NodeAt(st, h), Visits(st, Clauses, h);
    assert vs == [h] + OptSeq(n.wwhere);
    ItemsListed(st, h, n.wprojections, n.worder);
    WhereListed(st, n.wwhere);
    hide Wf, Exprs, Visits, ItemsOf, KeysOf, WhereOf;
    ListedMore(st, OptSeq(n.wwhere), vs, OptExprs(WhereOf(st, n.wwhere)));
    ListedMore(st, [h], vs,
               (set i | i in ItemsOf(st, n.wprojections) :: i.value) + (set k | k in KeysOf(st, n.worder) :: k.value));
  }

  lemma ResultListed(st: Store, h: Handle)
    requires Wf(st) && NodeAt(st, h).ReturnClause?
    ensures AllListed(st, [h], ProjectionExprs(ResultOf(st, Some(h)).value))
  {
    var n := NodeAt(st, h);
    ItemsListed(st, h, n.rprojections, n.rorder);
  }

  lemma LinearListed(st: Store, h: Handle)
    requires Wf(st)
    ensures NodeAt(st, h).UnwindClause? ==> AllListed(st, Visits(st, Clauses, h), {UnwindOf(st, h).list})
    ensures NodeAt(st, h).LetClause? || NodeAt(st, h).FilterClause? ==>
      AllListed(st, Visits(st, Clauses, h), {LinearExpr(LinearOf(st, h))})
  {
    var n := NodeAt(st, h);
    if n.UnwindClause? || n.LetClause? || n.FilterClause? {
      assert h in Visits(st, Clauses, h) && Exprs(st, h)[0] == TreeOf(st, ExprList(n)[0]);
    }
  }

  lemma ClauseListed(st: Store, hs: seq<Handle>, k: nat, vs: seq<Handle>, es: set<Expr>)
    requires Wf(st) && k < |hs| && AllListed(st, Visits(st, Clauses, hs[k]), es)
    requires forall s :: s in AllVisits(st, Clauses, hs) ==> s in vs
    ensures AllListed(st, vs, es)
  {
    VisitedMember(st, Clauses, hs, k);
    ListedMore(st, Visits(st, Clauses, hs[k]), vs, es);
  }

  lemma StatementListed(st: Store, q: Handle)
    requires Wf(st) && Shaped(st) && NodeAt(st, q).QueryStatement?
    ensures AllListed(st, ReadVisits(st, q), StatementExprs(StatementOf(st, q)))
  {
    hide Wf, Shaped, Exprs, AllVisits, Visits, ReadVisits, UnwindOf, MatchOf, LinearOf, WithOf, ResultOf, MatchExprs,
      ProjectionExprs, StatementExprs, AllListed;
    var n, vs := NodeAt(st, q), ReadVisits(st, q);
    ReadLists(st, q);
    forall k | 0 <= k < |n.unwinds| ensures AllListed(st, vs, {UnwindOf(st, n.unwinds[k]).list}) {
      LinearListed(st, n.unwinds[k]);
      ClauseListed(st, n.unwinds, k, vs, {UnwindOf(st, n.unwinds[k]).list});
    }
    forall k | 0 <= k < |n.matches| ensures AllListed(st, vs, MatchExprs(MatchOf(st, n.matches[k]))) {
      MatchListed(st, n.matches[k]);
      ClauseListed(st, n.matches, k, vs, MatchExprs(MatchOf(st, n.matches[k])));
    }
    forall k | 0 <= k < |n.linear| ensures AllListed(st, vs, {LinearExpr(LinearOf(st, n.linear[k]))}) {
      LinearListed(st, n.linear[k]);
      ClauseListed(st, n.linear, k, vs, {LinearExpr(LinearOf(st, n.linear[k]))});
    }
    forall k | 0 <= k < |n.withs| ensures AllListed(st, vs, ProjectionExprs(WithOf(st, n.withs[k]))) {
      WithListed(st, n.withs[k]);
      ClauseListed(st, n.withs, k, vs, ProjectionExprs(WithOf(st, n.withs[k])));
    }
    NoResult(st, st, n.resultClause);
    if n.resultClause.Some? {
      var h := n.resultClause.value;
      ResultListed(st, h);
      ListedMore(st, [h], vs, ProjectionExprs(ResultOf(st, Some(h)).value));
    }
    Gathered(st, vs, StatementOf(st, q));
  }

  lemma Gathered(st: Store, vs: seq<Handle>, q: Statement)
    requires Wf(st)
    requires forall k :: 0 <= k < |q.unwinds| ==> AllListed(st, vs, {q.unwinds[k].list})
    requires forall k :: 0 <= k < |q.matches| ==> AllListed(st, vs, MatchExprs(q.matches[k]))
    requires forall k :: 0 <= k < |q.linear| ==> AllListed(st, vs, {LinearExpr(q.linear[k])})
    requires forall k :: 0 <= k < |q.withs| ==> AllListed(st, vs, ProjectionExprs(q.withs[k]))
    requires q.result.Some? ==> AllListed(st, vs, ProjectionExprs(q.result.value))
    ensures AllListed(st, vs, StatementExprs(q))
  {
    hide Wf, InSlots, MatchExprs, ProjectionExprs;
    forall u | u in q.unwinds ensures InSlots(st, vs, u.list) { assert u.list in {u.list}; }
    forall l | l in q.linear ensures InSlots(st, vs, LinearExpr(l)) { assert LinearExpr(l) in {LinearExpr(l)}; }
  }

  lemma ReadLists(st: Store, q: Handle)
    requires Wf(st) && Shaped(st) && NodeAt(st, q).QueryStatement?
    ensures var n, vs := NodeAt(st, q), ReadVisits(st, q);
      && (forall k :: 0 <= k < |n.unwinds| ==> NodeAt(st, n.unwinds[k]).UnwindClause?)
      && (forall k :: 0 <= k < |n.matches| ==> NodeAt(st, n.matches[k]).MatchClause?)
      && (forall k :: 0 <= k < |n.linear| ==>
        NodeAt(st, n.linear[k]).LetClause? || NodeAt(st, n.linear[k]).FilterClause?)
      && (forall k :: 0 <= k < |n.withs| ==> NodeAt(st, n.withs[k]).WithClause?)
      && (n.resultClause.Some? ==> NodeAt(st, n.resultClause.value).ReturnClause? && n.resultClause.value in vs)
      && (forall s :: s in AllVisits(st, Clauses, n.unwinds) ==> s in vs)
      && (forall s :: s in AllVisits(st, Clauses, n.matches) ==> s in vs)
      && (forall s :: s in AllVisits(st, Clauses, n.linear) ==> s in vs)
      && (forall s :: s in AllVisits(st, Clauses, n.withs) ==> s in vs)
  {
    hide AllVisits;
    var n := NodeAt(st, q);
    assert NodeShaped(st, st.nodes[q.index]);
    assert n.resultClause.Some? ==> n.resultClause.value in OptSeq(n.resultClause);
  }

  // ---------- Pruning what binds nothing ----------

  lemma {:induction false} EdgeAliasesBound(es: seq<EdgePat>)
    ensures EdgeTargets(es) <= EdgesVars(es) && EdgeNames(es) <= EdgesVars(es)
    decreases |es|
  {
    if es != [] { EdgeAliasesBound(es[1..]); }
  }

  lemma AliasesBound(p: PathPat)
    ensures NodeAliases(p) <= PathVars(p) && EdgeAliases(p) <= PathVars(p)
  {
    if p.Chain? { EdgeAliasesBound(p.edges); }
  }

  lemma {:induction false} PathBound(ps: seq<PathPat>, k: nat)
    requires k < |ps|
    ensures PathVars(ps[k]) <= PathsVars(ps)
  {
    if k > 0 { PathBound(ps[1..], k - 1); }
  }

  lemma {:induction false} TargetNamed(es: seq<EdgePat>, k: nat)
    requires k < |es|
    ensures OptVar(es[k].target.variable) <= EdgeTargets(es)
  {
    if k > 0 { TargetNamed(es[1..], k - 1); }
  }

  lemma PathKept(p: PathPat, used: set<string>)
    requires NodeAliases(p) <= used
    ensures PrunePath(p, used) == p
  {
    if p.Chain? {
      var q := PrunePath(p, used);
      forall k | 0 <= k < |p.edges| ensures q.edges[k] == p.edges[k] { TargetNamed(p.edges, k); }
      assert q.edges == p.edges;
    }
  }

  lemma MatchKept(c: MatchCl, used: set<string>)
    requires PathsVars(c.paths) <= used
    ensures PruneMatch(c, used) == c
  {
    hide NodeAliases, EdgeAliases, PathVars, PathsVars, PrunePath;
    forall k | 0 <= k < |c.paths| ensures PrunePath(c.paths[k], used) == c.paths[k] {
      AliasesBound(c.paths[k]);
      PathBound(c.paths, k);
      PathKept(c.paths[k], used);
    }
    assert PruneMatch(c, used).paths == c.paths;
  }

  lemma {:induction false} PruneShortens(steps: seq<Step>, d: set<string>)
    ensures |PruneSteps(steps, d)| <= |steps|
    decreases |steps|
  {
    if steps != [] { PruneShortens(steps[1..], d); }
  }

  /** Steps that pruning leaves alone bind no variable in `d`. */
  lemma {:induction false} KeptBinders(steps: seq<Step>, d: set<string>, w: World)
    requires Ignores(steps, d, w) && PruneSteps(steps, d) == steps
    ensures forall x :: x in Binders(steps) ==> x !in d
    decreases steps
  {
    if steps != [] {
      var st, rest, first := steps[0], steps[1..], PruneStep(steps[0], d);
      PruneShortens(rest, d);
      assert first + PruneSteps(rest, d) == steps;
      assert first == [st] && PruneSteps(rest, d) == rest by {
        assert |first| == 1;
        assert (first + PruneSteps(rest, d))[0] == first[0]
          && (first + PruneSteps(rest, d))[1..] == PruneSteps(rest, d);
      }
      KeptBinders(rest, d, w);
      if st.SOptional? { KeptBinders(st.inner, d, w); }
    }
  }

  lemma StepsBlind(steps: seq<Step>, d: set<string>, r1: Row, r2: Row, w: World, g: Graph)
    requires Ignores(steps, d, w) && PruneSteps(steps, d) == steps && Off(r1, r2, d)
    ensures RowsOff(RowsOf(Run(steps, From(r1), w, g)), RowsOf(Run(steps, From(r2), w, g)), d)
    ensures Clean(steps, From(r1), w, g) <==> Clean(steps, From(r2), w, g)
  {
    hide Run, Clean, Binders, Ignores, PruneSteps, Off;
    KeptBinders(steps, d, w);
    RunHides(steps, From(r1), From(r2), d, w, g);
    CleanHides(steps, From(r1), From(r2), d, w, g);
  }

  // ---------- A query and what it sees ----------

  function QueryExprs(q: Query): set<Expr> {
    match q
    case QStatement(s) => SeenExprs(s)
    case QMatch(c) => MatchExprs(c)
    case QPath(p) => PathExprs(p)
    case QOther => {}
  }

  function MatchesBinds(cs: seq<MatchCl>): set<string> {
    set c, x | c in cs && x in PathsVars(c.paths) :: x
  }

  /** The variables the clauses of a query bind. */
  function QueryBinds(q: Query): set<string> {
    match q
    case QStatement(s) =>
      (set u | u in s.unwinds :: u.alias) + (set l | l in s.linear && l.Let? :: l.variable) + MatchesBinds(s.matches)
    case QMatch(c) => PathsVars(c.paths)
    case QPath(p) => PathVars(p)
    case QOther => {}
  }

  ghost predicate QueryUnseen(q: Query, d: set<string>, w: World) {
    !q.QOther? && UnseenIn(QueryExprs(q), d, w) && QueryBinds(q) !! d
  }

  lemma PathApart(p: PathPat, used: set<string>, d: set<string>, w: World)
    requires UnseenIn(PathExprs(p), d, w) && PathVars(p) <= used && used !! d
    ensures PathReady(p, used, d, w)
  {
    AliasesBound(p);
  }

  lemma MatchApart(c: MatchCl, used: set<string>, d: set<string>, w: World)
    requires UnseenIn(MatchExprs(c), d, w) && PathsVars(c.paths) <= used && used !! d
    ensures MatchReady(c, used, d, w)
  {
    hide Unseen, PathReady, PathExprs, PathVars, PathsVars;
    forall k | 0 <= k < |c.paths| ensures PathReady(c.paths[k], used, d, w) {
      assert c.paths[k] in c.paths && forall e :: e in PathExprs(c.paths[k]) ==> e in MatchExprs(c);
      PathBound(c.paths, k);
      PathApart(c.paths[k], used, d, w);
    }
  }

  lemma MatchBlind(c: MatchCl, d: set<string>, r1: Row, r2: Row, w: World, g: Graph)
    requires QueryUnseen(QMatch(c), d, w) && Off(r1, r2, d)
    ensures RowsOff(QueryRows(QMatch(c), r1, w, g), QueryRows(QMatch(c), r2, w, g), d)
    ensures QueryClean(QMatch(c), r1, w, g) <==> QueryClean(QMatch(c), r2, w, g)
  {
    hide Unseen, MatchReady, MatchExprs, PathsVars, MatchSteps, Run, Clean, Off;
    MatchApart(c, PathsVars(c.paths), d, w);
    MatchKept(c, PathsVars(c.paths));
    MatchPruned(c, PathsVars(c.paths), d, w);
    StepsBlind(MatchSteps(c), d, r1, r2, w, g);
  }

  lemma PathBlind(p: PathPat, d: set<string>, r1: Row, r2: Row, w: World, g: Graph)
    requires QueryUnseen(QPath(p), d, w) && Off(r1, r2, d)
    ensures RowsOff(QueryRows(QPath(p), r1, w, g), QueryRows(QPath(p), r2, w, g), d)
    ensures QueryClean(QPath(p), r1, w, g) <==> QueryClean(QPath(p), r2, w, g)
  {
    hide Unseen, PathReady, PathExprs, PathVars, PathSteps, Run, Clean, Off, NodeAliases, EdgeAliases;
    AliasesBound(p);
    PathApart(p, PathVars(p), d, w);
    PathKept(p, PathVars(p));
    PathPruned(p, PathVars(p), d, w);
    StepsBlind(PathSteps(p), d, r1, r2, w, g);
  }

  lemma StatementApart(s: Statement, used: set<string>, d: set<string>, w: World)
    requires QueryUnseen(QStatement(s), d, w) && used == MatchesBinds(s.matches)
    ensures StatementReady(s, used, d, w) && PruneWith(s, used) == s
    ensures Once(Binders(MatchesSteps(s.matches)), d) && forall row :: Unbound(MatchesSteps(s.matches), row, d)
  {
    hide Unseen, SeenExprs, PathsVars, PathVars, NodeAliases, EdgeAliases, PruneMatch, MatchesSteps, Binders,
      PruneSteps, Ignores;
    forall k | 0 <= k < |s.unwinds| ensures s.unwinds[k].alias !in d { assert s.unwinds[k] in s.unwinds; }
    forall k | 0 <= k < |s.linear| && s.linear[k].Let?
      ensures s.linear[k].variable !in d
    {
      assert s.linear[k] in s.linear;
    }
    forall c, p | c in s.matches && p in c.paths ensures EdgeAliases(p) !! d && Selects(NodeAliases(p), used, d) {
      var k :| 0 <= k < |c.paths| && c.paths[k] == p;
      AliasesBound(p);
      PathBound(c.paths, k);
      assert NodeAliases(p) <= used && EdgeAliases(p) <= used;
    }
    forall k | 0 <= k < |s.matches| ensures PruneMatch(s.matches[k], used) == s.matches[k] {
      assert s.matches[k] in s.matches;
      MatchKept(s.matches[k], used);
    }
    assert PruneMatches(s.matches, used) == s.matches;
    MiddlePruned(s, used, d, w);
    KeptBinders(MatchesSteps(s.matches), d, w);
  }

  lemma StatementBlind(s: Statement, d: set<string>, r1: Row, r2: Row, w: World, g: Graph)
    requires QueryUnseen(QStatement(s), d, w) && Off(r1, r2, d)
    ensures RowsOff(QueryRows(QStatement(s), r1, w, g), QueryRows(QStatement(s), r2, w, g), d)
    ensures QueryClean(QStatement(s), r1, w, g) <==> QueryClean(QStatement(s), r2, w, g)
  {
    hide QueryUnseen, StatementReady, MatchesSteps, Once, Unbound, Answers, AnswersClean, PruneWith;
    var used := MatchesBinds(s.matches);
    StatementApart(s, used, d, w);
    StatementHides(s, used, d, From(r1), From(r2), w, g);
    assert forall r: Row :: Off(r, r, d);
  }

  /** A query that neither reads nor binds a variable in `d` answers alike on rows that agree outside `d`. */
  lemma QueryBlind(q: Query, d: set<string>, r1: Row, r2: Row, w: World, g: Graph)
    requires QueryUnseen(q, d, w) && Off(r1, r2, d)
    ensures PathsOff(QueryAnswer(q, r1, w, g), QueryAnswer(q, r2, w, g), d)
  {
    hide QueryUnseen, QueryRows, QueryClean, Off;
    match q
    case QStatement(s) => StatementBlind(s, d, r1, r2, w, g);
    case QMatch(c) => MatchBlind(c, d, r1, r2, w, g);
    case QPath(p) => PathBlind(p, d, r1, r2, w, g);
    case QOther => assert false by { OtherSees(d, w); }
  }

  lemma OtherSees(d: set<string>, w: World)
    ensures !QueryUnseen(QOther, d, w)
  {
  }

  lemma UnseenLess(q: Query, d: set<string>, f: set<string>, w: World)
    requires QueryUnseen(q, d, w) && f <= d
    ensures QueryUnseen(q, f, w)
  {
    hide QueryExprs, QueryBinds, Names, Blind;
    forall e | e in QueryExprs(q) ensures Unseen(e, f, w) { BlindLess(w, d, f, Names(e)); }
  }

  // ---------- At any depth ----------

  /**
   The query at `q`, or one below it, reads or binds `x`. A handle that holds no query is
   taken to see everything.
   */
  ghost predicate Sees(st: Store, q: Handle, x: string)
    requires Wf(st)
    decreases Rk(st, q)
  {
    || QueryOf(st, q).QOther? || x in QueryBinds(QueryOf(st, q))
    || (exists s :: s in ReadVisits(st, q) && Variable(x) in NamesAll(Exprs(st, s)))
    || exists n :: Below(st, q, n) && Rk(st, Inner(n)) < Rk(st, q) && Sees(st, Inner(n), x)
  }

  ghost predicate Overlooks(st: Store, q: Handle, d: set<string>)
    requires Wf(st)
  {
    forall x :: x in d ==> !Sees(st, q, x)
  }

  /** What `q` answers does not depend on the variables in `d`. */
  ghost predicate Blinded(st: Store, q: Handle, d: set<string>, w: World, g: Graph)
    requires Wf(st)
  {
    && (forall c, r1, r2 :: Off(r1, r2, d) ==> SubValue(st, c, q, r1, w, g) == SubValue(st, c, q, r2, w, g))
    && (forall r1, r2, f :: f <= d && Off(r1, r2, f) ==>
      PathsOff(PathRows(st, q, r1, w, g), PathRows(st, q, r2, w, g), f))
  }

  lemma BelowBlind(st: Store, q: Handle, d: set<string>, w: World, g: Graph, names: set<Name>)
    requires Wf(st)
    requires forall n :: n in names && (n.Nested? || n.Along?) ==>
      Rk(st, Inner(n)) < Rk(st, q) && Blinded(st, Inner(n), d, w, g)
    ensures Blind(DeepBelow(st, w, g, Rk(st, q)), d, names)
  {
    hide SubValue, PathRows, Off, PathsOff;
    forall r | Nested(r) in names
      ensures Rk(st, r) < Rk(st, q) && Blinded(st, r, d, w, g)
    {
      assert Inner(Nested(r)) == r;
    }
    forall p | Along(p) in names
      ensures Rk(st, p) < Rk(st, q) && Blinded(st, p, d, w, g)
    {
      assert Inner(Along(p)) == p;
    }
  }

  lemma DeepBlind(st: Store, d: set<string>, w: World, g: Graph, names: set<Name>)
    requires Wf(st) && forall n :: n in names && (n.Nested? || n.Along?) ==> Blinded(st, Inner(n), d, w, g)
    ensures Blind(Deep(st, w, g), d, names)
  {
    hide SubValue, PathRows, Off, PathsOff;
    forall r | Nested(r) in names ensures Blinded(st, r, d, w, g) { assert Inner(Nested(r)) == r; }
    forall p | Along(p) in names ensures Blinded(st, p, d, w, g) { assert Inner(Along(p)) == p; }
  }

  lemma QueryListed(st: Store, q: Handle)
    requires Wf(st) && Shaped(st)
    ensures AllListed(st, ReadVisits(st, q), QueryExprs(QueryOf(st, q)))
  {
    hide AllVisits, Visits, StatementOf, MatchOf, PathOf, StatementExprs, SeenExprs, MatchExprs, PathExprs, InSlots,
      Shaped;
    var n := NodeAt(st, q);
    if n.QueryStatement? {
      StatementListed(st, q);
      SeenAmong(StatementOf(st, q));
    } else if n.MatchClause? {
      MatchListed(st, q);
    } else if n.PathChain? || n.NodePattern? {
      PathListed(st, q);
    }
  }

  /** A query that overlooks `d`, at any depth, is blind to it. */
  lemma {:induction false} SubqueryBlind(st: Store, q: Handle, d: set<string>, w: World, g: Graph)
    requires Wf(st) && Shaped(st) && Known(st, q) && Overlooks(st, q, d)
    ensures Blinded(st, q, d, w, g)
    decreases Rk(st, q)
  {
    if d == {} {
      SameBlind(st, q, w, g);
    } else {
      var x :| x in d;
      assert !Sees(st, q, x);
      var v := DeepBelow(st, w, g, Rk(st, q));
      QueryListed(st, q);
      ReadVisited(st, q);
      SubVisitsBelow(st, q);
      hide Wf, Shaped, ReadVisits, SubVisits, QueryExprs, SubValue, PathRows, DeepBelow, Blinded, QueryBinds, Exprs,
        Names, NamesAll;
      forall e | e in QueryExprs(QueryOf(st, q)) ensures Unseen(e, d, v) {
        var s :| s in ReadVisits(st, q) && e in Exprs(st, s);
        OverlookedNames(st, q, d, s, e);
        forall n | n in Names(e) && (n.Nested? || n.Along?)
          ensures Rk(st, Inner(n)) < Rk(st, q) && Blinded(st, Inner(n), d, w, g)
        {
          OverlookedBelow(st, q, d, s, e, n);
          SubqueryBlind(st, Inner(n), d, w, g);
        }
        BelowBlind(st, q, d, w, g, Names(e));
      }
      OverlookedBinds(st, q, d);
      AnswerBlind(st, q, d, w, g);
    }
  }

  lemma OverlookedNames(st: Store, q: Handle, d: set<string>, s: Handle, e: Expr)
    requires Wf(st) && Overlooks(st, q, d) && s in ReadVisits(st, q) && e in Exprs(st, s)
    ensures Free(Names(e), d)
  {
    hide Exprs, ReadVisits, Names, NamesAll;
    var es := Exprs(st, s);
    var k :| 0 <= k < |es| && es[k] == e;
    NamesMember(es, k);
    forall x | x in d ensures Variable(x) !in Names(e) { assert !Sees(st, q, x); }
  }

  lemma OverlookedBinds(st: Store, q: Handle, d: set<string>)
    requires Wf(st) && Overlooks(st, q, d)
    ensures QueryBinds(QueryOf(st, q)) !! d
  {
    hide QueryOf, QueryBinds, Below, ReadVisits;
    forall x | x in d ensures x !in QueryBinds(QueryOf(st, q)) { assert !Sees(st, q, x); }
  }

  lemma OverlookedBelow(st: Store, q: Handle, d: set<string>, s: Handle, e: Expr, n: Name)
    requires Wf(st) && Known(st, s) && Rk(st, s) <= Rk(st, q) && Overlooks(st, q, d)
    requires s in ReadVisits(st, q) && e in Exprs(st, s) && n in Names(e) && (n.Nested? || n.Along?)
    ensures Known(st, Inner(n)) && Rk(st, Inner(n)) < Rk(st, q) && Overlooks(st, Inner(n), d)
  {
    hide Exprs, ReadVisits, Names, NamesAll, QueryOf;
    var es := Exprs(st, s);
    var k :| 0 <= k < |es| && es[k] == e;
    NamesMember(es, k);
    NestedInSlot(st, s, n);
    assert Below(st, q, n);
    forall x | x in d ensures !Sees(st, Inner(n), x) { assert !Sees(st, q, x); }
  }

  lemma AnswerBlind(st: Store, q: Handle, d: set<string>, w: World, g: Graph)
    requires Wf(st) && QueryUnseen(QueryOf(st, q), d, DeepBelow(st, w, g, Rk(st, q)))
    ensures Blinded(st, q, d, w, g)
  {
    var x, v := QueryOf(st, q), DeepBelow(st, w, g, Rk(st, q));
    assert !x.QOther?;
    hide QueryUnseen, QueryAnswer, DeepBelow, QueryOf, Off;
    forall r1, r2, f | f <= d && Off(r1, r2, f)
      ensures PathsOff(QueryAnswer(x, r1, v, g), QueryAnswer(x, r2, v, g), f)
    {
      UnseenLess(x, d, f, v);
      QueryBlind(x, f, r1, r2, v, g);
    }
    forall c, r1, r2 | Off(r1, r2, d) ensures SubValue(st, c, q, r1, w, g) == SubValue(st, c, q, r2, w, g) {
      var o, p := QueryAnswer(x, r1, v, g), QueryAnswer(x, r2, v, g);
      assert PathsOff(o, p, d);
      assert o.Some? ==> |o.value| == |p.value|;
    }
  }

  lemma SameBlind(st: Store, q: Handle, w: World, g: Graph)
    requires Wf(st)
    ensures Blinded(st, q, {}, w, g)
  {
    hide SubValue, PathRows;
    forall c, r1, r2 | Off(r1, r2, {}) ensures SubValue(st, c, q, r1, w, g) == SubValue(st, c, q, r2, w, g) {
      OffNothing(r1, r2);
    }
    forall r1, r2, f | f <= {} && Off(r1, r2, f)
      ensures PathsOff(PathRows(st, q, r1, w, g), PathRows(st, q, r2, w, g), f)
    {
      assert f == {};
      OffNothing(r1, r2);
    }
  }

  lemma OffNothing(r1: Row, r2: Row)
    requires Off(r1, r2, {})
    ensures r1 == r2
  {
    assert r1.Keys == r2.Keys;
  }

  // ---------- Folding in place makes nothing visible ----------

  lemma {:induction false} PathsBindSame(ps: seq<PathPat>, qs: seq<PathPat>, w: World, v: World)
    requires PathsImprove(ps, qs, w, v)
    ensures PathsVars(qs) == PathsVars(ps)
    decreases |ps|
  {
    hide AllImprove;
    if ps != [] {
      PathsBindSame(ps[1..], qs[1..], w, v);
      PathBindSame(ps[0], qs[0], w, v);
    }
  }

  lemma PathBindSame(p: PathPat, q: PathPat, w: World, v: World)
    requires PathImproves(p, q, w, v)
    ensures PathVars(q) == PathVars(p)
  {
    hide AllImprove;
    if p.Chain? { EdgesBindSame(p.edges, q.edges, w, v); }
  }

  lemma {:induction false} EdgesBindSame(es: seq<EdgePat>, fs: seq<EdgePat>, w: World, v: World)
    requires EdgesImprove(es, fs, w, v)
    ensures EdgesVars(fs) == EdgesVars(es)
    decreases |es|
  {
    hide AllImprove;
    if es != [] {
      assert EdgeImproves(es[0], fs[0], w, v);
      EdgesBindSame(es[1..], fs[1..], w, v);
    }
  }

  lemma BindSame(p: Query, q: Query, w: World, v: World)
    requires QueryImproves(p, q, w, v)
    ensures QueryBinds(q) == QueryBinds(p) && (q.QOther? <==> p.QOther?)
  {
    hide Improves, AllImprove, PathsVars, PathVars, PathImproves, PathsImprove, ProjectionImproves, OptImproves;
    match p
    case QStatement(s) => StatementBindSame(s, q.statement, w, v);
    case QMatch(c) => PathsBindSame(c.paths, q.clause.paths, w, v);
    case QPath(x) => PathBindSame(x, q.path, w, v);
    case QOther =>
  }

  lemma StatementBindSame(s: Statement, t: Statement, w: World, v: World)
    requires StatementImproves(s, t, w, v)
    ensures QueryBinds(QStatement(t)) == QueryBinds(QStatement(s))
  {
    hide Improves, MatchesBinds, MatchImproves, LinearImproves, ProjectionImproves;
    MatchesBindSame(s.matches, t.matches, w, v);
    LinearBindSame(s.linear, t.linear, w, v);
    assert forall k :: 0 <= k < |s.unwinds| ==> s.unwinds[k] in s.unwinds && t.unwinds[k] in t.unwinds;
    assert (set u | u in t.unwinds :: u.alias) == (set u | u in s.unwinds :: u.alias);
  }

  lemma MatchesBindSame(cs: seq<MatchCl>, ds: seq<MatchCl>, w: World, v: World)
    requires |cs| == |ds| && forall k :: 0 <= k < |cs| ==> MatchImproves(cs[k], ds[k], w, v)
    ensures MatchesBinds(ds) == MatchesBinds(cs)
  {
    hide PathsVars, PathsImprove, OptImproves;
    forall k | 0 <= k < |cs| ensures PathsVars(ds[k].paths) == PathsVars(cs[k].paths) {
      assert MatchImproves(cs[k], ds[k], w, v);
      PathsBindSame(cs[k].paths, ds[k].paths, w, v);
    }
    assert forall k :: 0 <= k < |cs| ==> cs[k] in cs && ds[k] in ds;
  }

  lemma LinearBindSame(ls: seq<Linear>, ms: seq<Linear>, w: World, v: World)
    requires |ls| == |ms| && forall k :: 0 <= k < |ls| ==> LinearImproves(ls[k], ms[k], w, v)
    ensures (set l | l in ms && l.Let? :: l.variable) == set l | l in ls && l.Let? :: l.variable
  {
    hide Improves;
    forall k | 0 <= k < |ls|
      ensures ls[k] in ls && ms[k] in ms && (ls[k].Let? <==> ms[k].Let?)
        && (ls[k].Let? ==> ms[k].variable == ls[k].variable)
    {
      assert LinearImproves(ls[k], ms[k], w, v);
    }
  }

  lemma ReadKept(a: Store, b: Store, z: Zone, q: Handle)
    requires Keeps(a, b, z) && InZone(z, q) && Known(a, q)
    ensures ReadVisits(b, q) == ReadVisits(a, q)
  {
    assert KeptAt(a, b, q);
    var n := NodeAt(a, q);
    SkeletonLists(n, NodeAt(b, q));
    SkeletonKind(n, NodeAt(b, q));
    SubVisitsKept(a, b, z, q);
    if n.QueryStatement? {
      AllVisitsKept(a, b, z, Clauses, n.unwinds, q);
      AllVisitsKept(a, b, z, Clauses, n.matches, q);
      AllVisitsKept(a, b, z, Clauses, n.withs, q);
      AllVisitsKept(a, b, z, Clauses, n.linear, q);
      hide Keeps, AllVisits;
    }
  }

  /** What a query sees after it was folded in place, it saw before. */
  lemma {:induction false} SeesEarlier(a: Store, b: Store, z: Zone, vs: seq<Handle>, q: Handle, x: string, w: World,
                                       g: Graph)
    requires Renews(a, b, z, vs) && Known(a, q) && InZone(z, q) && DeepGuarded(a, vs, q) && Wf(a) && Wf(b)
      && Sees(b, q, x)
    ensures Sees(a, q, x)
    decreases Rk(a, q)
  {
    RenewsStart(a, b, z, vs);
    SubqueryGains(a, b, z, vs, q, w, g);
    ReadKept(a, b, z, q);
    ReadVisited(a, q);
    SubVisitsIn(a, z, q);
    SubVisitsBelow(a, q);
    hide Renews, Keeps, Wf, Start, DeepGuarded, ReadVisits, SubVisits, Exprs, Names, NamesAll, QueryOf, QueryBinds,
      DeepBelow, QueryImproves;
    BindSame(QueryOf(a, q), QueryOf(b, q), DeepBelow(a, w, g, Rk(a, q)), DeepBelow(b, w, g, Rk(b, q)));
    if s :| s in ReadVisits(b, q) && Variable(x) in NamesAll(Exprs(b, s)) {
      SlotNames(a, b, z, s, Variable(x));
    } else if n :| Below(b, q, n) && Rk(b, Inner(n)) < Rk(b, q) && Sees(b, Inner(n), x) {
      var s :| s in ReadVisits(b, q) && n in NamesAll(Exprs(b, s));
      SlotNames(a, b, z, s, n);
      NestedInside(a, z, s, n);
      GuardedBelow(a, vs, q, s, n);
      SeesEarlier(a, b, z, vs, Inner(n), x, w, g);
      assert Below(a, q, n);
    }
  }

  lemma SlotNames(a: Store, b: Store, z: Zone, s: Handle, n: Name)
    requires Keeps(a, b, z) && Known(a, s) && InZone(z, s) && Wf(a) && Wf(b) && n in NamesAll(Exprs(b, s))
    ensures n in NamesAll(Exprs(a, s))
  {
    hide Exprs, NamesAll;
    KeptIn(a, b, z, s);
    var k: nat :| Refolded(a, b, s, k);
    FoldAllByShrinks(k, Exprs(a, s), 0, _ => 0);
  }

  lemma NestedInside(a: Store, z: Zone, s: Handle, n: Name)
    requires Start(a, z) && Known(a, s) && InZone(z, s) && n in NamesAll(Exprs(a, s)) && (n.Nested? || n.Along?)
    ensures Known(a, Inner(n)) && InZone(z, Inner(n)) && Rk(a, Inner(n)) < Rk(a, s)
  {
    hide NamesAll, Exprs;
    SlotIn(a, z, s);
    NestedInSlot(a, s, n);
  }
}
