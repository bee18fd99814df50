/** Exactly which conjuncts pushdown moves, where each goes, and that none is lost or left behind. */
module PushdownExact {
  import opened Common
  import opened Ast
  import opened Trees
  import opened Clauses
  import opened Pushdown

  // ---------- What can be moved ----------

  /** Nothing but literals, parameters, calls, unary operators and lists, at any depth. */
  predicate Closed(e: Expr) {
    match e
    case ECall(_, args) => forall a :: a in args ==> Closed(a)
    case EListLit(es) => forall a :: a in es ==> Closed(a)
    case EUn(_, x) => Closed(x)
    case _ => e.ELit? || e.EParam?
  }

  lemma {:induction false} ClosedIff(e: Expr)
    ensures IsConstant(e) <==> Closed(e)
  {
    match e
    case ECall(_, args) =>
      forall k | 0 <= k < |args| ensures IsConstant(args[k]) <==> Closed(args[k]) { ClosedIff(args[k]); }
      assert forall a :: a in args ==> exists k :: 0 <= k < |args| && args[k] == a;
    case EListLit(es) =>
      forall k | 0 <= k < |es| ensures IsConstant(es[k]) <==> Closed(es[k]) { ClosedIff(es[k]); }
      assert forall a :: a in es ==> exists k :: 0 <= k < |es| && es[k] == a;
    case EUn(_, x) => ClosedIff(x);
    case _ =>
  }

  /** `x.q = c` or `c = x.q` for a closed `c`. */
  ghost predicate Selects(p: Expr, x: string) {
    exists q, c :: Closed(c) && (p == EBin(Eq, EProp(EIdent(x), q), c) || p == EBin(Eq, c, EProp(EIdent(x), q)))
  }

  lemma SelectsIff(p: Expr, x: string)
    ensures HoistVar(p) == Some(x) <==> Selects(p, x)
  {
    if HoistVar(p) == Some(x) {
      ClosedIff(p.left);
      ClosedIff(p.right);
      if p.left.EProp? && IsConstant(p.right) {
        assert p == EBin(Eq, EProp(EIdent(x), p.left.property), p.right);
      } else {
        assert p == EBin(Eq, p.left, EProp(EIdent(x), p.right.property));
      }
    }
    if Selects(p, x) {
      var q, c :| Closed(c) && (p == EBin(Eq, EProp(EIdent(x), q), c) || p == EBin(Eq, c, EProp(EIdent(x), q)));
      ClosedIff(c);
    }
  }

  // ---------- The node patterns of a clause ----------

  function Ends(es: seq<EdgePat>): seq<NodePat> {
    if es == [] then [] else [es[0].target] + Ends(es[1..])
  }

  function Nodes(ps: seq<PathPat>): seq<NodePat> {
    if ps == [] then [] else NodesIn(ps[0]) + Nodes(ps[1..])
  }

  function NodesIn(p: PathPat): seq<NodePat> {
    match p
    case Single(n) => [n]
    case Chain(_, _, s, es) => [s] + Ends(es)
  }

  function BareNode(n: NodePat): NodePat {
    n.(preds := [])
  }

  function BareEdges(es: seq<EdgePat>): seq<EdgePat> {
    if es == [] then [] else [es[0].(target := BareNode(es[0].target))] + BareEdges(es[1..])
  }

  /** The paths without the predicates of their nodes. */
  function Bare(ps: seq<PathPat>): seq<PathPat> {
    if ps == [] then [] else [BarePath(ps[0])] + Bare(ps[1..])
  }

  function BarePath(p: PathPat): PathPat {
    match p
    case Single(n) => Single(BareNode(n))
    case Chain(v, m, s, es) => Chain(v, m, BareNode(s), BareEdges(es))
  }

  ghost predicate Named(ns: seq<NodePat>, x: string) {
    exists k :: 0 <= k < |ns| && ns[k].variable == Some(x)
  }

  /** The first node called `x` has taken the predicate, and the others are as they were. */
  ghost predicate TakesAt(a: seq<NodePat>, b: seq<NodePat>, x: string, p: Expr, k: nat) {
    && k < |a| && a[k].variable == Some(x) && b == a[k := a[k].(preds := a[k].preds + [p])]
    && forall i :: 0 <= i < k ==> a[i].variable != Some(x)
  }

  ghost predicate Takes(a: seq<NodePat>, b: seq<NodePat>, x: string, p: Expr) {
    exists k :: TakesAt(a, b, x, p, k)
  }

  lemma NamedJoin(a: seq<NodePat>, b: seq<NodePat>, x: string)
    ensures Named(a + b, x) <==> Named(a, x) || Named(b, x)
  {
    if Named(a, x) {
      var k :| 0 <= k < |a| && a[k].variable == Some(x);
      assert (a + b)[k] == a[k];
    }
    if Named(b, x) {
      var k :| 0 <= k < |b| && b[k].variable == Some(x);
      assert (a + b)[|a| + k] == b[k];
    }
    if Named(a + b, x) {
      var k :| 0 <= k < |a + b| && (a + b)[k].variable == Some(x);
      assert if k < |a| then a[k].variable == Some(x) else b[k - |a|].variable == Some(x);
    }
  }

  lemma TakesLeft(a: seq<NodePat>, b: seq<NodePat>, c: seq<NodePat>, x: string, p: Expr)
    requires Takes(a, b, x, p)
    ensures Takes(a + c, b + c, x, p)
  {
    var k :| TakesAt(a, b, x, p, k);
    assert TakesAt(a + c, b + c, x, p, k);
  }

  lemma TakesRight(a: seq<NodePat>, b: seq<NodePat>, c: seq<NodePat>, x: string, p: Expr)
    requires Takes(a, b, x, p) && !Named(c, x)
    ensures Takes(c + a, c + b, x, p)
  {
    var k :| TakesAt(a, b, x, p, k);
    var m := |c| + k;
    assert c + b == (c + a)[m := (c + a)[m].(preds := (c + a)[m].preds + [p])];
    assert TakesAt(c + a, c + b, x, p, m);
  }

  lemma TakesOne(n: NodePat, x: string, p: Expr)
    ensures HoistNode(n, x, p).Some? <==> Named([n], x)
    ensures HoistNode(n, x, p).Some? ==>
      Takes([n], [HoistNode(n, x, p).value], x, p) && BareNode(HoistNode(n, x, p).value) == BareNode(n)
  {
    assert [n][0] == n;
    if HoistNode(n, x, p).Some? { assert TakesAt([n], [HoistNode(n, x, p).value], x, p, 0); }
  }

  lemma {:induction false} EdgesTake(es: seq<EdgePat>, x: string, p: Expr)
    ensures HoistEdges(es, x, p).Some? <==> Named(Ends(es), x)
    ensures HoistEdges(es, x, p).Some? ==>
      var r := HoistEdges(es, x, p).value; Takes(Ends(es), Ends(r), x, p) && BareEdges(r) == BareEdges(es)
    decreases |es|
  {
    hide Named, Takes, BareNode;
    if es == [] {
      NoneNamed(x);
    } else {
      var n, rest := es[0].target, es[1..];
      TakesOne(n, x, p);
      EdgesTake(rest, x, p);
      NamedJoin([n], Ends(rest), x);
      if HoistEdges(es, x, p).Some? {
        var r := HoistEdges(es, x, p).value;
        if HoistNode(n, x, p).Some? {
          assert r[1..] == rest;
          TakesLeft([n], [HoistNode(n, x, p).value], Ends(rest), x, p);
        } else {
          assert r[1..] == HoistEdges(rest, x, p).value;
          TakesRight(Ends(rest), Ends(r[1..]), [n], x, p);
        }
      }
    }
  }

  lemma NoneNamed(x: string)
    ensures !Named([], x)
  {
  }

  lemma PathTakes(q: PathPat, x: string, p: Expr)
    ensures HoistPath(q, x, p).Some? <==> Named(NodesIn(q), x)
    ensures HoistPath(q, x, p).Some? ==>
      var r := HoistPath(q, x, p).value; Takes(NodesIn(q), NodesIn(r), x, p) && BarePath(r) == BarePath(q)
  {
    hide Named, Takes, BareNode, Ends, HoistEdges, BareEdges;
    match q
    case Single(n) => TakesOne(n, x, p);
    case Chain(_, _, s, es) =>
      TakesOne(s, x, p);
      EdgesTake(es, x, p);
      NamedJoin([s], Ends(es), x);
      if HoistNode(s, x, p).Some? {
        TakesLeft([s], [HoistNode(s, x, p).value], Ends(es), x, p);
      } else if HoistEdges(es, x, p).Some? {
        TakesRight(Ends(es), Ends(HoistEdges(es, x, p).value), [s], x, p);
      }
  }

  /** A predicate goes to the first node of its name, if there is one, and nothing else changes. */
  lemma {:induction false} PathsTake(ps: seq<PathPat>, x: string, p: Expr)
    ensures HoistPaths(ps, x, p).Some? <==> Named(Nodes(ps), x)
    ensures HoistPaths(ps, x, p).Some? ==>
      var r := HoistPaths(ps, x, p).value; Takes(Nodes(ps), Nodes(r), x, p) && Bare(r) == Bare(ps)
    decreases |ps|
  {
    hide Named, Takes, BarePath, NodesIn, HoistPath;
    if ps == [] {
      NoneNamed(x);
    } else {
      var q, rest := ps[0], ps[1..];
      PathTakes(q, x, p);
      PathsTake(rest, x, p);
      NamedJoin(NodesIn(q), Nodes(rest), x);
      if HoistPaths(ps, x, p).Some? {
        var r := HoistPaths(ps, x, p).value;
        if HoistPath(q, x, p).Some? {
          assert r[1..] == rest;
          TakesLeft(NodesIn(q), NodesIn(r[0]), Nodes(rest), x, p);
        } else {
          assert r[1..] == HoistPaths(rest, x, p).value;
          TakesRight(Nodes(rest), Nodes(r[1..]), NodesIn(q), x, p);
        }
      }
    }
  }

  // ---------- Earlier clauses ----------

  /** The clause may be given a predicate about `x` by a later one. */
  ghost predicate Offers(c: MatchCl, x: string) {
    !c.optional && Named(Nodes(c.paths), x)
  }

  ghost predicate Offered(cs: seq<MatchCl>, x: string) {
    exists c :: c in cs && Offers(c, x)
  }

  /** Clause `i` is the nearest that offers `x`, its first node of that name has taken the predicate. */
  ghost predicate TakenBack(a: seq<MatchCl>, b: seq<MatchCl>, x: string, p: Expr, i: nat) {
    && i < |a| && |b| == |a| && Offers(a[i], x) && (forall j :: i < j < |a| ==> !Offers(a[j], x))
    && b == a[i := a[i].(paths := b[i].paths)]
    && Takes(Nodes(a[i].paths), Nodes(b[i].paths), x, p) && Bare(b[i].paths) == Bare(a[i].paths)
  }

  lemma {:induction false} BackTakes(prev: seq<MatchCl>, x: string, p: Expr)
    ensures HoistBack(prev, x, p).Some? <==> Offered(prev, x)
    ensures HoistBack(prev, x, p).Some? ==> exists i: nat :: TakenBack(prev, HoistBack(prev, x, p).value, x, p, i)
    decreases |prev|
  {
    hide Named, Takes, Nodes, Bare, HoistPaths;
    if prev != [] {
      var front, last := prev[..|prev| - 1], prev[|prev| - 1];
      assert prev == front + [last];
      BackTakes(front, x, p);
      PathsTake(last.paths, x, p);
      var h := HoistBack(prev, x, p);
      if Offers(last, x) {
        assert TakenBack(prev, h.value, x, p, |front|);
      } else if h.Some? {
        var r := HoistBack(front, x, p).value;
        var i: nat :| TakenBack(front, r, x, p, i);
        BackFurther(front, r, last, x, p, i);
      }
    }
  }

  lemma BackFurther(a: seq<MatchCl>, b: seq<MatchCl>, last: MatchCl, x: string, p: Expr, i: nat)
    requires TakenBack(a, b, x, p, i) && !Offers(last, x)
    ensures TakenBack(a + [last], b + [last], x, p, i)
  {
    hide Named, Takes, Nodes, Bare;
    assert (a + [last])[i] == a[i] && (b + [last])[i] == b[i];
    assert b + [last] == (a + [last])[i := b[i]];
  }

  // ---------- One conjunct ----------

  /** Some node of the clause, or of an earlier clause it may use, takes the conjunct. */
  ghost predicate Moves(p: Expr, x: string, prev: seq<MatchCl>, optional: bool, paths: seq<PathPat>) {
    Selects(p, x) && (Named(Nodes(paths), x) || (!optional && Offered(prev, x)))
  }

  ghost predicate Movable(p: Expr, prev: seq<MatchCl>, optional: bool, paths: seq<PathPat>) {
    exists x :: Moves(p, x, prev, optional, paths)
  }

  /**
   A conjunct about a property of `x` goes to the first node called `x` of its own clause; if there
   is none, and the clause is not optional, to that of the nearest earlier clause that is not
   optional; otherwise it stays, behind those that stay already.
   */
  lemma PushOneExact(g: Progress, optional: bool, p: Expr)
    ensures var r := PushOne(g, optional, p);
      && (!Movable(p, g.prev, optional, g.paths) ==> r == g.(left := g.left + [p]))
      && (forall x :: Moves(p, x, g.prev, optional, g.paths) && Named(Nodes(g.paths), x) ==>
            r == g.(paths := r.paths) && Takes(Nodes(g.paths), Nodes(r.paths), x, p) && Bare(r.paths) == Bare(g.paths))
      && (forall x :: Moves(p, x, g.prev, optional, g.paths) && !Named(Nodes(g.paths), x) ==>
            r == g.(prev := r.prev) && exists i: nat :: TakenBack(g.prev, r.prev, x, p, i))
  {
    hide Named, Takes, Nodes, Bare, HoistPaths, HoistBack, HoistVar, Selects;
    forall x ensures HoistVar(p) == Some(x) <==> Selects(p, x) { SelectsIff(p, x); }
    if HoistVar(p).Some? {
      var x := HoistVar(p).value;
      PathsTake(g.paths, x, p);
      BackTakes(g.prev, x, p);
      assert Moves(p, x, g.prev, optional, g.paths) <==> Movable(p, g.prev, optional, g.paths);
    }
  }

  // ---------- What stays ----------

  /** The conjuncts no node takes, in their order. */
  ghost function Staying(ps: seq<Expr>, prev: seq<MatchCl>, optional: bool, paths: seq<PathPat>): seq<Expr> {
    if ps == [] then []
    else (if Movable(ps[0], prev, optional, paths) then [] else [ps[0]]) + Staying(ps[1..], prev, optional, paths)
  }

  /** Neither the names of a clause nor what earlier clauses offer changes. */
  ghost predicate SameNames(a: seq<PathPat>, b: seq<PathPat>) {
    forall x :: Named(Nodes(a), x) <==> Named(Nodes(b), x)
  }

  ghost predicate SameOffers(a: seq<MatchCl>, b: seq<MatchCl>) {
    forall x :: Offered(a, x) <==> Offered(b, x)
  }

  lemma TakesNames(a: seq<NodePat>, b: seq<NodePat>, x: string, p: Expr, y: string)
    requires Takes(a, b, x, p)
    ensures Named(a, y) <==> Named(b, y)
  {
    var k :| TakesAt(a, b, x, p, k);
    assert forall i :: 0 <= i < |a| ==> a[i].variable == b[i].variable;
  }

  lemma BackOffers(a: seq<MatchCl>, b: seq<MatchCl>, x: string, p: Expr, i: nat)
    requires TakenBack(a, b, x, p, i)
    ensures SameOffers(a, b)
  {
    hide Named, Takes, Nodes, Bare;
    forall j, y | 0 <= j < |a| ensures Offers(a[j], y) <==> Offers(b[j], y) {
      if j == i { TakesNames(Nodes(a[i].paths), Nodes(b[i].paths), x, p, y); }
    }
    OffersAlike(a, b);
  }

  lemma OffersAlike(a: seq<MatchCl>, b: seq<MatchCl>)
    requires |a| == |b| && forall j, y :: 0 <= j < |a| ==> (Offers(a[j], y) <==> Offers(b[j], y))
    ensures SameOffers(a, b)
  {
    hide Offers;
    forall y ensures Offered(a, y) <==> Offered(b, y) {
      if c :| c in a && Offers(c, y) {
        var j :| 0 <= j < |a| && a[j] == c;
        assert b[j] in b && Offers(b[j], y);
      }
      if c :| c in b && Offers(c, y) {
        var j :| 0 <= j < |b| && b[j] == c;
        assert a[j] in a && Offers(a[j], y);
      }
    }
  }

  lemma PushOneNames(g: Progress, optional: bool, p: Expr)
    ensures var r := PushOne(g, optional, p); SameNames(g.paths, r.paths) && SameOffers(g.prev, r.prev)
  {
    hide Named, Takes, Nodes, Bare, Selects, Offers, PushOne;
    PushOneExact(g, optional, p);
    var r := PushOne(g, optional, p);
    if Movable(p, g.prev, optional, g.paths) {
      var x :| Moves(p, x, g.prev, optional, g.paths);
      if Named(Nodes(g.paths), x) {
        forall y ensures Named(Nodes(g.paths), y) <==> Named(Nodes(r.paths), y) {
          TakesNames(Nodes(g.paths), Nodes(r.paths), x, p, y);
        }
      } else {
        var i: nat :| TakenBack(g.prev, r.prev, x, p, i);
        BackOffers(g.prev, r.prev, x, p, i);
      }
    }
  }

  lemma MovableAlike(p: Expr, a: seq<MatchCl>, b: seq<MatchCl>, optional: bool, ps: seq<PathPat>, qs: seq<PathPat>)
    requires SameNames(ps, qs) && SameOffers(a, b)
    ensures Movable(p, a, optional, ps) <==> Movable(p, b, optional, qs)
  {
    hide Named, Offers, Nodes, Selects;
    if x :| Moves(p, x, a, optional, ps) { assert Moves(p, x, b, optional, qs); }
    if x :| Moves(p, x, b, optional, qs) { assert Moves(p, x, a, optional, ps); }
  }

  lemma {:induction false} StayingAlike(es: seq<Expr>, a: seq<MatchCl>, b: seq<MatchCl>, optional: bool,
                                        ps: seq<PathPat>, qs: seq<PathPat>)
    requires SameNames(ps, qs) && SameOffers(a, b)
    ensures Staying(es, a, optional, ps) == Staying(es, b, optional, qs)
    decreases |es|
  {
    hide SameNames, SameOffers, Movable;
    if es != [] {
      MovableAlike(es[0], a, b, optional, ps, qs);
      StayingAlike(es[1..], a, b, optional, ps, qs);
    }
  }

  /** The loop over the conjuncts leaves exactly those that no node takes. */
  lemma {:induction false} PushAllStays(g: Progress, optional: bool, ps: seq<Expr>)
    ensures var r := PushAll(g, optional, ps);
      && r.left == g.left + Staying(ps, g.prev, optional, g.paths)
      && SameNames(g.paths, r.paths) && SameOffers(g.prev, r.prev)
    decreases |ps|
  {
    hide PushOne, Named, Offers, Nodes, Movable, Takes, Bare;
    if ps != [] {
      var q := PushOne(g, optional, ps[0]);
      PushOneExact(g, optional, ps[0]);
      PushOneNames(g, optional, ps[0]);
      PushOneLeaves(g, optional, ps[0]);
      PushAllStays(q, optional, ps[1..]);
      StayingAlike(ps[1..], g.prev, q.prev, optional, g.paths, q.paths);
    }
  }

  lemma PushOneLeaves(g: Progress, optional: bool, p: Expr)
    ensures PushOne(g, optional, p).left ==
      g.left + if Movable(p, g.prev, optional, g.paths) then [] else [p]
  {
    hide PushOne, Named, Offers, Nodes, Takes, Bare, Selects;
    PushOneExact(g, optional, p);
    if x :| Moves(p, x, g.prev, optional, g.paths) {
      assert Named(Nodes(g.paths), x) || !Named(Nodes(g.paths), x);
    }
  }

  // ---------- The filter that remains ----------

  predicate Atom(e: Expr) {
    !(e.EBin? && e.op == And) && e != ELit(LBool(true))
  }

  lemma {:induction false} ConjunctsAtoms(e: Expr)
    ensures forall p :: p in Conjuncts(e) ==> Atom(p)
  {
    if e.EBin? && e.op == And {
      ConjunctsAtoms(e.left);
      ConjunctsAtoms(e.right);
    }
  }

  lemma {:induction false} ConjoinedBack(acc: Expr, es: seq<Expr>)
    requires forall p :: p in es ==> Atom(p)
    ensures Conjuncts(Conjoin(acc, es)) == Conjuncts(acc) + es
    decreases |es|
  {
    if es != [] {
      ConjoinedBack(EBin(And, acc, es[0]), es[1..]);
      assert Atom(es[0]) && Conjuncts(es[0]) == [es[0]];
      assert Conjuncts(acc) + [es[0]] + es[1..] == Conjuncts(acc) + es;
    }
  }

  function FilterConjuncts(o: Option<Expr>): seq<Expr> {
    if o.None? then [] else Conjuncts(o.value)
  }

  /** Taking the rebuilt filter apart gives the list it was built from. */
  lemma RebuiltBack(es: seq<Expr>)
    requires forall p :: p in es ==> Atom(p)
    ensures FilterConjuncts(RebuildFilter(es)) == es && (RebuildFilter(es).None? <==> es == [])
  {
    if es != [] {
      assert es == [es[0]] + es[1..];
      ConjoinedBack(es[0], es[1..]);
      assert Atom(es[0]) && Conjuncts(es[0]) == [es[0]];
    }
  }

  lemma {:induction false} StayingWithin(ps: seq<Expr>, prev: seq<MatchCl>, optional: bool, paths: seq<PathPat>)
    ensures forall p :: p in Staying(ps, prev, optional, paths) ==>
      p in ps && !Movable(p, prev, optional, paths)
    decreases |ps|
  {
    hide Movable;
    if ps != [] { StayingWithin(ps[1..], prev, optional, paths); }
  }

  /** The clause itself after its turn: its filter holds, in order, the conjuncts that no node takes. */
  lemma PushClauseExact(prev: seq<MatchCl>, c: MatchCl)
    requires c.filter.Some?
    ensures var r := PushClause(prev, c);
      && |r| > 0 && r[|r| - 1].optional == c.optional && SameNames(c.paths, r[|r| - 1].paths)
      && SameOffers(prev, r[..|r| - 1])
      && FilterConjuncts(r[|r| - 1].filter) == Staying(Conjuncts(c.filter.value), prev, c.optional, c.paths)
      && (r[|r| - 1].filter.None? <==> Staying(Conjuncts(c.filter.value), prev, c.optional, c.paths) == [])
  {
    hide PushAll, Staying, SameNames, SameOffers, Conjuncts, RebuildFilter;
    var g, ps := Progress(prev, c.paths, []), Conjuncts(c.filter.value);
    var q := PushAll(g, c.optional, ps);
    PushAllStays(g, c.optional, ps);
    assert [] + Staying(ps, prev, c.optional, c.paths) == Staying(ps, prev, c.optional, c.paths);
    StayingWithin(ps, prev, c.optional, c.paths);
    ConjunctsAtoms(c.filter.value);
    RebuiltBack(q.left);
    var r := PushClause(prev, c);
    assert r == q.prev + [MatchCl(c.optional, q.paths, RebuildFilter(q.left))];
    assert r[..|r| - 1] == q.prev;
  }

  // ---------- The whole statement ----------

  /** The clauses, pushed predicates aside. */
  ghost predicate Alike(a: seq<MatchCl>, b: seq<MatchCl>) {
    |a| == |b| && forall j :: 0 <= j < |a| ==>
      a[j].optional == b[j].optional && a[j].filter == b[j].filter && SameNames(a[j].paths, b[j].paths)
  }

  lemma AlikeOffers(a: seq<MatchCl>, b: seq<MatchCl>, n: nat)
    requires Alike(a, b) && n <= |a|
    ensures SameOffers(a[..n], b[..n])
  {
    hide Nodes;
    OffersAlike(a[..n], b[..n]);
  }

  lemma AlikeTransitive(a: seq<MatchCl>, b: seq<MatchCl>, c: seq<MatchCl>)
    requires Alike(a, b) && Alike(b, c)
    ensures Alike(a, c)
  {
    hide Nodes, Named;
  }

  lemma PushOneAlike(g: Progress, optional: bool, p: Expr)
    ensures Alike(g.prev, PushOne(g, optional, p).prev)
  {
    hide PushOne, Named, Takes, Nodes, Bare, Selects, Offers;
    PushOneExact(g, optional, p);
    var r := PushOne(g, optional, p);
    if Movable(p, g.prev, optional, g.paths) {
      var x :| Moves(p, x, g.prev, optional, g.paths);
      if !Named(Nodes(g.paths), x) {
        var i: nat :| TakenBack(g.prev, r.prev, x, p, i);
        forall y ensures Named(Nodes(g.prev[i].paths), y) <==> Named(Nodes(r.prev[i].paths), y) {
          TakesNames(Nodes(g.prev[i].paths), Nodes(r.prev[i].paths), x, p, y);
        }
      }
    }
  }

  lemma {:induction false} PushAllAlike(g: Progress, optional: bool, ps: seq<Expr>)
    ensures Alike(g.prev, PushAll(g, optional, ps).prev)
    decreases |ps|
  {
    hide PushOne, Named, Nodes;
    if ps != [] {
      PushOneAlike(g, optional, ps[0]);
      PushAllAlike(PushOne(g, optional, ps[0]), optional, ps[1..]);
      AlikeTransitive(g.prev, PushOne(g, optional, ps[0]).prev, PushAll(g, optional, ps).prev);
    }
  }

  /** No filter of the clauses holds a conjunct that some node could take. */
  ghost predicate Drained(cs: seq<MatchCl>) {
    forall i, p :: 0 <= i < |cs| && p in FilterConjuncts(cs[i].filter) ==>
      !Movable(p, cs[..i], cs[i].optional, cs[i].paths)
  }

  lemma DrainedAlike(a: seq<MatchCl>, b: seq<MatchCl>)
    requires Drained(a) && Alike(a, b)
    ensures Drained(b)
  {
    hide Movable, FilterConjuncts, SameNames, SameOffers;
    forall i, p | 0 <= i < |b| && p in FilterConjuncts(b[i].filter)
      ensures !Movable(p, b[..i], b[i].optional, b[i].paths)
    {
      AlikeOffers(a, b, i);
      MovableAlike(p, a[..i], b[..i], b[i].optional, a[i].paths, b[i].paths);
    }
  }

  lemma PushClauseDrains(done: seq<MatchCl>, c: MatchCl)
    requires Drained(done)
    ensures Drained(PushClause(done, c))
  {
    hide Movable, FilterConjuncts, SameNames, SameOffers, PushAll, Alike, Drained, RebuildFilter, Conjuncts;
    var r := PushClause(done, c);
    var last := r[|r| - 1];
    if c.filter.None? {
      assert r[..|r| - 1] == done;
      NoConjuncts();
    } else {
      var g, ps := Progress(done, c.paths, []), Conjuncts(c.filter.value);
      PushAllAlike(g, c.optional, ps);
      assert r[..|r| - 1] == PushAll(g, c.optional, ps).prev;
      DrainedAlike(done, r[..|r| - 1]);
      PushClauseExact(done, c);
      StayingWithin(ps, done, c.optional, c.paths);
      forall p | p in FilterConjuncts(last.filter) ensures !Movable(p, r[..|r| - 1], last.optional, last.paths) {
        MovableAlike(p, done, r[..|r| - 1], c.optional, c.paths, last.paths);
      }
    }
    DrainedSnoc(r[..|r| - 1], last);
    assert r == r[..|r| - 1] + [last];
  }

  lemma NoConjuncts()
    ensures FilterConjuncts(None) == []
  {
  }

  lemma DrainedSnoc(a: seq<MatchCl>, last: MatchCl)
    requires Drained(a) && forall p :: p in FilterConjuncts(last.filter) ==> !Movable(p, a, last.optional, last.paths)
    ensures Drained(a + [last])
  {
    hide Movable, FilterConjuncts;
    var b := a + [last];
    forall i, p | 0 <= i < |b| && p in FilterConjuncts(b[i].filter)
      ensures !Movable(p, b[..i], b[i].optional, b[i].paths)
    {
      assert b[..i] == a[..i];
      if i == |a| { assert a[..i] == a; }
    }
  }

  lemma {:induction false} PushMatchesDrains(done: seq<MatchCl>, rest: seq<MatchCl>)
    requires Drained(done)
    ensures Drained(PushMatches(done, rest))
    decreases |rest|
  {
    hide Drained, PushClause;
    if rest != [] {
      PushClauseDrains(done, rest[0]);
      PushMatchesDrains(PushClause(done, rest[0]), rest[1..]);
    }
  }

  // ---------- Nothing is lost ----------

  ghost function NodePreds(ns: seq<NodePat>): multiset<Expr> {
    if ns == [] then multiset{} else multiset(ns[0].preds) + NodePreds(ns[1..])
  }

  /** The predicates of a clause: those of its nodes, and the conjuncts of its filter. */
  ghost function Load(c: MatchCl): multiset<Expr> {
    NodePreds(Nodes(c.paths)) + multiset(FilterConjuncts(c.filter))
  }

  ghost function Loads(cs: seq<MatchCl>): multiset<Expr> {
    if cs == [] then multiset{} else Load(cs[0]) + Loads(cs[1..])
  }

  lemma {:induction false} TakesLoad(a: seq<NodePat>, b: seq<NodePat>, p: Expr, k: nat)
    requires k < |a| && b == a[k := a[k].(preds := a[k].preds + [p])]
    ensures NodePreds(b) == NodePreds(a) + multiset{p}
    decreases |a|
  {
    if k == 0 {
      assert b[1..] == a[1..];
    } else {
      assert b[1..] == a[1..][k - 1 := a[k].(preds := a[k].preds + [p])];
      TakesLoad(a[1..], b[1..], p, k - 1);
    }
  }

  lemma {:induction false} LoadsUpdate(a: seq<MatchCl>, b: seq<MatchCl>, p: Expr, i: nat)
    requires i < |a| && |b| == |a| && b == a[i := b[i]] && Load(b[i]) == Load(a[i]) + multiset{p}
    ensures Loads(b) == Loads(a) + multiset{p}
    decreases |a|
  {
    hide Load;
    if i == 0 {
      assert b[1..] == a[1..];
    } else {
      assert b[1..] == a[1..][i - 1 := b[1..][i - 1]];
      LoadsUpdate(a[1..], b[1..], p, i - 1);
    }
  }

  lemma {:induction false} LoadsSnoc(a: seq<MatchCl>, last: MatchCl)
    ensures Loads(a + [last]) == Loads(a) + Load(last)
    decreases |a|
  {
    hide Load;
    if a == [] {
      assert a + [last] == [last] && [last][1..] == [];
    } else {
      assert (a + [last])[1..] == a[1..] + [last];
      LoadsSnoc(a[1..], last);
    }
  }

  ghost function Carried(g: Progress): multiset<Expr> {
    Loads(g.prev) + NodePreds(Nodes(g.paths)) + multiset(g.left)
  }

  lemma PushOneCarries(g: Progress, optional: bool, p: Expr)
    ensures Carried(PushOne(g, optional, p)) == Carried(g) + multiset{p}
  {
    hide PushOne, Named, Nodes, Bare, Selects, Offers, NodePreds, FilterConjuncts, Loads;
    PushOneExact(g, optional, p);
    var r := PushOne(g, optional, p);
    if Movable(p, g.prev, optional, g.paths) {
      var x :| Moves(p, x, g.prev, optional, g.paths);
      if Named(Nodes(g.paths), x) {
        var k :| TakesAt(Nodes(g.paths), Nodes(r.paths), x, p, k);
        TakesLoad(Nodes(g.paths), Nodes(r.paths), p, k);
      } else {
        var i: nat :| TakenBack(g.prev, r.prev, x, p, i);
        var k :| TakesAt(Nodes(g.prev[i].paths), Nodes(r.prev[i].paths), x, p, k);
        TakesLoad(Nodes(g.prev[i].paths), Nodes(r.prev[i].paths), p, k);
        LoadsUpdate(g.prev, r.prev, p, i);
      }
    }
  }

  lemma {:induction false} PushAllCarries(g: Progress, optional: bool, ps: seq<Expr>)
    ensures Carried(PushAll(g, optional, ps)) == Carried(g) + multiset(ps)
    decreases |ps|
  {
    hide PushOne, Carried;
    if ps != [] {
      PushOneCarries(g, optional, ps[0]);
      PushAllCarries(PushOne(g, optional, ps[0]), optional, ps[1..]);
      assert ps == [ps[0]] + ps[1..];
    }
  }

  lemma PushClauseCarries(prev: seq<MatchCl>, c: MatchCl)
    ensures Loads(PushClause(prev, c)) == Loads(prev) + Load(c)
  {
    hide PushAll, Loads, NodePreds, Nodes, Conjuncts, RebuildFilter, Staying;
    if c.filter.None? {
      LoadsSnoc(prev, c);
    } else {
      var g, ps := Progress(prev, c.paths, []), Conjuncts(c.filter.value);
      var q := PushAll(g, c.optional, ps);
      PushAllCarries(g, c.optional, ps);
      LoadsSnoc(q.prev, MatchCl(c.optional, q.paths, RebuildFilter(q.left)));
      PushAllStays(g, c.optional, ps);
      StayingWithin(ps, prev, c.optional, c.paths);
      ConjunctsAtoms(c.filter.value);
      assert [] + Staying(ps, prev, c.optional, c.paths) == Staying(ps, prev, c.optional, c.paths);
      RebuiltBack(q.left);
      var last := MatchCl(c.optional, q.paths, RebuildFilter(q.left));
      assert Load(last) == NodePreds(Nodes(q.paths)) + multiset(q.left);
      assert Load(c) == NodePreds(Nodes(c.paths)) + multiset(ps);
      assert multiset(g.left) == multiset{};
      assert PushClause(prev, c) == q.prev + [last];
      assert Loads(q.prev) + Load(last) == Carried(q);
      assert Carried(g) == Loads(prev) + NodePreds(Nodes(c.paths));
    }
  }

  lemma {:induction false} PushMatchesCarries(done: seq<MatchCl>, rest: seq<MatchCl>)
    ensures Loads(PushMatches(done, rest)) == Loads(done) + Loads(rest)
    decreases |rest|
  {
    hide PushClause, Load;
    if rest != [] {
      PushClauseCarries(done, rest[0]);
      PushMatchesCarries(PushClause(done, rest[0]), rest[1..]);
    }
  }

  /**
   The pass as a whole: no conjunct that a node could take is left in a filter, and every predicate
   is still there exactly as often as before.
   */
  lemma PushdownExhausts(cs: seq<MatchCl>)
    ensures Drained(PushMatches([], cs)) && Loads(PushMatches([], cs)) == Loads(cs)
  {
    PushMatchesDrains([], cs);
    PushMatchesCarries([], cs);
  }
}
