/** The slots a folding pass visits, in order, also through the subqueries below them. */
module Visiting {
  import opened Common
  import opened Ast
  import opened Trees
  import opened Clauses
  import opened FoldingLimits
  import opened Refining
  import opened FoldArena

  // ---------- The visits of each clause ----------

  ghost predicate Start(st: Store, z: Zone) {
    Wf(st) && Closed(st, z) && Shaped(st)
  }

  /** A node of one of the kinds the pass rewrites, or a missing one. */
  predicate Slot(st: Store, h: Handle) {
    h.Null? || (h.index < |st.nodes| && !IsExpression(st.nodes[h.index]))
  }

  /** The lists a statement is made of: SET items, edges, paths, clauses and mutations. */
  datatype Listing = Items | Edges | Paths | Clauses | Mutations

  function Level(k: Listing): nat {
    match k
    case Items => 0
    case Edges => 0
    case Paths => 1
    case Clauses => 2
    case Mutations => 2
  }

  function Target(st: Store, e: Handle): Handle {
    if NodeAt(st, e).EdgePattern? then NodeAt(st, e).targetNode else Null
  }

  /** The slots visited for one element of a list. */
  function Visits(st: Store, k: Listing, h: Handle): seq<Handle>
    decreases Level(k), 0, 0
  {
    match k
    case Items => [h]
    case Edges => [h, Target(st, h)]
    case Paths =>
      var n := NodeAt(st, h);
      if n.PathChain? then [n.startNode] + AllVisits(st, Edges, n.edges) else [h]
    case Clauses =>
      (match NodeAt(st, h)
       case MatchClause(_, ps, w) => AllVisits(st, Paths, ps) + OptSeq(w)
       case WithClause(_, _, _, _, _, w) => [h] + OptSeq(w)
       case _ => [h])
    case Mutations =>
      (match NodeAt(st, h)
       case SetClause(ss) => AllVisits(st, Items, ss)
       case MergeClause(p, c, m) => Visits(st, Paths, p) + (AllVisits(st, Items, c) + AllVisits(st, Items, m))
       case CreateClause(ps) => AllVisits(st, Paths, ps)
       case _ => if h.Null? then [h] else [])
  }

  function AllVisits(st: Store, k: Listing, hs: seq<Handle>): seq<Handle>
    decreases Level(k), 1, |hs|
  {
    if hs == [] then [] else AllVisits(st, k, hs[..|hs| - 1]) + Visits(st, k, hs[|hs| - 1])
  }

  function StatementVisits(st: Store, h: Handle): seq<Handle> {
    match NodeAt(st, h)
    case QueryStatement(_, c, us, ms, ls, ws, xs, r) =>
      OptSeq(c) + AllVisits(st, Clauses, us) + AllVisits(st, Clauses, ms) + AllVisits(st, Clauses, ws)
      + AllVisits(st, Clauses, ls) + AllVisits(st, Mutations, xs) + OptSeq(r)
    case _ => []
  }

  lemma AllVisitsStep(st: Store, k: Listing, hs: seq<Handle>, i: nat)
    requires i < |hs|
    ensures AllVisits(st, k, hs[..i + 1]) == AllVisits(st, k, hs[..i]) + Visits(st, k, hs[i])
  {
    assert hs[..i + 1][..i] == hs[..i];
  }

  lemma {:induction false} AllVisitsPrefix(st: Store, k: Listing, hs: seq<Handle>, i: nat)
    requires i <= |hs|
    ensures AllVisits(st, k, hs[..i]) <= AllVisits(st, k, hs)
    decreases |hs|
  {
    if i < |hs| {
      assert hs[..|hs| - 1][..i] == hs[..i];
      AllVisitsPrefix(st, k, hs[..|hs| - 1], i);
    } else {
      assert hs[..i] == hs;
    }
  }

  lemma EmptyVisits(st: Store, k: Listing, hs: seq<Handle>)
    ensures AllVisits(st, k, hs[..0]) == []
  {
  }

  lemma OwnedKnown(st: Store, owner: Handle, c: Handle)
    requires Wf(st) && c in Handles(NodeAt(st, owner))
    ensures Known(st, c) && Rk(st, c) < Rk(st, owner)
  {
    if owner.At? && owner.index < |st.nodes| {
      assert NodeLow(st, st.nodes[owner.index], st.rank[owner.index]);
    }
  }

  /** Nodes that carry lists of patterns or items carry nothing folding could replace. */
  lemma SkeletonLists(x: AstNode, y: AstNode)
    requires Skeleton(x) == Skeleton(y)
    ensures (x.PathChain? || x.MatchClause? || x.SetClause? || x.MergeClause? || x.CreateClause? || x.QueryStatement?)
            ==> y == x
    ensures (y.PathChain? || y.MatchClause? || y.SetClause? || y.MergeClause? || y.CreateClause? || y.QueryStatement?)
            ==> y == x
    ensures (x.WithClause? <==> y.WithClause?) && (x.WithClause? ==> x.wwhere == y.wwhere)
  {
  }

  lemma SlotLater(a: Store, b: Store, z: Zone, feet: set<nat>, h: Handle)
    requires Within(a, b, z, feet) && Slot(a, h)
    ensures Slot(b, h) && Rk(b, h) == Rk(a, h) && Skeleton(NodeAt(b, h)) == Skeleton(NodeAt(a, h))
    ensures Target(b, h) == Target(a, h)
  {
    RankKept(a, b, z, feet, h);
    KindsKept(a, b, z, feet, h);
    if h.At? { assert b.nodes[h.index] == b.nodes[h.index]; }
  }

  predicate Fits(st: Store, k: Listing, h: Handle) {
    match k
    case Items => NodeAt(st, h).SetItem?
    case Edges => NodeAt(st, h).EdgePattern?
    case Paths => h.Null? || NodeAt(st, h).NodePattern? || NodeAt(st, h).PathChain?
    case Clauses =>
      var n := NodeAt(st, h);
      n.UnwindClause? || n.MatchClause? || n.WithClause? || n.LetClause? || n.FilterClause?
    case Mutations => Slot(st, h)
  }

  /** The element, and the lists below it, fit their places. */
  lemma FitsParts(st: Store, k: Listing, h: Handle)
    requires Wf(st) && Shaped(st) && Fits(st, k, h)
    ensures Slot(st, h)
    ensures var n := NodeAt(st, h);
      && (k == Edges ==> Fits(st, Paths, Target(st, h)) && Rk(st, Target(st, h)) < Rk(st, h))
      && (n.PathChain? ==> Fits(st, Paths, n.startNode) && !NodeAt(st, n.startNode).PathChain?)
      && (n.PathChain? ==> forall e :: e in n.edges ==> Fits(st, Edges, e))
      && (n.MatchClause? ==> forall p :: p in n.paths ==> Fits(st, Paths, p))
      && (n.MatchClause? && n.mwhere.Some? ==> NodeAt(st, n.mwhere.value).WhereClause?)
      && (n.WithClause? && n.wwhere.Some? ==> NodeAt(st, n.wwhere.value).WhereClause?)
      && (n.SetClause? ==> forall i :: i in n.sitems ==> Fits(st, Items, i))
      && (n.MergeClause? ==> Fits(st, Paths, n.mpath))
      && (n.MergeClause? ==> forall i :: i in n.onCreate || i in n.onMatch ==> Fits(st, Items, i))
      && (n.CreateClause? ==> forall p :: p in n.cpaths ==> Fits(st, Paths, p))
    ensures forall c :: c in Handles(NodeAt(st, h)) && h.At? ==> Rk(st, c) < Rk(st, h)
  {
    if h.At? {
      var n := st.nodes[h.index];
      assert NodeShaped(st, n) && NodeLow(st, n, st.rank[h.index]);
      if n.EdgePattern? { assert n.targetNode in Handles(n); }
    }
  }

  lemma FitsLater(a: Store, b: Store, z: Zone, feet: set<nat>, k: Listing, h: Handle)
    requires Within(a, b, z, feet) && Fits(a, k, h) && Known(a, h)
    ensures Fits(b, k, h) && Rk(b, h) == Rk(a, h)
  {
    RankKept(a, b, z, feet, h);
    KindsKept(a, b, z, feet, h);
    SkeletonKind(NodeAt(b, h), NodeAt(a, h));
    if h.At? { assert b.nodes[h.index] == b.nodes[h.index]; }
  }

  /** In-place folding does not change which slots a later visit will reach. */
  lemma {:induction false} VisitsLater(a: Store, b: Store, z: Zone, feet: set<nat>, k: Listing, h: Handle)
    requires Within(a, b, z, feet) && Shaped(a) && Fits(a, k, h) && Known(a, h)
    ensures Visits(b, k, h) == Visits(a, k, h)
    decreases Level(k), 0, 0
  {
    FitsParts(a, k, h);
    SlotLater(a, b, z, feet, h);
    SkeletonLists(NodeAt(a, h), NodeAt(b, h));
    var n := NodeAt(a, h);
    match k
    case Items =>
    case Edges =>
    case Paths =>
      if n.PathChain? { AllVisitsLater(a, b, z, feet, Edges, n.edges, h); }
    case Clauses =>
      if n.MatchClause? { AllVisitsLater(a, b, z, feet, Paths, n.paths, h); }
    case Mutations =>
      if n.SetClause? {
        AllVisitsLater(a, b, z, feet, Items, n.sitems, h);
      } else if n.MergeClause? {
        assert n.mpath in Handles(n);
        AllVisitsLater(a, b, z, feet, Items, n.onCreate, h);
        AllVisitsLater(a, b, z, feet, Items, n.onMatch, h);
        VisitsLater(a, b, z, feet, Paths, n.mpath);
      } else if n.CreateClause? {
        AllVisitsLater(a, b, z, feet, Paths, n.cpaths, h);
      }
  }

  lemma {:induction false} AllVisitsLater(a: Store, b: Store, z: Zone, feet: set<nat>, k: Listing, hs: seq<Handle>,
                                          owner: Handle)
    requires Within(a, b, z, feet) && Shaped(a)
    requires forall h :: h in hs ==> Fits(a, k, h) && h in Handles(NodeAt(a, owner))
    ensures AllVisits(b, k, hs) == AllVisits(a, k, hs)
    decreases Level(k), 1, |hs|
  {
    if hs != [] {
      var last := hs[|hs| - 1];
      OwnedKnown(a, owner, last);
      AllVisitsLater(a, b, z, feet, k, hs[..|hs| - 1], owner);
      VisitsLater(a, b, z, feet, k, last);
    }
  }

  /** The lists of a statement hold what the statement's shape says. */
  lemma StatementParts(st: Store, h: Handle)
    requires Wf(st) && Shaped(st) && NodeAt(st, h).QueryStatement?
    ensures var n := NodeAt(st, h);
      && (n.loadCsv.Some? ==> n.loadCsv.value in Handles(n) && n.loadCsv.value.At? && Slot(st, n.loadCsv.value))
      && (n.resultClause.Some? ==>
            n.resultClause.value in Handles(n) && n.resultClause.value.At? && Slot(st, n.resultClause.value))
      && (forall c :: c in n.unwinds ==> Fits(st, Clauses, c) && c in Handles(n))
      && (forall c :: c in n.matches ==> Fits(st, Clauses, c) && c in Handles(n))
      && (forall c :: c in n.withs ==> Fits(st, Clauses, c) && c in Handles(n))
      && (forall c :: c in n.linear ==> Fits(st, Clauses, c) && c in Handles(n))
      && (forall c :: c in n.mutations ==> c in Handles(n))
  {
    assert NodeShaped(st, st.nodes[h.index]);
  }

  lemma MutationSlots(st: Store, h: Handle)
    requires Wf(st) && Shaped(st) && NodeAt(st, h).QueryStatement?
    ensures forall c :: c in NodeAt(st, h).mutations ==> Fits(st, Mutations, c)
  {
    assert NodeShaped(st, st.nodes[h.index]);
  }

  lemma ZoneChild(st: Store, z: Zone, owner: Handle, c: Handle)
    requires Start(st, z) && InZone(z, owner) && c in Handles(NodeAt(st, owner))
    ensures InZone(z, c) && Known(st, c)
  {
    OwnedKnown(st, owner, c);
    if owner.At? && owner.index < |st.nodes| { assert st.nodes[owner.index] == NodeAt(st, owner); }
  }

  lemma {:induction false} ZoneVisits(st: Store, z: Zone, k: Listing, h: Handle)
    requires Start(st, z) && InZone(z, h) && Known(st, h)
    ensures forall v :: v in Visits(st, k, h) ==> InZone(z, v) && Known(st, v)
    decreases Level(k), 0, 0
  {
    var n := NodeAt(st, h);
    match k
    case Items =>
    case Edges => if n.EdgePattern? { ZoneChild(st, z, h, n.targetNode); }
    case Paths =>
      if n.PathChain? {
        ZoneChild(st, z, h, n.startNode);
        ZoneAllVisits(st, z, Edges, n.edges, h);
      }
    case Clauses =>
      if n.MatchClause? {
        ZoneAllVisits(st, z, Paths, n.paths, h);
        if n.mwhere.Some? { ZoneChild(st, z, h, n.mwhere.value); }
      } else if n.WithClause? && n.wwhere.Some? {
        ZoneChild(st, z, h, n.wwhere.value);
      }
    case Mutations =>
      if n.SetClause? {
        ZoneAllVisits(st, z, Items, n.sitems, h);
      } else if n.MergeClause? {
        ZoneChild(st, z, h, n.mpath);
        ZoneVisits(st, z, Paths, n.mpath);
        ZoneAllVisits(st, z, Items, n.onCreate, h);
        ZoneAllVisits(st, z, Items, n.onMatch, h);
      } else if n.CreateClause? {
        ZoneAllVisits(st, z, Paths, n.cpaths, h);
      }
  }

  lemma {:induction false} ZoneAllVisits(st: Store, z: Zone, k: Listing, hs: seq<Handle>, owner: Handle)
    requires Start(st, z) && InZone(z, owner) && forall h :: h in hs ==> h in Handles(NodeAt(st, owner))
    ensures forall v :: v in AllVisits(st, k, hs) ==> InZone(z, v) && Known(st, v)
    decreases Level(k), 1, |hs|
  {
    if hs != [] {
      ZoneAllVisits(st, z, k, hs[..|hs| - 1], owner);
      ZoneChild(st, z, owner, hs[|hs| - 1]);
      ZoneVisits(st, z, k, hs[|hs| - 1]);
    }
  }

  lemma ZoneStatement(st: Store, z: Zone, h: Handle)
    requires Start(st, z) && InZone(z, h) && NodeAt(st, h).QueryStatement?
    ensures forall v :: v in StatementVisits(st, h) ==> InZone(z, v) && Known(st, v)
  {
    var n := NodeAt(st, h);
    if n.loadCsv.Some? { ZoneChild(st, z, h, n.loadCsv.value); }
    if n.resultClause.Some? { ZoneChild(st, z, h, n.resultClause.value); }
    ZoneAllVisits(st, z, Clauses, n.unwinds, h);
    ZoneAllVisits(st, z, Clauses, n.matches, h);
    ZoneAllVisits(st, z, Clauses, n.withs, h);
    ZoneAllVisits(st, z, Clauses, n.linear, h);
    ZoneAllVisits(st, z, Mutations, n.mutations, h);
  }

  // ---------- The slots of a subquery ----------

  /** The slots `fold_subquery` visits: those of a statement, a MATCH clause or a path. */
  function SubVisits(st: Store, q: Handle): seq<Handle> {
    var n := NodeAt(st, q);
    if n.QueryStatement? then StatementVisits(st, q)
    else if n.MatchClause? then Visits(st, Clauses, q)
    else if n.PathChain? || n.NodePattern? then Visits(st, Paths, q)
    else []
  }

  lemma {:induction false} VisitsBelow(st: Store, k: Listing, h: Handle)
    requires Wf(st) && Known(st, h)
    ensures forall v :: v in Visits(st, k, h) ==> Known(st, v) && Rk(st, v) <= Rk(st, h)
    decreases Level(k), 0, 0
  {
    var n := NodeAt(st, h);
    match k
    case Items =>
    case Edges => if n.EdgePattern? { OwnedKnown(st, h, n.targetNode); }
    case Paths =>
      if n.PathChain? {
        OwnedKnown(st, h, n.startNode);
        AllVisitsBelow(st, Edges, n.edges, h);
      }
    case Clauses =>
      if n.MatchClause? {
        AllVisitsBelow(st, Paths, n.paths, h);
        if n.mwhere.Some? { OwnedKnown(st, h, n.mwhere.value); }
      } else if n.WithClause? && n.wwhere.Some? {
        OwnedKnown(st, h, n.wwhere.value);
      }
    case Mutations =>
      if n.SetClause? {
        AllVisitsBelow(st, Items, n.sitems, h);
      } else if n.MergeClause? {
        OwnedKnown(st, h, n.mpath);
        VisitsBelow(st, Paths, n.mpath);
        AllVisitsBelow(st, Items, n.onCreate, h);
        AllVisitsBelow(st, Items, n.onMatch, h);
      } else if n.CreateClause? {
        AllVisitsBelow(st, Paths, n.cpaths, h);
      }
  }

  lemma {:induction false} AllVisitsBelow(st: Store, k: Listing, hs: seq<Handle>, owner: Handle)
    requires Wf(st) && forall h :: h in hs ==> h in Handles(NodeAt(st, owner))
    ensures forall v :: v in AllVisits(st, k, hs) ==> Known(st, v) && Rk(st, v) <= Rk(st, owner)
    decreases Level(k), 1, |hs|
  {
    if hs != [] {
      AllVisitsBelow(st, k, hs[..|hs| - 1], owner);
      OwnedKnown(st, owner, hs[|hs| - 1]);
      VisitsBelow(st, k, hs[|hs| - 1]);
    }
  }

  lemma SubVisitsBelow(st: Store, q: Handle)
    requires Wf(st) && Known(st, q)
    ensures forall v :: v in SubVisits(st, q) ==> Known(st, v) && Rk(st, v) <= Rk(st, q)
  {
    var n := NodeAt(st, q);
    if n.QueryStatement? {
      if n.loadCsv.Some? { OwnedKnown(st, q, n.loadCsv.value); }
      if n.resultClause.Some? { OwnedKnown(st, q, n.resultClause.value); }
      AllVisitsBelow(st, Clauses, n.unwinds, q);
      AllVisitsBelow(st, Clauses, n.matches, q);
      AllVisitsBelow(st, Clauses, n.withs, q);
      AllVisitsBelow(st, Clauses, n.linear, q);
      AllVisitsBelow(st, Mutations, n.mutations, q);
      hide AllVisits;
    } else {
      VisitsBelow(st, Clauses, q);
      VisitsBelow(st, Paths, q);
    }
  }

  lemma SubVisitsIn(st: Store, z: Zone, q: Handle)
    requires Start(st, z) && InZone(z, q) && Known(st, q)
    ensures forall v :: v in SubVisits(st, q) ==> InZone(z, v) && Known(st, v)
  {
    if NodeAt(st, q).QueryStatement? { ZoneStatement(st, z, q); }
    ZoneVisits(st, z, Clauses, q);
    ZoneVisits(st, z, Paths, q);
  }

  // ---------- Where the subqueries of an expression lie ----------

  /** A subquery, or the path of a comprehension. */
  function Inner(n: Name): Handle {
    match n case Nested(q) => q case Along(p) => p case _ => Null
  }

  /** The child of an expression node that brings in a nested name. */
  lemma NestedFrom(st: Store, h: Handle, n: Name) returns (c: Handle)
    requires Wf(st) && h.At? && h.index < |st.nodes| && (n.Nested? || n.Along?) && n in Names(TreeOf(st, h))
    ensures c in Handles(st.nodes[h.index]) && (c == Inner(n) || n in Names(TreeOf(st, c)))
  {
    var x := st.nodes[h.index];
    assert NodeLow(st, x, st.rank[h.index]);
    TreeParts(st, h);
    match x
    case PropertyAccess(t, _) => c := t;
    case BinaryExpression(l, _, r) => c := if n in Names(TreeOf(st, l)) then l else r;
    case UnaryExpression(_, e) => c := e;
    case FunctionCall(_, args) => c := NestedFromList(st, args, n);
    case ListLiteral(es) => c := NestedFromList(st, es, n);
    case CaseExpression(s, bs, e) => c := NestedFromCase(st, h, n);
    case ListComprehension(_, l, f, m) =>
      c := if n in Names(TreeOf(st, l)) then l
           else if f.Some? && n in Names(TreeOf(st, f.value)) then f.value
           else m.value;
    case PatternComprehension(p, f, e) =>
      c := if n == Along(p) then p else if f.Some? && n in Names(TreeOf(st, f.value)) then f.value else e;
    case ExistsSubquery(q) => c := q;
    case CountSubquery(q) => c := q;
    case _ => c := Null;
  }

  lemma NestedFromList(st: Store, hs: seq<Handle>, n: Name) returns (c: Handle)
    requires Wf(st) && n in NamesAll(TreesOf(st, hs))
    ensures c in hs && n in Names(TreeOf(st, c))
  {
    var k := NamesFrom(TreesOf(st, hs), n);
    c := hs[k];
  }

  lemma NestedFromCase(st: Store, h: Handle, n: Name) returns (c: Handle)
    requires Wf(st) && h.At? && h.index < |st.nodes| && st.nodes[h.index].CaseExpression? && n in Names(TreeOf(st, h))
    ensures c in Handles(st.nodes[h.index]) && n in Names(TreeOf(st, c))
  {
    var x := st.nodes[h.index];
    TreeParts(st, h);
    if x.subject.Some? && n in Names(TreeOf(st, x.subject.value)) {
      c := x.subject.value;
    } else if x.elseBranch.Some? && n in Names(TreeOf(st, x.elseBranch.value)) {
      c := x.elseBranch.value;
    } else {
      var k := NamesFromBranches(PairsOf(st, x.branches), n);
      c := if n in Names(TreeOf(st, x.branches[k].0)) then x.branches[k].0 else x.branches[k].1;
      assert x.branches[k] in x.branches && x.branches[k].0 in FirstSet(x.branches);
    }
  }

  /** A nested name is known, lies below the expression, and in its zone. */
  lemma {:induction false} NestedBelow(st: Store, h: Handle, n: Name)
    requires Wf(st) && Known(st, h) && (n.Nested? || n.Along?) && n in Names(TreeOf(st, h))
    ensures Known(st, Inner(n)) && Rk(st, Inner(n)) < Rk(st, h)
    ensures forall z :: Closed(st, z) && InZone(z, h) ==> InZone(z, Inner(n))
    decreases Rk(st, h)
  {
    if h.At? {
      var c := NestedFrom(st, h, n);
      assert NodeLow(st, st.nodes[h.index], st.rank[h.index]);
      assert forall z :: Closed(st, z) && InZone(z, h) ==> InZone(z, c);
      if c != Inner(n) { NestedBelow(st, c, n); }
    }
  }

  /** The same for the expressions of a slot. */
  lemma NestedInSlot(st: Store, v: Handle, n: Name)
    requires Wf(st) && Known(st, v) && (n.Nested? || n.Along?) && n in NamesAll(Exprs(st, v))
    ensures Known(st, Inner(n)) && Rk(st, Inner(n)) < Rk(st, v)
    ensures forall z :: Closed(st, z) && ExprsIn(NodeAt(st, v), z) ==> InZone(z, Inner(n))
  {
    var hs := ExprList(NodeAt(st, v));
    var c := NestedFromList(st, hs, n);
    HandlesSplit(NodeAt(st, v));
    OwnedKnown(st, v, c);
    NestedBelow(st, c, n);
  }

  // ---------- How often a slot is visited ----------

  /** Visits to the slot `s` while folding the subquery `q`. */
  ghost function SubTimes(st: Store, q: Handle, s: Handle): nat
    requires Wf(st)
    decreases Rk(st, q), 2, 0
  {
    SlotsBelow(st, SubVisits(st, q), s, Rk(st, q))
  }

  ghost function SlotsBelow(st: Store, vs: seq<Handle>, s: Handle, limit: nat): nat
    requires Wf(st)
    decreases limit, 1, |vs|
  {
    if vs == [] then 0
    else
      (if vs[0] == s then 1 else 0) + WeightAll(Exprs(st, vs[0]), 0, LoadBelow(st, s, limit))
      + SlotsBelow(st, vs[1..], s, limit)
  }

  ghost function LoadBelow(st: Store, s: Handle, limit: nat): Handle -> nat
    requires Wf(st)
    decreases limit, 0, 0
  {
    (q: Handle) => if Rk(st, q) < limit then SubTimes(st, q, s) else 0
  }

  ghost function Load(st: Store, s: Handle): Handle -> nat
    requires Wf(st)
  {
    (q: Handle) => SubTimes(st, q, s)
  }

  /** Visits to `s` while folding a list of expressions. */
  ghost function Times(st: Store, es: seq<Expr>, s: Handle): nat
    requires Wf(st)
  {
    WeightAll(es, 0, Load(st, s))
  }

  /** Visits to `s` while folding a list of slots. */
  ghost function SlotsTimes(st: Store, vs: seq<Handle>, s: Handle): nat
    requires Wf(st)
    decreases |vs|
  {
    if vs == [] then 0 else (if vs[0] == s then 1 else 0) + Times(st, Exprs(st, vs[0]), s) + SlotsTimes(st, vs[1..], s)
  }

  lemma {:induction false} SlotsBelowAll(st: Store, vs: seq<Handle>, s: Handle, limit: nat)
    requires Wf(st) && forall v :: v in vs ==> Known(st, v) && Rk(st, v) <= limit
    ensures SlotsBelow(st, vs, s, limit) == SlotsTimes(st, vs, s)
    decreases |vs|
  {
    if vs != [] {
      var es := Exprs(st, vs[0]);
      forall q | Nested(q) in NamesAll(es) ensures Rk(st, q) < limit {
        assert vs[0] in vs;
        NestedInSlot(st, vs[0], Nested(q));
      }
      WeightAllLess(es, 0, LoadBelow(st, s, limit), Load(st, s));
      WeightAllLess(es, 0, Load(st, s), LoadBelow(st, s, limit));
      SlotsBelowAll(st, vs[1..], s, limit);
    }
  }

  lemma SubTimesSum(st: Store, q: Handle, s: Handle)
    requires Wf(st) && Known(st, q)
    ensures SubTimes(st, q, s) == SlotsTimes(st, SubVisits(st, q), s)
  {
    SubVisitsBelow(st, q);
    SlotsBelowAll(st, SubVisits(st, q), s, Rk(st, q));
  }

  lemma {:induction false} SlotsConcat(st: Store, vs: seq<Handle>, ws: seq<Handle>, s: Handle)
    requires Wf(st)
    ensures SlotsTimes(st, vs + ws, s) == SlotsTimes(st, vs, s) + SlotsTimes(st, ws, s)
    decreases |vs|
  {
    if vs == [] {
      assert vs + ws == ws;
    } else {
      assert (vs + ws)[1..] == vs[1..] + ws;
      SlotsConcat(st, vs[1..], ws, s);
    }
  }

  /** Folding goes down: nothing at or above a subquery is visited through it. */
  lemma {:induction false} TimesLow(st: Store, q: Handle, s: Handle)
    requires Wf(st) && Known(st, q) && Rk(st, q) < Rk(st, s)
    ensures SubTimes(st, q, s) == 0
    decreases Rk(st, q), 1, 0
  {
    SubTimesSum(st, q, s);
    SubVisitsBelow(st, q);
    SlotsLow(st, SubVisits(st, q), s, Rk(st, q));
  }

  lemma {:induction false} SlotsLow(st: Store, vs: seq<Handle>, s: Handle, limit: nat)
    requires Wf(st) && limit < Rk(st, s) && forall v :: v in vs ==> Known(st, v) && Rk(st, v) <= limit
    ensures SlotsTimes(st, vs, s) == 0
    decreases limit, 0, |vs|
  {
    if vs != [] {
      assert vs[0] in vs;
      ExprsLow(st, vs[0], s);
      SlotsLow(st, vs[1..], s, limit);
    }
  }

  /** The expressions of a slot never lead back to it. */
  lemma {:induction false} ExprsLow(st: Store, v: Handle, s: Handle)
    requires Wf(st) && Known(st, v) && Rk(st, v) <= Rk(st, s)
    ensures Times(st, Exprs(st, v), s) == 0
    decreases Rk(st, v), 0, 0
  {
    var es := Exprs(st, v);
    forall q | Nested(q) in NamesAll(es) ensures Load(st, s)(q) == 0 {
      NestedInSlot(st, v, Nested(q));
      TimesLow(st, q, s);
    }
    WeightAllLess(es, 0, Load(st, s), Load(st, s));
  }

  // ---------- What folding in place leaves ----------

  /** The node at `h` has its shape, and its expressions are at most folded. */
  ghost predicate KeptAt(a: Store, b: Store, h: Handle)
    requires Wf(a) && Wf(b)
  {
    Skeleton(NodeAt(b, h)) == Skeleton(NodeAt(a, h)) && exists k: nat :: Refolded(a, b, h, k)
  }

  /** Expression nodes stay, and the nodes of the zone are kept. */
  ghost predicate Keeps(a: Store, b: Store, z: Zone) {
    && Wf(a) && Wf(b) && Grows(a, b) && Start(a, z)
    && forall h :: Known(a, h) && InZone(z, h) ==> KeptAt(a, b, h)
  }

  lemma WithinKeeps(a: Store, b: Store, z: Zone, feet: set<nat>)
    requires Within(a, b, z, feet) && Shaped(a)
    ensures Keeps(a, b, z)
  {
    forall h | Known(a, h) ensures Skeleton(NodeAt(b, h)) == Skeleton(NodeAt(a, h)) { KindsKept(a, b, z, feet, h); }
  }

  lemma {:induction false} VisitsKept(a: Store, b: Store, z: Zone, k: Listing, h: Handle)
    requires Keeps(a, b, z) && InZone(z, h) && Known(a, h)
    ensures Visits(b, k, h) == Visits(a, k, h)
    decreases Level(k), 0, 0
  {
    assert KeptAt(a, b, h);
    SkeletonLists(NodeAt(a, h), NodeAt(b, h));
    SkeletonTarget(NodeAt(a, h), NodeAt(b, h));
    var n := NodeAt(a, h);
    match k
    case Items =>
    case Edges =>
    case Paths => if n.PathChain? { AllVisitsKept(a, b, z, Edges, n.edges, h); }
    case Clauses => if n.MatchClause? { AllVisitsKept(a, b, z, Paths, n.paths, h); }
    case Mutations =>
      if n.SetClause? {
        AllVisitsKept(a, b, z, Items, n.sitems, h);
      } else if n.MergeClause? {
        ZoneChild(a, z, h, n.mpath);
        VisitsKept(a, b, z, Paths, n.mpath);
        AllVisitsKept(a, b, z, Items, n.onCreate, h);
        AllVisitsKept(a, b, z, Items, n.onMatch, h);
      } else if n.CreateClause? {
        AllVisitsKept(a, b, z, Paths, n.cpaths, h);
      }
  }

  lemma SkeletonTarget(x: AstNode, y: AstNode)
    requires Skeleton(x) == Skeleton(y)
    ensures (x.EdgePattern? <==> y.EdgePattern?) && (x.EdgePattern? ==> x.targetNode == y.targetNode)
  {
  }

  lemma {:induction false} AllVisitsKept(a: Store, b: Store, z: Zone, k: Listing, hs: seq<Handle>, owner: Handle)
    requires Keeps(a, b, z) && InZone(z, owner) && forall h :: h in hs ==> h in Handles(NodeAt(a, owner))
    ensures AllVisits(b, k, hs) == AllVisits(a, k, hs)
    decreases Level(k), 1, |hs|
  {
    if hs != [] {
      AllVisitsKept(a, b, z, k, hs[..|hs| - 1], owner);
      ZoneChild(a, z, owner, hs[|hs| - 1]);
      VisitsKept(a, b, z, k, hs[|hs| - 1]);
    }
  }

  lemma SubVisitsKept(a: Store, b: Store, z: Zone, q: Handle)
    requires Keeps(a, b, z) && InZone(z, q) && Known(a, q)
    ensures SubVisits(b, q) == SubVisits(a, q)
  {
    assert KeptAt(a, b, q);
    var n := NodeAt(a, q);
    SkeletonLists(n, NodeAt(b, q));
    SkeletonKind(n, NodeAt(b, q));
    if n.QueryStatement? {
      AllVisitsKept(a, b, z, Clauses, n.unwinds, q);
      AllVisitsKept(a, b, z, Clauses, n.matches, q);
      AllVisitsKept(a, b, z, Clauses, n.withs, q);
      AllVisitsKept(a, b, z, Clauses, n.linear, q);
      AllVisitsKept(a, b, z, Mutations, n.mutations, q);
      hide Keeps, AllVisits;
    } else {
      VisitsKept(a, b, z, Clauses, q);
      VisitsKept(a, b, z, Paths, q);
    }
  }

  /** Folding first never makes a later visit more frequent. */
  lemma {:induction false} SubTimesShrink(a: Store, b: Store, z: Zone, q: Handle, s: Handle)
    requires Keeps(a, b, z) && InZone(z, q) && Known(a, q)
    ensures SubTimes(b, q, s) <= SubTimes(a, q, s)
    decreases Rk(a, q), 1, 0
  {
    hide Keeps, SubTimes, SubVisits;
    assert Wf(a) && Wf(b) && Start(a, z) && Known(b, q) by { KeepsWf(a, b, z); }
    SubTimesSum(a, q, s);
    SubTimesSum(b, q, s);
    SubVisitsKept(a, b, z, q);
    SubVisitsIn(a, z, q);
    SubVisitsBelow(a, q);
    SlotsShrink(a, b, z, SubVisits(a, q), s, Rk(a, q));
  }

  lemma KeepsWf(a: Store, b: Store, z: Zone)
    requires Keeps(a, b, z)
    ensures Wf(a) && Wf(b) && Grows(a, b) && Start(a, z) && |a.nodes| <= |b.nodes|
  {
  }

  lemma {:induction false} SlotsShrink(a: Store, b: Store, z: Zone, vs: seq<Handle>, s: Handle, limit: nat)
    requires Keeps(a, b, z)
    requires forall v :: v in vs ==> Known(a, v) && InZone(z, v) && Rk(a, v) <= limit
    ensures SlotsTimes(b, vs, s) <= SlotsTimes(a, vs, s)
    decreases limit, 0, |vs|
  {
    if vs != [] {
      var v := vs[0];
      assert v in vs && KeptAt(a, b, v);
      SlotIn(a, z, v);
      SlotShrinks(a, b, z, v, s);
      SlotsShrink(a, b, z, vs[1..], s, limit);
    }
  }

  lemma SlotIn(st: Store, z: Zone, v: Handle)
    requires Start(st, z) && InZone(z, v) && Known(st, v)
    ensures ExprsIn(NodeAt(st, v), z)
  {
    if v.At? { HandlesSplit(st.nodes[v.index]); }
  }

  /** A slot over expressions of the zone, wherever the slot itself lies. */
  lemma {:induction false} SlotShrinks(a: Store, b: Store, z: Zone, v: Handle, s: Handle)
    requires Keeps(a, b, z) && Known(a, v) && ExprsIn(NodeAt(a, v), z) && KeptAt(a, b, v)
    ensures Times(b, Exprs(b, v), s) <= Times(a, Exprs(a, v), s)
    decreases Rk(a, v), 0, 0
  {
    var es, fs := Exprs(a, v), Exprs(b, v);
    var k: nat :| Refolded(a, b, v, k);
    FoldAllByShrinks(k, es, 0, Load(a, s));
    forall q | Nested(q) in NamesAll(fs) ensures Load(b, s)(q) <= Load(a, s)(q) {
      NestedInSlot(a, v, Nested(q));
      SubTimesShrink(a, b, z, q, s);
    }
    WeightAllLess(fs, 0, Load(b, s), Load(a, s));
  }

  // ---------- Missing operands ----------

  /** Somewhere among the slots of the subquery, or of those below it, a handle is missing. */
  ghost predicate SubGap(st: Store, q: Handle)
    requires Wf(st)
    decreases Rk(st, q), 1
  {
    q.Null? || exists v :: v in SubVisits(st, q) && SlotGap(st, v, Rk(st, q))
  }

  ghost predicate SlotGap(st: Store, v: Handle, limit: nat)
    requires Wf(st)
    decreases limit, 0
  {
    || v.Null? || Hole in NamesAll(Exprs(st, v))
    || exists r :: Nested(r) in NamesAll(Exprs(st, v)) && Rk(st, r) < limit && SubGap(st, r)
  }

  /** A handle is missing among these names, or in a subquery they name. */
  ghost predicate Gapped(st: Store, names: set<Name>)
    requires Wf(st)
  {
    Hole in names || exists r :: Nested(r) in names && SubGap(st, r)
  }

  ghost predicate Holed(st: Store, h: Handle)
    requires Wf(st)
  {
    h.Null? || Gapped(st, NamesAll(Exprs(st, h)))
  }

  lemma SubGapIff(st: Store, q: Handle)
    requires Wf(st) && Known(st, q)
    ensures SubGap(st, q) <==> q.Null? || exists v :: v in SubVisits(st, q) && Holed(st, v)
  {
    SubVisitsBelow(st, q);
    forall v | v in SubVisits(st, q) ensures Holed(st, v) <==> SlotGap(st, v, Rk(st, q)) {
      forall r | Nested(r) in NamesAll(Exprs(st, v)) ensures Rk(st, r) < Rk(st, q) { NestedInSlot(st, v, Nested(r)); }
    }
  }

  /** Folding makes no gap: one found afterwards was there before. */
  lemma {:induction false} SubGapEarlier(a: Store, b: Store, z: Zone, q: Handle)
    requires Keeps(a, b, z) && InZone(z, q) && Known(a, q) && SubGap(b, q)
    ensures SubGap(a, q)
    decreases Rk(a, q), 1
  {
    hide Keeps, SubVisits, SubGap;
    KeepsWf(a, b, z);
    SubGapIff(a, q);
    SubGapIff(b, q);
    SubVisitsKept(a, b, z, q);
    SubVisitsIn(a, z, q);
    SubVisitsBelow(a, q);
    if !q.Null? {
      var v :| v in SubVisits(b, q) && Holed(b, v);
      KeptIn(a, b, z, v);
      HoledEarlier(a, b, z, v);
    }
  }

  lemma KeptIn(a: Store, b: Store, z: Zone, v: Handle)
    requires Keeps(a, b, z) && InZone(z, v) && Known(a, v)
    ensures Wf(a) && Wf(b) && KeptAt(a, b, v) && ExprsIn(NodeAt(a, v), z)
  {
    SlotIn(a, z, v);
  }

  lemma {:induction false} HoledEarlier(a: Store, b: Store, z: Zone, v: Handle)
    requires Keeps(a, b, z) && Known(a, v) && ExprsIn(NodeAt(a, v), z) && KeptAt(a, b, v) && Holed(b, v)
    ensures Holed(a, v)
    decreases Rk(a, v), 0
  {
    hide SubGap, Keeps, Exprs, NamesAll, FoldAllBy, Wf, Closed;
    KeepsWf(a, b, z);
    if !v.Null? {
      var es, fs := Exprs(a, v), Exprs(b, v);
      var k: nat :| Refolded(a, b, v, k);
      FoldAllByShrinks(k, es, 0, _ => 0);
      if Hole !in NamesAll(fs) {
        var r :| Nested(r) in NamesAll(fs) && SubGap(b, r);
        NestedInSlot(a, v, Nested(r));
        SubGapEarlier(a, b, z, r);
        assert Nested(r) in NamesAll(es) && SubGap(a, r);
      }
    }
  }

  // ---------- Folding a list of expressions ----------

  function Flat(bs: seq<(Handle, Handle)>): seq<Handle> {
    if bs == [] then [] else [bs[0].0, bs[0].1] + Flat(bs[1..])
  }

  /** The operands of an expression node, in order; a subquery has none. */
  function Operands(n: AstNode): seq<Handle> {
    match n
    case PropertyAccess(t, _) => [t]
    case BinaryExpression(l, _, r) => [l, r]
    case UnaryExpression(_, e) => [e]
    case FunctionCall(_, args) => args
    case CaseExpression(s, bs, e) => OptSeq(s) + Flat(bs) + OptSeq(e)
    case ListComprehension(_, l, f, m) => [l] + OptSeq(f) + OptSeq(m)
    case PatternComprehension(_, f, e) => OptSeq(f) + [e]
    case ListLiteral(es) => es
    case _ => []
  }

  /** Folded at most `n` times. */
  ghost predicate UpTo(a: Store, b: Store, s: Handle, n: nat)
    requires Wf(a) && Wf(b)
  {
    exists k: nat :: k <= n && Refolded(a, b, s, k)
  }

  /** No slot has been folded more often than folding `hs` leads to it. */
  ghost predicate Bounded(a: Store, b: Store, hs: seq<Handle>)
    requires Wf(a) && Wf(b)
  {
    forall s :: Known(a, s) ==> UpTo(a, b, s, Times(a, TreesOf(a, hs), s))
  }

  /** What folding the expressions `hs` does to the arena, whether it succeeds or not. */
  ghost predicate Worked(a: Store, b: Store, z: Zone, hs: seq<Handle>) {
    Within(a, b, z, {}) && Shaped(b) && Bounded(a, b, hs)
  }

  ghost predicate Gaps(st: Store, hs: seq<Handle>)
    requires Wf(st)
  {
    Gapped(st, NamesAll(TreesOf(st, hs)))
  }

  ghost predicate AllIn(st: Store, z: Zone, hs: seq<Handle>) {
    forall h :: h in hs ==> Known(st, h) && InZone(z, h)
  }

  lemma WorkedWf(a: Store, b: Store, z: Zone, hs: seq<Handle>)
    requires Worked(a, b, z, hs)
    ensures Wf(a) && Wf(b) && Start(b, z) && Grows(a, b) && Within(a, b, z, {})
  {
  }

  lemma TreesConcat2(st: Store, hs: seq<Handle>, gs: seq<Handle>)
    requires Wf(st)
    ensures TreesOf(st, hs + gs) == TreesOf(st, hs) + TreesOf(st, gs)
  {
  }

  lemma TimesConcat(st: Store, hs: seq<Handle>, gs: seq<Handle>, s: Handle)
    requires Wf(st)
    ensures Times(st, TreesOf(st, hs + gs), s) == Times(st, TreesOf(st, hs), s) + Times(st, TreesOf(st, gs), s)
    ensures NamesAll(TreesOf(st, hs + gs)) == NamesAll(TreesOf(st, hs)) + NamesAll(TreesOf(st, gs))
  {
    TreesConcat2(st, hs, gs);
    WeightAllConcat(TreesOf(st, hs), TreesOf(st, gs), 0, Load(st, s));
  }

  /** Expressions of the zone lead to a slot no more often after a step than before. */
  lemma TimesShrink(a: Store, b: Store, z: Zone, hs: seq<Handle>, s: Handle)
    requires Keeps(a, b, z) && AllIn(a, z, hs)
    ensures TreesOf(b, hs) == TreesOf(a, hs) && Times(b, TreesOf(b, hs), s) <= Times(a, TreesOf(a, hs), s)
  {
    assert forall k :: 0 <= k < |hs| ==> hs[k] in hs;
    TreesFrame(a, b, hs);
    var es := TreesOf(a, hs);
    forall q | Nested(q) in NamesAll(es) ensures Load(b, s)(q) <= Load(a, s)(q) {
      var c := NestedFromList(a, hs, Nested(q));
      NestedBelow(a, c, Nested(q));
      SubTimesShrink(a, b, z, q, s);
    }
    WeightAllLess(es, 0, Load(b, s), Load(a, s));
  }

  lemma GapsEarlier(a: Store, b: Store, z: Zone, hs: seq<Handle>)
    requires Keeps(a, b, z) && AllIn(a, z, hs) && Gaps(b, hs)
    ensures Gaps(a, hs)
  {
    hide SubGap;
    assert forall k :: 0 <= k < |hs| ==> hs[k] in hs;
    TreesFrame(a, b, hs);
    var names := NamesAll(TreesOf(a, hs));
    if Hole !in names {
      var r :| Nested(r) in names && SubGap(b, r);
      var c := NestedFromList(a, hs, Nested(r));
      NestedBelow(a, c, Nested(r));
      SubGapEarlier(a, b, z, r);
    }
  }

  lemma BoundedThen(a: Store, b: Store, c: Store, z: Zone, hs: seq<Handle>, gs: seq<Handle>)
    requires Keeps(a, b, z) && Wf(c) && AllIn(a, z, gs) && Bounded(a, b, hs) && Bounded(b, c, gs)
    ensures Bounded(a, c, hs + gs)
  {
    hide Keeps, Times, TreesOf, Refolded;
    KeepsWf(a, b, z);
    forall s | Known(a, s) ensures UpTo(a, c, s, Times(a, TreesOf(a, hs + gs), s)) {
      TimesConcat(a, hs, gs, s);
      TimesShrink(a, b, z, gs, s);
      assert Known(b, s);
      var j: nat :| j <= Times(a, TreesOf(a, hs), s) && Refolded(a, b, s, j);
      var k: nat :| k <= Times(b, TreesOf(b, gs), s) && Refolded(b, c, s, k);
      RefoldedThen(a, b, c, s, j, k);
    }
  }

  /** One list of expressions after another; an error in the second is one of the whole. */
  lemma WorkedThen(a: Store, b: Store, c: Store, z: Zone, hs: seq<Handle>, gs: seq<Handle>, bad: bool)
    requires Shaped(a) && Worked(a, b, z, hs) && Worked(b, c, z, gs) && AllIn(a, z, gs) && (bad ==> Gaps(b, gs))
    ensures Worked(a, c, z, hs + gs) && (bad ==> Gaps(a, hs + gs))
  {
    hide Within, Shaped, Bounded, Gaps, Wf;
    WorkedWf(a, b, z, hs);
    WorkedWf(b, c, z, gs);
    WithinKeeps(a, b, z, {});
    WithinTransitive(a, b, c, z, {});
    BoundedThen(a, b, c, z, hs, gs);
    if bad {
      GapsEarlier(a, b, z, gs);
      GapsMore(a, hs, gs);
    }
  }

  lemma GapsMore(st: Store, hs: seq<Handle>, gs: seq<Handle>)
    requires Wf(st) && (Gaps(st, hs) || Gaps(st, gs))
    ensures Gaps(st, hs + gs)
  {
    TimesConcat(st, hs, gs, Null);
  }

  /** Stopping early. */
  lemma WorkedMore(a: Store, b: Store, z: Zone, hs: seq<Handle>, gs: seq<Handle>, bad: bool)
    requires Worked(a, b, z, hs) && (bad ==> Gaps(a, hs))
    ensures Worked(a, b, z, hs + gs) && (bad ==> Gaps(a, hs + gs))
  {
    hide Within, Shaped, Gaps, Times, Refolded;
    WorkedWf(a, b, z, hs);
    forall s | Known(a, s) ensures UpTo(a, b, s, Times(a, TreesOf(a, hs + gs), s)) {
      TimesConcat(a, hs, gs, s);
      assert UpTo(a, b, s, Times(a, TreesOf(a, hs), s));
    }
    if bad { GapsMore(a, hs, gs); }
  }

  lemma NothingWorked(a: Store, z: Zone)
    requires Start(a, z)
    ensures Worked(a, a, z, [])
  {
    WithinSame(a, z);
    forall s | Known(a, s) ensures UpTo(a, a, s, Times(a, TreesOf(a, []), s)) { SlotKept(a, a, s); }
  }

  /** New nodes change no slot. */
  lemma WorkedAlloc(a: Store, b: Store, c: Store, z: Zone, hs: seq<Handle>)
    requires Worked(a, b, z, hs) && Within(b, c, z, {}) && b.nodes <= c.nodes
    ensures Worked(a, c, z, hs)
  {
    WithinTransitive(a, b, c, z, {});
    ShapedLater(b, c, z, {});
    hide Times;
    forall s | Known(a, s) ensures UpTo(a, c, s, Times(a, TreesOf(a, hs), s)) {
      var k: nat :| k <= Times(a, TreesOf(a, hs), s) && Refolded(a, b, s, k);
      SlotKept(b, c, s);
      RefoldedThen(a, b, c, s, k, 0);
    }
  }

  // ---------- From the operands to the node ----------

  lemma {:induction false} FlatWeight(st: Store, bs: seq<(Handle, Handle)>, f: Handle -> nat)
    requires Wf(st)
    ensures WeightAll(TreesOf(st, Flat(bs)), 0, f) == WeightBranches(PairsOf(st, bs), 0, f)
    ensures NamesAll(TreesOf(st, Flat(bs))) == NamesBranches(PairsOf(st, bs))
    decreases |bs|
  {
    var ps := PairsOf(st, bs);
    if bs == [] {
      assert TreesOf(st, Flat(bs)) == [];
    } else {
      FlatWeight(st, bs[1..], f);
      var c, t, rest := TreeOf(st, bs[0].0), TreeOf(st, bs[0].1), TreesOf(st, Flat(bs[1..]));
      assert TreesOf(st, Flat(bs)) == [c, t] + rest;
      assert ps[1..] == PairsOf(st, bs[1..]) && ps[0] == Branch(c, t);
      WeightTwo(c, t, f);
      WeightAllConcat([c, t], rest, 0, f);
    }
  }

  lemma WeightOne(e: Expr, f: Handle -> nat)
    ensures WeightAll([e], 0, f) == Weight(e, 0, f) && NamesAll([e]) == Names(e)
  {
    assert [e][1..] == [];
  }

  lemma WeightTwo(d: Expr, e: Expr, f: Handle -> nat)
    ensures WeightAll([d, e], 0, f) == Weight(d, 0, f) + Weight(e, 0, f) && NamesAll([d, e]) == Names(d) + Names(e)
  {
    WeightOne(d, f);
    WeightOne(e, f);
    assert [d, e] == [d] + [e];
    WeightAllConcat([d], [e], 0, f);
  }

  lemma OptWeight(st: Store, o: Option<Handle>, f: Handle -> nat)
    requires Wf(st)
    ensures WeightAll(TreesOf(st, OptSeq(o)), 0, f) == WeightOpt(OptTree(st, o), 0, f)
    ensures NamesAll(TreesOf(st, OptSeq(o))) == NamesOpt(OptTree(st, o))
  {
    if o.Some? {
      assert TreesOf(st, OptSeq(o)) == [TreeOf(st, o.value)];
      WeightOne(TreeOf(st, o.value), f);
    } else {
      assert TreesOf(st, OptSeq(o)) == [];
    }
  }

  /** A node weighs at least what its operands do, and hides none of their gaps. */
  ghost predicate Carries(e: Expr, es: seq<Expr>, f: Handle -> nat) {
    && WeightAll(es, 0, f) <= Weight(e, 0, f)
    && forall n :: n in NamesAll(es) && !n.Variable? ==> n in Names(e)
  }

  lemma OperandsCarried(st: Store, h: Handle, f: Handle -> nat)
    requires Wf(st) && h.At? && h.index < |st.nodes|
    ensures Carries(TreeOf(st, h), TreesOf(st, Operands(st.nodes[h.index])), f)
  {
    var n := st.nodes[h.index];
    var e, es := TreeOf(st, h), TreesOf(st, Operands(n));
    assert NodeLow(st, n, st.rank[h.index]);
    TreeParts(st, h);
    match n
    case PropertyAccess(t, _) =>
      assert es == [TreeOf(st, t)];
      WeightOne(TreeOf(st, t), f);
    case BinaryExpression(l, _, r) =>
      assert es == [TreeOf(st, l), TreeOf(st, r)];
      WeightTwo(TreeOf(st, l), TreeOf(st, r), f);
    case UnaryExpression(_, x) =>
      assert es == [TreeOf(st, x)];
      WeightOne(TreeOf(st, x), f);
    case CaseExpression(_, _, _) => CaseCarried(st, h, f);
    case ListComprehension(_, _, _, _) => ListCarried(st, h, f);
    case PatternComprehension(_, _, _) => PatternCarried(st, h, f);
    case _ =>
  }

  lemma CaseCarried(st: Store, h: Handle, f: Handle -> nat)
    requires Wf(st) && h.At? && h.index < |st.nodes| && st.nodes[h.index].CaseExpression?
    ensures Carries(TreeOf(st, h), TreesOf(st, Operands(st.nodes[h.index])), f)
  {
    hide Wf, TreeOf, OptTree, PairsOf, Flat, Names, NamesAll, NamesOpt, NamesBranches, Weight, WeightAll, WeightOpt,
      WeightBranches;
    var n := st.nodes[h.index];
    TreeParts(st, h);
    var s, b, e := TreesOf(st, OptSeq(n.subject)), TreesOf(st, Flat(n.branches)), TreesOf(st, OptSeq(n.elseBranch));
    assert TreesOf(st, Operands(n)) == s + b + e;
    CaseWeight(OptTree(st, n.subject), PairsOf(st, n.branches), OptTree(st, n.elseBranch), f);
    OptWeight(st, n.subject, f);
    OptWeight(st, n.elseBranch, f);
    FlatWeight(st, n.branches, f);
    WeightAllConcat(s + b, e, 0, f);
    WeightAllConcat(s, b, 0, f);
  }

  lemma CaseWeight(s: Option<Expr>, bs: seq<Branch>, e: Option<Expr>, f: Handle -> nat)
    ensures Weight(ECase(s, bs, e), 0, f) == WeightOpt(s, 0, f) + WeightBranches(bs, 0, f) + WeightOpt(e, 0, f)
    ensures Names(ECase(s, bs, e)) == NamesOpt(s) + NamesBranches(bs) + NamesOpt(e)
  {
  }

  lemma ListCarried(st: Store, h: Handle, f: Handle -> nat)
    requires Wf(st) && h.At? && h.index < |st.nodes| && st.nodes[h.index].ListComprehension?
    ensures Carries(TreeOf(st, h), TreesOf(st, Operands(st.nodes[h.index])), f)
  {
    var n := st.nodes[h.index];
    assert NodeLow(st, n, st.rank[h.index]);
    var l, c, m := TreesOf(st, [n.listExpr]), TreesOf(st, OptSeq(n.lfilter)), TreesOf(st, OptSeq(n.lmap));
    assert TreeOf(st, h) == EListComp(n.lvar, TreeOf(st, n.listExpr), OptTree(st, n.lfilter), OptTree(st, n.lmap));
    assert TreesOf(st, Operands(n)) == l + c + m && l == [TreeOf(st, n.listExpr)];
    OptWeight(st, n.lfilter, f);
    OptWeight(st, n.lmap, f);
    WeightOne(TreeOf(st, n.listExpr), f);
    WeightAllConcat(l + c, m, 0, f);
    WeightAllConcat(l, c, 0, f);
  }

  lemma PatternCarried(st: Store, h: Handle, f: Handle -> nat)
    requires Wf(st) && h.At? && h.index < |st.nodes| && st.nodes[h.index].PatternComprehension?
    ensures Carries(TreeOf(st, h), TreesOf(st, Operands(st.nodes[h.index])), f)
  {
    var n := st.nodes[h.index];
    assert NodeLow(st, n, st.rank[h.index]);
    var c, p := TreesOf(st, OptSeq(n.pfilter)), TreesOf(st, [n.projection]);
    assert TreeOf(st, h) == EPatComp(n.path, OptTree(st, n.pfilter), TreeOf(st, n.projection));
    assert TreesOf(st, Operands(n)) == c + p && p == [TreeOf(st, n.projection)];
    OptWeight(st, n.pfilter, f);
    WeightOne(TreeOf(st, n.projection), f);
    WeightAllConcat(c, p, 0, f);
  }

  /** Folding its operands is the work on a node. */
  lemma WorkedNode(a: Store, b: Store, z: Zone, h: Handle, bad: bool)
    requires h.At? && h.index < |a.nodes| && Worked(a, b, z, Operands(a.nodes[h.index]))
    requires bad ==> Gaps(a, Operands(a.nodes[h.index]))
    ensures Worked(a, b, z, [h]) && (bad ==> Gaps(a, [h]))
  {
    hide Within, Shaped, Refolded, TreeOf, Weight, WeightAll, Names, NamesAll;
    WorkedWf(a, b, z, Operands(a.nodes[h.index]));
    var hs := Operands(a.nodes[h.index]);
    assert TreesOf(a, [h]) == [TreeOf(a, h)];
    forall s | Known(a, s) ensures UpTo(a, b, s, Times(a, TreesOf(a, [h]), s)) {
      OperandsCarried(a, h, Load(a, s));
      WeightOne(TreeOf(a, h), Load(a, s));
      assert UpTo(a, b, s, Times(a, TreesOf(a, hs), s));
    }
    if bad {
      OperandsCarried(a, h, _ => 0);
      WeightOne(TreeOf(a, h), _ => 0);
    }
  }
}
