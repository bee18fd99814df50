/** Which nodes a folding pass visits, and what it does to each, told without naming the visits. */
module VisitedSlots {
  import opened Common
  import opened Ast
  import opened Trees
  import opened Clauses
  import opened Folding
  import opened FoldArena
  import opened Visiting
  import opened FoldPass

  /** The nodes a statement, clause or pattern is built from, operands aside. */
  function Pieces(n: AstNode): set<Handle> {
    match n
    case QueryStatement(_, c, us, ms, ls, ws, xs, r) =>
      OptSet(c) + SeqSet(us) + SeqSet(ms) + SeqSet(ls) + SeqSet(ws) + SeqSet(xs) + OptSet(r)
    case MatchClause(_, ps, w) => SeqSet(ps) + OptSet(w)
    case WithClause(_, _, _, _, _, w) => OptSet(w)
    case SetClause(ss) => SeqSet(ss)
    case MergeClause(p, c, m) => {p} + SeqSet(c) + SeqSet(m)
    case CreateClause(ps) => SeqSet(ps)
    case PathChain(_, _, s, es) => {s} + SeqSet(es)
    case EdgePattern(_, _, _, _, _, _, t) => {t}
    case _ => {}
  }

  /** A kind of node whose expressions are folded. */
  predicate Folds(n: AstNode) {
    || n.NodePattern? || n.EdgePattern? || n.SetItem? || n.WhereClause? || n.LoadCsvClause? || n.UnwindClause?
    || n.LetClause? || n.FilterClause? || n.WithClause? || n.ReturnClause?
  }

  ghost predicate Under(st: Store, h: Handle, g: Handle)
    requires Wf(st)
    decreases Rk(st, h)
  {
    g == h || (h.At? && h.index < |st.nodes| &&
               exists c :: c in Pieces(st.nodes[h.index]) && Rk(st, c) < Rk(st, h) && Under(st, c, g))
  }

  ghost predicate UnderSome(st: Store, hs: seq<Handle>, g: Handle)
    requires Wf(st)
  {
    exists k :: 0 <= k < |hs| && Under(st, hs[k], g)
  }

  lemma PiecesBelow(st: Store, h: Handle)
    requires Wf(st) && h.At? && h.index < |st.nodes|
    ensures forall c :: c in Pieces(st.nodes[h.index]) ==> Rk(st, c) < Rk(st, h)
  {
    assert NodeLow(st, st.nodes[h.index], st.rank[h.index]);
    assert forall c :: c in Pieces(st.nodes[h.index]) ==> c in Handles(st.nodes[h.index]);
  }

  /** The node itself, and what is under its pieces. */
  lemma UnderStep(st: Store, h: Handle, g: Handle, ps: seq<Handle>)
    requires Wf(st) && h.At? && h.index < |st.nodes|
    requires forall c :: c in Pieces(st.nodes[h.index]) <==> c in ps
    ensures Under(st, h, g) <==> g == h || UnderSome(st, ps, g)
  {
    PiecesBelow(st, h);
    hide Wf, Pieces;
    if Under(st, h, g) && g != h {
      var c :| c in Pieces(st.nodes[h.index]) && Rk(st, c) < Rk(st, h) && Under(st, c, g);
      var k :| 0 <= k < |ps| && ps[k] == c;
    }
    if UnderSome(st, ps, g) {
      var k :| 0 <= k < |ps| && Under(st, ps[k], g);
      assert ps[k] in Pieces(st.nodes[h.index]);
    }
  }

  lemma SomeJoin(st: Store, a: seq<Handle>, b: seq<Handle>, g: Handle)
    requires Wf(st)
    ensures UnderSome(st, a + b, g) <==> UnderSome(st, a, g) || UnderSome(st, b, g)
  {
    hide Under;
    if UnderSome(st, a, g) {
      var k :| 0 <= k < |a| && Under(st, a[k], g);
      assert (a + b)[k] == a[k];
    }
    if UnderSome(st, b, g) {
      var k :| 0 <= k < |b| && Under(st, b[k], g);
      assert (a + b)[|a| + k] == b[k];
    }
    if UnderSome(st, a + b, g) {
      var k :| 0 <= k < |a + b| && Under(st, (a + b)[k], g);
      assert if k < |a| then Under(st, a[k], g) else Under(st, b[k - |a|], g);
    }
  }

  lemma SomeOne(st: Store, h: Handle, g: Handle)
    requires Wf(st)
    ensures UnderSome(st, [h], g) <==> Under(st, h, g)
  {
    hide Under;
    assert [h][0] == h;
  }

  lemma SomeNone(st: Store, g: Handle)
    requires Wf(st)
    ensures !UnderSome(st, [], g)
  {
  }

  /** A node without pieces is alone. */
  lemma Alone(st: Store, h: Handle, g: Handle)
    requires Wf(st) && (h.At? && h.index < |st.nodes| ==> Pieces(st.nodes[h.index]) == {})
    ensures Under(st, h, g) <==> g == h
  {
  }

  /** The kinds of node the lists of a statement hold. */
  predicate Proper(st: Store, k: Listing, h: Handle) {
    var n := NodeAt(st, h);
    match k
    case Items => n.SetItem?
    case Edges => n.EdgePattern?
    case Paths => n.NodePattern? || n.PathChain?
    case Clauses => n.MatchClause? || n.WithClause? || n.UnwindClause? || n.LetClause? || n.FilterClause?
    case Mutations => h.Null? || IsMutation(n)
  }

  /** Visited for this element are the nodes under it that hold expressions to fold. */
  lemma {:induction false} Visited(st: Store, k: Listing, h: Handle, g: Handle)
    requires Wf(st) && Shaped(st) && Proper(st, k, h) && g.At?
    ensures g in Visits(st, k, h) <==> Under(st, h, g) && Folds(NodeAt(st, g))
    decreases Level(k), 0, 0
  {
    hide Under, AllVisits, Wf;
    if h.Null? {
      Alone(st, h, g);
    } else {
      var n := NodeAt(st, h);
      assert NodeShaped(st, st.nodes[h.index]);
      hide Shaped;
      match k
      case Items => Alone(st, h, g);
      case Edges =>
        UnderStep(st, h, g, [n.targetNode]);
        SomeOne(st, n.targetNode, g);
        Alone(st, n.targetNode, g);
      case Paths =>
        if n.PathChain? {
          UnderStep(st, h, g, [n.startNode] + n.edges);
          SomeJoin(st, [n.startNode], n.edges, g);
          SomeOne(st, n.startNode, g);
          Alone(st, n.startNode, g);
          AllVisited(st, Edges, n.edges, g);
        } else {
          Alone(st, h, g);
        }
      case Clauses => VisitedClause(st, h, g);
      case Mutations => VisitedMutation(st, h, g);
    }
  }

  lemma {:induction false} VisitedClause(st: Store, h: Handle, g: Handle)
    requires Wf(st) && Shaped(st) && h.At? && Proper(st, Clauses, h) && g.At?
    ensures g in Visits(st, Clauses, h) <==> Under(st, h, g) && Folds(NodeAt(st, g))
    decreases 1, 2, 0
  {
    hide Under, AllVisits, Wf;
    var n := NodeAt(st, h);
    assert NodeShaped(st, st.nodes[h.index]);
    hide Shaped;
    match n
    case MatchClause(_, ps, w) =>
      UnderStep(st, h, g, ps + OptSeq(w));
      SomeJoin(st, ps, OptSeq(w), g);
      AllVisited(st, Paths, ps, g);
      SomeWhere(st, w, g);
    case WithClause(_, _, _, _, _, w) =>
      UnderStep(st, h, g, OptSeq(w));
      SomeWhere(st, w, g);
    case _ => Alone(st, h, g);
  }

  lemma SomeWhere(st: Store, w: Option<Handle>, g: Handle)
    requires Wf(st) && IsWhere(st, w)
    ensures UnderSome(st, OptSeq(w), g) <==> g in OptSeq(w)
  {
    if w.Some? {
      SomeOne(st, w.value, g);
      Alone(st, w.value, g);
    }
  }

  lemma {:induction false} VisitedMutation(st: Store, h: Handle, g: Handle)
    requires Wf(st) && Shaped(st) && h.At? && Proper(st, Mutations, h) && g.At?
    ensures g in Visits(st, Mutations, h) <==> Under(st, h, g) && Folds(NodeAt(st, g))
    decreases 1, 2, 0
  {
    hide Under, AllVisits, Wf;
    var n := NodeAt(st, h);
    assert NodeShaped(st, st.nodes[h.index]);
    hide Shaped;
    match n
    case SetClause(ss) =>
      UnderStep(st, h, g, ss);
      AllVisited(st, Items, ss, g);
    case MergeClause(p, c, m) =>
      UnderStep(st, h, g, [p] + (c + m));
      SomeJoin(st, [p], c + m, g);
      SomeJoin(st, c, m, g);
      SomeOne(st, p, g);
      Visited(st, Paths, p, g);
      AllVisited(st, Items, c, g);
      AllVisited(st, Items, m, g);
    case CreateClause(ps) =>
      UnderStep(st, h, g, ps);
      AllVisited(st, Paths, ps, g);
    case _ => Alone(st, h, g);
  }

  lemma {:induction false} AllVisited(st: Store, k: Listing, hs: seq<Handle>, g: Handle)
    requires Wf(st) && Shaped(st) && (forall h :: h in hs ==> Proper(st, k, h)) && g.At?
    ensures g in AllVisits(st, k, hs) <==> UnderSome(st, hs, g) && Folds(NodeAt(st, g))
    decreases Level(k), 1, |hs|
  {
    hide Under, Visits, Wf, Shaped, Proper;
    if hs == [] {
      SomeNone(st, g);
    } else {
      var front, last := hs[..|hs| - 1], hs[|hs| - 1];
      AllVisited(st, k, front, g);
      Visited(st, k, last, g);
      SomeJoin(st, front, [last], g);
      SomeOne(st, last, g);
      assert front + [last] == hs;
    }
  }

  /** What a statement is built from, list by list. */
  lemma UnderStatement(st: Store, root: Handle, g: Handle)
    requires Wf(st) && NodeAt(st, root).QueryStatement?
    ensures var n := NodeAt(st, root);
      Under(st, root, g) <==>
        || g == root || UnderSome(st, OptSeq(n.loadCsv), g) || UnderSome(st, n.unwinds, g)
        || UnderSome(st, n.matches, g) || UnderSome(st, n.withs, g) || UnderSome(st, n.linear, g)
        || UnderSome(st, n.mutations, g) || UnderSome(st, OptSeq(n.resultClause), g)
  {
    hide Under, Wf, UnderSome;
    var n := NodeAt(st, root);
    var a := OptSeq(n.loadCsv) + n.unwinds;
    var b := a + n.matches;
    var c := b + n.withs;
    var d := c + n.linear;
    var e := d + n.mutations;
    assert forall c :: c in Pieces(n) <==> c in e + OptSeq(n.resultClause);
    UnderStep(st, root, g, e + OptSeq(n.resultClause));
    SomeJoin(st, OptSeq(n.loadCsv), n.unwinds, g);
    SomeJoin(st, a, n.matches, g);
    SomeJoin(st, b, n.withs, g);
    SomeJoin(st, c, n.linear, g);
    SomeJoin(st, d, n.mutations, g);
    SomeJoin(st, e, OptSeq(n.resultClause), g);
  }

  lemma StatementProper(st: Store, root: Handle)
    requires Shaped(st) && NodeAt(st, root).QueryStatement?
    ensures var n := NodeAt(st, root);
      && (forall h :: h in n.unwinds + n.matches + n.withs + n.linear ==> Proper(st, Clauses, h))
      && (forall h :: h in n.mutations ==> Proper(st, Mutations, h))
      && (n.loadCsv.Some? ==> NodeAt(st, n.loadCsv.value).LoadCsvClause?)
      && (n.resultClause.Some? ==> NodeAt(st, n.resultClause.value).ReturnClause?)
  {
    assert NodeShaped(st, st.nodes[root.index]);
  }

  /** A fold of the statement visits exactly the nodes it is built from that hold expressions to fold. */
  lemma VisitsExactly(st: Store, root: Handle, g: Handle)
    requires Wf(st) && Shaped(st) && NodeAt(st, root).QueryStatement? && g.At?
    ensures g in StatementVisits(st, root) <==> Under(st, root, g) && Folds(NodeAt(st, g))
  {
    hide Under, AllVisits, Wf, Shaped, UnderSome, Proper;
    var n := NodeAt(st, root);
    UnderStatement(st, root, g);
    StatementProper(st, root);
    AllVisited(st, Clauses, n.unwinds, g);
    AllVisited(st, Clauses, n.matches, g);
    AllVisited(st, Clauses, n.withs, g);
    AllVisited(st, Clauses, n.linear, g);
    AllVisited(st, Mutations, n.mutations, g);
    SomeLone(st, n.loadCsv, g);
    SomeLone(st, n.resultClause, g);
  }

  lemma SomeLone(st: Store, o: Option<Handle>, g: Handle)
    requires Wf(st) && (o.Some? ==> NodeAt(st, o.value).LoadCsvClause? || NodeAt(st, o.value).ReturnClause?)
    ensures UnderSome(st, OptSeq(o), g) <==> g in OptSeq(o)
    ensures g in OptSeq(o) ==> Folds(NodeAt(st, g))
  {
    if o.Some? {
      SomeOne(st, o.value, g);
      Alone(st, o.value, g);
    } else {
      SomeNone(st, g);
    }
  }

  // ---------- What happens to a visited node ----------

  lemma SlotTrees(a: Store, b: Store, h: Handle)
    requires Wf(a) && Wf(b) && SlotFolded(a, b, h)
    ensures var xs, ys := ExprList(NodeAt(a, h)), ExprList(NodeAt(b, h));
      |ys| == |xs| && forall k :: 0 <= k < |xs| ==> TreeOf(b, ys[k]) == Fold(TreeOf(a, xs[k]))
  {
    hide Wf, TreeOf, Fold, ExprList;
    var xs, ys := ExprList(NodeAt(a, h)), ExprList(NodeAt(b, h));
    assert Exprs(a, h) == TreesOf(a, xs) && Exprs(b, h) == TreesOf(b, ys);
    forall k | 0 <= k < |xs| ensures TreeOf(b, ys[k]) == Fold(TreeOf(a, xs[k])) {
      assert Exprs(b, h)[k] == Fold(Exprs(a, h)[k]);
    }
  }

  /** Outside the clauses a statement is made of: the URL and the assigned value. */
  lemma ValuesFolded(a: Store, b: Store, h: Handle)
    requires Wf(a) && Wf(b) && SlotFolded(a, b, h)
    ensures var n, m := NodeAt(a, h), NodeAt(b, h);
      && (n.LoadCsvClause? ==>
            m.LoadCsvClause? && m.calias == n.calias && TreeOf(b, m.url) == Fold(TreeOf(a, n.url)))
      && (n.SetItem? ==>
            && m.SetItem? && m.starget == n.starget && m.isMerge == n.isMerge
            && TreeOf(b, m.svalue) == Fold(TreeOf(a, n.svalue)))
  {
    hide Wf, TreeOf, Fold;
    SlotTrees(a, b, h);
    var xs, ys := ExprList(NodeAt(a, h)), ExprList(NodeAt(b, h));
    assert |xs| > 0 ==> TreeOf(b, ys[0]) == Fold(TreeOf(a, xs[0]));
  }

  /** The predicates of a pattern, also of one to be created or merged. */
  lemma PatternsFolded(a: Store, b: Store, h: Handle)
    requires Wf(a) && Wf(b) && SlotFolded(a, b, h)
    ensures var n, m := NodeAt(a, h), NodeAt(b, h);
      && (n.NodePattern? ==>
            && m.NodePattern? && m.nvar == n.nvar && |m.npreds| == |n.npreds|
            && forall k :: 0 <= k < |n.npreds| ==> TreeOf(b, m.npreds[k]) == Fold(TreeOf(a, n.npreds[k])))
      && (n.EdgePattern? ==>
            && m.EdgePattern? && m.evar == n.evar && m.targetNode == n.targetNode && |m.epreds| == |n.epreds|
            && forall k :: 0 <= k < |n.epreds| ==> TreeOf(b, m.epreds[k]) == Fold(TreeOf(a, n.epreds[k])))
  {
    hide Wf, TreeOf, Fold;
    SlotTrees(a, b, h);
  }
}
