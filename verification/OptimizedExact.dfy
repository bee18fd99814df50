/** What each level of optimization does to a statement, beside keeping its rows. */
module OptimizedExact {
  import opened Common
  import opened Trees
  import opened Clauses
  import opened Folding
  import opened Pushdown
  import opened Pruning
  import opened Composition
  import opened PushdownExact

  ghost predicate ProjectionFolded(p: Projection, r: Projection) {
    && |r.items| == |p.items| && |r.order| == |p.order|
    && (forall k :: 0 <= k < |p.items| ==> r.items[k] == p.items[k].(value := Fold(p.items[k].value)))
    && (forall k :: 0 <= k < |p.order| ==> r.order[k] == p.order[k].(value := Fold(p.order[k].value)))
    && r.filter == (if p.filter.None? then None else Some(Fold(p.filter.value)))
    && r == p.(items := r.items, order := r.order, filter := r.filter)
  }

  /** Every expression outside the MATCH clauses is folded, and nothing else of those clauses changes. */
  ghost predicate SurroundingsFolded(q: Statement, r: Statement) {
    && |r.unwinds| == |q.unwinds| && |r.linear| == |q.linear| && |r.withs| == |q.withs|
    && (forall k :: 0 <= k < |q.unwinds| ==> r.unwinds[k] == Unwind(Fold(q.unwinds[k].list), q.unwinds[k].alias))
    && (forall k :: 0 <= k < |q.linear| ==>
          if q.linear[k].Let? then r.linear[k] == Let(q.linear[k].variable, Fold(q.linear[k].value))
          else r.linear[k] == Keep(Fold(q.linear[k].cond)))
    && (forall k :: 0 <= k < |q.withs| ==> ProjectionFolded(q.withs[k], r.withs[k]))
    && (if q.result.None? then r.result.None? else r.result.Some? && ProjectionFolded(q.result.value, r.result.value))
  }

  lemma FoldSurrounds(q: Statement)
    ensures SurroundingsFolded(q, FoldStatement(q))
  {
    hide Fold;
  }

  // ---------- Names after pruning ----------

  /** The node lost its alias exactly if that starts with an underscore and is not used. */
  ghost predicate Trimmed(a: NodePat, b: NodePat, used: set<string>) {
    && b == a.(variable := b.variable)
    && (if a.variable.Some? && "_" <= a.variable.value && a.variable.value !in used then b.variable.None?
        else b.variable == a.variable)
  }

  ghost predicate AllTrimmed(a: seq<NodePat>, b: seq<NodePat>, used: set<string>) {
    |a| == |b| && forall k :: 0 <= k < |a| ==> Trimmed(a[k], b[k], used)
  }

  lemma NodeTrimmed(n: NodePat, used: set<string>)
    ensures Trimmed(n, PruneNode(n, used), used)
  {
  }

  lemma TrimmedJoin(a: seq<NodePat>, b: seq<NodePat>, c: seq<NodePat>, d: seq<NodePat>, used: set<string>)
    requires AllTrimmed(a, b, used) && AllTrimmed(c, d, used)
    ensures AllTrimmed(a + c, b + d, used)
  {
    hide Trimmed;
  }

  lemma {:induction false} EndsTrimmed(es: seq<EdgePat>, fs: seq<EdgePat>, used: set<string>)
    requires |fs| == |es| && forall k :: 0 <= k < |es| ==> fs[k] == es[k].(target := PruneNode(es[k].target, used))
    ensures AllTrimmed(Ends(es), Ends(fs), used)
    decreases |es|
  {
    hide Trimmed, PruneNode;
    if es != [] {
      EndsTrimmed(es[1..], fs[1..], used);
      NodeTrimmed(es[0].target, used);
      TrimmedJoin([es[0].target], [fs[0].target], Ends(es[1..]), Ends(fs[1..]), used);
    }
  }

  lemma PathTrimmed(p: PathPat, used: set<string>)
    ensures AllTrimmed(NodesIn(p), NodesIn(PrunePath(p, used)), used)
  {
    hide Trimmed, PruneNode;
    match p
    case Single(n) => NodeTrimmed(n, used);
    case Chain(_, _, s, es) =>
      var q := PrunePath(p, used);
      NodeTrimmed(s, used);
      EndsTrimmed(es, q.edges, used);
      TrimmedJoin([s], [q.start], Ends(es), Ends(q.edges), used);
  }

  lemma {:induction false} PathsTrimmed(ps: seq<PathPat>, qs: seq<PathPat>, used: set<string>)
    requires |qs| == |ps| && forall k :: 0 <= k < |ps| ==> qs[k] == PrunePath(ps[k], used)
    ensures AllTrimmed(Nodes(ps), Nodes(qs), used)
    decreases |ps|
  {
    hide AllTrimmed, PrunePath, NodesIn;
    if ps == [] {
      NoneTrimmed(used);
    } else {
      PathsTrimmed(ps[1..], qs[1..], used);
      PathTrimmed(ps[0], used);
      TrimmedJoin(NodesIn(ps[0]), NodesIn(qs[0]), Nodes(ps[1..]), Nodes(qs[1..]), used);
    }
  }

  lemma NoneTrimmed(used: set<string>)
    ensures AllTrimmed([], [], used)
  {
  }

  lemma TrimmedNames(a: seq<NodePat>, b: seq<NodePat>, used: set<string>, x: string)
    requires AllTrimmed(a, b, used) && Named(b, x)
    ensures Named(a, x)
  {
    var k :| 0 <= k < |b| && b[k].variable == Some(x);
    assert Trimmed(a[k], b[k], used);
  }

  /** The clauses after pruning: the same filters, the nodes trimmed. */
  ghost predicate Pared(cs: seq<MatchCl>, ds: seq<MatchCl>, used: set<string>) {
    |ds| == |cs| && forall i :: 0 <= i < |cs| ==>
      && ds[i].optional == cs[i].optional && ds[i].filter == cs[i].filter
      && AllTrimmed(Nodes(cs[i].paths), Nodes(ds[i].paths), used)
  }

  lemma PruneMatchesPares(cs: seq<MatchCl>, used: set<string>)
    ensures Pared(cs, PruneMatches(cs, used), used)
  {
    hide AllTrimmed, Nodes, PrunePath;
    var ds := PruneMatches(cs, used);
    forall i | 0 <= i < |cs| ensures AllTrimmed(Nodes(cs[i].paths), Nodes(ds[i].paths), used) {
      PathsTrimmed(cs[i].paths, ds[i].paths, used);
    }
  }

  lemma ParedMovable(p: Expr, cs: seq<MatchCl>, ds: seq<MatchCl>, used: set<string>, i: nat)
    requires Pared(cs, ds, used) && i < |cs| && Movable(p, ds[..i], ds[i].optional, ds[i].paths)
    ensures Movable(p, cs[..i], cs[i].optional, cs[i].paths)
  {
    hide AllTrimmed, Nodes, Named, PushdownExact.Selects;
    var x :| Moves(p, x, ds[..i], ds[i].optional, ds[i].paths);
    if Named(Nodes(ds[i].paths), x) {
      TrimmedNames(Nodes(cs[i].paths), Nodes(ds[i].paths), used, x);
    } else {
      var c :| c in ds[..i] && Offers(c, x);
      var j :| 0 <= j < i && ds[j] == c;
      TrimmedNames(Nodes(cs[j].paths), Nodes(ds[j].paths), used, x);
      assert cs[..i][j] == cs[j] && Offers(cs[j], x);
    }
    assert Moves(p, x, cs[..i], cs[i].optional, cs[i].paths);
  }

  lemma ParedDrained(cs: seq<MatchCl>, ds: seq<MatchCl>, used: set<string>)
    requires Pared(cs, ds, used) && Drained(cs)
    ensures Drained(ds)
  {
    hide AllTrimmed, Nodes, Movable, FilterConjuncts;
    forall i, p | 0 <= i < |ds| && p in FilterConjuncts(ds[i].filter)
      ensures !Movable(p, ds[..i], ds[i].optional, ds[i].paths)
    {
      if Movable(p, ds[..i], ds[i].optional, ds[i].paths) { ParedMovable(p, cs, ds, used, i); }
    }
  }

  /**
   No optimization changes nothing. Every other level folds all expressions around the MATCH
   clauses and leaves no conjunct in a filter that some node could take; the aggressive level also
   drops exactly the internal aliases of nodes that are not used.
   */
  lemma LevelsDo(level: Level, q: Statement, used: set<string>)
    ensures var r := Optimized(level, q, used);
      && (level.NoOptimization? ==> r == q)
      && (!level.NoOptimization? ==> SurroundingsFolded(q, r) && Drained(r.matches))
      && (level.Aggressive? ==> Pared(Optimized(Standard, q, used).matches, r.matches, used))
  {
    hide SurroundingsFolded, Drained, Pared, FoldStatement, PushMatches, PruneMatches;
    var f := FoldStatement(q);
    FoldSurrounds(q);
    PushdownExhausts(f.matches);
    SurroundedAlike(q, f, PushMatches([], f.matches));
    if level.Aggressive? {
      var cs := PushMatches([], f.matches);
      PruneMatchesPares(cs, used);
      ParedDrained(cs, PruneMatches(cs, used), used);
      SurroundedAlike(q, f, PruneMatches(cs, used));
    }
  }

  lemma SurroundedAlike(q: Statement, r: Statement, cs: seq<MatchCl>)
    requires SurroundingsFolded(q, r)
    ensures SurroundingsFolded(q, r.(matches := cs))
  {
  }
}
