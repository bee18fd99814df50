/** Unit of work and savepoints: what a partial rollback restores. */
module Transactions {
  import opened Common
  import opened Ast

  // ---------- State ----------

  type Properties = map<string, Literal>

  datatype Mutation =
    | InsertNode(tempId: nat, labels: seq<string>, properties: Properties)
    | UpdateNode(nodeId: nat, oldProperties: Properties, newProperties: Properties)
    | DeleteNode(nodeId: nat, oldLabels: seq<string>, oldProperties: Properties)
    | InsertEdge(tempId: nat, sourceId: nat, targetId: nat, edgeType: string, properties: Properties)
    | DeleteEdge(edgeId: nat, sourceId: nat, targetId: nat, edgeType: string, oldProperties: Properties)

  datatype Mark = Mark(arenaLen: nat, mutationCount: nat)

  datatype Savepoint = Savepoint(name: string, mark: Mark)

  datatype Lifecycle = Active | Committed | RolledBack

  /** Log, next temporary id and arena, with the transaction over them. */
  datatype State = State(log: seq<Mutation>, nextId: nat, arena: seq<AstNode>, lifecycle: Lifecycle, initial: Mark,
                         points: seq<Savepoint>)

  function MarkOf(log: seq<Mutation>, arena: seq<AstNode>): Mark {
    Mark(|arena|, |log|)
  }

  /** A transaction begun over a log and an arena. */
  function Begin(log: seq<Mutation>, nextId: nat, arena: seq<AstNode>): State {
    State(log, nextId, arena, Active, MarkOf(log, arena), [])
  }

  // ---------- Operations ----------

  function Cut<T>(s: seq<T>, n: nat): seq<T> {
    if n < |s| then s[..n] else s
  }

  /** One more than the position of the last savepoint of that name, zero if there is none. */
  function LastNamed(names: seq<string>, name: string): (n: nat)
    ensures n <= |names| && (n > 0 ==> names[n - 1] == name)
    ensures forall i :: n <= i < |names| ==> names[i] != name
  {
    if names == [] then 0
    else if names[|names| - 1] == name then |names|
    else LastNamed(names[..|names| - 1], name)
  }

  function Names(points: seq<Savepoint>): seq<string> {
    seq(|points|, k requires 0 <= k < |points| => points[k].name)
  }

  function RestoreMark(s: State, m: Mark): State {
    s.(log := Cut(s.log, m.mutationCount), arena := Cut(s.arena, m.arenaLen))
  }

  datatype Op =
    | NewNode(labels: seq<string>, properties: Properties)
    | NewEdge(sourceId: nat, targetId: nat, edgeType: string, properties: Properties)
    | Record(mutation: Mutation)        // an update or a deletion
    | AllocNode(node: AstNode)
    | EditNode(index: nat, node: AstNode)   // through `get_mut`
    | Clear
    | Save(name: string)
    | RollbackTo(name: string)
    | Release(name: string)
    | Commit
    | Rollback

  function RemoveAt<T>(s: seq<T>, k: nat): seq<T>
    requires k < |s|
  {
    s[..k] + s[k + 1..]
  }

  function Put(arena: seq<AstNode>, i: nat, n: AstNode): seq<AstNode> {
    if i < |arena| then arena[i := n] else arena
  }

  /** An operation on an inactive transaction, or with an unknown name, changes nothing. */
  function Next(s: State, op: Op): State {
    match op
    case NewNode(ls, ps) => s.(log := s.log + [InsertNode(s.nextId, ls, ps)], nextId := s.nextId + 1)
    case NewEdge(a, b, e, ps) => s.(log := s.log + [InsertEdge(s.nextId, a, b, e, ps)], nextId := s.nextId + 1)
    case Record(m) => s.(log := s.log + [m])
    case AllocNode(n) => s.(arena := s.arena + [n])
    case EditNode(i, n) => s.(arena := Put(s.arena, i, n))
    case Clear => s.(log := [])
    case Save(x) => if s.lifecycle.Active? then s.(points := s.points + [Savepoint(x, MarkOf(s.log, s.arena))]) else s
    case RollbackTo(x) =>
      var n := LastNamed(Names(s.points), x);
      if s.lifecycle.Active? && n > 0 then RestoreMark(s, s.points[n - 1].mark).(points := s.points[..n]) else s
    case Release(x) =>
      var n := LastNamed(Names(s.points), x);
      if s.lifecycle.Active? && n > 0 then s.(points := RemoveAt(s.points, n - 1)) else s
    case Commit => if s.lifecycle.Active? then s.(lifecycle := Committed, log := [], points := []) else s
    case Rollback =>
      if s.lifecycle.Active? then RestoreMark(s, s.initial).(lifecycle := RolledBack, points := []) else s
  }

  // ---------- The classes ----------

  class UnitOfWork {
    var mutations: seq<Mutation>
    var nextTempId: nat

    constructor ()
      ensures mutations == [] && nextTempId == 1
    {
      mutations, nextTempId := [], 1;
    }

    method RegisterNewNode(labels: seq<string>, properties: Properties) returns (id: nat)
      modifies this
      ensures id == old(nextTempId) < nextTempId
      ensures mutations == old(mutations) + [InsertNode(id, labels, properties)] && nextTempId == id + 1
    {
      id := nextTempId;
      nextTempId := nextTempId + 1;
      mutations := mutations + [InsertNode(id, labels, properties)];
    }

    method RegisterNewEdge(sourceId: nat, targetId: nat, edgeType: string, properties: Properties) returns (id: nat)
      modifies this
      ensures id == old(nextTempId) < nextTempId
      ensures mutations == old(mutations) + [InsertEdge(id, sourceId, targetId, edgeType, properties)]
        && nextTempId == id + 1
    {
      id := nextTempId;
      nextTempId := nextTempId + 1;
      mutations := mutations + [InsertEdge(id, sourceId, targetId, edgeType, properties)];
    }

    /** Updates and deletions. */
    method RegisterChange(m: Mutation)
      requires m.UpdateNode? || m.DeleteNode? || m.DeleteEdge?
      modifies `mutations
      ensures mutations == old(mutations) + [m]
    {
      mutations := mutations + [m];
    }

    method Clear()
      modifies `mutations
      ensures mutations == []
    {
      mutations := [];
    }

    method RollbackTo(arena: QueryAstArena, mark: Mark)
      modifies `mutations, arena
      ensures arena.nodes == Cut(old(arena.nodes), mark.arenaLen)
        && mutations == Cut(old(mutations), mark.mutationCount)
    {
      arena.RollbackTo(mark.arenaLen);
      if mark.mutationCount < |mutations| {
        mutations := mutations[..mark.mutationCount];
      }
    }
  }

  class Transaction {
    const id: nat
    var state: Lifecycle
    const initial: Mark
    var savepoints: seq<Savepoint>

    ghost function View(uow: UnitOfWork, arena: QueryAstArena): State
      reads this, uow, arena
    {
      State(uow.mutations, uow.nextTempId, arena.nodes, state, initial, savepoints)
    }

    constructor (number: nat, uow: UnitOfWork, arena: QueryAstArena)
      ensures View(uow, arena) == Begin(uow.mutations, uow.nextTempId, arena.nodes) && id == number
    {
      id, state, initial, savepoints := number, Active, Mark(|arena.nodes|, |uow.mutations|), [];
    }

    method TakeSavepoint(name: string, uow: UnitOfWork, arena: QueryAstArena) returns (ok: bool)
      modifies this
      ensures View(uow, arena) == Next(old(View(uow, arena)), Save(name))
      ensures ok <==> old(state).Active?
    {
      if !state.Active? { return false; }
      savepoints := savepoints + [Savepoint(name, Mark(|arena.nodes|, |uow.mutations|))];
      return true;
    }

    /** `rposition`: the search runs from the newest savepoint. */
    method Position(name: string) returns (n: nat)
      ensures n == LastNamed(Names(savepoints), name)
    {
      n := |savepoints|;
      ghost var all := Names(savepoints);
      assert all[..n] == all;
      while n > 0 && savepoints[n - 1].name != name
        invariant 0 <= n <= |savepoints|
        invariant LastNamed(all, name) == LastNamed(all[..n], name)
      {
        assert all[..n][..n - 1] == all[..n - 1];
        n := n - 1;
      }
    }

    method RollbackToSavepoint(name: string, uow: UnitOfWork, arena: QueryAstArena) returns (ok: bool)
      modifies this, uow, arena
      ensures View(uow, arena) == Next(old(View(uow, arena)), RollbackTo(name))
      ensures ok <==> old(state).Active? && LastNamed(Names(old(savepoints)), name) > 0
    {
      if !state.Active? { return false; }
      var n := Position(name);
      if n == 0 { return false; }
      uow.RollbackTo(arena, savepoints[n - 1].mark);
      savepoints := savepoints[..n];
      return true;
    }

    method ReleaseSavepoint(name: string, uow: UnitOfWork, arena: QueryAstArena) returns (ok: bool)
      modifies this
      ensures View(uow, arena) == Next(old(View(uow, arena)), Release(name))
      ensures ok <==> old(state).Active? && LastNamed(Names(old(savepoints)), name) > 0
    {
      if !state.Active? { return false; }
      var n := Position(name);
      if n == 0 { return false; }
      savepoints := RemoveAt(savepoints, n - 1);
      return true;
    }

    method CommitAll(uow: UnitOfWork, arena: QueryAstArena) returns (ok: bool)
      modifies this, uow
      ensures View(uow, arena) == Next(old(View(uow, arena)), Commit)
      ensures ok <==> old(state).Active?
    {
      if !state.Active? { return false; }
      state := Committed;
      uow.Clear();
      savepoints := [];
      return true;
    }

    method RollbackAll(uow: UnitOfWork, arena: QueryAstArena) returns (ok: bool)
      modifies this, uow, arena
      ensures View(uow, arena) == Next(old(View(uow, arena)), Rollback)
      ensures ok <==> old(state).Active?
    {
      if !state.Active? { return false; }
      state := RolledBack;
      uow.RollbackTo(arena, initial);
      savepoints := [];
      return true;
    }
  }

  // ---------- Runs ----------

  /** The state after the first `k` operations. */
  function After(s: State, ops: seq<Op>, k: nat): State
    requires k <= |ops|
  {
    if k == 0 then s else Next(After(s, ops, k - 1), ops[k - 1])
  }

  /** A savepoint that can still be rolled back to, and the operation that took it. */
  datatype Shot = Shot(name: string, taken: nat)

  function ShotNames(shots: seq<Shot>): seq<string> {
    seq(|shots|, k requires 0 <= k < |shots| => shots[k].name)
  }

  /** The live savepoints, told from the operations alone. */
  function Shots(ops: seq<Op>, k: nat, active: bool): seq<Shot>
    requires k <= |ops|
  {
    if k == 0 || !IsActive(ops, k, active) then []
    else
      var before := Shots(ops, k - 1, active);
      match ops[k - 1]
      case Save(x) => before + [Shot(x, k - 1)]
      case RollbackTo(x) =>
        var n := LastNamed(ShotNames(before), x);
        if n > 0 then before[..n] else before
      case Release(x) =>
        var n := LastNamed(ShotNames(before), x);
        if n > 0 then RemoveAt(before, n - 1) else before
      case _ => before
  }

  predicate IsActive(ops: seq<Op>, k: nat, active: bool)
    requires k <= |ops|
  {
    active && forall i :: 0 <= i < k ==> !ops[i].Commit? && !ops[i].Rollback?
  }

  /** The arena of before, with the edits of the operations from `lo` to `hi`. */
  function Amended(ops: seq<Op>, lo: nat, hi: nat, arena: seq<AstNode>): (r: seq<AstNode>)
    requires lo <= hi <= |ops|
    ensures |r| == |arena|
    decreases hi
  {
    if lo == hi then arena
    else
      var a := Amended(ops, lo, hi - 1, arena);
      if ops[hi - 1].EditNode? then Put(a, ops[hi - 1].index, ops[hi - 1].node) else a
  }

  /** What was last written at position `i`. */
  function LastEdit(ops: seq<Op>, lo: nat, hi: nat, i: nat): Option<AstNode>
    requires lo <= hi <= |ops|
    decreases hi
  {
    if lo == hi then None
    else if ops[hi - 1].EditNode? && ops[hi - 1].index == i then Some(ops[hi - 1].node)
    else LastEdit(ops, lo, hi - 1, i)
  }

  /** No node of `arena` has been edited, unless back to what it was. */
  ghost predicate Unedited(ops: seq<Op>, lo: nat, hi: nat, arena: seq<AstNode>)
    requires lo <= hi <= |ops|
  {
    forall i :: 0 <= i < |arena| ==> LastEdit(ops, lo, hi, i).None? || LastEdit(ops, lo, hi, i) == Some(arena[i])
  }

  lemma {:induction false} AmendedAt(ops: seq<Op>, lo: nat, hi: nat, arena: seq<AstNode>, i: nat)
    requires lo <= hi <= |ops| && i < |arena|
    ensures Amended(ops, lo, hi, arena)[i] ==
      if LastEdit(ops, lo, hi, i).Some? then LastEdit(ops, lo, hi, i).value else arena[i]
    decreases hi
  {
    if lo < hi { AmendedAt(ops, lo, hi - 1, arena, i); }
  }

  lemma UneditedIff(ops: seq<Op>, lo: nat, hi: nat, arena: seq<AstNode>)
    requires lo <= hi <= |ops|
    ensures Amended(ops, lo, hi, arena) == arena <==> Unedited(ops, lo, hi, arena)
  {
    forall i | 0 <= i < |arena|
      ensures Amended(ops, lo, hi, arena)[i] == arena[i] <==>
        LastEdit(ops, lo, hi, i).None? || LastEdit(ops, lo, hi, i) == Some(arena[i])
    {
      AmendedAt(ops, lo, hi, arena, i);
    }
  }

  /** The log was not cleared by the operations from `lo` to `hi`. */
  ghost predicate Uncleared(ops: seq<Op>, lo: nat, hi: nat)
    requires lo <= hi <= |ops|
  {
    forall i :: lo <= i < hi ==> !ops[i].Clear?
  }

  /**
   Live savepoints mark prefixes of log and arena: those they were taken over, with the edits
   made since; of the log as long as it is not cleared.
   */
  ghost predicate Tracks(s: State, ops: seq<Op>, k: nat)
    requires k <= |ops|
  {
    var now, shots := After(s, ops, k), Shots(ops, k, s.lifecycle.Active?);
    && (now.lifecycle.Active? <==> IsActive(ops, k, s.lifecycle.Active?))
    && |now.points| == |shots|
    && (forall i :: 0 <= i < |shots| ==> TracksOne(s, ops, k, now.points[i], shots[i]))
    && (forall i, j :: 0 <= i < j < |shots| ==>
          && shots[i].taken < shots[j].taken <= k
          && Below(now.points[i].mark, now.points[j].mark, Uncleared(ops, shots[i].taken, shots[j].taken)))
  }

  predicate Below(a: Mark, b: Mark, logs: bool) {
    a.arenaLen <= b.arenaLen && (logs ==> a.mutationCount <= b.mutationCount)
  }

  ghost predicate TracksOne(s: State, ops: seq<Op>, k: nat, p: Savepoint, shot: Shot)
    requires k <= |ops|
  {
    && shot.taken < k && p.name == shot.name && ops[shot.taken] == Save(shot.name)
    && var was, now := After(s, ops, shot.taken), After(s, ops, k);
      && p.mark == MarkOf(was.log, was.arena) && (Uncleared(ops, shot.taken, k) ==> was.log <= now.log)
      && Amended(ops, shot.taken, k, was.arena) <= now.arena
  }

  lemma CutPrefix<T>(a: seq<T>, b: seq<T>)
    requires a <= b
    ensures Cut(b, |a|) == a
  {
  }

  lemma PrefixOfCut<T>(a: seq<T>, b: seq<T>, n: nat)
    requires a <= b && |a| <= n
    ensures a <= Cut(b, n)
  {
  }

  lemma SameNames(points: seq<Savepoint>, shots: seq<Shot>)
    requires |points| == |shots| && forall i :: 0 <= i < |shots| ==> points[i].name == shots[i].name
    ensures Names(points) == ShotNames(shots)
  {
  }

  /** Growing the log or the arena leaves every savepoint a prefix. */
  lemma GrowTracks(s: State, ops: seq<Op>, k: nat)
    requires 0 < k <= |ops| && Tracks(s, ops, k - 1)
    requires var op := ops[k - 1];
      op.NewNode? || op.NewEdge? || op.Record? || op.AllocNode? || op.EditNode? || op.Clear?
    ensures Tracks(s, ops, k)
  {
    var was, now, shots := After(s, ops, k - 1), After(s, ops, k), Shots(ops, k - 1, s.lifecycle.Active?);
    assert (!ops[k - 1].Clear? ==> was.log <= now.log) && now.points == was.points;
    assert Shots(ops, k, s.lifecycle.Active?) == shots by {
      if IsActive(ops, k - 1, s.lifecycle.Active?) { assert IsActive(ops, k, s.lifecycle.Active?); }
    }
    forall i | 0 <= i < |shots| ensures TracksOne(s, ops, k, now.points[i], shots[i]) {
      assert TracksOne(s, ops, k - 1, was.points[i], shots[i]);
      AmendedGrows(s, ops, k, shots[i].taken);
    }
  }

  lemma AmendedGrows(s: State, ops: seq<Op>, k: nat, j: nat)
    requires j < k <= |ops| && Amended(ops, j, k - 1, After(s, ops, j).arena) <= After(s, ops, k - 1).arena
    requires var op := ops[k - 1];
      op.NewNode? || op.NewEdge? || op.Record? || op.AllocNode? || op.EditNode? || op.Clear?
    ensures Amended(ops, j, k, After(s, ops, j).arena) <= After(s, ops, k).arena
  {
  }

  lemma SaveTracks(s: State, ops: seq<Op>, k: nat)
    requires 0 < k <= |ops| && Tracks(s, ops, k - 1) && ops[k - 1].Save?
    ensures Tracks(s, ops, k)
  {
    var was, now, before := After(s, ops, k - 1), After(s, ops, k), Shots(ops, k - 1, s.lifecycle.Active?);
    var shots := Shots(ops, k, s.lifecycle.Active?);
    assert now.log == was.log && now.arena == was.arena;
    forall i | 0 <= i < |shots| ensures TracksOne(s, ops, k, now.points[i], shots[i]) {
      if i < |before| { assert TracksOne(s, ops, k - 1, was.points[i], before[i]); }
    }
    forall i | 0 <= i < |before|
      ensures before[i].taken < k - 1
      ensures Below(was.points[i].mark, MarkOf(was.log, was.arena), Uncleared(ops, before[i].taken, k - 1))
    {
      assert TracksOne(s, ops, k - 1, was.points[i], before[i]);
    }
  }

  lemma IdleTracks(s: State, ops: seq<Op>, k: nat)
    requires 0 < k <= |ops| && Tracks(s, ops, k - 1) && After(s, ops, k) == After(s, ops, k - 1)
    requires var a := s.lifecycle.Active?;
      Shots(ops, k, a) == Shots(ops, k - 1, a) && (IsActive(ops, k, a) <==> IsActive(ops, k - 1, a))
        && !ops[k - 1].EditNode?
    ensures Tracks(s, ops, k)
  {
    var was, shots := After(s, ops, k - 1), Shots(ops, k - 1, s.lifecycle.Active?);
    forall i | 0 <= i < |shots| ensures TracksOne(s, ops, k, was.points[i], shots[i]) {
      assert TracksOne(s, ops, k - 1, was.points[i], shots[i]);
    }
  }

  lemma StillActive(ops: seq<Op>, k: nat, active: bool)
    requires 0 < k <= |ops| && !ops[k - 1].Commit? && !ops[k - 1].Rollback?
    ensures IsActive(ops, k, active) <==> IsActive(ops, k - 1, active)
    ensures !IsActive(ops, k, active) ==> Shots(ops, k, active) == [] == Shots(ops, k - 1, active)
  {
  }

  /** What the step before and the step itself have in common when the transaction stays active. */
  ghost predicate Continues(s: State, ops: seq<Op>, k: nat, points: seq<Savepoint>, shots: seq<Shot>) {
    && 0 < k <= |ops| && Tracks(s, ops, k - 1)
    && After(s, ops, k).points == points && Shots(ops, k, s.lifecycle.Active?) == shots
    && After(s, ops, k).lifecycle.Active? && IsActive(ops, k, s.lifecycle.Active?)
  }

  lemma RollbackCore(s: State, ops: seq<Op>, k: nat, n: nat)
    requires 0 < k <= |ops| && 0 < n <= |After(s, ops, k - 1).points| && n <= |Shots(ops, k - 1, s.lifecycle.Active?)|
    requires Continues(s, ops, k, After(s, ops, k - 1).points[..n], Shots(ops, k - 1, s.lifecycle.Active?)[..n])
    requires var was, now := After(s, ops, k - 1), After(s, ops, k);
      var m := was.points[n - 1].mark;
      now.log == Cut(was.log, m.mutationCount) && now.arena == Cut(was.arena, m.arenaLen) && !ops[k - 1].EditNode?
    ensures Tracks(s, ops, k)
  {
    hide After, Shots, IsActive, Cut, Amended;
    var was, now, before := After(s, ops, k - 1), After(s, ops, k), Shots(ops, k - 1, s.lifecycle.Active?);
    var m := was.points[n - 1].mark;
    forall i | 0 <= i < n ensures TracksOne(s, ops, k, now.points[i], before[i]) {
      assert TracksOne(s, ops, k - 1, was.points[i], before[i]);
      var j := before[i].taken;
      var past := After(s, ops, j);
      assert i < n - 1 ==> Below(was.points[i].mark, m, Uncleared(ops, j, before[n - 1].taken));
      NoEdit(ops, j, k, past.arena);
      if Uncleared(ops, j, k) {
        assert Uncleared(ops, j, k - 1) && (i < n - 1 ==> Uncleared(ops, j, before[n - 1].taken));
        PrefixOfCut(past.log, was.log, m.mutationCount);
      }
      PrefixOfCut(Amended(ops, j, k - 1, past.arena), was.arena, m.arenaLen);
    }
  }

  lemma NoEdit(ops: seq<Op>, j: nat, k: nat, arena: seq<AstNode>)
    requires j < k <= |ops| && !ops[k - 1].EditNode?
    ensures Amended(ops, j, k, arena) == Amended(ops, j, k - 1, arena)
  {
  }

  lemma RollbackTracks(s: State, ops: seq<Op>, k: nat)
    requires 0 < k <= |ops| && Tracks(s, ops, k - 1) && ops[k - 1].RollbackTo?
    ensures Tracks(s, ops, k)
  {
    hide Tracks, IsActive, LastNamed, After, Shots, Next, ShotNames, Names, Cut;
    var a := s.lifecycle.Active?;
    var was, before, name := After(s, ops, k - 1), Shots(ops, k - 1, a), ops[k - 1].name;
    var n := LastNamed(ShotNames(before), name);
    LiveNames(s, ops, k - 1);
    StillActive(ops, k, a);
    OneStep(s, ops, k - 1);
    CutBack(was, name);
    LatestShot(before, name);
    SameCounts(s, ops, k - 1);
    ShotsCutBack(ops, k, a);
    if !IsActive(ops, k, a) || n == 0 {
      IdleTracks(s, ops, k);
    } else {
      assert Continues(s, ops, k, was.points[..n], before[..n]);
      RollbackCore(s, ops, k, n);
    }
  }

  lemma CutBack(s: State, name: string)
    ensures var now, n := Next(s, RollbackTo(name)), LastNamed(Names(s.points), name);
      && now.lifecycle == s.lifecycle
      && (if s.lifecycle.Active? && n > 0 then
            var m := s.points[n - 1].mark;
            && now.points == s.points[..n]
            && now.log == Cut(s.log, m.mutationCount) && now.arena == Cut(s.arena, m.arenaLen)
          else now == s)
  {
  }

  lemma ShotsCutBack(ops: seq<Op>, k: nat, active: bool)
    requires 0 < k <= |ops| && ops[k - 1].RollbackTo?
    ensures IsActive(ops, k, active) ==>
      var before := Shots(ops, k - 1, active);
      var n := LastNamed(ShotNames(before), ops[k - 1].name);
      Shots(ops, k, active) == if n > 0 then before[..n] else before
  {
  }

  lemma LiveNames(s: State, ops: seq<Op>, k: nat)
    requires k <= |ops| && Tracks(s, ops, k)
    ensures Names(After(s, ops, k).points) == ShotNames(Shots(ops, k, s.lifecycle.Active?))
  {
    hide After, Shots, IsActive;
    var now, shots := After(s, ops, k), Shots(ops, k, s.lifecycle.Active?);
    forall i | 0 <= i < |shots| ensures now.points[i].name == shots[i].name {
      assert TracksOne(s, ops, k, now.points[i], shots[i]);
    }
    SameNames(now.points, shots);
  }

  lemma ReleaseCore(s: State, ops: seq<Op>, k: nat, n: nat)
    requires 0 < k <= |ops| && 0 < n <= |After(s, ops, k - 1).points| && n <= |Shots(ops, k - 1, s.lifecycle.Active?)|
    requires Continues(s, ops, k, RemoveAt(After(s, ops, k - 1).points, n - 1),
                       RemoveAt(Shots(ops, k - 1, s.lifecycle.Active?), n - 1))
    requires var was, now := After(s, ops, k - 1), After(s, ops, k);
      now.log == was.log && now.arena == was.arena && !ops[k - 1].EditNode?
    ensures Tracks(s, ops, k)
  {
    hide After, Shots, IsActive, Amended;
    var was, now, before := After(s, ops, k - 1), After(s, ops, k), Shots(ops, k - 1, s.lifecycle.Active?);
    var shots := RemoveAt(before, n - 1);
    forall i | 0 <= i < |shots| ensures TracksOne(s, ops, k, now.points[i], shots[i]) {
      var j := if i >= n - 1 then i + 1 else i;
      assert TracksOne(s, ops, k - 1, was.points[j], before[j]);
      NoEdit(ops, before[j].taken, k, After(s, ops, before[j].taken).arena);
    }
  }

  lemma ReleaseTracks(s: State, ops: seq<Op>, k: nat)
    requires 0 < k <= |ops| && Tracks(s, ops, k - 1) && ops[k - 1].Release?
    ensures Tracks(s, ops, k)
  {
    hide Tracks, RemoveAt, IsActive, LastNamed, After, Shots, Next, ShotNames, Names;
    var a := s.lifecycle.Active?;
    var was, before, name := After(s, ops, k - 1), Shots(ops, k - 1, a), ops[k - 1].name;
    var n := LastNamed(ShotNames(before), name);
    LiveNames(s, ops, k - 1);
    StillActive(ops, k, a);
    OneStep(s, ops, k - 1);
    Released(was, name);
    LatestShot(before, name);
    SameCounts(s, ops, k - 1);
    ReleasedShot(ops, k, a);
    if !IsActive(ops, k, a) || n == 0 {
      IdleTracks(s, ops, k);
    } else {
      assert Continues(s, ops, k, RemoveAt(was.points, n - 1), RemoveAt(before, n - 1));
      ReleaseCore(s, ops, k, n);
    }
  }

  lemma SameCounts(s: State, ops: seq<Op>, k: nat)
    requires k <= |ops| && Tracks(s, ops, k)
    ensures |After(s, ops, k).points| == |Shots(ops, k, s.lifecycle.Active?)|
    ensures After(s, ops, k).lifecycle.Active? <==> IsActive(ops, k, s.lifecycle.Active?)
  {
  }

  lemma ReleasedShot(ops: seq<Op>, k: nat, active: bool)
    requires 0 < k <= |ops| && ops[k - 1].Release?
    ensures IsActive(ops, k, active) ==>
      var before := Shots(ops, k - 1, active);
      var n := LastNamed(ShotNames(before), ops[k - 1].name);
      Shots(ops, k, active) == if n > 0 then RemoveAt(before, n - 1) else before
  {
  }

  lemma Released(s: State, name: string)
    ensures var now, n := Next(s, Release(name)), LastNamed(Names(s.points), name);
      && now.log == s.log && now.arena == s.arena && now.lifecycle == s.lifecycle
      && (if s.lifecycle.Active? && n > 0 then now.points == RemoveAt(s.points, n - 1) else now == s)
  {
  }

  /** Over every run, live savepoints mark prefixes of the current log and arena. */
  lemma {:induction false} RunTracks(s: State, ops: seq<Op>, k: nat)
    requires k <= |ops| && s.points == []
    ensures Tracks(s, ops, k)
    decreases k
  {
    if k > 0 {
      RunTracks(s, ops, k - 1);
      match ops[k - 1]
      case Save(_) => SaveTracks(s, ops, k);
      case RollbackTo(_) => RollbackTracks(s, ops, k);
      case Release(_) => ReleaseTracks(s, ops, k);
      case Commit => EndTracks(s, ops, k);
      case Rollback => EndTracks(s, ops, k);
      case _ => GrowTracks(s, ops, k);
    }
  }

  lemma EndTracks(s: State, ops: seq<Op>, k: nat)
    requires 0 < k <= |ops| && Tracks(s, ops, k - 1) && (ops[k - 1].Commit? || ops[k - 1].Rollback?)
    ensures Tracks(s, ops, k)
  {
    assert !IsActive(ops, k, s.lifecycle.Active?);
    if !IsActive(ops, k - 1, s.lifecycle.Active?) {
      assert Shots(ops, k - 1, s.lifecycle.Active?) == [];
    }
  }

  /**
   Rolling back to a name restores what was there when the latest live savepoint of that name
   was taken: the log if and only if the log of that time is a prefix of the current one, as it
   is unless the log has been cleared, and the arena if and only if no node of that time has
   been edited in place; without such a savepoint, nothing changes.
   */
  lemma RollbackRestores(s: State, ops: seq<Op>, k: nat, name: string)
    requires k < |ops| && s.points == [] && ops[k] == RollbackTo(name)
    ensures var shots := Shots(ops, k, s.lifecycle.Active?);
      var n := LastNamed(ShotNames(shots), name);
      if n > 0 then
        && shots[n - 1].taken < k && ops[shots[n - 1].taken] == Save(name)
        && var now, past := After(s, ops, k + 1), After(s, ops, shots[n - 1].taken);
          && (Uncleared(ops, shots[n - 1].taken, k) ==> now.log == past.log)
          && (now.log == past.log <==> past.log <= After(s, ops, k).log)
          && now.arena == Amended(ops, shots[n - 1].taken, k, past.arena)
          && (now.arena == past.arena <==> Unedited(ops, shots[n - 1].taken, k, past.arena))
      else After(s, ops, k + 1) == After(s, ops, k)
  {
    hide After, Shots, IsActive, LastNamed, Tracks, Names, ShotNames, Next;
    var was, shots := After(s, ops, k), Shots(ops, k, s.lifecycle.Active?);
    var n := LastNamed(ShotNames(shots), name);
    RunTracks(s, ops, k);
    LiveNames(s, ops, k);
    OneStep(s, ops, k);
    LatestShot(shots, name);
    if n > 0 {
      LiveOne(s, ops, k, n - 1);
      var j := shots[n - 1].taken;
      var past := After(s, ops, j);
      hide Amended, Unedited;
      RolledTo(was, name, past.log, Amended(ops, j, k, past.arena));
      UneditedIff(ops, j, k, past.arena);
    } else {
      NotRolled(was, name);
    }
  }

  lemma OneStep(s: State, ops: seq<Op>, k: nat)
    requires k < |ops|
    ensures After(s, ops, k + 1) == Next(After(s, ops, k), ops[k])
  {
  }

  lemma NoneWhenEnded(ops: seq<Op>, k: nat, active: bool)
    requires k <= |ops|
    ensures !IsActive(ops, k, active) ==> Shots(ops, k, active) == []
  {
  }

  lemma LatestShot(shots: seq<Shot>, name: string)
    ensures var n := LastNamed(ShotNames(shots), name); n <= |shots| && (n > 0 ==> shots[n - 1].name == name)
  {
  }

  lemma RolledTo(s: State, name: string, log: seq<Mutation>, arena: seq<AstNode>)
    requires s.lifecycle.Active? && arena <= s.arena
    requires var n := LastNamed(Names(s.points), name); n > 0 && s.points[n - 1].mark == MarkOf(log, arena)
    ensures var now := Next(s, RollbackTo(name)); (now.log == log <==> log <= s.log) && now.arena == arena
  {
    CutPrefixIff(log, s.log);
    CutPrefix(arena, s.arena);
  }

  lemma CutPrefixIff<T>(a: seq<T>, b: seq<T>)
    ensures Cut(b, |a|) == a <==> a <= b
  {
    if a <= b { CutPrefix(a, b); }
  }

  lemma NotRolled(s: State, name: string)
    requires LastNamed(Names(s.points), name) == 0
    ensures Next(s, RollbackTo(name)) == s
  {
  }

  lemma LiveOne(s: State, ops: seq<Op>, k: nat, i: nat)
    requires k <= |ops| && Tracks(s, ops, k) && i < |Shots(ops, k, s.lifecycle.Active?)|
    ensures var now, shot := After(s, ops, k), Shots(ops, k, s.lifecycle.Active?)[i];
      && i < |now.points| && now.lifecycle.Active? && shot.taken < k && ops[shot.taken] == Save(shot.name)
      && var was := After(s, ops, shot.taken);
        && now.points[i].mark == MarkOf(was.log, was.arena) && (Uncleared(ops, shot.taken, k) ==> was.log <= now.log)
        && Amended(ops, shot.taken, k, was.arena) <= now.arena
  {
    var a := s.lifecycle.Active?;
    NoneWhenEnded(ops, k, a);
    hide After, Shots, IsActive;
    assert TracksOne(s, ops, k, After(s, ops, k).points[i], Shots(ops, k, a)[i]);
  }

  /** While a transaction is active, what it began over is still there. */
  ghost predicate Holds(log: seq<Mutation>, arena: seq<AstNode>, now: State, uncleared: bool) {
    now.lifecycle.Active? ==>
      && (uncleared ==> log <= now.log) && arena <= now.arena
      && forall i :: 0 <= i < |now.points| ==> Below(MarkOf(log, arena), now.points[i].mark, uncleared)
  }

  lemma HoldsNext(log: seq<Mutation>, arena: seq<AstNode>, s: State, op: Op, uncleared: bool)
    requires Holds(log, arena, s, uncleared)
    ensures Holds(log, if op.EditNode? then Put(arena, op.index, op.node) else arena, Next(s, op),
                  uncleared && !op.Clear?)
  {
    if s.lifecycle.Active? && op.RollbackTo? {
      var n := LastNamed(Names(s.points), op.name);
      if n > 0 {
        var m := s.points[n - 1].mark;
        if uncleared { PrefixOfCut(log, s.log, m.mutationCount); }
        PrefixOfCut(arena, s.arena, m.arenaLen);
      }
    }
  }

  lemma {:induction false} InitialKept(log: seq<Mutation>, id: nat, arena: seq<AstNode>, ops: seq<Op>, k: nat)
    requires k <= |ops|
    ensures var s, now := Begin(log, id, arena), After(Begin(log, id, arena), ops, k);
      now.initial == s.initial && Holds(log, Amended(ops, 0, k, arena), now, Uncleared(ops, 0, k))
    decreases k
  {
    if k > 0 {
      hide Holds;
      InitialKept(log, id, arena, ops, k - 1);
      HoldsNext(log, Amended(ops, 0, k - 1, arena), After(Begin(log, id, arena), ops, k - 1), ops[k - 1],
                Uncleared(ops, 0, k - 1));
      assert Uncleared(ops, 0, k) <==> Uncleared(ops, 0, k - 1) && !ops[k - 1].Clear?;
    }
  }

  /**
   Rolling back an active transaction restores the log it began over if and only if that is a
   prefix of the current one, as it is unless the log has been cleared, and the arena if and
   only if it was not edited.
   */
  lemma RollbackRestoresAll(log: seq<Mutation>, id: nat, arena: seq<AstNode>, ops: seq<Op>, k: nat)
    requires k < |ops| && ops[k].Rollback?
    ensures var s := Begin(log, id, arena);
      After(s, ops, k).lifecycle.Active? ==>
        var now := After(s, ops, k + 1);
        && (Uncleared(ops, 0, k) ==> now.log == log) && (now.log == log <==> log <= After(s, ops, k).log)
        && now.points == [] && (now.arena == arena <==> Unedited(ops, 0, k, arena))
  {
    InitialKept(log, id, arena, ops, k);
    var was := After(Begin(log, id, arena), ops, k);
    if was.lifecycle.Active? {
      CutPrefixIff(log, was.log);
      CutPrefix(Amended(ops, 0, k, arena), was.arena);
      UneditedIff(ops, 0, k, arena);
    }
  }

  /** An edit made after the savepoint survives the rollback to it. */
  lemma EditSurvives(x: AstNode, y: AstNode)
    ensures var s := Begin([], 1, [x]);
      After(s, [Save("s"), EditNode(0, y), RollbackTo("s")], 3).arena == [y]
  {
    var s, ops := Begin([], 1, [x]), [Save("s"), EditNode(0, y), RollbackTo("s")];
    assert After(s, ops, 0) == s;
    var one := After(s, ops, 1);
    assert one == s.(points := [Savepoint("s", Mark(1, 0))]);
    assert After(s, ops, 2) == one.(arena := [y]);
    assert Names(one.points) == ["s"];
    assert LastNamed(Names(one.points), "s") == 1;
  }

  /** A mutation logged after the log was cleared survives the rollback to an earlier savepoint. */
  lemma ClearForgets(m: Mutation, n: Mutation)
    requires m != n
    ensures var s, ops := Begin([m], 1, []), [Save("s"), Clear, Record(n), RollbackTo("s")];
      After(s, ops, 4).log == [n] && After(s, ops, 0).log == [m]
  {
    var s, ops := Begin([m], 1, []), [Save("s"), Clear, Record(n), RollbackTo("s")];
    assert After(s, ops, 0) == s;
    var one := After(s, ops, 1);
    assert one == s.(points := [Savepoint("s", Mark(0, 1))]);
    assert After(s, ops, 2) == one.(log := []);
    assert After(s, ops, 3) == one.(log := [n]);
    assert Names(one.points) == ["s"];
    assert LastNamed(Names(one.points), "s") == 1;
  }

  // ---------- Temporary ids ----------

  predicate Issues(op: Op) {
    op.NewNode? || op.NewEdge?
  }

  lemma {:induction false} IdsGrow(s: State, ops: seq<Op>, j: nat, k: nat)
    requires j <= k <= |ops|
    ensures After(s, ops, j).nextId <= After(s, ops, k).nextId
    decreases k
  {
    if j < k {
      IdsGrow(s, ops, j, k - 1);
      OneStep(s, ops, k - 1);
    }
  }

  /** No temporary id is issued twice, whatever is rolled back in between. */
  lemma IdsNeverReused(s: State, ops: seq<Op>, j: nat, k: nat)
    requires j < k < |ops| && Issues(ops[j]) && Issues(ops[k])
    ensures After(s, ops, j).nextId < After(s, ops, k).nextId
  {
    IdsGrow(s, ops, j + 1, k);
  }
}
