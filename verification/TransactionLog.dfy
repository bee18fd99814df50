/** What log, arena, ids and lifecycle of a transaction hold, told from its operations alone. */
module TransactionLog {
  import opened Common
  import opened Ast
  import opened Transactions

  // ---------- The end of a transaction ----------

  ghost predicate EndsAt(ops: seq<Op>, e: nat, k: nat)
    requires k <= |ops|
  {
    e < k && (ops[e].Commit? || ops[e].Rollback?) && forall i :: 0 <= i < e ==> !ops[i].Commit? && !ops[i].Rollback?
  }

  /** A transaction is active until its first commit or rollback, which decides for good what became of it. */
  lemma {:induction false} EndDecided(log: seq<Mutation>, id: nat, arena: seq<AstNode>, ops: seq<Op>, k: nat)
    requires k <= |ops|
    ensures var l := After(Begin(log, id, arena), ops, k).lifecycle;
      && (l.Active? <==> forall e: nat :: !EndsAt(ops, e, k))
      && (forall e: nat :: EndsAt(ops, e, k) ==> l == if ops[e].Commit? then Committed else RolledBack)
    decreases k
  {
    if k > 0 {
      hide EndsAt, Next;
      EndDecided(log, id, arena, ops, k - 1);
      var was := After(Begin(log, id, arena), ops, k - 1);
      EndOn(ops, k - 1, was.lifecycle.Active?);
      EndStep(was, ops[k - 1]);
    }
  }

  lemma EndStep(s: State, op: Op)
    ensures Next(s, op).lifecycle ==
      if s.lifecycle.Active? && op.Commit? then Committed
      else if s.lifecycle.Active? && op.Rollback? then RolledBack
      else s.lifecycle
  {
  }

  lemma EndOn(ops: seq<Op>, k: nat, active: bool)
    requires k < |ops| && (active <==> forall e: nat :: !EndsAt(ops, e, k))
    ensures forall e: nat :: EndsAt(ops, e, k + 1) <==>
      EndsAt(ops, e, k) || (e == k && active && (ops[k].Commit? || ops[k].Rollback?))
  {
    if active {
      forall i | 0 <= i < k ensures !ops[i].Commit? && !ops[i].Rollback? { NoEnd(ops, i, k); }
      var m := k + 1;
      forall e: nat ensures EndsAt(ops, e, m) <==> e == k && (ops[k].Commit? || ops[k].Rollback?) {}
    } else {
      var d: nat :| EndsAt(ops, d, k);
      forall e: nat ensures EndsAt(ops, e, k + 1) <==> EndsAt(ops, e, k) {
        EndsOnce(ops, d, e, k);
      }
    }
  }

  /** The end is where it was, however far one looks. */
  lemma EndsOnce(ops: seq<Op>, d: nat, e: nat, k: nat)
    requires k < |ops| && EndsAt(ops, d, k)
    ensures EndsAt(ops, e, k + 1) <==> EndsAt(ops, e, k)
  {
    if e == k { assert !EndsAt(ops, e, k + 1); }
  }

  lemma {:induction false} NoEnd(ops: seq<Op>, i: nat, k: nat)
    requires i < k <= |ops| && forall e: nat :: !EndsAt(ops, e, k)
    ensures !ops[i].Commit? && !ops[i].Rollback?
    decreases i
  {
    forall j: nat | j < i ensures !ops[j].Commit? && !ops[j].Rollback? { NoEnd(ops, j, k); }
    assert !EndsAt(ops, i, k);
  }

  /** Committing an active transaction leaves no pending mutation and no savepoint, and keeps the arena. */
  lemma CommitEmpties(s: State)
    requires s.lifecycle.Active?
    ensures var now := Next(s, Commit);
      now.lifecycle.Committed? && now.log == [] && now.points == [] && now.arena == s.arena && now.nextId == s.nextId
  {
  }

  /** What has ended takes no more savepoints, rollbacks, releases or commits. */
  lemma EndedRefuses(s: State, op: Op)
    requires !s.lifecycle.Active? && (op.Save? || op.RollbackTo? || op.Release? || op.Commit? || op.Rollback?)
    ensures Next(s, op) == s
  {
  }

  // ---------- Ids ----------

  function Issued(ops: seq<Op>, k: nat): nat
    requires k <= |ops|
  {
    if k == 0 then 0 else Issued(ops, k - 1) + (if Issues(ops[k - 1]) then 1 else 0)
  }

  /** Ids are counted through: no rollback takes one back. */
  lemma {:induction false} IdsCounted(s: State, ops: seq<Op>, k: nat)
    requires k <= |ops|
    ensures After(s, ops, k).nextId == s.nextId + Issued(ops, k)
    decreases k
  {
    if k > 0 { IdsCounted(s, ops, k - 1); }
  }

  // ---------- Pending mutations ----------

  /** Where a pending mutation or a node came from: what was there to begin with, or an operation. */
  datatype Origin = Old(i: nat) | From(op: nat)

  predicate Logs(op: Op) {
    op.NewNode? || op.NewEdge? || op.Record?
  }

  function Olds(n: nat): seq<Origin> {
    seq(n, i requires 0 <= i < n => Old(i))
  }

  /** The shot a rollback to `name` goes back to, one more than its position. */
  function Target(ops: seq<Op>, k: nat, name: string): (n: nat)
    requires k <= |ops|
    ensures n <= |Shots(ops, k, true)|
  {
    LastNamed(ShotNames(Shots(ops, k, true)), name)
  }

  lemma {:induction false} ShotsEarlier(ops: seq<Op>, k: nat, active: bool)
    requires k <= |ops|
    ensures forall i :: 0 <= i < |Shots(ops, k, active)| ==> Shots(ops, k, active)[i].taken < k
    decreases k
  {
    if k > 0 { ShotsEarlier(ops, k - 1, active); }
  }

  /**
   The mutations pending after `k` operations, over `n` to begin with: a rollback keeps as many
   as were pending when its savepoint was taken.
   */
  function Pending(n: nat, ops: seq<Op>, k: nat): seq<Origin>
    requires k <= |ops|
    decreases k
  {
    if k == 0 then Olds(n)
    else
      ShotsEarlier(ops, k - 1, true);
      var before, op := Pending(n, ops, k - 1), ops[k - 1];
      var active := IsActive(ops, k - 1, true);
      if Logs(op) then before + [From(k - 1)]
      else if op.Clear? || (op.Commit? && active) then []
      else if op.Rollback? && active then Cut(before, n)
      else if op.RollbackTo? && active && Target(ops, k - 1, op.name) > 0 then
        Cut(before, |Pending(n, ops, Shots(ops, k - 1, true)[Target(ops, k - 1, op.name) - 1].taken)|)
      else before
  }

  /** The mutation an operation logs. */
  function Entry(s: State, ops: seq<Op>, o: Origin): Option<Mutation> {
    match o
    case Old(i) => if i < |s.log| then Some(s.log[i]) else None
    case From(j) =>
      if j >= |ops| then None
      else match ops[j]
        case NewNode(ls, ps) => Some(InsertNode(After(s, ops, j).nextId, ls, ps))
        case NewEdge(a, b, e, ps) => Some(InsertEdge(After(s, ops, j).nextId, a, b, e, ps))
        case Record(m) => Some(m)
        case _ => None
  }

  ghost predicate Written(s: State, ops: seq<Op>, log: seq<Mutation>, from: seq<Origin>) {
    |log| == |from| && forall i :: 0 <= i < |log| ==> Entry(s, ops, from[i]) == Some(log[i])
  }

  lemma WrittenCut(s: State, ops: seq<Op>, log: seq<Mutation>, from: seq<Origin>, n: nat)
    requires Written(s, ops, log, from)
    ensures Written(s, ops, Cut(log, n), Cut(from, n))
  {
  }

  lemma LiveTargets(s: State, ops: seq<Op>, k: nat, name: string)
    requires k <= |ops| && s.points == [] && s.lifecycle.Active?
    ensures var now := After(s, ops, k);
      && LastNamed(Names(now.points), name) == Target(ops, k, name) && |now.points| == |Shots(ops, k, true)|
      && (now.lifecycle.Active? <==> IsActive(ops, k, true))
      && (Target(ops, k, name) > 0 ==>
            var t := Shots(ops, k, true)[Target(ops, k, name) - 1].taken;
            && t < k && After(s, ops, t).lifecycle.Active?
            && now.points[Target(ops, k, name) - 1].mark == MarkOf(After(s, ops, t).log, After(s, ops, t).arena))
  {
    RunTracks(s, ops, k);
    LiveNames(s, ops, k);
    var n := Target(ops, k, name);
    if n > 0 {
      LiveOne(s, ops, k, n - 1);
      EarlierActive(s, ops, k, n - 1);
    }
  }

  lemma EarlierActive(s: State, ops: seq<Op>, k: nat, i: nat)
    requires k <= |ops| && s.points == [] && s.lifecycle.Active? && i < |Shots(ops, k, true)|
    requires Shots(ops, k, true)[i].taken < k
    ensures After(s, ops, Shots(ops, k, true)[i].taken).lifecycle.Active?
  {
    var t := Shots(ops, k, true)[i].taken;
    NoneWhenEnded(ops, k, true);
    RunTracks(s, ops, t);
    SameCounts(s, ops, t);
  }

  /** Over every run, the log holds exactly the pending mutations, each as its operation logged it. */
  lemma {:induction false} LogTold(log: seq<Mutation>, id: nat, arena: seq<AstNode>, ops: seq<Op>, k: nat)
    requires k <= |ops|
    ensures var s := Begin(log, id, arena); Written(s, ops, After(s, ops, k).log, Pending(|log|, ops, k))
    decreases k
  {
    hide After, Shots, Names, ShotNames, LastNamed, IsActive, Entry, Next, Pending;
    var s := Begin(log, id, arena);
    if k == 0 {
      NothingYet(s, ops);
    } else {
      LogTold(log, id, arena, ops, k - 1);
      var op := ops[k - 1];
      OneStep(s, ops, k - 1);
      if op.RollbackTo? {
        LiveTargets(s, ops, k - 1, op.name);
        var n := Target(ops, k - 1, op.name);
        if n > 0 { LogTold(log, id, arena, ops, Shots(ops, k - 1, true)[n - 1].taken); }
      } else {
        LiveTargets(s, ops, k - 1, "");
      }
      LogOn(s, ops, k - 1);
    }
  }

  lemma NothingYet(s: State, ops: seq<Op>)
    ensures Written(s, ops, After(s, ops, 0).log, Pending(|s.log|, ops, 0))
  {
  }

  lemma LogOn(s: State, ops: seq<Op>, k: nat)
    requires k < |ops| && Written(s, ops, After(s, ops, k).log, Pending(|s.log|, ops, k))
    requires s == Begin(s.log, s.nextId, s.arena)
    requires After(s, ops, k).lifecycle.Active? <==> IsActive(ops, k, true)
    requires ops[k].RollbackTo? ==>
      var n := Target(ops, k, ops[k].name);
      && LastNamed(Names(After(s, ops, k).points), ops[k].name) == n && n <= |After(s, ops, k).points|
      && (n > 0 ==>
            var t := Shots(ops, k, true)[n - 1].taken;
            && t < k && After(s, ops, k).points[n - 1].mark.mutationCount == |Pending(|s.log|, ops, t)|)
    ensures Written(s, ops, After(s, ops, k + 1).log, Pending(|s.log|, ops, k + 1))
  {
    InitialKept(s.log, s.nextId, s.arena, ops, k);
    hide IsActive, LastNamed, Shots, Names, Target, ShotNames;
    var was := After(s, ops, k);
    var op := ops[k];
    var from := Pending(|s.log|, ops, k);
    if op.RollbackTo? && IsActive(ops, k, true) && Target(ops, k, op.name) > 0 {
      WrittenCut(s, ops, was.log, from, was.points[Target(ops, k, op.name) - 1].mark.mutationCount);
    } else if op.Rollback? && IsActive(ops, k, true) {
      WrittenCut(s, ops, was.log, from, |s.log|);
    }
  }

  // ---------- The arena ----------

  /** The nodes there after `k` operations, over `n` to begin with. */
  function Cells(n: nat, ops: seq<Op>, k: nat): seq<Origin>
    requires k <= |ops|
    decreases k
  {
    if k == 0 then Olds(n)
    else
      ShotsEarlier(ops, k - 1, true);
      var before, op := Cells(n, ops, k - 1), ops[k - 1];
      var active := IsActive(ops, k - 1, true);
      if op.AllocNode? then before + [From(k - 1)]
      else if op.Rollback? && active then Cut(before, n)
      else if op.RollbackTo? && active && Target(ops, k - 1, op.name) > 0 then
        Cut(before, |Cells(n, ops, Shots(ops, k - 1, true)[Target(ops, k - 1, op.name) - 1].taken)|)
      else before
  }

  /** The node at position `i`: as it came, or as it was last edited since. */
  function Cell(s: State, ops: seq<Op>, k: nat, i: nat, o: Origin): Option<AstNode>
    requires k <= |ops|
  {
    match o
    case Old(j) =>
      if LastEdit(ops, 0, k, i).Some? then LastEdit(ops, 0, k, i)
      else if j < |s.arena| then Some(s.arena[j]) else None
    case From(j) =>
      if j >= k || !ops[j].AllocNode? then None
      else if LastEdit(ops, j + 1, k, i).Some? then LastEdit(ops, j + 1, k, i)
      else Some(ops[j].node)
  }

  ghost predicate Filled(s: State, ops: seq<Op>, k: nat, arena: seq<AstNode>, from: seq<Origin>)
    requires k <= |ops|
  {
    |arena| == |from| && forall i :: 0 <= i < |arena| ==> Cell(s, ops, k, i, from[i]) == Some(arena[i])
  }

  lemma CellOn(s: State, ops: seq<Op>, k: nat, i: nat, o: Origin)
    requires k < |ops| && Cell(s, ops, k, i, o).Some?
    ensures Cell(s, ops, k + 1, i, o) ==
      if ops[k].EditNode? && ops[k].index == i then Some(ops[k].node) else Cell(s, ops, k, i, o)
  {
  }

  /** Over every run, the arena holds exactly those nodes, each as it came or as it was last edited. */
  lemma {:induction false} ArenaTold(log: seq<Mutation>, id: nat, arena: seq<AstNode>, ops: seq<Op>, k: nat)
    requires k <= |ops|
    ensures var s := Begin(log, id, arena); Filled(s, ops, k, After(s, ops, k).arena, Cells(|arena|, ops, k))
    decreases k
  {
    hide After, Shots, Names, ShotNames, LastNamed, IsActive, Cell, Next, Cells;
    var s := Begin(log, id, arena);
    if k == 0 {
      NoCellsYet(s, ops);
    } else {
      ArenaTold(log, id, arena, ops, k - 1);
      var op := ops[k - 1];
      OneStep(s, ops, k - 1);
      if op.RollbackTo? {
        LiveTargets(s, ops, k - 1, op.name);
        var n := Target(ops, k - 1, op.name);
        if n > 0 { ArenaTold(log, id, arena, ops, Shots(ops, k - 1, true)[n - 1].taken); }
      } else {
        LiveTargets(s, ops, k - 1, "");
      }
      ArenaOn(s, ops, k - 1);
    }
  }

  lemma NoCellsYet(s: State, ops: seq<Op>)
    ensures Filled(s, ops, 0, After(s, ops, 0).arena, Cells(|s.arena|, ops, 0))
  {
  }

  lemma ArenaOn(s: State, ops: seq<Op>, k: nat)
    requires k < |ops| && Filled(s, ops, k, After(s, ops, k).arena, Cells(|s.arena|, ops, k))
    requires s == Begin(s.log, s.nextId, s.arena)
    requires After(s, ops, k).lifecycle.Active? <==> IsActive(ops, k, true)
    requires ops[k].RollbackTo? ==>
      var n := Target(ops, k, ops[k].name);
      && LastNamed(Names(After(s, ops, k).points), ops[k].name) == n && n <= |After(s, ops, k).points|
      && (n > 0 ==>
            var t := Shots(ops, k, true)[n - 1].taken;
            && t < k && After(s, ops, k).points[n - 1].mark.arenaLen == |Cells(|s.arena|, ops, t)|)
    ensures Filled(s, ops, k + 1, After(s, ops, k + 1).arena, Cells(|s.arena|, ops, k + 1))
  {
    hide IsActive, LastNamed, Shots, Names, Target, ShotNames, Cell, Amended;
    InitialKept(s.log, s.nextId, s.arena, ops, k);
    var was, now := After(s, ops, k), After(s, ops, k + 1);
    var from := Cells(|s.arena|, ops, k);
    forall i | 0 <= i < |was.arena|
      ensures Cell(s, ops, k + 1, i, from[i]) ==
        Some(if ops[k].EditNode? && ops[k].index == i then ops[k].node else was.arena[i])
    {
      CellOn(s, ops, k, i, from[i]);
    }
    if ops[k].AllocNode? { NewCell(s, ops, k, |was.arena|); }
  }

  lemma NewCell(s: State, ops: seq<Op>, k: nat, i: nat)
    requires k < |ops| && ops[k].AllocNode?
    ensures Cell(s, ops, k + 1, i, From(k)) == Some(ops[k].node)
  {
  }
}
