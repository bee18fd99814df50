/** What a run of the pool says about its waiters: who is served, in which order, and who can be left waiting. */
module PoolQueue {
  import opened Pool
  import opened PoolHistory

  // ---------- Registrations ----------

  /** The last of the first `k` steps in which task `t` asked for a place in the waiter queue; none is -1. */
  function RegisteredStep(steps: seq<Step>, k: nat, t: nat): (j: int)
    ensures -1 <= j < k
  {
    if k == 0 || k > |steps| then -1
    else if steps[k - 1] == Register(t) then k - 1
    else RegisteredStep(steps, k - 1, t)
  }

  /** The waiter queue was emptied by closing the pool, after step `r` and before step `k`. */
  ghost predicate Abandoned(steps: seq<Step>, r: int, k: nat)
    requires k <= |steps|
  {
    exists i :: 0 <= i && r < i < k && steps[i].CloseWaiters?
  }

  /** Task `v` waits, and its sender is still in the queue. */
  ghost predicate InLine(ss: seq<State>, steps: seq<Step>, k: nat, v: nat)
    requires k <= |steps| && k < |ss|
  {
    Awaits(ss[k], v) && !Abandoned(steps, RegisteredStep(steps, k, v), k)
  }

  predicate Unregistered(p: Place) {
    p.Entering? || p.Contending?
  }

  /** The queue holds the waiting tasks in the order in which they registered. */
  ghost predicate Lined(steps: seq<Step>, k: nat, s: State)
    requires k <= |steps|
  {
    && (forall i :: 0 <= i < |s.waiters| ==>
          RegisteredStep(steps, k, s.waiters[i]) >= 0 && !Abandoned(steps, RegisteredStep(steps, k, s.waiters[i]), k))
    && (forall i, j :: 0 <= i < j < |s.waiters| ==>
          RegisteredStep(steps, k, s.waiters[i]) < RegisteredStep(steps, k, s.waiters[j]))
    && (forall t :: t !in s.tasks ==> RegisteredStep(steps, k, t) == -1)
    && (forall t :: t in s.places && Unregistered(s.places[t]) ==> RegisteredStep(steps, k, t) == -1)
    && (forall v :: Awaits(s, v) ==>
          RegisteredStep(steps, k, v) >= 0
          && (v in s.waiters || Abandoned(steps, RegisteredStep(steps, k, v), k)))
  }

  /** Who is unregistered after a step. */
  lemma StartChange(s: State, st: Step, t: nat)
    requires Enabled(s, st)
    ensures var b := Apply(s, st);
      && (t in s.tasks ==> t in b.tasks)
      && (t in b.places && Unregistered(b.places[t]) ==>
            st != Register(t) && ((t in s.places && Unregistered(s.places[t])) || st == Acquire(t)))
  {
    hide Inspect, Retained, Evicted, Ids, Stale;
  }

  /** Who waits after a step. */
  lemma WaitChange(s: State, st: Step, t: nat)
    requires Enabled(s, st)
    ensures var b := Apply(s, st);
      Awaits(b, t) ==> if st == Register(t) then s.permits == 0 == b.permits else Awaits(s, t)
  {
    hide Inspect, Retained, Evicted, Ids, Stale;
  }

  /** Most steps leave the waiter queue alone. */
  lemma WaitersSame(s: State, st: Step)
    requires Enabled(s, st)
    ensures !(st.Register? && s.permits == 0) && !st.CloseWaiters? && !st.Return? && !st.PassPermit? ==>
      Apply(s, st).waiters == s.waiters
  {
    hide Inspect, Retained, Evicted, Ids, Returned, Passed;
  }

  /** The queue after a step, where it grows and where it is emptied. */
  lemma QueueChange(s: State, st: Step)
    requires Enabled(s, st)
    ensures var b := Apply(s, st);
      && (st.Register? && s.permits == 0 ==> b.waiters == s.waiters + [st.t])
      && (st.CloseWaiters? ==> b.waiters == [])
      && (!(st.Register? && s.permits == 0) && !st.CloseWaiters? ==> exists n :: Shortened(s, b, n))
  {
    if st.Return? || st.PassPermit? {
      HandoverChange(s, st);
    } else {
      WaitersSame(s, st);
      var b := Apply(s, st);
      assert b.waiters == s.waiters ==> Shortened(s, b, 0);
    }
  }

  lemma HandoverChange(s: State, st: Step)
    requires Enabled(s, st) && (st.Return? || st.PassPermit?)
    ensures exists n :: Shortened(s, Apply(s, st), n)
  {
    var b, n := Apply(s, st), Stale(s, s.waiters);
    hide Stale;
    if b.waiters == s.waiters {
      assert Shortened(s, b, 0);
    } else {
      assert Shortened(s, b, if n == |s.waiters| then n else n + 1);
    }
  }

  /** The first `n` senders are gone, and none of their tasks waits any more. */
  ghost predicate Shortened(s: State, b: State, n: nat) {
    n <= |s.waiters| && b.waiters == s.waiters[n..] && forall i :: 0 <= i < n ==> !Awaits(b, s.waiters[i])
  }

  lemma {:induction false} RunLined(cfg: Config, ss: seq<State>, steps: seq<Step>, k: nat)
    requires Run(cfg, ss, steps) && k <= |steps|
    ensures Lined(steps, k, ss[k])
    decreases k
  {
    if k > 0 {
      RunLined(cfg, ss, steps, k - 1);
      StepOf(cfg, ss, steps, k - 1);
      hide Run, Apply, Enabled, Inv, Lined;
      LinedOn(steps, k - 1, ss[k - 1]);
    }
  }

  /** Step `k` leaves the registration of every task but its own. */
  lemma RegisteredOn(steps: seq<Step>, k: nat, t: nat)
    requires k < |steps|
    ensures RegisteredStep(steps, k + 1, t) == if steps[k] == Register(t) then k else RegisteredStep(steps, k, t)
    ensures forall r :: r < k ==> (Abandoned(steps, r, k + 1) <==> Abandoned(steps, r, k) || steps[k].CloseWaiters?)
    ensures !Abandoned(steps, k, k + 1)
  {
    forall r | r < k ensures Abandoned(steps, r, k + 1) <==> Abandoned(steps, r, k) || steps[k].CloseWaiters? {
      if Abandoned(steps, r, k) {
        var i :| 0 <= i && r < i < k && steps[i].CloseWaiters?;
        assert Abandoned(steps, r, k + 1);
      }
    }
  }

  lemma LinedOn(steps: seq<Step>, k: nat, s: State)
    requires k < |steps| && Inv(s) && Enabled(s, steps[k]) && Lined(steps, k, s)
    ensures Lined(steps, k + 1, Apply(s, steps[k]))
  {
    var st, b := steps[k], Apply(s, steps[k]);
    LinedQueue(steps, k, s);
    LinedStarts(steps, k, s);
    forall v | Awaits(b, v)
      ensures RegisteredStep(steps, k + 1, v) >= 0
        && (v in b.waiters || Abandoned(steps, RegisteredStep(steps, k + 1, v), k + 1))
    {
      LinedWaits(steps, k, s, v);
    }
  }

  lemma LinedStarts(steps: seq<Step>, k: nat, s: State)
    requires k < |steps| && Inv(s) && Enabled(s, steps[k]) && Lined(steps, k, s)
    ensures var b := Apply(s, steps[k]);
      && (forall t :: t !in b.tasks ==> RegisteredStep(steps, k + 1, t) == -1)
      && (forall t :: t in b.places && Unregistered(b.places[t]) ==> RegisteredStep(steps, k + 1, t) == -1)
  {
    var st, b := steps[k], Apply(s, steps[k]);
    forall t ensures t !in b.tasks ==> RegisteredStep(steps, k + 1, t) == -1 {
      StartChange(s, st, t);
      if st == Register(t) { TaskListed(s, t); }
    }
    forall t ensures t in b.places && Unregistered(b.places[t]) ==> RegisteredStep(steps, k + 1, t) == -1 {
      StartChange(s, st, t);
    }
  }

  lemma LinedWaits(steps: seq<Step>, k: nat, s: State, v: nat)
    requires k < |steps| && Enabled(s, steps[k]) && Lined(steps, k, s) && Awaits(Apply(s, steps[k]), v)
    ensures RegisteredStep(steps, k + 1, v) >= 0
    ensures v in Apply(s, steps[k]).waiters || Abandoned(steps, RegisteredStep(steps, k + 1, v), k + 1)
  {
    var st, b := steps[k], Apply(s, steps[k]);
    WaitChange(s, st, v);
    RegisteredOn(steps, k, v);
    QueueChange(s, st);
    hide Apply, Enabled, Abandoned, RegisteredStep;
    if st != Register(v) && v in s.waiters && !st.CloseWaiters? {
      if !(st.Register? && s.permits == 0) {
        var n :| Shortened(s, b, n);
        var i :| 0 <= i < |s.waiters| && s.waiters[i] == v;
        assert b.waiters[i - n] == v;
      }
    }
  }

  lemma RegistersOnce(steps: seq<Step>, k: nat, s: State)
    requires k < |steps| && Enabled(s, steps[k]) && Lined(steps, k, s)
    ensures steps[k].Register? ==> RegisteredStep(steps, k, steps[k].t) == -1
  {
  }

  lemma LinedQueue(steps: seq<Step>, k: nat, s: State)
    requires k < |steps| && Enabled(s, steps[k]) && Lined(steps, k, s)
    ensures var b := Apply(s, steps[k]);
      && (forall i :: 0 <= i < |b.waiters| ==>
            RegisteredStep(steps, k + 1, b.waiters[i]) >= 0
            && !Abandoned(steps, RegisteredStep(steps, k + 1, b.waiters[i]), k + 1))
      && (forall i, j :: 0 <= i < j < |b.waiters| ==>
            RegisteredStep(steps, k + 1, b.waiters[i]) < RegisteredStep(steps, k + 1, b.waiters[j]))
  {
    hide Apply, Enabled, Abandoned, RegisteredStep;
    var st, b := steps[k], Apply(s, steps[k]);
    QueueChange(s, st);
    RegistersOnce(steps, k, s);
    forall t ensures st != Register(t) ==> RegisteredStep(steps, k + 1, t) == RegisteredStep(steps, k, t) {
      RegisteredOn(steps, k, t);
    }
    RegisteredOn(steps, k, 0);
    if st.Register? && s.permits == 0 {
      forall i | 0 <= i < |s.waiters| ensures s.waiters[i] != st.t {}
      RegisteredOn(steps, k, st.t);
    } else if !st.CloseWaiters? {
      var n :| Shortened(s, b, n);
      forall i | 0 <= i < |b.waiters| ensures b.waiters[i] == s.waiters[i + n] {}
      forall i | 0 <= i < |s.waiters| && st.Register? ensures s.waiters[i] != st.t {}
    }
  }

  // ---------- First come, first served ----------

  /** The first in line: no task in line registered before `u`. */
  ghost predicate FirstInLine(ss: seq<State>, steps: seq<Step>, k: nat, u: nat)
    requires k <= |steps| && k < |ss|
  {
    && InLine(ss, steps, k, u)
    && forall v :: InLine(ss, steps, k, v) ==> RegisteredStep(steps, k, u) <= RegisteredStep(steps, k, v)
  }

  lemma InLineIff(cfg: Config, ss: seq<State>, steps: seq<Step>, k: nat, v: nat)
    requires Run(cfg, ss, steps) && k <= |steps|
    ensures InLine(ss, steps, k, v) <==> Awaits(ss[k], v) && v in ss[k].waiters
  {
    RunLined(cfg, ss, steps, k);
    if v in ss[k].waiters {
      var i :| 0 <= i < |ss[k].waiters| && ss[k].waiters[i] == v;
    }
  }

  /** The sender that a returned connection or permit reaches belongs to the first in line. */
  lemma StaleFirst(cfg: Config, ss: seq<State>, steps: seq<Step>, k: nat)
    requires Run(cfg, ss, steps) && k <= |steps|
    ensures var n := Stale(ss[k], ss[k].waiters);
      if n < |ss[k].waiters| then FirstInLine(ss, steps, k, ss[k].waiters[n])
      else forall v :: !InLine(ss, steps, k, v)
  {
    var ws, n := ss[k].waiters, Stale(ss[k], ss[k].waiters);
    RunLined(cfg, ss, steps, k);
    forall v ensures InLine(ss, steps, k, v) <==> Awaits(ss[k], v) && v in ws { InLineIff(cfg, ss, steps, k, v); }
    hide Run, InLine, RegisteredStep, Abandoned;
    forall v | InLine(ss, steps, k, v)
      ensures n < |ws| && RegisteredStep(steps, k, ws[n]) <= RegisteredStep(steps, k, v)
    {
      var i :| 0 <= i < |ws| && ws[i] == v;
      assert n <= i;
    }
    if n < |ws| { assert ws[n] in ws; }
  }

  /**
   A connection given back sound goes to whichever task registered first of those in line, and
   towards the idle queue only if none is; a permit goes the same way, or back to the semaphore.
   */
  lemma ServedInOrder(cfg: Config, ss: seq<State>, steps: seq<Step>, k: nat, t: nat)
    requires Run(cfg, ss, steps) && k < |steps|
    ensures steps[k] == Return(t) && !ss[k].closed && ss[k].places[t].conn.valid ==>
      var c := ss[k].places[t].conn;
      if exists v :: InLine(ss, steps, k, v)
      then exists u :: FirstInLine(ss, steps, k, u) && u in ss[k + 1].places && ss[k + 1].places[u] == OfferedConn(c)
      else t in ss[k + 1].places && ss[k + 1].places[t] == Parking(c)
    ensures steps[k] == PassPermit(t) ==>
      if exists v :: InLine(ss, steps, k, v)
      then exists u :: FirstInLine(ss, steps, k, u) && u in ss[k + 1].places && ss[k + 1].places[u] == OfferedPermit
      else ss[k + 1].permits == ss[k].permits + 1
  {
    StepOf(cfg, ss, steps, k);
    StaleFirst(cfg, ss, steps, k);
    hide Run, InLine, RegisteredStep, Inv, Stale;
  }

  // ---------- Who can be left waiting ----------

  /** The step frees a permit without a look at the waiter queue. */
  predicate FreesUnseen(s: State, st: Step) {
    match st
    case Release(_) => true
    case DropOffer(t, _) => t in s.places && s.places[t].OfferedPermit?
    case Pop(_) => s.closed
    case _ => false
  }

  lemma PermitFreed(s: State, st: Step)
    requires Enabled(s, st) && s.permits == 0 && Apply(s, st).permits > 0
    ensures FreesUnseen(s, st) || (st.PassPermit? && forall i :: 0 <= i < |s.waiters| ==> !Awaits(s, s.waiters[i]))
  {
    hide Inspect, Retained, Evicted, Ids, Returned, Dropped;
    match st
    case PassPermit(t) =>
      var n := Stale(s, s.waiters);
      assert n == |s.waiters|;
    case DropOffer(t, spawn) => if s.places[t].OfferedConn? { DropKeepsPermits(s, t, false, spawn); }
    case DropLease(t, spawn) => DropKeepsPermits(s, t, s.places[t].broken, spawn);
    case Return(t) => ReturnKeepsPermits(s, t);
    case _ =>
  }

  lemma DropKeepsPermits(s: State, t: nat, broken: bool, spawn: bool)
    requires t in s.places && (s.places[t].OfferedConn? || s.places[t].Leased?)
    ensures Dropped(s, t, s.places[t].conn, broken, spawn).permits == s.permits
  {
  }

  lemma ReturnKeepsPermits(s: State, t: nat)
    requires t in s.places && s.places[t].Handing?
    ensures Returned(s, t, s.places[t].conn).permits == s.permits
  {
  }

  /**
   A task stays in line beside a free permit only if, since it registered, a permit was freed
   without a look at the queue; the second look at the semaphore rules out every other way.
   */
  lemma {:induction false} LeftWaiting(cfg: Config, ss: seq<State>, steps: seq<Step>, k: nat, v: nat)
    requires Run(cfg, ss, steps) && k <= |steps| && InLine(ss, steps, k, v) && ss[k].permits > 0
    ensures exists j :: RegisteredStep(steps, k, v) < j < k && 0 <= j && FreesUnseen(ss[j], steps[j])
    decreases k
  {
    RunLined(cfg, ss, steps, k);
    if k > 0 {
      var s, st := ss[k - 1], steps[k - 1];
      StepOf(cfg, ss, steps, k - 1);
      WaitChange(s, st, v);
      RegisteredOn(steps, k - 1, v);
      InLineIff(cfg, ss, steps, k - 1, v);
      hide Apply, Enabled, Inv, Lined, RegisteredStep, Abandoned;
      if s.permits > 0 {
        LeftWaiting(cfg, ss, steps, k - 1, v);
      } else {
        PermitFreed(s, st);
      }
    }
  }

  /** Some task is in line beside a free permit. */
  ghost predicate Stranded(ss: seq<State>, steps: seq<Step>, k: nat)
    requires k <= |steps| && k < |ss|
  {
    ss[k].permits > 0 && exists v :: InLine(ss, steps, k, v)
  }

  /** Step `j` frees a permit without a look at the queue while some task is in line. */
  ghost predicate Overlooks(ss: seq<State>, steps: seq<Step>, j: nat)
    requires j < |steps| && j < |ss|
  {
    FreesUnseen(ss[j], steps[j]) && exists v :: InLine(ss, steps, j, v)
  }

  /** Whoever is in line now was in line ever since it registered. */
  lemma {:induction false} InLineEarlier(cfg: Config, ss: seq<State>, steps: seq<Step>, j: nat, k: nat, v: nat)
    requires Run(cfg, ss, steps) && k <= |steps| && InLine(ss, steps, k, v) && RegisteredStep(steps, k, v) < j <= k
    ensures InLine(ss, steps, j, v)
    decreases k
  {
    if j < k {
      StepOf(cfg, ss, steps, k - 1);
      WaitChange(ss[k - 1], steps[k - 1], v);
      RegisteredOn(steps, k - 1, v);
      RunLined(cfg, ss, steps, k);
      hide Apply, Enabled, Inv, Lined, RegisteredStep, Abandoned;
      InLineEarlier(cfg, ss, steps, j, k - 1, v);
    }
  }

  lemma OverlookStrands(cfg: Config, ss: seq<State>, steps: seq<Step>, j: nat)
    requires Run(cfg, ss, steps) && j < |steps| && Overlooks(ss, steps, j)
    ensures Stranded(ss, steps, j + 1)
  {
    var v :| InLine(ss, steps, j, v);
    StepOf(cfg, ss, steps, j);
    RegisteredOn(steps, j, v);
    RunLined(cfg, ss, steps, j);
    FreedBeside(ss[j], steps[j], v);
    hide Apply, Enabled, Inv, Lined, RegisteredStep, Abandoned, Run;
    assert InLine(ss, steps, j + 1, v);
  }

  lemma FreedBeside(s: State, st: Step, v: nat)
    requires Enabled(s, st) && FreesUnseen(s, st) && Awaits(s, v)
    ensures Awaits(Apply(s, st), v) && Apply(s, st).permits > 0 && !st.Register? && !st.CloseWaiters?
  {
  }

  /** A run never strands a task if and only if no permit is freed unseen while some task is in line. */
  lemma NeverStrandedIff(cfg: Config, ss: seq<State>, steps: seq<Step>)
    requires Run(cfg, ss, steps)
    ensures (forall k: nat :: k <= |steps| ==> !Stranded(ss, steps, k)) <==>
      forall j: nat :: j < |steps| ==> !Overlooks(ss, steps, j)
  {
    if j: nat :| j < |steps| && Overlooks(ss, steps, j) {
      OverlookStrands(cfg, ss, steps, j);
    }
    if k: nat :| k <= |steps| && Stranded(ss, steps, k) {
      var v :| InLine(ss, steps, k, v);
      LeftWaiting(cfg, ss, steps, k, v);
      var j :| RegisteredStep(steps, k, v) < j < k && 0 <= j && FreesUnseen(ss[j], steps[j]);
      InLineEarlier(cfg, ss, steps, j, k, v);
      assert Overlooks(ss, steps, j);
    }
  }

  /**
   It happens in every configuration: a task registers between the look at the queue and the
   release of the permit of a connection on its way back, and waits beside both.
   */
  lemma WaitsBesideIdle(cfg: Config) returns (s: State, v: nat)
    ensures Reachable(cfg, s) && Awaits(s, v) && v in s.waiters && s.permits > 0 && s.idle != [] && !s.closed
    ensures forall t :: t in s.places ==> t == v || s.places[t].Leased?
  {
    v := Capacity(cfg);
    s := LendMany(cfg, v);
    s := LooksAway(cfg, s);
    hide Reachable;
    var a := Apply(s, Register(v));
    var b := Apply(a, Park(0, 0));
    ReachStep(cfg, s, Register(v));
    ReachStep(cfg, a, Park(0, 0));
    ReachStep(cfg, b, Release(0));
    s := Apply(b, Release(0));
  }

  /** Every permit is lent, one connection has found no waiter, and one task is about to register. */
  ghost predicate Between(cfg: Config, s: State) {
    && s.cfg == cfg && !s.closed && s.permits == 0 && s.waiters == []
    && 0 in s.places && s.places[0].Parking? && Capacity(cfg) in s.places && s.places[Capacity(cfg)].Contending?
    && forall t :: t in s.places ==> t == 0 || t == Capacity(cfg) || s.places[t].Leased?
  }

  lemma LooksAway(cfg: Config, a: State) returns (s: State)
    requires Reachable(cfg, a) && Lent(cfg, a, Capacity(cfg))
    ensures Reachable(cfg, s) && Between(cfg, s)
  {
    hide Reachable;
    var v := Capacity(cfg);
    var b := Apply(a, Acquire(v));
    ReachStep(cfg, a, Acquire(v));
    ReachStep(cfg, b, TryFast(v));
    s := Apply(b, TryFast(v));
    var c := a.places[0].conn;
    assert s.places == a.places[v := Contending];
    assert s.places[0] == Leased(c, false);
    hide Lent;
    s := GivesBack(cfg, s, 0, c);
  }

  lemma GivesBack(cfg: Config, s: State, t: nat, c: Conn) returns (e: State)
    requires Reachable(cfg, s) && !s.closed && s.waiters == [] && c.valid && !c.inTx
    requires t in s.places && s.places[t] == Leased(c, false)
    ensures Reachable(cfg, e) && e.places == s.places[t := Parking(c)]
    ensures e.cfg == s.cfg && !e.closed && e.permits == s.permits && e.waiters == []
  {
    hide Reachable;
    var d := Apply(s, DropLease(t, false));
    ReachStep(cfg, s, DropLease(t, false));
    ReachStep(cfg, d, Return(t));
    e := Apply(d, Return(t));
  }

  // ---------- Nobody is overtaken by a connection being parked ----------

  /** The last of the first `k` steps in which task `t` looked for a waiter for its connection; none is -1. */
  function ReturnedStep(steps: seq<Step>, k: nat, t: nat): (j: int)
    ensures -1 <= j < k
  {
    if k == 0 || k > |steps| then -1
    else if steps[k - 1] == Return(t) then k - 1
    else ReturnedStep(steps, k - 1, t)
  }

  lemma ParkingChange(s: State, st: Step, t: nat)
    requires Enabled(s, st) && t in Apply(s, st).places && Apply(s, st).places[t].Parking?
    ensures if st == Return(t) then forall i :: 0 <= i < |s.waiters| ==> !Awaits(s, s.waiters[i])
            else t in s.places && s.places[t].Parking?
  {
    hide Inspect, Retained, Evicted, Ids;
  }

  /** Whoever is in line while a connection is on its way to the idle queue came after the look at the queue. */
  lemma {:induction false} NoneOvertaken(cfg: Config, ss: seq<State>, steps: seq<Step>, k: nat, t: nat, v: nat)
    requires Run(cfg, ss, steps) && k <= |steps| && InLine(ss, steps, k, v)
    requires t in ss[k].places && ss[k].places[t].Parking?
    ensures 0 <= ReturnedStep(steps, k, t) < RegisteredStep(steps, k, v)
    decreases k
  {
    if k > 0 {
      var s, st := ss[k - 1], steps[k - 1];
      StepOf(cfg, ss, steps, k - 1);
      RunLined(cfg, ss, steps, k - 1);
      WaitChange(s, st, v);
      ParkingChange(s, st, t);
      RegisteredOn(steps, k - 1, v);
      InLineIff(cfg, ss, steps, k - 1, v);
      ParkedSince(cfg, ss, steps, k, t);
      hide Apply, Enabled, Inv, Lined, RegisteredStep, Abandoned;
      if st != Return(t) && st != Register(v) {
        NoneOvertaken(cfg, ss, steps, k - 1, t, v);
      }
    }
  }

  lemma {:induction false} ParkedSince(cfg: Config, ss: seq<State>, steps: seq<Step>, k: nat, t: nat)
    requires Run(cfg, ss, steps) && k <= |steps| && t in ss[k].places && ss[k].places[t].Parking?
    ensures 0 <= ReturnedStep(steps, k, t)
    decreases k
  {
    hide Apply, Enabled, Inv;
    if k > 0 {
      StepOf(cfg, ss, steps, k - 1);
      ParkingChange(ss[k - 1], steps[k - 1], t);
      if steps[k - 1] != Return(t) { ParkedSince(cfg, ss, steps, k - 1, t); }
    }
  }

  // ---------- How many ----------

  function Leases(ps: map<nat, Place>): set<nat> {
    set t | t in ps && ps[t].Leased?
  }

  /** A number of leases is possible if and only if it is at most one or at most the configured maximum. */
  lemma LeasesUpTo(cfg: Config, n: nat)
    ensures (exists s :: Reachable(cfg, s) && |Leases(s.places)| == n) <==> n <= 1 || n <= cfg.maxSize
  {
    if n <= 1 || n <= cfg.maxSize {
      var s := LendMany(cfg, n);
      hide Reachable;
      assert Leases(s.places) == Occupied(s.places);
    }
    forall s | Reachable(cfg, s) ensures |Leases(s.places)| <= Capacity(cfg) {
      var ss, steps :| Run(cfg, ss, steps) && ss[|steps|] == s;
      RunKeeps(cfg, ss, steps, |steps|);
      Subset(Leases(s.places), Holders(s.places));
    }
  }

  predicate IsWarmUp(st: Step, t: nat) {
    (st.WarmCreated? || st.WarmPush?) && st.t == t
  }

  /** What is idle and what is still to come make up the smaller of the two settings. */
  ghost predicate Halfway(s: State, t: nat) {
    var left := if t in s.places && IsWarm(s.places[t]) then s.places[t].left else 0;
    && !s.closed && (left == 0 ==> t !in s.places)
    && |s.idle| + left == if s.cfg.minIdle < s.cfg.maxSize then s.cfg.minIdle else s.cfg.maxSize
  }

  lemma HalfwayOn(s: State, st: Step, t: nat)
    requires Halfway(s, t) && Enabled(s, st) && IsWarmUp(st, t)
    ensures Halfway(Apply(s, st), t)
  {
    hide Inspect, Retained, Evicted, Ids, Stale, Dropped, Returned, Passed;
  }

  lemma {:induction false} WarmsOn(cfg: Config, ss: seq<State>, steps: seq<Step>, k: nat, t: nat)
    requires Run(cfg, ss, steps) && 0 < k <= |steps| && steps[0] == WarmStart(t)
    requires forall i :: 0 < i < |steps| ==> IsWarmUp(steps[i], t)
    ensures Halfway(ss[k], t)
    decreases k
  {
    StepOf(cfg, ss, steps, k - 1);
    if k > 1 {
      hide Apply, Enabled, Inv, Halfway;
      WarmsOn(cfg, ss, steps, k - 1, t);
      HalfwayOn(ss[k - 1], steps[k - 1], t);
    }
  }

  /** An undisturbed warm-up that has run to its end leaves exactly that many idle connections. */
  lemma WarmsUpTo(cfg: Config, ss: seq<State>, steps: seq<Step>, t: nat)
    requires Run(cfg, ss, steps) && steps != [] && steps[0] == WarmStart(t)
    requires forall i :: 0 < i < |steps| ==> IsWarmUp(steps[i], t)
    requires t !in ss[|steps|].places
    ensures |ss[|steps|].idle| == if cfg.minIdle < cfg.maxSize then cfg.minIdle else cfg.maxSize
  {
    WarmsOn(cfg, ss, steps, |steps|, t);
    RunKeeps(cfg, ss, steps, |steps|);
  }

  // ---------- After closing ----------

  lemma ClosedChange(s: State, st: Step, t: nat)
    requires Enabled(s, st)
    ensures s.closed ==> Apply(s, st).closed
    ensures s.closed && t in Apply(s, st).places && CheckingOut(Apply(s, st).places[t]) ==>
      t in s.places && CheckingOut(s.places[t])
    ensures t in s.tasks && t !in s.places ==> t in Apply(s, st).tasks && t !in Apply(s, st).places
  {
    hide Inspect, Retained, Evicted, Ids, Stale;
  }

  /** About to be handed a connection, idle or new. */
  predicate CheckingOut(p: Place) {
    p.Checking? || p.Creating?
  }

  lemma {:induction false} ClosedStays(cfg: Config, ss: seq<State>, steps: seq<Step>, j: nat, k: nat, t: nat)
    requires Run(cfg, ss, steps) && j <= k <= |steps| && ss[j].closed
    ensures ss[k].closed
    ensures t in ss[k].places && CheckingOut(ss[k].places[t]) ==> t in ss[j].places && CheckingOut(ss[j].places[t])
    ensures t in ss[j].tasks && t !in ss[j].places ==> t in ss[k].tasks && t !in ss[k].places
    decreases k
  {
    hide Apply, Enabled, Inv;
    if j < k {
      ClosedStays(cfg, ss, steps, j, k - 1, t);
      StepOf(cfg, ss, steps, k - 1);
      ClosedChange(ss[k - 1], steps[k - 1], t);
    }
  }

  /** The closed flag is up exactly from the first step that raises it on. */
  lemma {:induction false} ClosedIff(cfg: Config, ss: seq<State>, steps: seq<Step>, k: nat)
    requires Run(cfg, ss, steps) && k <= |steps|
    ensures ss[k].closed <==> exists i :: 0 <= i < k && steps[i].CloseFlag?
    decreases k
  {
    hide Apply, Enabled, Inv;
    if k > 0 {
      ClosedIff(cfg, ss, steps, k - 1);
      StepOf(cfg, ss, steps, k - 1);
      FlagChange(ss[k - 1], steps[k - 1]);
    }
  }

  lemma FlagChange(s: State, st: Step)
    requires Enabled(s, st)
    ensures Apply(s, st).closed <==> s.closed || st.CloseFlag?
  {
    hide Inspect, Retained, Evicted, Ids, Stale;
  }

  /** A closed pool refuses every new acquire for good. */
  lemma ClosedRefuses(cfg: Config, ss: seq<State>, steps: seq<Step>, i: nat, j: nat, k: nat, t: nat)
    requires Run(cfg, ss, steps) && i < j < k <= |steps| && steps[i].CloseFlag? && steps[j] == Acquire(t)
    ensures t !in ss[k].places
  {
    ClosedIff(cfg, ss, steps, j);
    StepOf(cfg, ss, steps, j);
    InvKnown(ss[j]);
    hide Inv;
    assert ss[j + 1].closed && t in ss[j + 1].tasks && t !in ss[j + 1].places;
    ClosedStays(cfg, ss, steps, j + 1, k, t);
  }

  lemma InvKnown(s: State)
    requires Inv(s)
    ensures Known(s)
  {
  }

  /** After closing, only a task that was already checking out is still handed a connection. */
  lemma ClosedDelivers(cfg: Config, ss: seq<State>, steps: seq<Step>, j: nat, k: nat)
    requires Run(cfg, ss, steps) && j < k < |steps| && steps[j].CloseFlag? && Delivered(ss[k], steps[k]).Some?
    ensures (steps[k].Probed? || steps[k].Created?) && steps[k].t in ss[j].places
    ensures CheckingOut(ss[j].places[steps[k].t])
  {
    StepOf(cfg, ss, steps, k);
    StepOf(cfg, ss, steps, j);
    ClosedIff(cfg, ss, steps, j + 1);
    ClosedStays(cfg, ss, steps, j + 1, k, steps[k].t);
  }
}
