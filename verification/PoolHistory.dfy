/** What a run of the pool says about its connections: why they die, how old they are, in which order they leave. */
module PoolHistory {
  import opened Common
  import opened Pool

  // ---------- Sweeps ----------

  /** Part of the queue, in the queue's order. */
  predicate Subsequence(kept: seq<Entry>, q: seq<Entry>) {
    kept == [] || (q != [] && (if kept[0] == q[0] then Subsequence(kept[1..], q[1..]) else Subsequence(kept, q[1..])))
  }

  lemma {:induction false} RetainedInOrder(cfg: Config, q: seq<Entry>, now: nat)
    ensures Subsequence(Retained(cfg, q, now), q)
    decreases |q|
  {
    if q != [] {
      RetainedInOrder(cfg, q[1..], now);
      SweepParts(cfg, q[1..], now);
      if Expired(cfg, q[0], now) && Retained(cfg, q, now) != [] {
        assert Retained(cfg, q, now)[0] in Retained(cfg, q, now);
      }
    }
  }

  /** A sweep takes exactly the entries that are too old; the others keep their order. */
  lemma EvictsExactly(s: State, now: nat)
    ensures forall e :: e in Apply(s, Evict(now)).idle <==> e in s.idle && !TooOld(s.cfg, e, now)
    ensures forall e :: e in Evicted(s.cfg, s.idle, now) <==> e in s.idle && TooOld(s.cfg, e, now)
    ensures Subsequence(Apply(s, Evict(now)).idle, s.idle)
  {
    SweptByAge(s.cfg, s.idle, now);
    RetainedInOrder(s.cfg, s.idle, now);
  }

  // ---------- Why a connection dies ----------

  ghost predicate Holds(s: State, t: nat, x: nat) {
    t in s.places && Held(s.places[t]).Some? && Held(s.places[t]).value.id == x
  }

  /** A connection given back in this state cannot be used again. */
  predicate Spoilt(s: State, c: Conn, broken: bool, spawn: bool) {
    broken || s.closed || !c.valid || (c.inTx && !spawn)
  }

  /** What the probing of an idle connection finds wrong with it. */
  predicate Unhealthy(cfg: Config, c: Conn, p: Probe) {
    if cfg.testOnAcquire && (!c.valid || !p.pingOk) then true
    else if (if cfg.testOnAcquire then p.pinged.inTx else c.inTx) then !p.resetOk || !p.reset.valid
    else if cfg.testOnAcquire then !p.pinged.valid
    else !c.valid
  }

  /** The reasons for which a step ends connection `x`. */
  ghost predicate Condemned(s: State, st: Step, x: nat)
    requires Enabled(s, st)
  {
    match st
    case Evict(now) => exists e :: e in s.idle && e.conn.id == x && TooOld(s.cfg, e, now)
    case CloseIdle => exists e :: e in s.idle && e.conn.id == x
    case Probed(t, now, p) =>
      Holds(s, t, x) && (TooOld(s.cfg, s.places[t].entry, now) || Unhealthy(s.cfg, s.places[t].entry.conn, p))
    case DropLease(t, spawn) => Holds(s, t, x) && Spoilt(s, s.places[t].conn, s.places[t].broken, spawn)
    case DropOffer(t, spawn) => Holds(s, t, x) && Spoilt(s, s.places[t].conn, false, spawn)
    case Return(t) => Holds(s, t, x) && (s.closed || !s.places[t].conn.valid)
    case RolledBack(t, ok, c) => Holds(s, t, x) && (s.closed || !ok || !c.valid)
    case _ => false
  }

  lemma Spared(s: State, st: Step)
    requires Enabled(s, st) && (st.PassPermit? || st.WarmStart? || st.WarmPush?)
    ensures Apply(s, st).dead == s.dead
  {
    hide Stale;
  }

  /** A step discards a live connection exactly for one of the reasons. */
  lemma DiesExactly(s: State, st: Step, x: nat)
    requires Inv(s) && Enabled(s, st) && Live(s, x)
    ensures x in Apply(s, st).dead <==> Condemned(s, st, x)
  {
    hide Inv, Retained, Evicted, WarmNext, Passed, Stale;
    if st.Evict? {
      EvictsExactly(s, st.now);
    } else if st.PassPermit? || st.WarmStart? || st.WarmPush? {
      Spared(s, st);
    }
  }

  // ---------- Once dead, never again ----------

  lemma StepOf(cfg: Config, ss: seq<State>, steps: seq<Step>, k: nat)
    requires Run(cfg, ss, steps) && k < |steps|
    ensures |ss| == |steps| + 1 && Enabled(ss[k], steps[k]) && ss[k + 1] == Apply(ss[k], steps[k])
    ensures Inv(ss[k]) && Inv(ss[k + 1]) && ss[k].cfg == cfg
  {
    RunKeeps(cfg, ss, steps, k);
    RunKeeps(cfg, ss, steps, k + 1);
  }

  lemma {:induction false} DeadStays(cfg: Config, ss: seq<State>, steps: seq<Step>, k: nat, m: nat, x: nat)
    requires Run(cfg, ss, steps) && k <= m < |ss| && x in ss[k].dead
    ensures x in ss[m].dead
    decreases m
  {
    hide Apply, Enabled, Inv;
    if k < m {
      DeadStays(cfg, ss, steps, k, m - 1, x);
      StepOf(cfg, ss, steps, m - 1);
      DiscardOnce(ss[m - 1], steps[m - 1]);
    }
  }

  /** Neither idle nor with any task. */
  ghost predicate Nowhere(s: State, x: nat) {
    (forall e :: e in s.idle ==> e.conn.id != x) && forall t :: !Holds(s, t, x)
  }

  lemma DeadNowhere(s: State, x: nat)
    requires Inv(s) && x in s.dead
    ensures Nowhere(s, x)
  {
    forall e | e in s.idle ensures e.conn.id != x {
      var i :| 0 <= i < |s.idle| && s.idle[i] == e;
      assert Live(s, s.idle[i].conn.id);
    }
    assert forall t :: t in s.places && Held(s.places[t]).Some? ==> Live(s, Held(s.places[t]).value.id);
  }

  /** A connection discarded for any of the reasons is never idle, held or delivered again. */
  lemma CondemnedForGood(cfg: Config, ss: seq<State>, steps: seq<Step>, k: nat, m: nat, x: nat)
    requires Run(cfg, ss, steps) && k < m < |ss| && Live(ss[k], x) && Condemned(ss[k], steps[k], x)
    ensures Nowhere(ss[m], x)
  {
    RunKeeps(cfg, ss, steps, k);
    RunKeeps(cfg, ss, steps, m);
    DiesExactly(ss[k], steps[k], x);
    DeadStays(cfg, ss, steps, k + 1, m, x);
    DeadNowhere(ss[m], x);
  }

  /** In particular a lease dropped while marked broken. */
  lemma BrokenForGood(cfg: Config, ss: seq<State>, steps: seq<Step>, k: nat, m: nat)
    requires Run(cfg, ss, steps) && k < m < |ss| && steps[k].DropLease? && ss[k].places[steps[k].t].broken
    ensures Nowhere(ss[m], ss[k].places[steps[k].t].conn.id)
  {
    RunKeeps(cfg, ss, steps, k);
    CondemnedForGood(cfg, ss, steps, k, m, ss[k].places[steps[k].t].conn.id);
  }

  // ---------- Births ----------

  /** The step makes this connection. */
  predicate Makes(st: Step, c: Conn) {
    (st.Created? || st.WarmCreated?) && SameConn(st.conn, c)
  }

  ghost predicate Has(s: State, c: Conn) {
    (exists e :: e in s.idle && e.conn == c) || exists t :: t in s.places && Held(s.places[t]) == Some(c)
  }

  ghost predicate Had(s: State, c: Conn) {
    exists d :: Has(s, d) && SameConn(d, c)
  }

  lemma IdleOrigin(s: State, st: Step, e: Entry)
    requires Enabled(s, st) && e in Apply(s, st).idle
    ensures Parks(s, st, e) || exists d :: d in s.idle && SameEntry(d, e)
  {
    hide Stale, Inspect, Retained, Evicted, Dropped, Returned, Passed;
    assert SameEntry(e, e);
    IdleSame(s, st);
    match st
    case Evict(now) => SweepParts(s.cfg, s.idle, now);
    case Fade(i) => assert s.idle[i] in s.idle;
    case Pop(t) =>
    case Park(t, now) =>
    case WarmPush(t, now) =>
    case CloseIdle =>
    case _ => hide Apply, Enabled;
  }

  /** Most steps leave the idle queue alone. */
  lemma IdleSame(s: State, st: Step)
    requires Enabled(s, st)
    ensures !st.Pop? && !st.Park? && !st.WarmPush? && !st.Evict? && !st.CloseIdle? && !st.Fade? ==>
      Apply(s, st).idle == s.idle
  {
    hide Stale, Inspect, Retained, Evicted, Ids;
  }

  lemma HeldOrigin(s: State, st: Step, t: nat)
    requires Enabled(s, st) && t in Apply(s, st).places && Held(Apply(s, st).places[t]).Some?
    ensures Makes(st, Held(Apply(s, st).places[t]).value) || Had(s, Held(Apply(s, st).places[t]).value)
  {
    hide Stale, Retained, Evicted, Inspect, Ids, Has, Had, Returned, Passed;
    var c := Held(Apply(s, st).places[t]).value;
    if st.Probed? { InspectSame(s.cfg, s.places[st.t].entry, st.now, st.probe); }
    if st.Return? || st.PassPermit? {
      HandedOrigin(s, st, t);
    } else if t in s.places && Held(s.places[t]).Some? && SameConn(Held(s.places[t]).value, c) {
      HadHeld(s, t, c);
    } else if st.Pop? {
      HadIdle(s, s.idle[0], c);
    }
  }

  lemma HandedOrigin(s: State, st: Step, t: nat)
    requires Enabled(s, st) && t in Apply(s, st).places && Held(Apply(s, st).places[t]).Some?
    requires st.Return? || st.PassPermit?
    ensures Had(s, Held(Apply(s, st).places[t]).value)
  {
    hide Stale, Has, Had;
    var c := Held(Apply(s, st).places[t]).value;
    if t in s.places && Held(s.places[t]).Some? {
      HadHeld(s, t, c);
    } else {
      HadHeld(s, st.t, c);
    }
  }

  lemma InspectSame(cfg: Config, e: Entry, now: nat, p: Probe)
    requires Honest(e, p)
    ensures Inspect(cfg, e, now, p).Some? ==> SameConn(Inspect(cfg, e, now, p).value, e.conn)
  {
  }

  lemma HadIdle(s: State, e: Entry, c: Conn)
    requires e in s.idle && SameConn(e.conn, c)
    ensures Had(s, c)
  {
    assert Has(s, e.conn);
  }

  lemma HadHeld(s: State, t: nat, c: Conn)
    requires t in s.places && Held(s.places[t]).Some? && SameConn(Held(s.places[t]).value, c)
    ensures Had(s, c)
  {
    assert Has(s, Held(s.places[t]).value);
  }

  // ---------- Parking ----------

  predicate SameEntry(d: Entry, e: Entry) {
    d.lastUsed == e.lastUsed && SameConn(d.conn, e.conn)
  }

  /** The step puts a connection with this identity into the idle queue. */
  predicate ParksId(s: State, st: Step, x: nat) {
    && (st.Park? || st.WarmPush?)
    && st.t in s.places && Held(s.places[st.t]).Some? && Held(s.places[st.t]).value.id == x
  }

  /** The step makes this entry of the idle queue. */
  predicate Parks(s: State, st: Step, e: Entry)
    requires Enabled(s, st)
  {
    (st.Park? || st.WarmPush?) && SameConn(s.places[st.t].conn, e.conn) && st.now == e.lastUsed
  }

  /** The last of the first `k` steps to put connection `x` into the idle queue; none is -1. */
  ghost function ParkedStep(ss: seq<State>, steps: seq<Step>, k: nat, x: nat): (j: int)
    ensures -1 <= j < k
  {
    if k == 0 || k > |steps| || k > |ss| then -1
    else if ParksId(ss[k - 1], steps[k - 1], x) then k - 1
    else ParkedStep(ss, steps, k - 1, x)
  }

  ghost predicate HasEntry(s: State, e: Entry) {
    e in s.idle || exists t :: t in s.places && s.places[t] == Checking(e)
  }

  ghost predicate HadEntry(s: State, e: Entry) {
    exists d :: HasEntry(s, d) && SameEntry(d, e)
  }

  lemma EntryOrigin(s: State, st: Step, e: Entry)
    requires Enabled(s, st) && HasEntry(Apply(s, st), e)
    ensures Parks(s, st, e) || HadEntry(s, e)
  {
    if e in Apply(s, st).idle {
      IdleOrigin(s, st, e);
      hide Apply, Enabled;
      if d :| d in s.idle && SameEntry(d, e) { assert HasEntry(s, d); }
    } else {
      var t :| t in Apply(s, st).places && Apply(s, st).places[t] == Checking(e);
      CheckOrigin(s, st, e, t);
    }
  }

  lemma CheckOrigin(s: State, st: Step, e: Entry, t: nat)
    requires Enabled(s, st) && t in Apply(s, st).places && Apply(s, st).places[t] == Checking(e)
    ensures HadEntry(s, e)
  {
    hide Inspect, Retained, Evicted, Stale, Ids;
    assert HasEntry(s, e) && SameEntry(e, e);
  }

  /** What is idle or being checked is not put into the queue a second time. */
  lemma NotReparked(s: State, st: Step, e: Entry)
    requires Unique(s) && Enabled(s, st) && HasEntry(s, e)
    ensures !ParksId(s, st, e.conn.id)
  {
    forall t | t in s.places && Held(s.places[t]).Some? && !s.places[t].Checking?
      ensures Held(s.places[t]).value.id != e.conn.id
    {
      if e in s.idle {
        var i :| 0 <= i < |s.idle| && s.idle[i] == e;
        assert Held(s.places[t]).value.id != s.idle[i].conn.id;
      } else {
        var u :| u in s.places && s.places[u] == Checking(e);
        assert u != t;
      }
    }
  }

  /** The time in an entry is the time its connection last went into the idle queue. */
  lemma {:induction false} EntriesDated(cfg: Config, ss: seq<State>, steps: seq<Step>, k: nat, e: Entry)
    requires Run(cfg, ss, steps) && k <= |steps| && HasEntry(ss[k], e)
    ensures var j := ParkedStep(ss, steps, k, e.conn.id); j >= 0 && Parks(ss[j], steps[j], e)
    decreases k
  {
    hide Apply, Enabled, Inv, HasEntry, Parks, ParksId;
    if k == 0 {
      NoEntry(cfg, e);
    } else {
      StepOf(cfg, ss, steps, k - 1);
      EntryOrigin(ss[k - 1], steps[k - 1], e);
      if Parks(ss[k - 1], steps[k - 1], e) {
        ParksBoth(ss[k - 1], steps[k - 1], e);
      } else {
        var d :| HasEntry(ss[k - 1], d) && SameEntry(d, e);
        EntriesDated(cfg, ss, steps, k - 1, d);
        InvUnique(ss[k - 1]);
        NotReparked(ss[k - 1], steps[k - 1], d);
        var j := ParkedStep(ss, steps, k - 1, d.conn.id);
        StepOf(cfg, ss, steps, j);
        ParksAlike(ss[j], steps[j], d, e);
      }
    }
  }

  lemma NoEntry(cfg: Config, e: Entry)
    ensures !HasEntry(Init(cfg), e)
  {
  }

  lemma InvUnique(s: State)
    requires Inv(s)
    ensures Unique(s)
  {
  }

  lemma ParksBoth(s: State, st: Step, e: Entry)
    requires Enabled(s, st) && Parks(s, st, e)
    ensures ParksId(s, st, e.conn.id)
  {
  }

  lemma ParksAlike(s: State, st: Step, d: Entry, e: Entry)
    requires Enabled(s, st) && Parks(s, st, d) && SameEntry(d, e)
    ensures Parks(s, st, e)
  {
  }

  /** Every connection about was made by an earlier step. */
  lemma {:induction false} BornBefore(cfg: Config, ss: seq<State>, steps: seq<Step>, k: nat, c: Conn) returns (b: nat)
    requires Run(cfg, ss, steps) && k <= |steps| && Has(ss[k], c)
    ensures b < k && Makes(steps[b], c)
    decreases k
  {
    hide Apply, Enabled, Inv;
    b := 0;
    if k > 0 {
      StepOf(cfg, ss, steps, k - 1);
      HasOrigin(ss[k - 1], steps[k - 1], c);
      if Makes(steps[k - 1], c) {
        b := k - 1;
      } else {
        var d :| Has(ss[k - 1], d) && SameConn(d, c);
        b := BornBefore(cfg, ss, steps, k - 1, d);
      }
    }
  }

  lemma HasOrigin(s: State, st: Step, c: Conn)
    requires Enabled(s, st) && Has(Apply(s, st), c)
    ensures Makes(st, c) || Had(s, c)
  {
    if e :| e in Apply(s, st).idle && e.conn == c {
      IdleOrigin(s, st, e);
      if d :| d in s.idle && SameEntry(d, e) { HadIdle(s, d, c); } else { HadHeld(s, st.t, c); }
    } else {
      var t :| t in Apply(s, st).places && Held(Apply(s, st).places[t]) == Some(c);
      HeldOrigin(s, st, t);
    }
  }

  /**
   In every run, a connection delivered by idle checkout went into the idle queue no longer ago
   than the idle timeout, and was made no longer ago than the lifetime, where those are set.
   */
  lemma FreshCheckout(cfg: Config, ss: seq<State>, steps: seq<Step>, k: nat) returns (j: nat, b: nat)
    requires Run(cfg, ss, steps) && k < |steps| && steps[k].Probed? && Delivered(ss[k], steps[k]).Some?
    ensures var c := Delivered(ss[k], steps[k]).value;
      j < k && b < k && Makes(steps[b], c) && j == ParkedStep(ss, steps, k, c.id) && ParksId(ss[j], steps[j], c.id)
    ensures cfg.idleTimeout.Some? ==> steps[k].now - steps[j].now <= cfg.idleTimeout.value
    ensures cfg.maxLifetime.Some? ==> steps[k].now - steps[b].conn.created <= cfg.maxLifetime.value
  {
    StepOf(cfg, ss, steps, k);
    var e, c := ss[k].places[steps[k].t].entry, Delivered(ss[k], steps[k]).value;
    InspectSame(cfg, e, steps[k].now, steps[k].probe);
    CheckedFresh(cfg, e, steps[k].now, steps[k].probe);
    assert HasEntry(ss[k], e) && Has(ss[k], e.conn);
    hide Apply, Inv, HasEntry, Has;
    EntriesDated(cfg, ss, steps, k, e);
    b := BornBefore(cfg, ss, steps, k, e.conn);
    j := ParkedStep(ss, steps, k, e.conn.id);
    StepOf(cfg, ss, steps, j);
    ParksBoth(ss[j], steps[j], e);
  }

  lemma CheckedFresh(cfg: Config, e: Entry, now: nat, p: Probe)
    requires Inspect(cfg, e, now, p).Some?
    ensures !TooOld(cfg, e, now)
  {
  }

  // ---------- The idle queue is served in order ----------

  /** The entries stand in the order in which they were put there. */
  ghost predicate InTurn(ss: seq<State>, steps: seq<Step>, k: nat, q: seq<Entry>) {
    forall m, n :: 0 <= m < n < |q| ==>
      ParkedStep(ss, steps, k, q[m].conn.id) < ParkedStep(ss, steps, k, q[n].conn.id)
  }

  lemma {:induction false} SubsequenceInTurn(ss: seq<State>, steps: seq<Step>, k: nat, kept: seq<Entry>, q: seq<Entry>)
    requires Subsequence(kept, q) && InTurn(ss, steps, k, q)
    ensures InTurn(ss, steps, k, kept)
    decreases |q|
  {
    hide ParkedStep;
    if kept != [] {
      if kept[0] == q[0] {
        SubsequenceInTurn(ss, steps, k, kept[1..], q[1..]);
        SubsequenceWithin(kept[1..], q[1..]);
        forall n | 0 < n < |kept|
          ensures ParkedStep(ss, steps, k, kept[0].conn.id) < ParkedStep(ss, steps, k, kept[n].conn.id)
        {
          assert kept[1..][n - 1] in q[1..];
          var m :| 0 <= m < |q[1..]| && q[1..][m] == kept[1..][n - 1];
          assert q[m + 1] == kept[n];
        }
        forall m, n | 0 < m < n < |kept|
          ensures ParkedStep(ss, steps, k, kept[m].conn.id) < ParkedStep(ss, steps, k, kept[n].conn.id)
        {
          assert kept[m] == kept[1..][m - 1] && kept[n] == kept[1..][n - 1];
        }
      } else {
        SubsequenceInTurn(ss, steps, k, kept, q[1..]);
      }
    }
  }

  lemma {:induction false} SubsequenceWithin(kept: seq<Entry>, q: seq<Entry>)
    requires Subsequence(kept, q)
    ensures forall e :: e in kept ==> e in q
    decreases |q|
  {
    if kept != [] {
      if kept[0] == q[0] {
        SubsequenceWithin(kept[1..], q[1..]);
        assert kept == [kept[0]] + kept[1..];
      } else {
        SubsequenceWithin(kept, q[1..]);
      }
    }
  }

  /** How a step changes the idle queue. */
  lemma IdleChange(s: State, st: Step)
    requires Enabled(s, st)
    ensures var q := Apply(s, st).idle;
      || Subsequence(q, s.idle)
      || (|q| == |s.idle| && forall i :: 0 <= i < |q| ==> q[i].conn.id == s.idle[i].conn.id)
      || (q != [] && q[..|q| - 1] == s.idle && ParksId(s, st, q[|q| - 1].conn.id))
  {
    hide Inspect, Retained, Evicted, Stale, Ids, Subsequence, Dropped, Returned, Passed;
    IdleSame(s, st);
    match st
    case Evict(now) => RetainedInOrder(s.cfg, s.idle, now);
    case Pop(t) => if s.idle != [] { TailInOrder(s.idle); }
    case CloseIdle => NoneInOrder(s.idle);
    case Park(t, now) =>
    case WarmPush(t, now) =>
    case Fade(i) =>
    case _ => hide Apply, Enabled;
  }

  lemma NoneInOrder(q: seq<Entry>)
    ensures Subsequence([], q)
  {
  }

  lemma {:induction false} TailInOrder(q: seq<Entry>)
    requires q != []
    ensures Subsequence(q[1..], q)
    decreases |q|
  {
    if |q| > 1 && q[1] == q[0] {
      TailInOrder(q[1..]);
    } else {
      AllInOrder(q[1..]);
    }
  }

  lemma {:induction false} AllInOrder(q: seq<Entry>)
    ensures Subsequence(q, q)
    decreases |q|
  {
    if q != [] { AllInOrder(q[1..]); }
  }

  lemma {:induction false} RunInTurn(cfg: Config, ss: seq<State>, steps: seq<Step>, k: nat)
    requires Run(cfg, ss, steps) && k <= |steps|
    ensures InTurn(ss, steps, k, ss[k].idle)
    decreases k
  {
    hide Apply, Enabled, Inv, HasEntry, ParksId;
    if k > 0 {
      var s, st := ss[k - 1], steps[k - 1];
      var q := ss[k].idle;
      RunInTurn(cfg, ss, steps, k - 1);
      StepOf(cfg, ss, steps, k - 1);
      InvUnique(s);
      forall i | 0 <= i < |s.idle|
        ensures ParkedStep(ss, steps, k, s.idle[i].conn.id) == ParkedStep(ss, steps, k - 1, s.idle[i].conn.id)
      {
        IdleHas(s, s.idle[i]);
        NotReparked(s, st, s.idle[i]);
      }
      assert InTurn(ss, steps, k, s.idle);
      IdleChange(s, st);
      if Subsequence(q, s.idle) {
        SubsequenceInTurn(ss, steps, k, q, s.idle);
      } else if q != [] && q[..|q| - 1] == s.idle && ParksId(s, st, q[|q| - 1].conn.id) {
        Appended(ss, steps, k, s.idle, q);
      }
    }
  }

  lemma IdleHas(s: State, e: Entry)
    requires e in s.idle
    ensures HasEntry(s, e)
  {
  }

  lemma Appended(ss: seq<State>, steps: seq<Step>, k: nat, p: seq<Entry>, q: seq<Entry>)
    requires 0 < k <= |steps| && k <= |ss| && InTurn(ss, steps, k - 1, p) && q != [] && q[..|q| - 1] == p
    requires InTurn(ss, steps, k, p) && ParksId(ss[k - 1], steps[k - 1], q[|q| - 1].conn.id)
    requires forall i :: 0 <= i < |p| ==> !ParksId(ss[k - 1], steps[k - 1], p[i].conn.id)
    ensures InTurn(ss, steps, k, q)
  {
    forall m, n | 0 <= m < n < |q|
      ensures ParkedStep(ss, steps, k, q[m].conn.id) < ParkedStep(ss, steps, k, q[n].conn.id)
    {
      assert q[m] == p[m];
      if n < |p| { assert q[n] == p[n]; }
    }
  }

  /** A checkout takes the connection that has been idle longest, and asks the factory only when none is idle. */
  lemma PopsLongestIdle(cfg: Config, ss: seq<State>, steps: seq<Step>, k: nat, t: nat)
    requires Run(cfg, ss, steps) && k < |steps| && steps[k] == Pop(t) && !ss[k].closed
    ensures t in ss[k + 1].places
    ensures ss[k].idle == [] ==> ss[k + 1].places[t].Creating?
    ensures ss[k].idle != [] ==>
      && ss[k + 1].places[t].Checking? && ss[k + 1].places[t].entry in ss[k].idle
      && forall e :: e in ss[k].idle ==>
           var d := ss[k + 1].places[t].entry;
           e == d || ParkedStep(ss, steps, k, d.conn.id) < ParkedStep(ss, steps, k, e.conn.id)
  {
    StepOf(cfg, ss, steps, k);
    RunInTurn(cfg, ss, steps, k);
    forall e | e in ss[k].idle
      ensures e == ss[k].idle[0]
        || ParkedStep(ss, steps, k, ss[k].idle[0].conn.id) < ParkedStep(ss, steps, k, e.conn.id)
    {
      var n :| 0 <= n < |ss[k].idle| && ss[k].idle[n] == e;
    }
  }
}
