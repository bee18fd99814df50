/** The circuit breaker over whole runs. */
module Circuit {
  import opened Common

  datatype CircuitState = Closed | Open | HalfOpen

  datatype BackendRoute = Native | Fallback | Probe

  /** Times are counted from the start of the clock. */
  datatype Config = Config(failureThreshold: nat, cooldown: nat, successThreshold: nat)

  datatype Inner = Inner(state: CircuitState, failures: nat, successes: nat, openedAt: Option<nat>)

  const FRESH: Inner := Inner(Closed, 0, 0, None)

  /** An earlier reading of the clock counts as no time at all. */
  function Elapsed(now: nat, since: nat): nat {
    if now < since then 0 else now - since
  }

  predicate Cooled(cfg: Config, s: Inner, now: nat) {
    s.state.Open? && s.openedAt.Some? && Elapsed(now, s.openedAt.value) >= cfg.cooldown
  }

  /** `check_and_update_state`. */
  function Updated(cfg: Config, s: Inner, now: nat): Inner {
    if Cooled(cfg, s, now) then s.(state := HalfOpen, successes := 0) else s
  }

  /** A failure reads the clock twice: to check the cooldown and to stamp the opening. */
  datatype Event =
    | Ask(now: nat)
    | Success
    | Failure(transient: bool, now: nat, stamp: nat)
    | Trip(stamp: nat)
    | Reset

  function Answer(s: Inner): BackendRoute {
    match s.state
    case Closed => Native
    case Open => Fallback
    case HalfOpen => Probe
  }

  function Succeed(cfg: Config, s: Inner): Inner {
    match s.state
    case Closed => s.(failures := 0)
    case HalfOpen =>
      if s.successes + 1 >= cfg.successThreshold then FRESH else s.(successes := s.successes + 1)
    case Open => s
  }

  function Fail(cfg: Config, s: Inner, stamp: nat): Inner {
    match s.state
    case Closed =>
      if s.failures + 1 >= cfg.failureThreshold then Inner(Open, s.failures + 1, 0, Some(stamp))
      else s.(failures := s.failures + 1)
    case HalfOpen => Inner(Open, s.failures + 1, 0, Some(stamp))
    case Open => s.(failures := s.failures + 1, openedAt := Some(stamp))
  }

  function Next(cfg: Config, s: Inner, e: Event): Inner {
    match e
    case Ask(now) => Updated(cfg, s, now)
    case Success => Succeed(cfg, s)
    case Failure(transient, now, stamp) => if transient then Fail(cfg, Updated(cfg, s, now), stamp) else s
    case Trip(stamp) => Inner(Open, s.failures + 1, 0, Some(stamp))
    case Reset => FRESH
  }

  // ---------- Runs ----------

  /** The breaker after the first `k` events. */
  function At(cfg: Config, es: seq<Event>, k: nat): Inner
    requires k <= |es|
  {
    if k == 0 then FRESH else Next(cfg, At(cfg, es, k - 1), es[k - 1])
  }

  predicate IsBlow(e: Event) {
    e.Trip? || (e.Failure? && e.transient)
  }

  /** Transient failures since the last success or reset. */
  function Streak(es: seq<Event>, k: nat): nat
    requires k <= |es|
  {
    if k == 0 || es[k - 1].Success? || es[k - 1].Reset? then 0
    else Streak(es, k - 1) + (if es[k - 1].Failure? && es[k - 1].transient then 1 else 0)
  }

  /** When the latest trip or transient failure was stamped. */
  function LastBlow(es: seq<Event>, k: nat): Option<nat>
    requires k <= |es|
  {
    if k == 0 then None
    else if IsBlow(es[k - 1]) then Some(es[k - 1].stamp)
    else LastBlow(es, k - 1)
  }

  /** A closed breaker counts the current streak, and the streak is still below the threshold. */
  lemma {:induction false} ClosedCounts(cfg: Config, es: seq<Event>, k: nat)
    requires k <= |es|
    ensures At(cfg, es, k).state.Closed? ==>
      At(cfg, es, k).failures == Streak(es, k) && (Streak(es, k) == 0 || Streak(es, k) < cfg.failureThreshold)
    decreases k
  {
    if k > 0 { ClosedCounts(cfg, es, k - 1); }
  }

  /**
   A closed breaker opens on a trip, or on the transient failure that brings the streak to the
   threshold, and on nothing else.
   */
  lemma TripsExactly(cfg: Config, es: seq<Event>, k: nat)
    requires k < |es| && At(cfg, es, k).state.Closed?
    ensures At(cfg, es, k + 1).state.Open? <==>
      es[k].Trip? || (es[k].Failure? && es[k].transient && Streak(es, k) + 1 >= cfg.failureThreshold)
    ensures !At(cfg, es, k + 1).state.HalfOpen?
  {
    ClosedCounts(cfg, es, k);
  }

  /** An open breaker was opened by the latest blow. */
  lemma {:induction false} OpenSinceBlow(cfg: Config, es: seq<Event>, k: nat)
    requires k <= |es|
    ensures At(cfg, es, k).state.Open? ==> LastBlow(es, k).Some? && At(cfg, es, k).openedAt == LastBlow(es, k)
    decreases k
  {
    if k > 0 { OpenSinceBlow(cfg, es, k - 1); }
  }

  /** An open breaker answers fallback exactly until the cooldown has passed since the latest blow. */
  lemma FallbackUntilCooled(cfg: Config, es: seq<Event>, k: nat, now: nat)
    requires k < |es| && es[k] == Ask(now) && At(cfg, es, k).state.Open?
    ensures LastBlow(es, k).Some?
    ensures Answer(At(cfg, es, k + 1)) ==
      if Elapsed(now, LastBlow(es, k).value) < cfg.cooldown then Fallback else Probe
  {
    OpenSinceBlow(cfg, es, k);
  }

  /** The circuit is asked before the cooldown has passed since the latest blow. */
  ghost predicate AskedEarly(cfg: Config, es: seq<Event>, j: nat)
    requires j < |es|
  {
    es[j].Ask? && LastBlow(es, j).Some? ==> Elapsed(es[j].now, LastBlow(es, j).value) < cfg.cooldown
  }

  ghost predicate OpenThrough(cfg: Config, es: seq<Event>, i: nat, k: nat)
    requires k <= |es|
  {
    forall j :: i <= j <= k ==> At(cfg, es, j).state.Open?
  }

  /**
   Without a reset, an open breaker stays open throughout if and only if it is never asked
   after the cooldown; trips and failures only renew the wait.
   */
  lemma {:induction false} StaysOpenIff(cfg: Config, es: seq<Event>, i: nat, k: nat)
    requires i <= k <= |es| && At(cfg, es, i).state.Open? && forall j :: i <= j < k ==> !es[j].Reset?
    ensures OpenThrough(cfg, es, i, k) <==> forall j :: i <= j < k ==> AskedEarly(cfg, es, j)
    decreases k
  {
    if i < k {
      StaysOpenIff(cfg, es, i, k - 1);
      OpenSinceBlow(cfg, es, k - 1);
      assert At(cfg, es, k - 1).state.Open? ==> (At(cfg, es, k).state.Open? <==> AskedEarly(cfg, es, k - 1));
      hide At, AskedEarly;
      assert OpenThrough(cfg, es, i, k) <==> OpenThrough(cfg, es, i, k - 1) && At(cfg, es, k).state.Open?;
      assert OpenThrough(cfg, es, i, k - 1) ==> At(cfg, es, k - 1).state.Open?;
    }
  }

  // ---------- Back to closed ----------

  function Successes(es: seq<Event>, lo: nat, hi: nat): nat
    requires lo <= hi <= |es|
    decreases hi - lo
  {
    if lo == hi then 0 else Successes(es, lo, hi - 1) + (if es[hi - 1].Success? then 1 else 0)
  }

  /** Half-open since event `j` let the cooldown pass: no blow and no reset since, and the successes counted. */
  ghost predicate HalfOpenSince(cfg: Config, es: seq<Event>, j: nat, k: nat)
    requires k <= |es|
  {
    && j < k && At(cfg, es, j).state.Open? && es[j].Ask?
    && (forall i :: j < i <= k ==> At(cfg, es, i).state.HalfOpen?)
    && (forall i :: j < i < k ==> !IsBlow(es[i]) && !es[i].Reset?)
    && At(cfg, es, k).successes == Successes(es, j + 1, k)
  }

  lemma {:induction false} HalfOpenCounts(cfg: Config, es: seq<Event>, k: nat)
    requires k <= |es|
    ensures At(cfg, es, k).state.HalfOpen? ==> exists j: nat :: HalfOpenSince(cfg, es, j, k)
    ensures At(cfg, es, k).state.HalfOpen? ==>
      At(cfg, es, k).successes == 0 || At(cfg, es, k).successes < cfg.successThreshold
    decreases k
  {
    if k > 0 {
      HalfOpenCounts(cfg, es, k - 1);
      var s := At(cfg, es, k - 1);
      if At(cfg, es, k).state.HalfOpen? {
        if s.state.HalfOpen? {
          var j: nat :| HalfOpenSince(cfg, es, j, k - 1);
          HalfOpenOn(cfg, es, j, k);
        } else {
          assert HalfOpenSince(cfg, es, k - 1, k);
        }
      }
    }
  }

  function Required(cfg: Config): nat {
    if cfg.successThreshold == 0 then 1 else cfg.successThreshold
  }

  lemma HalfOpenOn(cfg: Config, es: seq<Event>, j: nat, k: nat)
    requires 0 < k <= |es| && HalfOpenSince(cfg, es, j, k - 1) && At(cfg, es, k).state.HalfOpen?
    ensures HalfOpenSince(cfg, es, j, k)
  {
    assert At(cfg, es, k - 1).state.HalfOpen?;
    assert !IsBlow(es[k - 1]) && !es[k - 1].Reset?;
  }

  /**
   Without a reset, closed is regained only by the success that completes the required number,
   counted from entering half-open, with no transient failure or trip in between.
   */
  lemma ClosedRegained(cfg: Config, es: seq<Event>, k: nat)
    requires k < |es| && !es[k].Reset? && !At(cfg, es, k).state.Closed? && At(cfg, es, k + 1).state.Closed?
    ensures es[k].Success?
    ensures exists j: nat :: HalfOpenSince(cfg, es, j, k) && Successes(es, j + 1, k + 1) == Required(cfg)
  {
    HalfOpenCounts(cfg, es, k);
    assert At(cfg, es, k).state.HalfOpen?;
    var j: nat :| HalfOpenSince(cfg, es, j, k);
    assert Successes(es, j + 1, k + 1) == Successes(es, j + 1, k) + 1;
  }

  // ---------- Routing, from the events alone ----------

  /** A trip, or the transient failure that makes the streak as long as the threshold. */
  predicate Opens(cfg: Config, es: seq<Event>, i: nat)
    requires i < |es|
  {
    es[i].Trip? || (es[i].Failure? && es[i].transient && Streak(es, i + 1) >= cfg.failureThreshold)
  }

  /** Event `b` is the last blow before event `k`. */
  ghost predicate LastBlowAt(es: seq<Event>, b: nat, k: nat)
    requires k <= |es|
  {
    b < k && IsBlow(es[b]) && forall i :: b < i < k ==> !IsBlow(es[i])
  }

  /** At event `j` the breaker is asked once the cooldown since blow `b` is over. */
  predicate Ripe(cfg: Config, es: seq<Event>, b: nat, j: nat)
    requires b < |es| && j < |es| && IsBlow(es[b])
  {
    es[j].Ask? && (cfg.cooldown == 0 || es[j].now >= es[b].stamp + cfg.cooldown)
  }

  /** Event `j` is the first to ask once the cooldown since the last blow is over. */
  ghost predicate Enters(cfg: Config, es: seq<Event>, j: nat)
    requires j < |es|
  {
    exists b: nat :: LastBlowAt(es, b, j) && Ripe(cfg, es, b, j) && forall i :: b < i < j ==> !Ripe(cfg, es, b, i)
  }

  ghost predicate Undisturbed(es: seq<Event>, lo: nat, hi: nat)
    requires hi <= |es|
  {
    forall i :: lo <= i < hi ==> !IsBlow(es[i]) && !es[i].Reset?
  }

  /** Event `i` is the success that completes the required number since the first ripe asking `j`. */
  ghost predicate Completes(cfg: Config, es: seq<Event>, j: nat, i: nat)
    requires i < |es|
  {
    && j < i && Enters(cfg, es, j) && Undisturbed(es, j + 1, i)
    && es[i].Success? && Successes(es, j + 1, i + 1) == Required(cfg)
  }

  ghost predicate Regains(cfg: Config, es: seq<Event>, i: nat)
    requires i < |es|
  {
    exists j: nat :: Completes(cfg, es, j, i)
  }

  /** Position `c` is the start, or right behind a reset or a success that regained closed. */
  ghost predicate Restarts(cfg: Config, es: seq<Event>, c: nat)
    requires c <= |es|
  {
    c == 0 || es[c - 1].Reset? || Regains(cfg, es, c - 1)
  }

  ghost predicate QuietSince(cfg: Config, es: seq<Event>, c: nat, k: nat)
    requires k <= |es|
  {
    c <= k && Restarts(cfg, es, c) && forall i :: c <= i < k ==> !Opens(cfg, es, i)
  }

  /**
   Since the start, some reset, or some success that regained closed, there has been no trip and
   no streak of transient failures as long as the threshold.
   */
  ghost predicate Calm(cfg: Config, es: seq<Event>, k: nat)
    requires k <= |es|
  {
    exists c: nat :: QuietSince(cfg, es, c, k)
  }

  /** The breaker has been asked since the cooldown after the last blow was over. */
  ghost predicate Probing(cfg: Config, es: seq<Event>, k: nat)
    requires k <= |es|
  {
    exists b: nat, j: nat :: LastBlowAt(es, b, k) && b < j < k && Ripe(cfg, es, b, j)
  }

  /** No asking since the last blow came after the cooldown. */
  ghost predicate Waiting(cfg: Config, es: seq<Event>, b: nat, k: nat)
    requires k <= |es|
  {
    LastBlowAt(es, b, k) && forall i :: b < i < k ==> !Ripe(cfg, es, b, i)
  }

  /** The state of the breaker, told from the events. */
  ghost predicate Told(cfg: Config, es: seq<Event>, k: nat)
    requires k <= |es|
  {
    && (At(cfg, es, k).state.Closed? <==> Calm(cfg, es, k))
    && (At(cfg, es, k).state.Open? ==>
      exists b: nat :: Waiting(cfg, es, b, k) && At(cfg, es, k).openedAt == Some(es[b].stamp))
    && (At(cfg, es, k).state.HalfOpen? ==> exists j: nat :: HalfOpenSince(cfg, es, j, k) && Enters(cfg, es, j))
  }

  lemma {:induction false} TellsState(cfg: Config, es: seq<Event>, k: nat)
    requires k <= |es|
    ensures Told(cfg, es, k)
    decreases k
  {
    if k == 0 {
      assert QuietSince(cfg, es, 0, 0);
    } else {
      forall j: nat | j < k ensures Told(cfg, es, j) { TellsState(cfg, es, j); }
      TellsClosed(cfg, es, k - 1);
      TellsOpen(cfg, es, k - 1);
      TellsHalfOpen(cfg, es, k - 1);
    }
  }

  lemma TellsOpen(cfg: Config, es: seq<Event>, k: nat)
    requires k < |es| && Told(cfg, es, k)
    ensures At(cfg, es, k + 1).state.Open? ==>
      exists b: nat :: Waiting(cfg, es, b, k + 1) && At(cfg, es, k + 1).openedAt == Some(es[b].stamp)
  {
    if At(cfg, es, k + 1).state.Open? {
      if IsBlow(es[k]) {
        assert Waiting(cfg, es, k, k + 1);
      } else {
        assert At(cfg, es, k).state.Open?;
        var b: nat :| Waiting(cfg, es, b, k) && At(cfg, es, k).openedAt == Some(es[b].stamp);
        assert !Ripe(cfg, es, b, k);
        assert Waiting(cfg, es, b, k + 1);
      }
    }
  }

  lemma TellsHalfOpen(cfg: Config, es: seq<Event>, k: nat)
    requires k < |es| && Told(cfg, es, k)
    ensures At(cfg, es, k + 1).state.HalfOpen? ==>
      exists j: nat :: HalfOpenSince(cfg, es, j, k + 1) && Enters(cfg, es, j)
  {
    var s := At(cfg, es, k);
    if At(cfg, es, k + 1).state.HalfOpen? {
      if s.state.HalfOpen? {
        var j: nat :| HalfOpenSince(cfg, es, j, k) && Enters(cfg, es, j);
        HalfOpenOn(cfg, es, j, k + 1);
      } else {
        assert s.state.Open? && es[k].Ask?;
        var b: nat :| Waiting(cfg, es, b, k) && s.openedAt == Some(es[b].stamp);
        assert Ripe(cfg, es, b, k);
        assert Enters(cfg, es, k) && HalfOpenSince(cfg, es, k, k + 1);
      }
    }
  }

  lemma TellsClosed(cfg: Config, es: seq<Event>, k: nat)
    requires k < |es| && forall j: nat :: j <= k ==> Told(cfg, es, j)
    ensures At(cfg, es, k + 1).state.Closed? <==> Calm(cfg, es, k + 1)
  {
    assert Told(cfg, es, k);
    if At(cfg, es, k).state.Closed? {
      CalmOn(cfg, es, k);
      TripsExactly(cfg, es, k);
    } else if es[k].Reset? {
      assert QuietSince(cfg, es, k + 1, k + 1);
    } else if At(cfg, es, k + 1).state.Closed? {
      CompletesNow(cfg, es, k);
      assert QuietSince(cfg, es, k + 1, k + 1);
    } else if Calm(cfg, es, k + 1) {
      var c: nat :| QuietSince(cfg, es, c, k + 1);
      if c <= k {
        assert QuietSince(cfg, es, c, k);
      } else {
        var j: nat :| Completes(cfg, es, j, k);
        CompletesCloses(cfg, es, j, k);
      }
    }
  }

  /** From calm, the next event keeps the calm unless it opens. */
  lemma CalmOn(cfg: Config, es: seq<Event>, k: nat)
    requires k < |es| && Calm(cfg, es, k)
    ensures Calm(cfg, es, k + 1) <==> !Opens(cfg, es, k)
  {
    if Opens(cfg, es, k) {
      var m := k + 1;
      forall c: nat ensures !QuietSince(cfg, es, c, m) {}
    } else {
      var c: nat :| QuietSince(cfg, es, c, k);
      assert QuietSince(cfg, es, c, k + 1);
    }
  }

  lemma CompletesNow(cfg: Config, es: seq<Event>, k: nat)
    requires k < |es| && Told(cfg, es, k) && !es[k].Reset?
    requires !At(cfg, es, k).state.Closed? && At(cfg, es, k + 1).state.Closed?
    ensures Regains(cfg, es, k)
  {
    assert At(cfg, es, k).state.HalfOpen? && es[k].Success?;
    var j: nat :| HalfOpenSince(cfg, es, j, k) && Enters(cfg, es, j);
    HalfOpenCounts(cfg, es, k);
    assert Successes(es, j + 1, k + 1) == Successes(es, j + 1, k) + 1;
    assert Completes(cfg, es, j, k);
  }

  /** A success that completes the required number leaves the breaker closed. */
  lemma CompletesCloses(cfg: Config, es: seq<Event>, j: nat, k: nat)
    requires k < |es| && Completes(cfg, es, j, k) && Told(cfg, es, j) && Told(cfg, es, k)
    ensures At(cfg, es, k + 1).state.Closed?
  {
    if At(cfg, es, j).state.Closed? {
      CalmThrough(cfg, es, j, k);
    } else {
      EntersHalfOpen(cfg, es, j);
      assert Successes(es, j + 1, k + 1) == Successes(es, j + 1, k) + 1;
      CountsUp(cfg, es, j, k);
    }
  }

  lemma CalmThrough(cfg: Config, es: seq<Event>, j: nat, k: nat)
    requires j < k < |es| && Calm(cfg, es, j) && es[j].Ask? && Undisturbed(es, j + 1, k)
    ensures Calm(cfg, es, k)
  {
    var c: nat :| QuietSince(cfg, es, c, j);
    assert QuietSince(cfg, es, c, k);
  }

  lemma WaitsAlone(cfg: Config, es: seq<Event>, b: nat, k: nat)
    requires k <= |es| && Waiting(cfg, es, b, k)
    ensures !Probing(cfg, es, k)
  {
    forall d: nat, j: nat | LastBlowAt(es, d, k) && d < j < k ensures !Ripe(cfg, es, d, j) {
      assert d == b;
    }
  }

  lemma HalfOpenProbes(cfg: Config, es: seq<Event>, k: nat)
    requires k <= |es| && Told(cfg, es, k)
    ensures At(cfg, es, k).state.HalfOpen? ==> Probing(cfg, es, k)
  {
    if At(cfg, es, k).state.HalfOpen? {
      var j: nat :| HalfOpenSince(cfg, es, j, k) && Enters(cfg, es, j);
      var b: nat :| LastBlowAt(es, b, j) && Ripe(cfg, es, b, j);
      assert LastBlowAt(es, b, k);
    }
  }

  lemma EntersHalfOpen(cfg: Config, es: seq<Event>, j: nat)
    requires j < |es| && Enters(cfg, es, j) && Told(cfg, es, j) && !At(cfg, es, j).state.Closed?
    ensures At(cfg, es, j + 1).state.HalfOpen? && At(cfg, es, j + 1).successes == 0
  {
    var b: nat :| LastBlowAt(es, b, j) && Ripe(cfg, es, b, j) && forall i :: b < i < j ==> !Ripe(cfg, es, b, i);
    assert Waiting(cfg, es, b, j);
    WaitsAlone(cfg, es, b, j);
    HalfOpenProbes(cfg, es, j);
    var d: nat :| Waiting(cfg, es, d, j) && At(cfg, es, j).openedAt == Some(es[d].stamp);
    assert d == b;
  }

  lemma {:induction false} CountsUp(cfg: Config, es: seq<Event>, j: nat, k: nat)
    requires j < k <= |es| && At(cfg, es, j + 1).state.HalfOpen? && At(cfg, es, j + 1).successes == 0
    requires Undisturbed(es, j + 1, k) && Successes(es, j + 1, k) < Required(cfg)
    ensures At(cfg, es, k).state.HalfOpen? && At(cfg, es, k).successes == Successes(es, j + 1, k)
    decreases k
  {
    if j + 1 < k { CountsUp(cfg, es, j, k - 1); }
  }

  /**
   From the events alone: an asking is answered natively exactly while calm; otherwise it is a
   probe exactly when it, or an earlier asking since the last blow, came after the cooldown.
   */
  lemma RoutesExactly(cfg: Config, es: seq<Event>, k: nat)
    requires k < |es| && es[k].Ask?
    ensures Answer(At(cfg, es, k + 1)).Native? <==> Calm(cfg, es, k)
    ensures Answer(At(cfg, es, k + 1)).Probe? <==> !Calm(cfg, es, k) && Probing(cfg, es, k + 1)
    ensures At(cfg, es, k).state.HalfOpen? ==> Answer(At(cfg, es, k + 1)).Probe?
  {
    TellsState(cfg, es, k);
    TellsState(cfg, es, k + 1);
    if Calm(cfg, es, k) {
      CalmOn(cfg, es, k);
    } else if At(cfg, es, k + 1).state.HalfOpen? {
      HalfOpenProbes(cfg, es, k + 1);
    } else {
      var b: nat :| Waiting(cfg, es, b, k + 1);
      WaitsAlone(cfg, es, b, k + 1);
    }
  }

  // ---------- The counters, from the events alone ----------

  function Blows(es: seq<Event>, lo: nat, hi: nat): nat
    requires lo <= hi <= |es|
    decreases hi - lo
  {
    if lo == hi then 0 else Blows(es, lo, hi - 1) + (if IsBlow(es[hi - 1]) then 1 else 0)
  }

  /** The failures are counted anew from here: a restart, or right behind a success while calm. */
  ghost predicate Clears(cfg: Config, es: seq<Event>, c: nat)
    requires c <= |es|
  {
    Restarts(cfg, es, c) || (es[c - 1].Success? && Calm(cfg, es, c - 1))
  }

  ghost predicate LastClear(cfg: Config, es: seq<Event>, c: nat, k: nat)
    requires k <= |es|
  {
    c <= k && Clears(cfg, es, c) && forall i :: c < i <= k ==> !Clears(cfg, es, i)
  }

  /**
   The failure counter is the number of trips and transient failures since it was last cleared;
   the success counter is zero except in half-open, where `HalfOpenSince` tells it.
   */
  lemma {:induction false} CountersTold(cfg: Config, es: seq<Event>, k: nat)
    requires k <= |es|
    ensures exists c: nat :: LastClear(cfg, es, c, k) && At(cfg, es, k).failures == Blows(es, c, k)
    ensures !At(cfg, es, k).state.HalfOpen? ==> At(cfg, es, k).successes == 0
    decreases k
  {
    if k == 0 {
      assert LastClear(cfg, es, 0, 0);
    } else {
      CountersTold(cfg, es, k - 1);
      if Clears(cfg, es, k) {
        ClearsNow(cfg, es, k - 1);
        assert LastClear(cfg, es, k, k);
      } else {
        CountsOn(cfg, es, k - 1);
        var c: nat :| LastClear(cfg, es, c, k - 1) && At(cfg, es, k - 1).failures == Blows(es, c, k - 1);
        assert LastClear(cfg, es, c, k);
      }
    }
  }

  lemma ClearsNow(cfg: Config, es: seq<Event>, k: nat)
    requires k < |es| && Clears(cfg, es, k + 1)
    ensures At(cfg, es, k + 1).failures == 0
  {
    TellsState(cfg, es, k);
    if !es[k].Reset? && !Calm(cfg, es, k) {
      var j: nat :| Completes(cfg, es, j, k);
      TellsState(cfg, es, j);
      CompletesCloses(cfg, es, j, k);
    }
  }

  lemma CountsOn(cfg: Config, es: seq<Event>, k: nat)
    requires k < |es| && !Clears(cfg, es, k + 1)
    ensures At(cfg, es, k + 1).failures == At(cfg, es, k).failures + (if IsBlow(es[k]) then 1 else 0)
  {
    TellsState(cfg, es, k);
    if !At(cfg, es, k).state.Closed? && At(cfg, es, k + 1).state.Closed? {
      CompletesNow(cfg, es, k);
    }
  }

  // ---------- The breaker ----------

  /** Later events do not change what was. */
  lemma {:induction false} Extends(cfg: Config, es: seq<Event>, e: Event, k: nat)
    requires k <= |es|
    ensures At(cfg, es + [e], k) == At(cfg, es, k)
    decreases k
  {
    if k > 0 { Extends(cfg, es, e, k - 1); }
  }

  class CircuitRouter {
    const config: Config
    var state: CircuitState
    var consecutiveFailures: nat
    var consecutiveSuccesses: nat
    var openedAt: Option<nat>

    /** What has happened to the breaker so far. */
    ghost var events: seq<Event>

    ghost predicate Valid()
      reads this
    {
      View() == At(config, events, |events|)
    }

    ghost function View(): Inner
      reads this
    {
      Inner(state, consecutiveFailures, consecutiveSuccesses, openedAt)
    }

    constructor (cfg: Config)
      ensures Valid() && events == [] && View() == FRESH && config == cfg
    {
      config, state, consecutiveFailures, consecutiveSuccesses, openedAt := cfg, Closed, 0, 0, None;
      events := [];
    }

    method CheckAndUpdateState(now: nat)
      modifies `state, `consecutiveSuccesses
      ensures View() == Updated(config, old(View()), now)
    {
      if state.Open? && openedAt.Some? {
        var elapsed := if now < openedAt.value then 0 else now - openedAt.value;
        if elapsed >= config.cooldown {
          state, consecutiveSuccesses := HalfOpen, 0;
        }
      }
    }

    method Route(now: nat) returns (r: BackendRoute)
      requires Valid()
      modifies this
      ensures Valid() && events == old(events) + [Ask(now)]
      ensures View() == Next(config, old(View()), Ask(now)) && r == Answer(View())
      ensures r.Native? <==> Calm(config, events, |old(events)|)
      ensures r.Probe? <==> !Calm(config, events, |old(events)|) && Probing(config, events, |events|)
    {
      Extends(config, events, Ask(now), |events|);
      events := events + [Ask(now)];
      RoutesExactly(config, events, |events| - 1);
      CheckAndUpdateState(now);
      match state {
        case Closed => return Native;
        case Open => return Fallback;
        case HalfOpen => return Probe;
      }
    }

    method RecordSuccess()
      requires Valid()
      modifies this
      ensures Valid() && events == old(events) + [Success]
      ensures View() == Next(config, old(View()), Success)
    {
      Extends(config, events, Success, |events|);
      events := events + [Success];
      match state {
        case Closed => consecutiveFailures := 0;
        case HalfOpen =>
          consecutiveSuccesses := consecutiveSuccesses + 1;
          if consecutiveSuccesses >= config.successThreshold {
            state, consecutiveFailures, consecutiveSuccesses, openedAt := Closed, 0, 0, None;
          }
        case Open =>
      }
    }

    method RecordFailure(transient: bool, now: nat, stamp: nat)
      requires Valid()
      modifies this
      ensures Valid() && events == old(events) + [Failure(transient, now, stamp)]
      ensures View() == Next(config, old(View()), Failure(transient, now, stamp))
    {
      Extends(config, events, Failure(transient, now, stamp), |events|);
      events := events + [Failure(transient, now, stamp)];
      if !transient { return; }
      CheckAndUpdateState(now);
      match state {
        case Closed =>
          consecutiveFailures := consecutiveFailures + 1;
          if consecutiveFailures >= config.failureThreshold {
            state, openedAt, consecutiveSuccesses := Open, Some(stamp), 0;
          }
        case HalfOpen =>
          state, consecutiveFailures := Open, consecutiveFailures + 1;
          openedAt, consecutiveSuccesses := Some(stamp), 0;
        case Open =>
          consecutiveFailures, openedAt := consecutiveFailures + 1, Some(stamp);
      }
    }

    method TripNow(stamp: nat)
      requires Valid()
      modifies this
      ensures Valid() && events == old(events) + [Trip(stamp)]
      ensures View() == Next(config, old(View()), Trip(stamp))
    {
      Extends(config, events, Trip(stamp), |events|);
      events := events + [Trip(stamp)];
      state, openedAt := Open, Some(stamp);
      consecutiveSuccesses, consecutiveFailures := 0, consecutiveFailures + 1;
    }

    method ResetNow()
      requires Valid()
      modifies this
      ensures Valid() && events == old(events) + [Reset]
      ensures View() == Next(config, old(View()), Reset)
    {
      Extends(config, events, Reset, |events|);
      events := events + [Reset];
      state, consecutiveFailures, consecutiveSuccesses, openedAt := Closed, 0, 0, None;
    }
  }
}
