/**
 The connection pool as a protocol: every task runs in atomic steps that end where the code
 takes a lock, updates an atomic counter or awaits, and the steps of all tasks interleave.
 Two steps are coarser: returning a connection and taking an idle one read the closed flag in
 the same step as the lock that follows it.
 */
module Pool {
  import opened Common

  // ---------- State ----------

  datatype Conn = Conn(id: nat, created: nat, valid: bool, inTx: bool)

  datatype Entry = Entry(conn: Conn, lastUsed: nat)

  datatype Config = Config(maxSize: nat, minIdle: nat, idleTimeout: Option<nat>, maxLifetime: Option<nat>,
                           testOnAcquire: bool)

  function Capacity(cfg: Config): nat {
    if cfg.maxSize < 1 then 1 else cfg.maxSize
  }

  /** Where a task stands; a finished task has no place. */
  datatype Place =
    | Entering                          // passed the closed check, no permit yet
    | Contending                        // found no permit, about to take the waiter lock
    | Waiting                           // its sender is, or was, in the waiter queue
    | OfferedConn(conn: Conn)           // a leased connection was sent to it
    | OfferedPermit                     // a permit was sent to it
    | Obtaining                         // in the checkout loop
    | Checking(entry: Entry)            // probing an idle connection it has taken
    | Creating                          // waiting for the factory
    | Leased(conn: Conn, broken: bool)
    | Handing(conn: Conn)               // about to return a connection
    | Parking(conn: Conn)               // no waiter took it, not yet in the idle queue
    | Releasing                         // connection parked, permit about to be dropped
    | PermitReturn                      // connection given up, permit to be passed on
    | Background(conn: Conn)            // rolling back a transaction left open
    | Closing                           // closing a connection whose rollback failed
    | Warming(left: nat)                // warm-up, waiting for the factory, `left` still to come
    | Warmed(left: nat, conn: Conn)     // warm-up, connection counted but not yet queued

  predicate HasPermit(p: Place) {
    match p
    case Entering => false
    case Contending => false
    case Waiting => false
    case Warming(_) => false
    case Warmed(_, _) => false
    case _ => true
  }

  /** The connection a task accounts for. */
  function Held(p: Place): Option<Conn> {
    match p
    case OfferedConn(c) => Some(c)
    case Checking(e) => Some(e.conn)
    case Leased(c, _) => Some(c)
    case Handing(c) => Some(c)
    case Parking(c) => Some(c)
    case Background(c) => Some(c)
    case Warmed(_, c) => Some(c)
    case _ => None
  }

  /**
   `total` is the atomic counter; `born` and `dead` are the connections created and discarded
   so far, `tasks` every task that ever started.
   */
  datatype State = State(cfg: Config, permits: nat, idle: seq<Entry>, waiters: seq<nat>, total: int, closed: bool,
                         places: map<nat, Place>, born: set<nat>, dead: set<nat>, tasks: set<nat>)

  function Init(cfg: Config): State {
    State(cfg, Capacity(cfg), [], [], 0, false, map[], {}, {}, {})
  }

  function Put(s: State, t: nat, p: Place): State {
    s.(places := s.places[t := p], tasks := s.tasks + {t})
  }

  function Finish(s: State, t: nat): State {
    s.(places := s.places - {t})
  }

  /** Counter decrement together with the end of the connection. */
  function Discard(s: State, c: Conn): State {
    s.(total := s.total - 1, dead := s.dead + {c.id})
  }

  function Count(s: State, c: Conn): State {
    s.(total := s.total + 1, born := s.born + {c.id})
  }

  // ---------- The waiter queue ----------

  predicate Awaits(s: State, t: nat) {
    t in s.places && s.places[t].Waiting?
  }

  /** How many senders are popped before one is found whose receiver still waits. */
  function Stale(s: State, ws: seq<nat>): (n: nat)
    ensures n <= |ws| && (n < |ws| ==> Awaits(s, ws[n]))
    ensures forall i :: 0 <= i < n ==> !Awaits(s, ws[i])
  {
    if ws == [] || Awaits(s, ws[0]) then 0 else 1 + Stale(s, ws[1..])
  }

  // ---------- Expiry ----------

  predicate Past(limit: Option<nat>, since: nat, now: nat) {
    limit.Some? && now > since + limit.value
  }

  predicate Expired(cfg: Config, e: Entry, now: nat) {
    Past(cfg.idleTimeout, e.lastUsed, now) || Past(cfg.maxLifetime, e.conn.created, now)
  }

  function Retained(cfg: Config, q: seq<Entry>, now: nat): seq<Entry> {
    if q == [] then []
    else if Expired(cfg, q[0], now) then Retained(cfg, q[1..], now)
    else [q[0]] + Retained(cfg, q[1..], now)
  }

  function Evicted(cfg: Config, q: seq<Entry>, now: nat): seq<Entry> {
    if q == [] then []
    else if Expired(cfg, q[0], now) then [q[0]] + Evicted(cfg, q[1..], now)
    else Evicted(cfg, q[1..], now)
  }

  function Ids(q: seq<Entry>): set<nat> {
    set e | e in q :: e.conn.id
  }

  // ---------- Checkout of an idle connection ----------

  /** What the awaited calls report: the ping, and the state after ping and after reset. */
  datatype Probe = Probe(pingOk: bool, pinged: Conn, resetOk: bool, reset: Conn)

  /** The checks of the checkout loop, in order; nothing means the connection is discarded. */
  function Inspect(cfg: Config, e: Entry, now: nat, p: Probe): Option<Conn> {
    if Past(cfg.maxLifetime, e.conn.created, now) then None
    else if Past(cfg.idleTimeout, e.lastUsed, now) then None
    else if cfg.testOnAcquire && (!e.conn.valid || !p.pingOk) then None
    else
      var c := if cfg.testOnAcquire then p.pinged else e.conn;
      if c.inTx then (if !p.resetOk || !p.reset.valid then None else Some(p.reset))
      else if !c.valid then None
      else Some(c)
  }

  predicate SameConn(c: Conn, d: Conn) {
    c.id == d.id && c.created == d.created
  }

  /** Probing does not swap the connection. */
  predicate Honest(e: Entry, p: Probe) {
    SameConn(p.pinged, e.conn) && SameConn(p.reset, e.conn)
  }

  // ---------- Steps ----------

  datatype Step =
    | Acquire(t: nat)
    | TryFast(t: nat)
    | Register(t: nat)
    | Leave(t: nat)
    | Receive(t: nat)
    | DropOffer(t: nat, spawn: bool)
    | Pop(t: nat)
    | Probed(t: nat, now: nat, probe: Probe)
    | Created(t: nat, conn: Conn)
    | CreateFailed(t: nat)
    | Use(t: nat, conn: Conn, broken: bool)
    | DropLease(t: nat, spawn: bool)
    | Return(t: nat)
    | Park(t: nat, now: nat)
    | Release(t: nat)
    | PassPermit(t: nat)
    | RolledBack(t: nat, ok: bool, conn: Conn)
    | ConnClosed(t: nat)
    | Evict(now: nat)
    | CloseFlag
    | CloseWaiters
    | CloseIdle
    | WarmStart(t: nat)
    | WarmCreated(t: nat, conn: Conn)
    | WarmPush(t: nat, now: nat)
    | WarmStop(t: nat)
    | Fade(i: nat)

  /** When a step can be taken; connections come from the factory with a new identity. */
  predicate Enabled(s: State, st: Step) {
    match st
    case Acquire(t) => t !in s.tasks
    case TryFast(t) => t in s.places && s.places[t].Entering?
    case Register(t) => t in s.places && s.places[t].Contending?
    case Leave(t) => t in s.places && s.places[t].Waiting?
    case Receive(t) => t in s.places && (s.places[t].OfferedConn? || s.places[t].OfferedPermit?)
    case DropOffer(t, _) => t in s.places && (s.places[t].OfferedConn? || s.places[t].OfferedPermit?)
    case Pop(t) => t in s.places && s.places[t].Obtaining?
    case Probed(t, _, q) => t in s.places && s.places[t].Checking? && Honest(s.places[t].entry, q)
    case Created(t, c) => t in s.places && s.places[t].Creating? && c.id !in s.born
    case CreateFailed(t) => t in s.places && s.places[t].Creating?
    case Use(t, c, _) => t in s.places && s.places[t].Leased? && SameConn(c, s.places[t].conn)
    case DropLease(t, _) => t in s.places && s.places[t].Leased?
    case Return(t) => t in s.places && s.places[t].Handing?
    case Park(t, _) => t in s.places && s.places[t].Parking?
    case Release(t) => t in s.places && s.places[t].Releasing?
    case PassPermit(t) => t in s.places && s.places[t].PermitReturn?
    case RolledBack(t, _, c) => t in s.places && s.places[t].Background? && SameConn(c, s.places[t].conn)
    case ConnClosed(t) => t in s.places && s.places[t].Closing?
    case WarmStart(t) => t !in s.tasks
    case WarmCreated(t, c) => t in s.places && s.places[t].Warming? && s.places[t].left > 0 && c.id !in s.born
    case WarmPush(t, _) => t in s.places && s.places[t].Warmed?
    case WarmStop(t) => t in s.places && s.places[t].Warming?
    case Fade(i) => i < |s.idle|
    case _ => true
  }

  /** The drop of a leased connection, up to its first await. */
  function Dropped(s: State, t: nat, c: Conn, broken: bool, spawn: bool): State {
    if broken || s.closed || !c.valid then Put(Discard(s, c), t, PermitReturn)
    else if c.inTx then (if spawn then Put(s, t, Background(c)) else Put(Discard(s, c), t, PermitReturn))
    else Put(s, t, Handing(c))
  }

  /** `return_connection` up to the release of the waiter lock. */
  function Returned(s: State, t: nat, c: Conn): State {
    if s.closed || !c.valid then Put(Discard(s, c), t, PermitReturn)
    else
      var n := Stale(s, s.waiters);
      if n < |s.waiters| then Put(Finish(s, t), s.waiters[n], OfferedConn(c)).(waiters := s.waiters[n + 1..])
      else Put(s, t, Parking(c)).(waiters := [])
  }

  /** `handle_permit_return`. */
  function Passed(s: State, t: nat): State {
    var n := Stale(s, s.waiters);
    if n < |s.waiters| then Put(Finish(s, t), s.waiters[n], OfferedPermit).(waiters := s.waiters[n + 1..])
    else Finish(s, t).(waiters := [], permits := s.permits + 1)
  }

  function WarmTarget(cfg: Config): nat {
    if cfg.minIdle < cfg.maxSize then cfg.minIdle else cfg.maxSize
  }

  /** The head of the warm-up loop. */
  function WarmNext(s: State, t: nat, left: nat): State {
    if left == 0 || s.closed then Finish(s, t).(tasks := s.tasks + {t}) else Put(s, t, Warming(left))
  }

  function Apply(s: State, st: Step): State
    requires Enabled(s, st)
  {
    match st
    case Acquire(t) => if s.closed then s.(tasks := s.tasks + {t}) else Put(s, t, Entering)
    case TryFast(t) => if s.permits > 0 then Put(s, t, Obtaining).(permits := s.permits - 1) else Put(s, t, Contending)
    case Register(t) =>
      if s.permits > 0 then Put(s, t, Obtaining).(permits := s.permits - 1)
      else Put(s, t, Waiting).(waiters := s.waiters + [t])
    case Leave(t) => Finish(s, t)
    case Receive(t) =>
      if s.places[t].OfferedConn? then Put(s, t, Leased(s.places[t].conn, false)) else Put(s, t, Obtaining)
    case DropOffer(t, spawn) =>
      if s.places[t].OfferedConn? then Dropped(s, t, s.places[t].conn, false, spawn)
      else Finish(s, t).(permits := s.permits + 1)
    case Pop(t) =>
      if s.closed then Finish(s, t).(permits := s.permits + 1)
      else if s.idle == [] then Put(s, t, Creating)
      else Put(s, t, Checking(s.idle[0])).(idle := s.idle[1..])
    case Probed(t, now, probe) =>
      var e := s.places[t].entry;
      var c := Inspect(s.cfg, e, now, probe);
      if c.Some? then Put(s, t, Leased(c.value, false)) else Put(Discard(s, e.conn), t, Obtaining)
    case Created(t, c) => Put(Count(s, c), t, Leased(c, false))
    case CreateFailed(t) => Put(s, t, PermitReturn)
    case Use(t, c, broken) => Put(s, t, Leased(c, broken))
    case DropLease(t, spawn) => Dropped(s, t, s.places[t].conn, s.places[t].broken, spawn)
    case Return(t) => Returned(s, t, s.places[t].conn)
    case Park(t, now) => Put(s, t, Releasing).(idle := s.idle + [Entry(s.places[t].conn, now)])
    case Release(t) => Finish(s, t).(permits := s.permits + 1)
    case PassPermit(t) => Passed(s, t)
    case RolledBack(t, ok, c) =>
      if ok && c.valid && !s.closed then Put(s, t, Handing(c)) else Put(Discard(s, c), t, Closing)
    case ConnClosed(t) => Put(s, t, PermitReturn)
    case Evict(now) =>
      s.(idle := Retained(s.cfg, s.idle, now), total := s.total - |Evicted(s.cfg, s.idle, now)|,
         dead := s.dead + Ids(Evicted(s.cfg, s.idle, now)))
    case CloseFlag => s.(closed := true)
    case CloseWaiters => s.(waiters := [])
    case CloseIdle => s.(idle := [], total := s.total - |s.idle|, dead := s.dead + Ids(s.idle))
    case WarmStart(t) => WarmNext(s, t, WarmTarget(s.cfg))
    case WarmCreated(t, c) => Put(Count(s, c), t, Warmed(s.places[t].left, c))
    case WarmPush(t, now) =>
      var p := s.places[t];
      WarmNext(s.(idle := s.idle + [Entry(p.conn, now)]), t, if p.left > 0 then p.left - 1 else 0)
    case WarmStop(t) => Finish(s, t)
    case Fade(i) => s.(idle := s.idle[i := s.idle[i].(conn := s.idle[i].conn.(valid := false))])
  }

  // ---------- The loops behind four of the steps ----------

  /** The shared fields, and the loops that change them under a lock. */
  class PoolInner {
    const cfg: Config
    var permits: nat
    var idle: seq<Entry>
    var waiters: seq<nat>
    var total: int
    var closed: bool
    var places: map<nat, Place>
    ghost var born: set<nat>
    ghost var dead: set<nat>
    ghost var tasks: set<nat>

    ghost function View(): State
      reads this
    {
      State(cfg, permits, idle, waiters, total, closed, places, born, dead, tasks)
    }

    constructor (config: Config)
      ensures View() == Init(config)
    {
      cfg, permits, idle, waiters, total, closed := config, Capacity(config), [], [], 0, false;
      places, born, dead, tasks := map[], {}, {}, {};
    }

    /** `return_connection`: senders are popped until one has a receiver. */
    method ReturnConnection(t: nat, c: Conn)
      requires t in places && places[t] == Handing(c)
      modifies this
      ensures View() == Returned(old(View()), t, c)
    {
      if closed || !c.valid {
        total, dead := total - 1, dead + {c.id};
        places, tasks := places[t := PermitReturn], tasks + {t};
        return;
      }
      ghost var s, n := View(), 0;
      while waiters != []
        invariant n <= |s.waiters| && waiters == s.waiters[n..] && View() == s.(waiters := waiters)
        invariant Stale(s, s.waiters) == n + Stale(s, waiters)
        decreases |waiters|
      {
        var u := waiters[0];
        waiters := waiters[1..];
        if u in places && places[u].Waiting? {
          places, tasks := (places - {t})[u := OfferedConn(c)], tasks + {u};
          return;
        }
        n := n + 1;
      }
      places, tasks := places[t := Parking(c)], tasks + {t};
    }

    /** `handle_permit_return`: the permit goes to a receiver or back to the semaphore. */
    method HandlePermitReturn(t: nat)
      modifies this
      ensures View() == Passed(old(View()), t)
    {
      ghost var s, n := View(), 0;
      while waiters != []
        invariant n <= |s.waiters| && waiters == s.waiters[n..] && View() == s.(waiters := waiters)
        invariant Stale(s, s.waiters) == n + Stale(s, waiters)
        decreases |waiters|
      {
        var u := waiters[0];
        waiters := waiters[1..];
        if u in places && places[u].Waiting? {
          places, tasks := (places - {t})[u := OfferedPermit], tasks + {u};
          return;
        }
        n := n + 1;
      }
      places, permits := places - {t}, permits + 1;
    }

    /** `evict_expired` up to the release of the queue lock. */
    method EvictExpired(now: nat) returns (gone: seq<Entry>)
      modifies this
      ensures gone == Evicted(cfg, old(idle), now) && View() == Apply(old(View()), Evict(now))
      ensures forall e :: e in idle <==> e in old(idle) && !TooOld(cfg, e, now)
      ensures forall e :: e in gone <==> e in old(idle) && TooOld(cfg, e, now)
    {
      hide Ids, Expired, TooOld, Apply, Enabled;
      IdsNone();
      ghost var s := View();
      var retained: seq<Entry> := [];
      gone := [];
      while idle != []
        invariant retained + Retained(cfg, idle, now) == Retained(cfg, s.idle, now)
        invariant gone + Evicted(cfg, idle, now) == Evicted(cfg, s.idle, now)
        invariant View() == s.(idle := idle, total := s.total - |gone|, dead := s.dead + Ids(gone))
        decreases |idle|
      {
        var e := idle[0];
        idle := idle[1..];
        if Expired(cfg, e, now) {
          total, dead := total - 1, dead + {e.conn.id};
          IdsSnoc(gone, e);
          gone := gone + [e];
        } else {
          retained := retained + [e];
        }
      }
      idle := retained;
      SweptByAge(cfg, s.idle, now);
      EvictStep(s, now);
    }

    /** The idle part of `close`. */
    method CloseIdleQueue() returns (gone: seq<Entry>)
      modifies this
      ensures gone == old(idle) && View() == Apply(old(View()), CloseIdle)
    {
      hide Ids;
      IdsNone();
      ghost var s := View();
      gone := [];
      while idle != []
        invariant gone + idle == s.idle
        invariant View() == s.(idle := idle, total := s.total - |gone|, dead := s.dead + Ids(gone))
        decreases |idle|
      {
        var e := idle[0];
        idle, total, dead := idle[1..], total - 1, dead + {e.conn.id};
        IdsSnoc(gone, e);
        gone := gone + [e];
      }
    }
  }

  lemma EvictStep(s: State, now: nat)
    ensures Enabled(s, Evict(now)) && Apply(s, Evict(now)) ==
      s.(idle := Retained(s.cfg, s.idle, now), total := s.total - |Evicted(s.cfg, s.idle, now)|,
         dead := s.dead + Ids(Evicted(s.cfg, s.idle, now)))
  {
  }

  lemma IdsNone()
    ensures Ids([]) == {}
  {
  }

  lemma IdsSnoc(q: seq<Entry>, e: Entry)
    ensures Ids(q + [e]) == Ids(q) + {e.conn.id}
  {
  }

  // ---------- Counting places ----------

  function Holders(ps: map<nat, Place>): set<nat> {
    set t | t in ps && HasPermit(ps[t])
  }

  function Keepers(ps: map<nat, Place>): set<nat> {
    set t | t in ps && Held(ps[t]).Some?
  }

  lemma SizeWithout(a: set<nat>, t: nat)
    ensures |a| == |a - {t}| + (if t in a then 1 else 0)
  {
    if t !in a { assert a - {t} == a; }
  }

  lemma HoldersPut(ps: map<nat, Place>, t: nat, p: Place)
    ensures |Holders(ps[t := p])| ==
      |Holders(ps)| - (if t in ps && HasPermit(ps[t]) then 1 else 0) + (if HasPermit(p) then 1 else 0)
  {
    hide HasPermit;
    var a, b := Holders(ps), Holders(ps[t := p]);
    SizeWithout(a, t);
    SizeWithout(b, t);
    assert a - {t} == b - {t};
    assert t in a <==> t in ps && HasPermit(ps[t]);
    assert t in b <==> HasPermit(p);
  }

  lemma HoldersDrop(ps: map<nat, Place>, t: nat)
    ensures |Holders(ps - {t})| == |Holders(ps)| - (if t in ps && HasPermit(ps[t]) then 1 else 0)
  {
    hide HasPermit;
    var a, b := Holders(ps), Holders(ps - {t});
    SizeWithout(a, t);
    assert a - {t} == b;
  }

  lemma KeepersPut(ps: map<nat, Place>, t: nat, p: Place)
    ensures |Keepers(ps[t := p])| ==
      |Keepers(ps)| - (if t in ps && Held(ps[t]).Some? then 1 else 0) + (if Held(p).Some? then 1 else 0)
  {
    hide Held;
    var a, b := Keepers(ps), Keepers(ps[t := p]);
    SizeWithout(a, t);
    SizeWithout(b, t);
    assert a - {t} == b - {t};
    assert t in a <==> t in ps && Held(ps[t]).Some?;
    assert t in b <==> Held(p).Some?;
  }

  lemma KeepersDrop(ps: map<nat, Place>, t: nat)
    ensures |Keepers(ps - {t})| == |Keepers(ps)| - (if t in ps && Held(ps[t]).Some? then 1 else 0)
  {
    hide Held;
    var a, b := Keepers(ps), Keepers(ps - {t});
    SizeWithout(a, t);
    assert a - {t} == b;
  }

  // ---------- Conservation ----------

  /** Free permits and held permits make up the capacity. */
  ghost predicate PermitsKept(s: State) {
    s.permits + |Holders(s.places)| == Capacity(s.cfg)
  }

  /** The counter is the number of connections the pool knows about. */
  ghost predicate TotalKept(s: State) {
    && s.total == |s.idle| + |Keepers(s.places)|
    && s.total + |s.dead| == |s.born| && s.dead <= s.born
  }

  ghost predicate Live(s: State, id: nat) {
    id in s.born && id !in s.dead
  }

  /** A connection is in one place only, and it is neither unknown nor discarded. */
  ghost predicate Unique(s: State) {
    && (forall i :: 0 <= i < |s.idle| ==> Live(s, s.idle[i].conn.id))
    && (forall i, j :: 0 <= i < j < |s.idle| ==> s.idle[i].conn.id != s.idle[j].conn.id)
    && (forall t :: t in s.places && Held(s.places[t]).Some? ==> Live(s, Held(s.places[t]).value.id))
    && (forall t, i :: t in s.places && Held(s.places[t]).Some? && 0 <= i < |s.idle| ==>
          Held(s.places[t]).value.id != s.idle[i].conn.id)
    && (forall t, u ::
          t in s.places && u in s.places && t != u && Held(s.places[t]).Some? && Held(s.places[u]).Some? ==>
          Held(s.places[t]).value.id != Held(s.places[u]).value.id)
  }

  /** Only tasks that started appear, so a queued sender never belongs to a later task. */
  ghost predicate Known(s: State) {
    && (forall t :: t in s.places ==> t in s.tasks)
    && (forall i :: 0 <= i < |s.waiters| ==> s.waiters[i] in s.tasks)
  }

  ghost predicate Inv(s: State) {
    PermitsKept(s) && TotalKept(s) && Unique(s) && Known(s)
  }

  lemma InitInv(cfg: Config)
    ensures Inv(Init(cfg))
  {
    assert Holders(map[]) == {} && Keepers(map[]) == {};
  }

  // ---------- The kinds of change a step makes ----------

  predicate SameHolding(p: Place, q: Place) {
    HasPermit(p) == HasPermit(q) && Held(p).Some? == Held(q).Some?
      && (Held(p).Some? ==> Held(p).value.id == Held(q).value.id)
  }

  lemma MoveKeeps(s: State, t: nat, p: Place)
    requires Inv(s) && t in s.places && SameHolding(s.places[t], p)
    ensures Inv(Put(s, t, p))
  {
    HoldersPut(s.places, t, p);
    KeepersPut(s.places, t, p);
  }

  lemma StartKeeps(s: State, t: nat, p: Place)
    requires Inv(s) && t !in s.tasks && !HasPermit(p) && Held(p).None?
    ensures Inv(Put(s, t, p))
  {
    HoldersPut(s.places, t, p);
    KeepersPut(s.places, t, p);
  }

  lemma TakeKeeps(s: State, t: nat, p: Place)
    requires Inv(s) && t in s.places && !HasPermit(s.places[t]) && Held(s.places[t]).None?
    requires HasPermit(p) && Held(p).None? && s.permits > 0
    ensures Inv(Put(s, t, p).(permits := s.permits - 1))
  {
    HoldersPut(s.places, t, p);
    KeepersPut(s.places, t, p);
  }

  lemma LeaveKeeps(s: State, t: nat)
    requires Inv(s) && t in s.places && Held(s.places[t]).None?
    ensures HasPermit(s.places[t]) ==> Inv(Finish(s, t).(permits := s.permits + 1))
    ensures !HasPermit(s.places[t]) ==> Inv(Finish(s, t))
  {
    HoldersDrop(s.places, t);
    KeepersDrop(s.places, t);
  }

  lemma DiscardKeeps(s: State, t: nat, c: Conn, p: Place)
    requires Inv(s) && t in s.places && Held(s.places[t]).Some? && Held(s.places[t]).value.id == c.id
    requires Held(p).None? && HasPermit(p) == HasPermit(s.places[t])
    ensures Inv(Put(Discard(s, c), t, p))
  {
    HoldersPut(s.places, t, p);
    KeepersPut(s.places, t, p);
  }

  lemma CountKeeps(s: State, t: nat, c: Conn, p: Place)
    requires Inv(s) && t in s.places && Held(s.places[t]).None? && c.id !in s.born
    requires Held(p) == Some(c) && HasPermit(p) == HasPermit(s.places[t])
    ensures Inv(Put(Count(s, c), t, p))
  {
    HoldersPut(s.places, t, p);
    KeepersPut(s.places, t, p);
  }

  /** Permit, and connection if there is one, pass from `t` to the waiter `u`. */
  lemma HandKeeps(s: State, t: nat, u: nat, p: Place, ws: seq<nat>)
    requires Inv(s) && t in s.places && Awaits(s, u) && SameHolding(s.places[t], p) && HasPermit(p)
    requires forall w :: w in ws ==> w in s.waiters
    ensures Inv(Put(Finish(s, t), u, p).(waiters := ws))
  {
    hide Holders, Keepers;
    HoldersDrop(s.places, t);
    KeepersDrop(s.places, t);
    HoldersPut(s.places - {t}, u, p);
    KeepersPut(s.places - {t}, u, p);
    forall i | 0 <= i < |ws| ensures ws[i] in s.tasks {
      assert ws[i] in s.waiters;
    }
  }

  lemma WaitersKeep(s: State, ws: seq<nat>)
    requires Inv(s) && forall i :: 0 <= i < |ws| ==> ws[i] in s.tasks
    ensures Inv(s.(waiters := ws))
  {
  }

  lemma ParkKeeps(s: State, t: nat, p: Place, now: nat)
    requires Inv(s) && t in s.places && Held(s.places[t]).Some? && Held(p).None?
      && HasPermit(p) == HasPermit(s.places[t])
    ensures Inv(Put(s, t, p).(idle := s.idle + [Entry(Held(s.places[t]).value, now)]))
  {
    HoldersPut(s.places, t, p);
    KeepersPut(s.places, t, p);
  }

  /** The end of warm-up: the connection is queued and the task is over. */
  lemma LastParkKeeps(s: State, t: nat, now: nat)
    requires Inv(s) && t in s.places && Held(s.places[t]).Some? && !HasPermit(s.places[t])
    ensures Inv(Finish(s, t).(idle := s.idle + [Entry(Held(s.places[t]).value, now)]))
  {
    HoldersDrop(s.places, t);
    KeepersDrop(s.places, t);
  }

  lemma UnparkKeeps(s: State, t: nat, p: Place)
    requires Inv(s) && t in s.places && s.idle != [] && Held(s.places[t]).None?
    requires Held(p) == Some(s.idle[0].conn) && HasPermit(p) == HasPermit(s.places[t])
    ensures Inv(Put(s, t, p).(idle := s.idle[1..]))
  {
    HoldersPut(s.places, t, p);
    KeepersPut(s.places, t, p);
  }

  // ---------- Sweeping the idle queue ----------

  lemma {:induction false} SweepParts(cfg: Config, q: seq<Entry>, now: nat)
    ensures |Retained(cfg, q, now)| + |Evicted(cfg, q, now)| == |q|
    ensures forall e :: e in Retained(cfg, q, now) ==> e in q && !Expired(cfg, e, now)
    ensures forall e :: e in Evicted(cfg, q, now) ==> e in q && Expired(cfg, e, now)
    ensures forall e :: e in q ==> e in Retained(cfg, q, now) || e in Evicted(cfg, q, now)
    decreases |q|
  {
    if q != [] { SweepParts(cfg, q[1..], now); }
  }

  /** Unused for longer than the idle timeout, or alive for longer than the lifetime, where those are set. */
  predicate TooOld(cfg: Config, e: Entry, now: nat) {
    || (cfg.idleTimeout.Some? && now - e.lastUsed > cfg.idleTimeout.value)
    || (cfg.maxLifetime.Some? && now - e.conn.created > cfg.maxLifetime.value)
  }

  lemma SweptByAge(cfg: Config, q: seq<Entry>, now: nat)
    ensures forall e :: e in Retained(cfg, q, now) <==> e in q && !TooOld(cfg, e, now)
    ensures forall e :: e in Evicted(cfg, q, now) <==> e in q && TooOld(cfg, e, now)
  {
    SweepParts(cfg, q, now);
  }

  ghost predicate Apart(q: seq<Entry>) {
    forall i, j :: 0 <= i < j < |q| ==> q[i].conn.id != q[j].conn.id
  }

  lemma {:induction false} SweepApart(cfg: Config, q: seq<Entry>, now: nat)
    requires Apart(q)
    ensures Apart(Retained(cfg, q, now)) && Apart(Evicted(cfg, q, now))
    ensures forall a, b :: a in Retained(cfg, q, now) && b in Evicted(cfg, q, now) ==> a.conn.id != b.conn.id
    decreases |q|
  {
    if q != [] {
      SweepApart(cfg, q[1..], now);
      SweepParts(cfg, q[1..], now);
      forall e | e in q[1..] ensures e.conn.id != q[0].conn.id {
        var i :| 0 <= i < |q[1..]| && q[1..][i] == e;
        assert q[i + 1] == e;
      }
    }
  }

  lemma {:induction false} IdsSize(q: seq<Entry>)
    requires Apart(q)
    ensures |Ids(q)| == |q|
    decreases |q|
  {
    if q != [] {
      IdsSize(q[1..]);
      assert q[0].conn.id !in Ids(q[1..]) by {
        forall e | e in q[1..] ensures e.conn.id != q[0].conn.id {
          var i :| 0 <= i < |q[1..]| && q[1..][i] == e;
          assert q[i + 1] == e;
        }
      }
      assert Ids(q) == Ids(q[1..]) + {q[0].conn.id};
    }
  }

  ghost predicate Split(q: seq<Entry>, kept: seq<Entry>, gone: seq<Entry>) {
    && |kept| + |gone| == |q| && Apart(kept) && Apart(gone)
    && (forall e :: e in kept ==> e in q) && (forall e :: e in gone ==> e in q)
    && forall a, b :: a in kept && b in gone ==> a.conn.id != b.conn.id
  }

  /** Part of the idle queue goes, and its connections with it. */
  lemma SweepKeeps(s: State, kept: seq<Entry>, gone: seq<Entry>)
    requires Inv(s) && Split(s.idle, kept, gone)
    ensures Inv(s.(idle := kept, total := s.total - |gone|, dead := s.dead + Ids(gone)))
  {
    IdsSize(gone);
    forall e | e in s.idle ensures Live(s, e.conn.id) {
      var i :| 0 <= i < |s.idle| && s.idle[i] == e;
    }
    assert forall x :: x in Ids(gone) ==> x in s.born && x !in s.dead;
    assert |s.dead + Ids(gone)| == |s.dead| + |gone|;
    SweepUnique(s, kept, gone);
  }

  lemma SweepUnique(s: State, kept: seq<Entry>, gone: seq<Entry>)
    requires Unique(s) && Apart(kept)
    requires (forall e :: e in kept ==> e in s.idle) && (forall e :: e in gone ==> e in s.idle)
    requires forall a, b :: a in kept && b in gone ==> a.conn.id != b.conn.id
    ensures Unique(s.(idle := kept, total := s.total - |gone|, dead := s.dead + Ids(gone)))
  {
    forall t, e | t in s.places && Held(s.places[t]).Some? && e in s.idle
      ensures Held(s.places[t]).value.id != e.conn.id
    {
      var i :| 0 <= i < |s.idle| && s.idle[i] == e;
    }
    forall e | e in s.idle ensures Live(s, e.conn.id) {
      var i :| 0 <= i < |s.idle| && s.idle[i] == e;
    }
    forall i | 0 <= i < |kept| ensures kept[i] in kept && kept[i] in s.idle {}
  }

  // ---------- Every step ----------

  lemma DroppedKeeps(s: State, t: nat, c: Conn, broken: bool, spawn: bool)
    requires Inv(s) && t in s.places && Held(s.places[t]) == Some(c) && HasPermit(s.places[t])
    ensures Inv(Dropped(s, t, c, broken, spawn))
  {
    hide Inv;
    if broken || s.closed || !c.valid || (c.inTx && !spawn) {
      DiscardKeeps(s, t, c, PermitReturn);
    } else if c.inTx {
      MoveKeeps(s, t, Background(c));
    } else {
      MoveKeeps(s, t, Handing(c));
    }
  }

  lemma ReturnedKeeps(s: State, t: nat)
    requires Inv(s) && t in s.places && s.places[t].Handing?
    ensures Inv(Returned(s, t, s.places[t].conn))
  {
    var c, n := s.places[t].conn, Stale(s, s.waiters);
    hide Inv;
    if s.closed || !c.valid {
      DiscardKeeps(s, t, c, PermitReturn);
    } else if n < |s.waiters| {
      HandKeeps(s, t, s.waiters[n], OfferedConn(c), s.waiters[n + 1..]);
    } else {
      MoveKeeps(s, t, Parking(c));
      WaitersKeep(Put(s, t, Parking(c)), []);
    }
  }

  lemma PassedKeeps(s: State, t: nat)
    requires Inv(s) && t in s.places && s.places[t].PermitReturn?
    ensures Inv(Passed(s, t))
  {
    var n := Stale(s, s.waiters);
    if n < |s.waiters| {
      HandKeeps(s, t, s.waiters[n], OfferedPermit, s.waiters[n + 1..]);
    } else {
      LeaveKeeps(s, t);
      WaitersKeep(Finish(s, t).(permits := s.permits + 1), []);
    }
  }

  lemma ProbedKeeps(s: State, t: nat, now: nat, probe: Probe)
    requires Inv(s) && Enabled(s, Probed(t, now, probe))
    ensures Inv(Apply(s, Probed(t, now, probe)))
  {
    var e := s.places[t].entry;
    var c := Inspect(s.cfg, e, now, probe);
    if c.Some? {
      MoveKeeps(s, t, Leased(c.value, false));
    } else {
      DiscardKeeps(s, t, e.conn, Obtaining);
    }
  }

  lemma AcquireKeeps(s: State, t: nat)
    requires Inv(s) && t !in s.tasks
    ensures Inv(Apply(s, Acquire(t)))
  {
    StartKeeps(s, t, Entering);
  }

  lemma RegisterKeeps(s: State, t: nat)
    requires Inv(s) && t in s.places && s.places[t].Contending?
    ensures Inv(Apply(s, Register(t)))
  {
    if s.permits > 0 {
      TakeKeeps(s, t, Obtaining);
    } else {
      MoveKeeps(s, t, Waiting);
      WaitersKeep(Put(s, t, Waiting), s.waiters + [t]);
    }
  }

  lemma PopKeeps(s: State, t: nat)
    requires Inv(s) && t in s.places && s.places[t].Obtaining?
    ensures Inv(Apply(s, Pop(t)))
  {
    hide Inv;
    if s.closed {
      LeaveKeeps(s, t);
    } else if s.idle == [] {
      MoveKeeps(s, t, Creating);
    } else {
      UnparkKeeps(s, t, Checking(s.idle[0]));
    }
  }

  lemma EvictKeeps(s: State, now: nat)
    requires Inv(s)
    ensures Inv(Apply(s, Evict(now)))
  {
    hide Inv, Split, Retained, Evicted, Ids, Apart;
    IdleApart(s);
    SweepSplits(s.cfg, s.idle, now);
    SweepKeeps(s, Retained(s.cfg, s.idle, now), Evicted(s.cfg, s.idle, now));
  }

  lemma IdleApart(s: State)
    requires Inv(s)
    ensures Apart(s.idle)
  {
  }

  lemma SweepSplits(cfg: Config, q: seq<Entry>, now: nat)
    requires Apart(q)
    ensures Split(q, Retained(cfg, q, now), Evicted(cfg, q, now))
  {
    SweepParts(cfg, q, now);
    SweepApart(cfg, q, now);
  }

  lemma WarmNextKeeps(s: State, t: nat, left: nat)
    requires Inv(s) && t !in s.tasks
    ensures Inv(WarmNext(s, t, left))
  {
    StartKeeps(s, t, Warming(left));
    assert s.places - {t} == s.places;
  }

  lemma TaskListed(s: State, t: nat)
    requires Inv(s) && t in s.places
    ensures t in s.tasks
  {
  }

  lemma WarmPushKeeps(s: State, t: nat, now: nat)
    requires Inv(s) && t in s.places && s.places[t].Warmed?
    ensures Inv(Apply(s, WarmPush(t, now)))
  {
    hide Inv;
    var p := s.places[t];
    var left := if p.left > 0 then p.left - 1 else 0;
    TaskListed(s, t);
    assert s.tasks + {t} == s.tasks;
    if left == 0 || s.closed {
      LastParkKeeps(s, t, now);
    } else {
      ParkKeeps(s, t, Warming(left), now);
    }
  }

  lemma FadeKeeps(s: State, i: nat)
    requires Inv(s) && i < |s.idle|
    ensures Inv(Apply(s, Fade(i)))
  {
  }

  /** Steps that only move a task, take a permit or give one back. */
  lemma MovesKeep(s: State, st: Step)
    requires Inv(s) && Enabled(s, st)
    requires st.TryFast? || st.Leave? || st.Receive? || st.CreateFailed? || st.Use? || st.Release? || st.ConnClosed?
      || st.WarmStop?
    ensures Inv(Apply(s, st))
  {
    hide Inv;
    match st
    case TryFast(t) => if s.permits > 0 { TakeKeeps(s, t, Obtaining); } else { MoveKeeps(s, t, Contending); }
    case Leave(t) => LeaveKeeps(s, t);
    case Receive(t) =>
      if s.places[t].OfferedConn? {
        MoveKeeps(s, t, Leased(s.places[t].conn, false));
      } else {
        MoveKeeps(s, t, Obtaining);
      }
    case CreateFailed(t) => MoveKeeps(s, t, PermitReturn);
    case Use(t, c, broken) => MoveKeeps(s, t, Leased(c, broken));
    case Release(t) => LeaveKeeps(s, t);
    case ConnClosed(t) => MoveKeeps(s, t, PermitReturn);
    case WarmStop(t) => LeaveKeeps(s, t);
  }

  lemma RolledBackKeeps(s: State, t: nat, ok: bool, c: Conn)
    requires Inv(s) && Enabled(s, RolledBack(t, ok, c))
    ensures Inv(Apply(s, RolledBack(t, ok, c)))
  {
    hide Inv;
    if ok && c.valid && !s.closed { MoveKeeps(s, t, Handing(c)); } else { DiscardKeeps(s, t, c, Closing); }
  }

  lemma OfferKeeps(s: State, t: nat, spawn: bool)
    requires Inv(s) && Enabled(s, DropOffer(t, spawn))
    ensures Inv(Apply(s, DropOffer(t, spawn)))
  {
    hide Inv;
    if s.places[t].OfferedConn? { DroppedKeeps(s, t, s.places[t].conn, false, spawn); } else { LeaveKeeps(s, t); }
  }

  /** No step creates or loses a permit, or counts or discards a connection twice. */
  lemma StepKeeps(s: State, st: Step)
    requires Inv(s) && Enabled(s, st)
    ensures Inv(Apply(s, st))
  {
    hide Inv, Dropped, Returned, Passed, Inspect, WarmNext, Retained, Evicted, Ids;
    match st
    case Acquire(t) => AcquireKeeps(s, t);
    case Register(t) => RegisterKeeps(s, t);
    case DropOffer(t, spawn) => OfferKeeps(s, t, spawn);
    case Pop(t) => PopKeeps(s, t);
    case Probed(t, now, probe) => ProbedKeeps(s, t, now, probe);
    case Created(t, c) => CountKeeps(s, t, c, Leased(c, false));
    case DropLease(t, spawn) => DroppedKeeps(s, t, s.places[t].conn, s.places[t].broken, spawn);
    case Return(t) => ReturnedKeeps(s, t);
    case Park(t, now) => ParkKeeps(s, t, Releasing, now);
    case PassPermit(t) => PassedKeeps(s, t);
    case RolledBack(t, ok, c) => RolledBackKeeps(s, t, ok, c);
    case Evict(now) => EvictKeeps(s, now);
    case CloseFlag => CloseKeeps(s);
    case CloseWaiters => CloseKeeps(s);
    case CloseIdle => CloseKeeps(s);
    case WarmStart(t) => WarmNextKeeps(s, t, WarmTarget(s.cfg));
    case WarmCreated(t, c) => CountKeeps(s, t, c, Warmed(s.places[t].left, c));
    case WarmPush(t, now) => WarmPushKeeps(s, t, now);
    case Fade(i) => FadeKeeps(s, i);
    case _ => MovesKeep(s, st);
  }

  lemma CloseKeeps(s: State)
    requires Inv(s)
    ensures Inv(s.(closed := true)) && Inv(s.(waiters := []))
    ensures Inv(s.(idle := [], total := s.total - |s.idle|, dead := s.dead + Ids(s.idle)))
  {
    FlagKeeps(s);
    hide Inv, Apart, Ids;
    WaitersKeep(s, []);
    IdleApart(s);
    assert Split(s.idle, [], s.idle) by { AllGone(s.idle); }
    SweepKeeps(s, [], s.idle);
  }

  lemma FlagKeeps(s: State)
    requires Inv(s)
    ensures Inv(s.(closed := true))
  {
  }

  lemma AllGone(q: seq<Entry>)
    requires Apart(q)
    ensures Split(q, [], q)
  {
  }

  // ---------- Runs ----------

  /** The states of a run: each step is possible where it is taken. */
  ghost predicate Run(cfg: Config, ss: seq<State>, steps: seq<Step>) {
    && |ss| == |steps| + 1 && ss[0] == Init(cfg)
    && forall i :: 0 <= i < |steps| ==> Enabled(ss[i], steps[i]) && ss[i + 1] == Apply(ss[i], steps[i])
  }

  /**
   Conservation in every interleaving: free and held permits make up the capacity, the counter
   is the number of idle and held connections, never negative, and no connection is in two places.
   */
  lemma {:induction false} RunKeeps(cfg: Config, ss: seq<State>, steps: seq<Step>, k: nat)
    requires Run(cfg, ss, steps) && k < |ss|
    ensures Inv(ss[k]) && ss[k].cfg == cfg
    decreases k
  {
    if k == 0 {
      InitInv(cfg);
    } else {
      RunKeeps(cfg, ss, steps, k - 1);
      StepKeeps(ss[k - 1], steps[k - 1]);
      ConfigKept(ss[k - 1], steps[k - 1]);
      hide Inv, Apply, Enabled;
      assert ss[k - 1 + 1] == Apply(ss[k - 1], steps[k - 1]);
    }
  }

  lemma ConfigKept(s: State, st: Step)
    requires Enabled(s, st)
    ensures Apply(s, st).cfg == s.cfg
  {
  }

  /** A connection dies once: what a step discards was alive before it. */
  lemma DiscardOnce(s: State, st: Step)
    requires Inv(s) && Enabled(s, st)
    ensures s.dead <= Apply(s, st).dead && s.born <= Apply(s, st).born
    ensures forall x :: x in Apply(s, st).dead && x !in s.dead ==> Live(s, x)
  {
    forall e | e in s.idle ensures Live(s, e.conn.id) {
      var i :| 0 <= i < |s.idle| && s.idle[i] == e;
    }
    assert forall t :: t in s.places && Held(s.places[t]).Some? ==> Live(s, Held(s.places[t]).value.id);
    hide Inv;
    if st.Evict? {
      SweepParts(s.cfg, s.idle, st.now);
      hide Retained, Evicted;
    } else if !st.CloseIdle? {
      OneDies(s, st);
    }
  }

  /** Apart from the sweeps, a step discards at most the connection its task holds. */
  lemma OneDies(s: State, st: Step)
    requires Enabled(s, st) && !st.Evict? && !st.CloseIdle?
    ensures s.born <= Apply(s, st).born
    ensures Apply(s, st).dead == s.dead
      || exists t ::
           t in s.places && Held(s.places[t]).Some? && Apply(s, st).dead == s.dead + {Held(s.places[t]).value.id}
  {
    hide Inspect, Stale;
    var dead := Apply(s, st).dead;
    match st
    case Probed(t, _, _) => assert t in s.places && Held(s.places[t]).Some?;
    case DropOffer(t, _) => assert t in s.places;
    case DropLease(t, _) => assert t in s.places && Held(s.places[t]).Some?;
    case Return(t) => assert t in s.places && Held(s.places[t]).Some?;
    case RolledBack(t, _, _) => assert t in s.places && Held(s.places[t]).Some?;
    case _ =>
  }

  // ---------- Clean handout ----------

  /** The factory yields valid connections outside a transaction; a successful reset ends one. */
  predicate Sound(st: Step) {
    match st
    case Probed(_, _, p) => p.resetOk ==> !p.reset.inTx
    case RolledBack(_, ok, c) => ok ==> !c.inTx
    case Created(_, c) => c.valid && !c.inTx
    case WarmCreated(_, c) => c.valid && !c.inTx
    case _ => true
  }

  /** Connections on their way back carry no transaction. */
  ghost predicate Tidy(s: State) {
    forall t :: t in s.places ==> TidyPlace(s.places[t])
  }

  predicate TidyPlace(p: Place) {
    match p
    case Handing(c) => !c.inTx
    case Parking(c) => !c.inTx
    case _ => true
  }

  /** The connection a step delivers: by checkout, by the factory, or directly to a waiter. */
  function Delivered(s: State, st: Step): Option<Conn>
    requires Enabled(s, st)
  {
    match st
    case Probed(t, now, p) => Inspect(s.cfg, s.places[t].entry, now, p)
    case Created(_, c) => Some(c)
    case Return(t) =>
      if s.closed || !s.places[t].conn.valid || Stale(s, s.waiters) == |s.waiters| then None else Some(s.places[t].conn)
    case _ => None
  }

  lemma StepTidy(s: State, st: Step)
    requires Tidy(s) && Enabled(s, st) && Sound(st)
    ensures Tidy(Apply(s, st))
  {
    match st
    case DropOffer(t, spawn) => if s.places[t].OfferedConn? { TidyDropped(s, t, s.places[t].conn, false, spawn); }
    case DropLease(t, spawn) => TidyDropped(s, t, s.places[t].conn, s.places[t].broken, spawn);
    case Return(t) => TidyReturned(s, t);
    case PassPermit(t) => TidyPassed(s, t);
    case WarmStart(t) => TidyWarm(s, t, WarmTarget(s.cfg));
    case WarmPush(t, now) =>
      var p := s.places[t];
      TidyWarm(s.(idle := s.idle + [Entry(p.conn, now)]), t, if p.left > 0 then p.left - 1 else 0);
    case _ => TidyRest(s, st);
  }

  lemma TidyDropped(s: State, t: nat, c: Conn, broken: bool, spawn: bool)
    requires Tidy(s)
    ensures Tidy(Dropped(s, t, c, broken, spawn))
  {
  }

  lemma TidyReturned(s: State, t: nat)
    requires Tidy(s) && t in s.places && s.places[t].Handing?
    ensures Tidy(Returned(s, t, s.places[t].conn))
  {
    assert TidyPlace(s.places[t]);
    hide Stale;
  }

  lemma TidyPassed(s: State, t: nat)
    requires Tidy(s)
    ensures Tidy(Passed(s, t))
  {
    hide Stale;
  }

  lemma TidyWarm(s: State, t: nat, left: nat)
    requires Tidy(s)
    ensures Tidy(WarmNext(s, t, left))
  {
  }

  lemma TidyRest(s: State, st: Step)
    requires Tidy(s) && Enabled(s, st) && Sound(st)
    requires !st.DropOffer? && !st.DropLease? && !st.Return? && !st.PassPermit? && !st.WarmStart? && !st.WarmPush?
    ensures Tidy(Apply(s, st))
  {
    hide Inspect, Retained, Evicted, Dropped, Returned, Passed, WarmNext, Ids;
  }

  lemma StepDelivers(s: State, st: Step)
    requires Tidy(s) && Enabled(s, st) && Sound(st)
    ensures Delivered(s, st).Some? ==> Delivered(s, st).value.valid && !Delivered(s, st).value.inTx
  {
  }

  predicate DeliveredTo(s: State, st: Step, t: nat)
    requires Enabled(s, st)
  {
    var b := Apply(s, st);
    && t in b.places && Held(b.places[t]) == Delivered(s, st)
    && match st
       case Return(_) => Awaits(s, t)
       case Probed(u, _, _) => t == u
       case Created(u, _) => t == u
       case _ => false
  }

  /** What is delivered is where it should be: with the task that checked out, or offered to a live waiter. */
  lemma DeliveredWhere(s: State, st: Step)
    requires Known(s) && Enabled(s, st) && Delivered(s, st).Some?
    ensures exists t :: DeliveredTo(s, st, t)
  {
    var t := match st
      case Return(_) => s.waiters[Stale(s, s.waiters)]
      case Probed(u, _, _) => u
      case Created(u, _) => u
      case _ => 0;
    assert DeliveredTo(s, st, t);
  }

  /** In every run whose environment is sound, whatever is delivered is valid and outside a transaction. */
  lemma {:induction false} RunDelivers(cfg: Config, ss: seq<State>, steps: seq<Step>, k: nat)
    requires Run(cfg, ss, steps) && (forall i :: 0 <= i < |steps| ==> Sound(steps[i])) && k < |ss|
    ensures Tidy(ss[k])
    ensures k < |steps| && Delivered(ss[k], steps[k]).Some? ==>
      Delivered(ss[k], steps[k]).value.valid && !Delivered(ss[k], steps[k]).value.inTx
    decreases k
  {
    if k > 0 {
      RunDelivers(cfg, ss, steps, k - 1);
      StepTidy(ss[k - 1], steps[k - 1]);
      assert ss[k - 1 + 1] == Apply(ss[k - 1], steps[k - 1]);
    }
    if k < |steps| { StepDelivers(ss[k], steps[k]); }
  }

  // ---------- The bound on connections ----------

  predicate IsWarm(p: Place) {
    p.Warming? || p.Warmed?
  }

  /** A connection held or being created. */
  predicate Occupies(p: Place) {
    Held(p).Some? || p.Creating? || p.Warming?
  }

  function Occupied(ps: map<nat, Place>): set<nat> {
    set t | t in ps && Occupies(ps[t])
  }

  /** Idle, held and being created. */
  function Load(s: State): nat {
    |s.idle| + |Occupied(s.places)|
  }

  /** Warm-up starts once, before any acquire, and no acquire starts while it runs. */
  predicate Orderly(s: State, st: Step) {
    match st
    case WarmStart(_) => s.tasks == {}
    case Acquire(_) => forall t :: t in s.places ==> !IsWarm(s.places[t])
    case _ => true
  }

  /** Connections warm-up has made or will make. */
  function Planned(s: State, t: nat): nat
    requires t in s.places
  {
    match s.places[t]
    case Warming(n) => |s.idle| + n
    case Warmed(n, _) => |s.idle| + n
    case _ => |s.idle|
  }

  /** No warm-up under way, and the load within the capacity. */
  ghost predicate Quiet(s: State) {
    && (forall t :: t in s.places ==> !IsWarm(s.places[t])) && Load(s) <= Capacity(s.cfg)
    && (s.tasks == {} ==> s.idle == [])
  }

  /** Warm-up is the only task so far. */
  ghost predicate WarmingUp(s: State) {
    exists t :: WarmingAt(s, t)
  }

  ghost predicate WarmingAt(s: State, t: nat) {
    && s.tasks == {t} && s.places.Keys == {t} && IsWarm(s.places[t]) && s.places[t].left > 0
    && Planned(s, t) <= WarmTarget(s.cfg)
  }

  lemma OccupiedPut(ps: map<nat, Place>, t: nat, p: Place)
    ensures |Occupied(ps[t := p])| ==
      |Occupied(ps)| - (if t in ps && Occupies(ps[t]) then 1 else 0) + (if Occupies(p) then 1 else 0)
  {
    var a, b := Occupied(ps), Occupied(ps[t := p]);
    hide Occupies;
    SizeWithout(a, t);
    SizeWithout(b, t);
    assert a - {t} == b - {t};
    assert t in a <==> t in ps && Occupies(ps[t]);
    assert t in b <==> Occupies(p);
  }

  lemma OccupiedDrop(ps: map<nat, Place>, t: nat)
    ensures |Occupied(ps - {t})| == |Occupied(ps)| - (if t in ps && Occupies(ps[t]) then 1 else 0)
  {
    var a, b := Occupied(ps), Occupied(ps - {t});
    SizeWithout(a, t);
    assert a - {t} == b;
  }

  lemma Subset(a: set<nat>, b: set<nat>)
    requires a <= b
    ensures |a| <= |b|
    decreases a
  {
    if a != {} {
      var x :| x in a;
      Subset(a - {x}, b - {x});
    }
  }

  /** Outside warm-up, what is held or being created is covered by permits. */
  lemma CoveredByPermits(s: State, t: nat)
    requires Inv(s) && (forall u :: u in s.places ==> !IsWarm(s.places[u]))
    requires t in s.places && HasPermit(s.places[t]) && !Occupies(s.places[t])
    ensures |Occupied(s.places)| < Capacity(s.cfg)
  {
    var a, b := Occupied(s.places), Holders(s.places);
    assert a + {t} <= b;
    Subset(a + {t}, b);
  }

  lemma WarmFixed(s: State, t: nat)
    requires s.places.Keys == {t}
    ensures Occupied(s.places) == if Occupies(s.places[t]) then {t} else {}
  {
  }

  /** During warm-up the load is what has been made and the one being made. */
  lemma WarmLoad(s: State)
    requires WarmingUp(s)
    ensures Load(s) <= Capacity(s.cfg)
  {
    var t :| WarmingAt(s, t);
    WarmFixed(s, t);
  }

  lemma QuietMove(s: State, t: nat, p: Place)
    requires Quiet(s) && t in s.places && !IsWarm(p) && (Occupies(p) ==> Occupies(s.places[t]))
    ensures Quiet(Put(s, t, p))
  {
    OccupiedPut(s.places, t, p);
  }

  lemma QuietFinish(s: State, t: nat)
    requires Quiet(s)
    ensures Quiet(Finish(s, t))
  {
    OccupiedDrop(s.places, t);
  }

  lemma QuietHand(s: State, t: nat, u: nat, p: Place)
    requires Quiet(s) && t in s.places && Awaits(s, u) && !IsWarm(p) && (Occupies(p) ==> Occupies(s.places[t]))
    ensures Quiet(Put(Finish(s, t), u, p))
  {
    OccupiedDrop(s.places, t);
    OccupiedPut(s.places - {t}, u, p);
  }

  lemma QuietPop(s: State, t: nat)
    requires Quiet(s) && Inv(s) && t in s.places && s.places[t].Obtaining?
    ensures Quiet(Apply(s, Pop(t)))
  {
    QuietFinish(s, t);
    if s.idle == [] {
      CoveredByPermits(s, t);
      OccupiedPut(s.places, t, Creating);
    } else {
      OccupiedPut(s.places, t, Checking(s.idle[0]));
    }
  }

  lemma QuietPark(s: State, t: nat, now: nat)
    requires Quiet(s) && t in s.places && s.places[t].Parking?
    ensures Quiet(Apply(s, Park(t, now)))
  {
    OccupiedPut(s.places, t, Releasing);
  }

  lemma QuietReturned(s: State, t: nat)
    requires Quiet(s) && t in s.places && s.places[t].Handing?
    ensures Quiet(Returned(s, t, s.places[t].conn))
  {
    var c, n := s.places[t].conn, Stale(s, s.waiters);
    QuietMove(s, t, PermitReturn);
    if n < |s.waiters| { QuietHand(s, t, s.waiters[n], OfferedConn(c)); } else { QuietMove(s, t, Parking(c)); }
  }

  lemma QuietPassed(s: State, t: nat)
    requires Quiet(s) && t in s.places && s.places[t].PermitReturn?
    ensures Quiet(Passed(s, t))
  {
    var n := Stale(s, s.waiters);
    if n < |s.waiters| { QuietHand(s, t, s.waiters[n], OfferedPermit); } else { QuietFinish(s, t); }
  }

  lemma QuietDropped(s: State, t: nat, c: Conn, broken: bool, spawn: bool)
    requires Quiet(s) && t in s.places && Held(s.places[t]) == Some(c)
    ensures Quiet(Dropped(s, t, c, broken, spawn))
  {
    QuietMove(s, t, PermitReturn);
    QuietMove(s, t, Background(c));
    QuietMove(s, t, Handing(c));
  }

  lemma QuietStart(s: State, t: nat)
    requires Quiet(s) && Known(s) && t !in s.tasks
    ensures Quiet(Apply(s, Acquire(t)))
  {
    OccupiedPut(s.places, t, Entering);
    assert s.tasks + {t} != {} by { assert t in s.tasks + {t}; }
  }

  lemma QuietWarmStart(s: State, t: nat)
    requires Quiet(s) && Known(s) && s.tasks == {}
    ensures Quiet(Apply(s, WarmStart(t))) || WarmingUp(Apply(s, WarmStart(t)))
  {
    var b := Apply(s, WarmStart(t));
    assert s.places == map[];
    if WarmTarget(s.cfg) == 0 || s.closed {
      assert b.places == map[] && Occupied(b.places) == {};
    } else {
      assert WarmingAt(b, t);
    }
  }

  lemma QuietSweep(s: State, now: nat)
    requires Quiet(s)
    ensures Quiet(Apply(s, Evict(now)))
  {
    SweepParts(s.cfg, s.idle, now);
  }

  lemma QuietSame(a: State, b: State)
    requires Quiet(a) && b.idle == a.idle && b.places == a.places && b.cfg == a.cfg && b.tasks == a.tasks
    ensures Quiet(b)
  {
  }

  lemma QuietProbed(s: State, t: nat, now: nat, probe: Probe)
    requires Quiet(s) && Enabled(s, Probed(t, now, probe))
    ensures Quiet(Apply(s, Probed(t, now, probe)))
  {
    var c := Inspect(s.cfg, s.places[t].entry, now, probe);
    if c.Some? {
      QuietMove(s, t, Leased(c.value, false));
    } else {
      QuietMove(s, t, Obtaining);
      QuietSame(Put(s, t, Obtaining), Apply(s, Probed(t, now, probe)));
    }
  }

  lemma QuietRolledBack(s: State, t: nat, ok: bool, c: Conn)
    requires Quiet(s) && Enabled(s, RolledBack(t, ok, c))
    ensures Quiet(Apply(s, RolledBack(t, ok, c)))
  {
    QuietMove(s, t, Handing(c));
    QuietMove(s, t, Closing);
    if !(ok && c.valid && !s.closed) { QuietSame(Put(s, t, Closing), Apply(s, RolledBack(t, ok, c))); }
  }

  /** Moves within the checkout: a place that occupies nothing new, or a permit taken or given back. */
  lemma QuietCheckout(s: State, st: Step)
    requires Quiet(s) && Enabled(s, st)
    requires st.TryFast? || st.Register? || st.Leave? || st.Receive? || st.Created? || st.CreateFailed? || st.Use?
      || st.Release? || st.ConnClosed?
    ensures Quiet(Apply(s, st))
  {
    var t, b := st.t, Apply(s, st);
    if t in b.places {
      QuietMove(s, t, b.places[t]);
      QuietSame(Put(s, t, b.places[t]), b);
    } else {
      QuietFinish(s, t);
      QuietSame(Finish(s, t), b);
    }
  }

  lemma QuietOffer(s: State, t: nat, spawn: bool)
    requires Quiet(s) && Enabled(s, DropOffer(t, spawn))
    ensures Quiet(Apply(s, DropOffer(t, spawn)))
  {
    if s.places[t].OfferedConn? {
      QuietDropped(s, t, s.places[t].conn, false, spawn);
    } else {
      QuietFinish(s, t);
    }
  }

  lemma QuietRest(s: State, st: Step)
    requires Quiet(s) && (st.CloseFlag? || st.CloseWaiters? || st.CloseIdle? || (st.Fade? && Enabled(s, st)))
    ensures Quiet(Apply(s, st))
  {
  }

  lemma QuietStep(s: State, st: Step)
    requires Quiet(s) && Inv(s) && Enabled(s, st) && Orderly(s, st)
    ensures Quiet(Apply(s, st)) || WarmingUp(Apply(s, st))
  {
    assert forall t :: t in s.places ==> !IsWarm(s.places[t]);
    assert Known(s);
    hide Quiet, Inv, Known, WarmingUp;
    match st
    case Acquire(t) => QuietStart(s, t);
    case DropOffer(t, spawn) => QuietOffer(s, t, spawn);
    case Pop(t) => QuietPop(s, t);
    case Probed(t, now, probe) => QuietProbed(s, t, now, probe);
    case DropLease(t, spawn) => QuietDropped(s, t, s.places[t].conn, s.places[t].broken, spawn);
    case Return(t) => QuietReturned(s, t);
    case Park(t, now) => QuietPark(s, t, now);
    case PassPermit(t) => QuietPassed(s, t);
    case RolledBack(t, ok, c) => QuietRolledBack(s, t, ok, c);
    case Evict(now) => QuietSweep(s, now);
    case WarmStart(t) => QuietWarmStart(s, t);
    case WarmCreated(t, _) =>
    case WarmPush(t, _) =>
    case WarmStop(t) =>
    case CloseFlag => QuietRest(s, st);
    case CloseWaiters => QuietRest(s, st);
    case CloseIdle => QuietRest(s, st);
    case Fade(_) => QuietRest(s, st);
    case _ => QuietCheckout(s, st);
  }

  lemma WarmOver(s: State, b: State, t: nat)
    requires b.places.Keys == {} && b.cfg == s.cfg && |b.idle| <= WarmTarget(s.cfg) && t in b.tasks
    ensures Quiet(b)
  {
    assert Occupied(b.places) == {};
    assert b.tasks != {};
  }

  lemma WarmStep(s: State, st: Step, t: nat)
    requires WarmingAt(s, t) && Enabled(s, st) && Orderly(s, st)
    ensures Quiet(Apply(s, st)) || WarmingUp(Apply(s, st))
  {
    var b := Apply(s, st);
    match st
    case WarmCreated(u, c) => assert WarmingAt(b, t);
    case WarmPush(u, now) =>
      if s.places[t].left == 1 || s.closed { WarmOver(s, b, t); } else { assert WarmingAt(b, t); }
    case WarmStop(u) => WarmOver(s, b, t);
    case Evict(now) =>
      SweepParts(s.cfg, s.idle, now);
      assert WarmingAt(b, t);
    case CloseFlag => assert WarmingAt(b, t);
    case CloseWaiters => assert WarmingAt(b, t);
    case CloseIdle => assert WarmingAt(b, t);
    case Fade(i) => assert WarmingAt(b, t);
    case _ =>
  }

  lemma InitQuiet(cfg: Config)
    ensures Quiet(Init(cfg))
  {
    assert Occupied(map[]) == {};
  }

  /**
   If warm-up runs at most once and before the first acquire, idle, held and being-created
   connections together never exceed the capacity.
   */
  lemma {:induction false} RunBounded(cfg: Config, ss: seq<State>, steps: seq<Step>, k: nat)
    requires Run(cfg, ss, steps) && (forall i :: 0 <= i < |steps| ==> Orderly(ss[i], steps[i])) && k < |ss|
    ensures Quiet(ss[k]) || WarmingUp(ss[k])
    ensures Load(ss[k]) <= Capacity(cfg)
    decreases k
  {
    RunKeeps(cfg, ss, steps, k);
    if k == 0 {
      InitQuiet(cfg);
    } else {
      RunBounded(cfg, ss, steps, k - 1);
      RunKeeps(cfg, ss, steps, k - 1);
      var s, st := ss[k - 1], steps[k - 1];
      assert ss[k - 1 + 1] == Apply(s, st) && Orderly(s, st) && Enabled(s, st);
      hide Run, Apply, Enabled, Inv, Quiet, Orderly;
      if Quiet(s) {
        QuietStep(s, st);
      } else {
        var t :| WarmingAt(s, t);
        WarmStep(s, st, t);
      }
    }
    hide Run, Apply, Enabled, Inv;
    if WarmingUp(ss[k]) { WarmLoad(ss[k]); }
  }

  // ---------- Exactly when the bound can be relied on ----------

  ghost predicate Reachable(cfg: Config, s: State) {
    exists ss, steps :: Run(cfg, ss, steps) && ss[|steps|] == s
  }

  lemma ReachInit(cfg: Config)
    ensures Reachable(cfg, Init(cfg))
  {
    var ss, steps: seq<Step> := [Init(cfg)], [];
    assert Run(cfg, ss, steps) && ss[|steps|] == Init(cfg);
  }

  lemma ReachStep(cfg: Config, s: State, st: Step)
    requires Reachable(cfg, s) && Enabled(s, st)
    ensures Reachable(cfg, Apply(s, st))
  {
    var ss, steps :| Run(cfg, ss, steps) && ss[|steps|] == s;
    hide Enabled, Apply;
    var ss', steps' := ss + [Apply(s, st)], steps + [st];
    assert Run(cfg, ss', steps') && ss'[|steps'|] == Apply(s, st);
  }

  /** A pool that has lent `n` connections to the tasks below `n`, without warm-up. */
  ghost predicate Lent(cfg: Config, s: State, n: nat) {
    && s.cfg == cfg && !s.closed && s.idle == [] && s.permits + n == Capacity(cfg) && |Occupied(s.places)| == n
    && (forall t :: t in s.tasks ==> t < n) && (forall t :: t in s.places ==> t < n)
    && s.waiters == [] && (forall x :: x in s.born ==> x < n)
    && forall t: nat :: t < n ==> t in s.places && s.places[t] == Leased(Conn(t, 0, true, false), false)
  }

  /** One more lease: a permit, an empty idle queue, a new connection. */
  lemma LendOne(cfg: Config, s: State, n: nat) returns (d: State)
    requires Reachable(cfg, s) && Lent(cfg, s, n) && n < Capacity(cfg)
    ensures Reachable(cfg, d) && Lent(cfg, d, n + 1)
  {
    assert s.permits > 0 && !s.closed && s.idle == [] && n !in s.tasks && n !in s.born;
    hide Reachable, Lent;
    d := LeaseNew(cfg, s, n);
    LentOn(cfg, s, n, d);
  }

  lemma LeaseNew(cfg: Config, s: State, n: nat) returns (d: State)
    requires Reachable(cfg, s) && s.permits > 0 && !s.closed && s.idle == [] && n !in s.tasks && n !in s.born
    ensures Reachable(cfg, d) && d.places == s.places[n := Leased(Conn(n, 0, true, false), false)]
    ensures d.cfg == s.cfg && !d.closed && d.idle == [] && d.permits + 1 == s.permits && d.waiters == s.waiters
    ensures d.tasks == s.tasks + {n} && d.born == s.born + {n}
  {
    hide Reachable;
    var a := Apply(s, Acquire(n));
    var b := Apply(a, TryFast(n));
    var c := Apply(b, Pop(n));
    d := Apply(c, Created(n, Conn(n, 0, true, false)));
    ReachStep(cfg, s, Acquire(n));
    ReachStep(cfg, a, TryFast(n));
    ReachStep(cfg, b, Pop(n));
    ReachStep(cfg, c, Created(n, Conn(n, 0, true, false)));
  }

  lemma LentOn(cfg: Config, s: State, n: nat, d: State)
    requires Lent(cfg, s, n)
    requires d.places == s.places[n := Leased(Conn(n, 0, true, false), false)]
    requires d.cfg == s.cfg && !d.closed && d.idle == [] && d.permits + 1 == s.permits && d.waiters == s.waiters
    requires d.tasks == s.tasks + {n} && d.born == s.born + {n}
    ensures Lent(cfg, d, n + 1)
  {
    OccupiedPut(s.places, n, Leased(Conn(n, 0, true, false), false));
  }

  lemma {:induction false} LendMany(cfg: Config, n: nat) returns (s: State)
    requires n <= Capacity(cfg)
    ensures Reachable(cfg, s) && Lent(cfg, s, n)
    decreases n
  {
    if n == 0 {
      ReachInit(cfg);
      s := Init(cfg);
      assert Occupied(map[]) == {};
    } else {
      s := LendMany(cfg, n - 1);
      s := LendOne(cfg, s, n - 1);
    }
  }

  /** A single warm-up over a pool that is fully lent breaks the bound, in every configuration that warms up at all. */
  lemma LateWarmUpOverfills(cfg: Config)
    requires WarmTarget(cfg) > 0
    ensures exists s :: Reachable(cfg, s) && Load(s) > Capacity(cfg)
  {
    var n := Capacity(cfg);
    var s := LendMany(cfg, n);
    hide Reachable;
    OccupiedPut(s.places, n, Warming(WarmTarget(cfg)));
    ReachStep(cfg, s, WarmStart(n));
    assert Load(Apply(s, WarmStart(n))) == n + 1;
  }

  /** Without warm-up every step is orderly but its start, which then changes nothing of note. */
  lemma ColdStep(s: State, st: Step)
    requires Quiet(s) && Inv(s) && Enabled(s, st) && WarmTarget(s.cfg) == 0
    ensures Quiet(Apply(s, st))
  {
    var b := Apply(s, st);
    if st.WarmStart? {
      QuietFinish(s, st.t);
      assert s.tasks + {st.t} != {} by { assert st.t in s.tasks + {st.t}; }
    } else {
      QuietStep(s, st);
      ConfigKept(s, st);
      hide Quiet, Apply, Inv;
      NeverWarming(b);
    }
  }

  lemma NeverWarming(s: State)
    requires WarmTarget(s.cfg) == 0
    ensures !WarmingUp(s)
  {
  }

  lemma {:induction false} ColdRun(cfg: Config, ss: seq<State>, steps: seq<Step>, k: nat)
    requires Run(cfg, ss, steps) && k < |ss| && WarmTarget(cfg) == 0
    ensures Quiet(ss[k]) && ss[k].cfg == cfg
    decreases k
  {
    RunKeeps(cfg, ss, steps, k);
    if k == 0 {
      InitQuiet(cfg);
    } else {
      ColdRun(cfg, ss, steps, k - 1);
      RunKeeps(cfg, ss, steps, k - 1);
      assert ss[k - 1 + 1] == Apply(ss[k - 1], steps[k - 1]);
      hide Quiet, Inv, Apply, Enabled;
      ColdStep(ss[k - 1], steps[k - 1]);
    }
  }

  /** Every reachable state respects the maximum if and only if the configuration asks for no warm-up. */
  lemma BoundedIff(cfg: Config)
    ensures (forall s :: Reachable(cfg, s) ==> Load(s) <= Capacity(cfg)) <==> WarmTarget(cfg) == 0
  {
    if WarmTarget(cfg) > 0 {
      LateWarmUpOverfills(cfg);
    } else {
      forall s | Reachable(cfg, s) ensures Load(s) <= Capacity(cfg) {
        var ss, steps :| Run(cfg, ss, steps) && ss[|steps|] == s;
        ColdRun(cfg, ss, steps, |steps|);
      }
    }
  }
}
