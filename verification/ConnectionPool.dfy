/**
 The PostgreSQL connection pool: a queue of idle connections and a count of slots
 in use, both guarded by one mutex, with a condition variable for the callers that
 have to wait.  `Pool` and `PooledConnection` are the two classes; the functions on
 `Core` say what one critical section does to the guarded data; and the system at
 the end of the module interleaves any number of threads over those sections.
 */
module ConnectionPool {

  import opened Wrappers

  /** The identity of a live connection. */
  type Conn = nat

  // ---------------------------------------------------------------------------
  // What the mutex guards
  // ---------------------------------------------------------------------------

  datatype Core = Core(size: nat, queue: seq<Conn>, active: int)

  /** Outcome of passing the wait: a pooled connection, or a slot to connect into. */
  datatype Grant = Pooled(conn: Conn) | Reserved

  /** The predicate every waiter evaluates under the lock. */
  predicate CanProceed(c: Core) {
    c.queue != [] || |c.queue| + c.active < c.size
  }

  function Taken(c: Core): (Core, Grant) {
    if c.queue != []
    then (c.(queue := c.queue[1..], active := c.active + 1), Pooled(c.queue[0]))
    else (c.(active := c.active + 1), Reserved)
  }

  /** A connection comes back: an open one to the back of the queue, a broken one is dropped. */
  function Returned(c: Core, conn: Option<Conn>): Core {
    c.(queue := if conn.Some? then c.queue + [conn.value] else c.queue, active := c.active - 1)
  }

  ghost predicate CoreOk(c: Core) {
    0 <= c.active && |c.queue| + c.active <= c.size
  }

  /** Slots nobody has taken: the value of the semaphore. */
  function Permits(c: Core): int { c.size - c.active }

  // ---------------------------------------------------------------------------
  // The classes
  // ---------------------------------------------------------------------------

  class Pool {
    const size: nat
    var queue: seq<Conn>
    var active: int

    ghost function Guarded(): Core
      reads this
    {
      Core(size, queue, active)
    }

    ghost predicate Valid()
      reads this
    {
      CoreOk(Guarded())
    }

    /** Opens `size` connections up front. */
    constructor (size: nat)
      ensures Valid() && this.size == size
      ensures Permits(Guarded()) == size && |queue| == size
      ensures forall i, j :: 0 <= i < j < size ==> queue[i] != queue[j]
    {
      this.size := size;
      this.active := 0;
      var conns: seq<Conn> := [];
      for i := 0 to size
        invariant |conns| == i
        invariant forall k :: 0 <= k < i ==> conns[k] == k
      {
        conns := conns + [i];
      }
      this.queue := conns;
    }

    /** acquire() from the predicate to the end of its critical section; None means "wait". */
    method TryAcquire() returns (g: Option<Grant>)
      requires Valid()
      modifies this
      ensures Valid()
      ensures g.Some? == old(CanProceed(Guarded())) == (old(active) < size)
      ensures g.None? ==> Guarded() == old(Guarded())
      ensures g.Some? ==> (Guarded(), g.value) == old(Taken(Guarded()))
      ensures g.Some? ==> active == old(active) + 1
      ensures g.Some? && old(queue) != [] ==> g.value.Pooled? && [g.value.conn] + queue == old(queue)
      ensures g.Some? && old(queue) == [] ==> g.value == Reserved && queue == []
    {
      if queue == [] && |queue| + active >= size {
        return None;
      }
      if queue != [] {
        var conn := queue[0];
        queue := queue[1..];
        active := active + 1;
        return Some(Pooled(conn));
      }
      active := active + 1;
      return Some(Reserved);
    }

    /** The catch block of the on-demand connect: the reserved slot is given back. */
    method ConnectFailed()
      requires Valid() && 0 < active
      modifies this
      ensures Valid() && Guarded() == old(Returned(Guarded(), None))
      ensures queue == old(queue) && active == old(active) - 1
    {
      active := active - 1;
    }

    method Release(conn: Option<Conn>, open: bool)
      requires Valid() && 0 < active
      modifies this
      ensures Valid()
      ensures Guarded() == old(Returned(Guarded(), if open then conn else None))
      ensures queue == old(queue) + if conn.Some? && open then [conn.value] else []
      ensures active == old(active) - 1
    {
      if conn.Some? && open {
        queue := queue + [conn.value];
      }
      active := active - 1;
    }
  }

  /** The RAII handle.  A moved-from handle has neither connection nor pool. */
  class PooledConnection {
    var conn: Option<Conn>
    var pool: Pool?

    constructor (p: Pool, c: Conn)
      ensures conn == Some(c) && pool == p
    {
      conn, pool := Some(c), p;
    }

    constructor Move(other: PooledConnection)
      modifies other
      ensures conn == old(other.conn) && pool == old(other.pool)
      ensures other.conn == None && other.pool == null
    {
      conn, pool := other.conn, other.pool;
      new;
      other.conn := None;
      other.pool := null;
    }

    /** Gives the connection back exactly when this handle still owns one. */
    method Destroy(open: bool)
      requires pool != null ==> pool.Valid() && 0 < pool.active
      modifies this, pool
      ensures old(pool) != null ==> conn == None
      ensures old(conn.Some? && pool != null) ==>
                old(pool).Guarded() == old(Returned(pool.Guarded(), if open then conn else None))
      ensures old(pool != null && conn.None?) ==> old(pool).Guarded() == old(pool.Guarded())
    {
      if conn.Some? && pool != null {
        pool.Release(conn, open);
        conn := None;
      }
    }
  }

  /** Moving a handle and destroying both copies returns the connection once. */
  method MovedHandleReleasesOnce(p: Pool, c: Conn, open: bool)
    requires p.Valid() && 0 < p.active
    modifies p
    ensures p.Guarded() == old(Returned(p.Guarded(), if open then Some(c) else None))
  {
    var a := new PooledConnection(p, c);
    var b := new PooledConnection.Move(a);
    b.Destroy(open);
    a.Destroy(open);
  }

  /** The manager's choice among replica pools; None stands for the primary. */
  class DatabaseManager {
    const replicas: nat
    var current: nat

    method PickReplicaPool() returns (r: Option<nat>)
      modifies this
      ensures replicas == 0 ==> r == None && current == old(current)
      ensures replicas > 0 ==> r == Some(old(current) % replicas) && current == old(current) + 1
    {
      if replicas == 0 {
        return None;
      }
      r := Some(current % replicas);
      current := current + 1;
    }
  }

  lemma {:induction false} MulGap(n: nat, a: int, b: int)
    requires a > b
    ensures n * a >= n * b + n
    decreases a - b
  {
    if a > b + 1 {
      MulGap(n, a - 1, b);
    }
  }

  /** Quotient and remainder are determined by the number they make up. */
  lemma SameRemainder(n: nat, p: int, m: nat, q: int, r: nat)
    requires m < n && r < n && n * p + m == n * q + r
    ensures p == q && m == r
  {
    if p > q { MulGap(n, p, q); }
    if q > p { MulGap(n, q, p); }
  }

  /** Round robin is fair: any n consecutive picks use each of the n replicas exactly once. */
  lemma RoundRobinIsFair(c: nat, n: nat, r: nat) returns (k: nat)
    requires r < n
    ensures c <= k < c + n && k % n == r
    ensures forall j :: c <= j < c + n && j % n == r ==> j == k
  {
    var q, m := c / n, c % n;
    assert c == n * q + m;
    var next := if r >= m then q else q + 1;
    k := if r >= m then c + (r - m) else c + (n + r - m);
    assert n * (q + 1) == n * q + n;
    assert k == n * next + r;
    assert k == n * (k / n) + k % n;
    SameRemainder(n, k / n, k % n, next, r);
    forall j | c <= j < c + n && j % n == r ensures j == k {
      assert j == n * (j / n) + r;
      if j / n > k / n { MulGap(n, j / n, k / n); }
      if k / n > j / n { MulGap(n, k / n, j / n); }
    }
  }

  // ---------------------------------------------------------------------------
  // The system: threads interleaved over the critical sections
  // ---------------------------------------------------------------------------

  /**
   Where a thread is.  `Sleeping` threads are in the condition variable's wait set;
   `Notified` ones were taken out of it by notify_one and have not run yet; `Woken`
   ones left it by a spurious wakeup or a timeout.
   */
  datatype Thread =
    | Idle
    | Sleeping
    | Notified
    | Woken
    | Connecting
    | Holding(conn: Conn)

  predicate IsSleeping(t: Thread) { t.Sleeping? }
  predicate IsNotified(t: Thread) { t.Notified? }
  predicate IsUser(t: Thread) { t.Connecting? || t.Holding? }

  /** `nextId` is above every connection identity used so far. */
  datatype System = System(core: Core, threads: seq<Thread>, nextId: nat)

  /**
   `wake` is the thread notify_one picks, when there is anybody to pick.  A thread
   may Enter while others are notified, so barging is allowed; `expired` says that
   the deadline has passed by the time a woken thread holds the lock again.
   */
  datatype Event =
    | Enter(t: nat)
    | Wake(t: nat)
    | Resume(t: nat, expired: bool)
    | Connected(t: nat)
    | ConnectFailed(t: nat, wake: nat)
    | Release(t: nat, open: bool, wake: nat)
    | Move(t: nat, to: nat)

  predicate SleeperAt(ts: seq<Thread>, i: nat) { i < |ts| && ts[i].Sleeping? }

  function NotifyOne(ts: seq<Thread>, wake: nat): seq<Thread> {
    if SleeperAt(ts, wake) then ts[wake := Notified] else ts
  }

  ghost predicate NotifyChoice(ts: seq<Thread>, wake: nat) {
    (exists i: nat :: SleeperAt(ts, i)) ==> SleeperAt(ts, wake)
  }

  /** What may happen next is decided by the threads' positions alone. */
  ghost predicate Enabled(s: System, e: Event) {
    e.t < |s.threads| &&
    match e
    case Enter(t) => s.threads[t].Idle?
    case Wake(t) => s.threads[t].Sleeping?
    case Resume(t, _) => s.threads[t].Notified? || s.threads[t].Woken?
    case Connected(t) => s.threads[t].Connecting?
    case ConnectFailed(t, wake) => s.threads[t].Connecting? && NotifyChoice(s.threads, wake)
    case Release(t, _, wake) => s.threads[t].Holding? && NotifyChoice(s.threads, wake)
    case Move(t, to) => s.threads[t].Holding? && to < |s.threads| && s.threads[to].Idle?
  }

  function Admitted(s: System, t: nat): System
    requires t < |s.threads|
  {
    var (core, grant) := Taken(s.core);
    s.(core := core, threads := s.threads[t := if grant.Pooled? then Holding(grant.conn) else Connecting])
  }

  function Step(s: System, e: Event): System
    requires Enabled(s, e)
  {
    match e
    case Enter(t) =>
      if CanProceed(s.core) then Admitted(s, t) else s.(threads := s.threads[t := Sleeping])
    case Wake(t) =>
      s.(threads := s.threads[t := Woken])
    case Resume(t, expired) =>
      if CanProceed(s.core) then Admitted(s, t)
      else s.(threads := s.threads[t := if expired then Idle else Sleeping])
    case Connected(t) =>
      s.(threads := s.threads[t := Holding(s.nextId)], nextId := s.nextId + 1)
    case ConnectFailed(t, wake) =>
      s.(core := Returned(s.core, None), threads := NotifyOne(s.threads[t := Idle], wake))
    case Release(t, open, wake) =>
      var back := if open then Some(s.threads[t].conn) else None;
      s.(core := Returned(s.core, back), threads := NotifyOne(s.threads[t := Idle], wake))
    case Move(t, to) =>
      s.(threads := s.threads[to := s.threads[t]][t := Idle])
  }

  /** A pool of `size` open connections and `n` threads that want nothing yet. */
  function Init(size: nat, n: nat): System {
    System(Core(size, seq(size, i => i), 0), seq(n, _ => Idle), size)
  }

  /** `s'` is where the interleaving `es` leads from `s`. */
  ghost predicate Leads(s: System, es: seq<Event>, s': System)
    decreases |es|
  {
    if es == [] then s' == s
    else Enabled(s, es[0]) && Leads(Step(s, es[0]), es[1..], s')
  }

  ghost predicate Reachable(size: nat, n: nat, s: System) {
    exists es :: Leads(Init(size, n), es, s)
  }

  // ---------------------------------------------------------------------------
  // The invariant
  // ---------------------------------------------------------------------------

  ghost function Count(ts: seq<Thread>, p: Thread -> bool): nat {
    if ts == [] then 0 else Count(ts[..|ts| - 1], p) + if p(ts[|ts| - 1]) then 1 else 0
  }

  lemma {:induction false} CountUpdate(ts: seq<Thread>, i: nat, x: Thread, p: Thread -> bool)
    requires i < |ts|
    ensures Count(ts[i := x], p) == Count(ts, p) - (if p(ts[i]) then 1 else 0) + (if p(x) then 1 else 0)
  {
    var n := |ts| - 1;
    if i == n {
      assert ts[i := x][..n] == ts[..n];
    } else {
      assert ts[i := x][..n] == ts[..n][i := x];
      CountUpdate(ts[..n], i, x, p);
    }
  }

  lemma {:induction false} CountNone(ts: seq<Thread>, p: Thread -> bool)
    ensures Count(ts, p) == 0 <==> forall i :: 0 <= i < |ts| ==> !p(ts[i])
  {
    if ts != [] {
      CountNone(ts[..|ts| - 1], p);
    }
  }

  /** Every live connection has one owner: a place in the queue or one holder. */
  ghost predicate SingleOwner(s: System) {
    var q, ts := s.core.queue, s.threads;
    && (forall i :: 0 <= i < |q| ==> q[i] < s.nextId)
    && (forall i, j :: 0 <= i < j < |q| ==> q[i] != q[j])
    && (forall t :: 0 <= t < |ts| && ts[t].Holding? ==> ts[t].conn < s.nextId && ts[t].conn !in q)
    && (forall t, u :: 0 <= t < u < |ts| && ts[t].Holding? && ts[u].Holding? ==> ts[t].conn != ts[u].conn)
  }

  ghost predicate NoLostWakeup(s: System) {
    Count(s.threads, IsSleeping) > 0 ==> Permits(s.core) <= Count(s.threads, IsNotified)
  }

  ghost predicate Inv(s: System) {
    && CoreOk(s.core)
    && s.core.active == Count(s.threads, IsUser)
    && SingleOwner(s)
    && NoLostWakeup(s)
  }

  /** The predicate in the code is the semaphore's "a permit is free". */
  lemma CanProceedIffPermit(c: Core)
    requires CoreOk(c)
    ensures CanProceed(c) <==> c.active < c.size
    ensures CanProceed(c) <==> Permits(c) > 0
  {
  }

  /** How replacing one thread moves the three counts the invariant speaks of. */
  lemma Counts(ts: seq<Thread>, i: nat, x: Thread)
    requires i < |ts|
    ensures Count(ts[i := x], IsSleeping) ==
            Count(ts, IsSleeping) - (if ts[i].Sleeping? then 1 else 0) + (if x.Sleeping? then 1 else 0)
    ensures Count(ts[i := x], IsNotified) ==
            Count(ts, IsNotified) - (if ts[i].Notified? then 1 else 0) + (if x.Notified? then 1 else 0)
    ensures Count(ts[i := x], IsUser) ==
            Count(ts, IsUser) - (if IsUser(ts[i]) then 1 else 0) + (if IsUser(x) then 1 else 0)
  {
    CountUpdate(ts, i, x, IsSleeping);
    CountUpdate(ts, i, x, IsNotified);
    CountUpdate(ts, i, x, IsUser);
  }

  /** notify_one turns one sleeper into a notified thread, if there is a sleeper at all. */
  lemma Notifies(ts: seq<Thread>, wake: nat)
    requires NotifyChoice(ts, wake)
    ensures var us := NotifyOne(ts, wake);
            var k := if Count(ts, IsSleeping) > 0 then 1 else 0;
            && Count(us, IsSleeping) == Count(ts, IsSleeping) - k
            && Count(us, IsNotified) == Count(ts, IsNotified) + k
            && Count(us, IsUser) == Count(ts, IsUser)
  {
    CountNone(ts, IsSleeping);
    if SleeperAt(ts, wake) {
      Counts(ts, wake, Notified);
    } else {
      forall i | 0 <= i < |ts| ensures !IsSleeping(ts[i]) {
        assert !SleeperAt(ts, i);
      }
    }
  }

  lemma AdmittedKeeps(s: System, t: nat)
    requires Inv(s) && t < |s.threads| && CanProceed(s.core)
    requires s.threads[t].Idle? || s.threads[t].Notified? || s.threads[t].Woken?
    ensures Inv(Admitted(s, t))
  {
    var (core, grant) := Taken(s.core);
    var x := if grant.Pooled? then Holding(grant.conn) else Connecting;
    Counts(s.threads, t, x);
  }

  lemma GivesBack(s: System, t: nat, conn: Option<Conn>, wake: nat)
    requires Inv(s) && t < |s.threads| && NotifyChoice(s.threads, wake)
    requires IsUser(s.threads[t])
    requires conn.Some? ==> s.threads[t] == Holding(conn.value)
    ensures Inv(s.(core := Returned(s.core, conn), threads := NotifyOne(s.threads[t := Idle], wake)))
  {
    Counts(s.threads, t, Idle);
    var ts := s.threads[t := Idle];
    assert NotifyChoice(ts, wake) by {
      if i: nat :| SleeperAt(ts, i) {
        assert SleeperAt(s.threads, i);
      }
    }
    Notifies(ts, wake);
    CountNone(s.threads, IsUser);
  }

  /** Going to sleep is safe because it happens only when no permit is left. */
  lemma SleepKeeps(s: System, t: nat)
    requires Inv(s) && t < |s.threads| && !CanProceed(s.core)
    requires s.threads[t].Idle? || s.threads[t].Notified? || s.threads[t].Woken?
    ensures Inv(s.(threads := s.threads[t := Sleeping]))
  {
    Counts(s.threads, t, Sleeping);
  }

  /** A timed-out thread gives up only when no permit is left, so it takes no wakeup with it. */
  lemma GiveUpKeeps(s: System, t: nat)
    requires Inv(s) && t < |s.threads| && !CanProceed(s.core)
    requires s.threads[t].Notified? || s.threads[t].Woken?
    ensures Inv(s.(threads := s.threads[t := Idle]))
  {
    Counts(s.threads, t, Idle);
  }

  lemma WakeKeeps(s: System, t: nat)
    requires Inv(s) && t < |s.threads| && s.threads[t].Sleeping?
    ensures Inv(s.(threads := s.threads[t := Woken]))
  {
    Counts(s.threads, t, Woken);
  }

  lemma ConnectedKeeps(s: System, t: nat)
    requires Inv(s) && t < |s.threads| && s.threads[t].Connecting?
    ensures Inv(s.(threads := s.threads[t := Holding(s.nextId)], nextId := s.nextId + 1))
  {
    Counts(s.threads, t, Holding(s.nextId));
  }

  lemma MoveKeeps(s: System, t: nat, to: nat)
    requires Inv(s) && t < |s.threads| && s.threads[t].Holding?
    requires to < |s.threads| && s.threads[to].Idle?
    ensures Inv(s.(threads := s.threads[to := s.threads[t]][t := Idle]))
  {
    Counts(s.threads, to, s.threads[t]);
    Counts(s.threads[to := s.threads[t]], t, Idle);
  }

  lemma StepKeepsInv(s: System, e: Event)
    requires Inv(s) && Enabled(s, e)
    ensures Inv(Step(s, e))
  {
    match e
    case Enter(t) =>
      if CanProceed(s.core) { AdmittedKeeps(s, t); } else { SleepKeeps(s, t); }
    case Wake(t) =>
      WakeKeeps(s, t);
    case Resume(t, expired) =>
      if CanProceed(s.core) { AdmittedKeeps(s, t); }
      else if expired { GiveUpKeeps(s, t); } else { SleepKeeps(s, t); }
    case Connected(t) =>
      ConnectedKeeps(s, t);
    case ConnectFailed(t, wake) =>
      GivesBack(s, t, None, wake);
    case Release(t, open, wake) =>
      GivesBack(s, t, if open then Some(s.threads[t].conn) else None, wake);
    case Move(t, to) =>
      MoveKeeps(s, t, to);
  }

  lemma InitInv(size: nat, n: nat)
    ensures Inv(Init(size, n))
  {
    var ts := Init(size, n).threads;
    CountNone(ts, IsSleeping);
    CountNone(ts, IsUser);
  }

  lemma {:induction false} LeadsKeepsInv(s: System, es: seq<Event>, s': System)
    requires Inv(s) && Leads(s, es, s')
    ensures Inv(s')
    decreases |es|
  {
    if es != [] {
      StepKeepsInv(s, es[0]);
      LeadsKeepsInv(Step(s, es[0]), es[1..], s');
    }
  }

  lemma ReachableInv(size: nat, n: nat, s: System)
    requires Reachable(size, n, s)
    ensures Inv(s)
  {
    var es :| Leads(Init(size, n), es, s);
    InitInv(size, n);
    LeadsKeepsInv(Init(size, n), es, s);
  }

  // ---------------------------------------------------------------------------
  // Theorems about every interleaving
  // ---------------------------------------------------------------------------

  /** While anybody sleeps, every free slot is already promised to a notified thread. */
  lemma NoWakeupIsLost(size: nat, n: nat, s: System, sleeper: nat)
    requires Reachable(size, n, s) && SleeperAt(s.threads, sleeper)
    ensures Permits(s.core) <= Count(s.threads, IsNotified)
  {
    ReachableInv(size, n, s);
    CountNone(s.threads, IsSleeping);
  }

  /** So a free slot never sits beside sleepers only: some thread is on its way and will get it. */
  lemma FreeSlotIsOnItsWay(size: nat, n: nat, s: System, sleeper: nat) returns (t: nat)
    requires Reachable(size, n, s) && SleeperAt(s.threads, sleeper) && Permits(s.core) > 0
    ensures t < |s.threads| && s.threads[t].Notified?
    ensures forall expired :: Enabled(s, Resume(t, expired)) && IsUser(Step(s, Resume(t, expired)).threads[t])
  {
    NoWakeupIsLost(size, n, s, sleeper);
    ReachableInv(size, n, s);
    CountNone(s.threads, IsNotified);
    var i :| 0 <= i < |s.threads| && IsNotified(s.threads[i]);
    t := i;
  }

  /** Slots are conserved and every live connection has exactly one owner. */
  lemma SlotsAreConserved(size: nat, n: nat, s: System)
    requires Reachable(size, n, s)
    ensures 0 <= s.core.active && |s.core.queue| + s.core.active <= s.core.size
    ensures s.core.active == Count(s.threads, IsUser)
    ensures SingleOwner(s)
  {
    ReachableInv(size, n, s);
  }

  ghost predicate IsGrant(s: System, e: Event)
    requires Enabled(s, e)
  {
    (e.Enter? || e.Resume?) && IsUser(Step(s, e).threads[e.t])
  }

  /** The pool refines a counting semaphore: waiting happens at zero only, taking above zero only. */
  lemma StepIsSemaphore(size: nat, n: nat, s: System, e: Event)
    requires Reachable(size, n, s) && Enabled(s, e)
    ensures Permits(Step(s, e).core) ==
            Permits(s.core) - (if IsGrant(s, e) then 1 else 0) + (if e.ConnectFailed? || e.Release? then 1 else 0)
    ensures e.Enter? || e.Resume? ==> (IsGrant(s, e) <==> Permits(s.core) > 0)
    ensures 0 <= Permits(Step(s, e).core) <= Step(s, e).core.size
  {
    ReachableInv(size, n, s);
    StepKeepsInv(s, e);
    CanProceedIffPermit(s.core);
  }

  ghost predicate HeldBy(ts: seq<Thread>, u: nat, c: Conn) { u < |ts| && ts[u] == Holding(c) }

  ghost predicate Held(ts: seq<Thread>, c: Conn) { exists u: nat :: HeldBy(ts, u, c) }

  ghost predicate HeldByOther(ts: seq<Thread>, t: nat, c: Conn) { exists u: nat :: u != t && HeldBy(ts, u, c) }

  /** The connection is open: queued, or held by a thread. */
  ghost predicate IsLive(s: System, c: Conn) { c in s.core.queue || Held(s.threads, c) }

  /** A thread's place changes: what the other threads hold is held as before. */
  lemma HeldElsewhere(ts: seq<Thread>, t: nat, x: Thread, c: Conn)
    requires t < |ts|
    ensures Held(ts[t := x], c) <==> x == Holding(c) || HeldByOther(ts, t, c)
    ensures Held(ts, c) <==> ts[t] == Holding(c) || HeldByOther(ts, t, c)
  {
    var us := ts[t := x];
    if x == Holding(c) {
      assert HeldBy(us, t, c);
    }
    if ts[t] == Holding(c) {
      assert HeldBy(ts, t, c);
    }
    if u: nat :| u != t && HeldBy(ts, u, c) {
      assert HeldBy(us, u, c);
    }
    if u: nat :| HeldBy(us, u, c) && u != t {
      assert HeldBy(ts, u, c);
    }
  }

  lemma NotifyingHoldsNothing(ts: seq<Thread>, wake: nat, c: Conn)
    ensures Held(NotifyOne(ts, wake), c) <==> Held(ts, c)
  {
    if u: nat :| HeldBy(ts, u, c) {
      assert HeldBy(NotifyOne(ts, wake), u, c);
    }
    if u: nat :| HeldBy(NotifyOne(ts, wake), u, c) {
      assert HeldBy(ts, u, c);
    }
  }

  /** The connection a step opens, or closes. */
  ghost predicate Opens(s: System, e: Event, c: Conn) { e.Connected? && c == s.nextId }

  ghost predicate Closes(s: System, e: Event, c: Conn)
    requires Enabled(s, e)
  {
    e.Release? && !e.open && s.threads[e.t] == Holding(c)
  }

  /** A connection survives every step but the release of a broken one, and only connecting makes one. */
  lemma LiveChangesOnlySo(s: System, e: Event, c: Conn)
    requires Inv(s) && Enabled(s, e)
    ensures IsLive(Step(s, e), c) <==> Opens(s, e, c) || (IsLive(s, c) && !Closes(s, e, c))
  {
    var ts := s.threads;
    match e
    case Enter(t) => EnteringKeepsLive(s, e, c);
    case Wake(t) => HeldElsewhere(ts, t, Woken, c);
    case Resume(t, _) => EnteringKeepsLive(s, e, c);
    case Connected(t) => HeldElsewhere(ts, t, Holding(s.nextId), c);
    case ConnectFailed(t, wake) =>
      HeldElsewhere(ts, t, Idle, c);
      NotifyingHoldsNothing(ts[t := Idle], wake, c);
    case Release(t, open, wake) => ReleasingKeepsLive(s, e, c);
    case Move(t, to) =>
      MovingKeepsHeld(ts, t, to, c);
  }

  lemma ReleasingKeepsLive(s: System, e: Event, c: Conn)
    requires Inv(s) && Enabled(s, e) && e.Release?
    ensures IsLive(Step(s, e), c) <==> IsLive(s, c) && !Closes(s, e, c)
  {
    var ts, t := s.threads, e.t;
    HeldElsewhere(ts, t, Idle, c);
    NotifyingHoldsNothing(ts[t := Idle], e.wake, c);
    if ts[t] == Holding(c) {
      assert HeldBy(ts, t, c);
      assert !HeldByOther(ts, t, c);
    }
  }

  lemma MovingKeepsHeld(ts: seq<Thread>, t: nat, to: nat, c: Conn)
    requires t < |ts| && to < |ts| && ts[t].Holding? && ts[to].Idle?
    ensures var us := ts[to := ts[t]][t := Idle];
            Held(us, c) <==> Held(ts, c)
  {
    var us := ts[to := ts[t]][t := Idle];
    if u: nat :| HeldBy(ts, u, c) {
      assert HeldBy(us, if u == t then to else u, c);
    }
    if u: nat :| HeldBy(us, u, c) {
      assert HeldBy(ts, if u == to then t else u, c);
    }
  }

  lemma EnteringKeepsLive(s: System, e: Event, c: Conn)
    requires Enabled(s, e) && (e.Enter? || e.Resume?)
    ensures IsLive(Step(s, e), c) <==> IsLive(s, c)
  {
    HeldElsewhere(s.threads, e.t, Step(s, e).threads[e.t], c);
    assert !HeldBy(s.threads, e.t, c);
    if CanProceed(s.core) && s.core.queue != [] {
      assert s.core.queue == [s.core.queue[0]] + s.core.queue[1..];
    }
  }

  /** Every slot has a connection, queued or held. */
  ghost predicate Stocked(s: System) {
    |s.core.queue| + s.core.active == s.core.size && forall t :: 0 <= t < |s.threads| ==> !s.threads[t].Connecting?
  }

  lemma StepKeepsStocked(s: System, e: Event)
    requires Inv(s) && Stocked(s) && Enabled(s, e) && (e.Release? ==> e.open)
    ensures Stocked(Step(s, e)) && !e.Connected?
  {
  }

  /**
   A pool nobody returns a broken connection to never has to connect: whatever the
   interleaving, every thread is served from the queue, and the connections opened at the
   start are the live ones at the end.
   */
  lemma {:induction false} HealthyPoolNeverConnects(s: System, es: seq<Event>, s': System)
    requires Inv(s) && Stocked(s) && Leads(s, es, s')
    requires forall e :: e in es && e.Release? ==> e.open
    ensures Stocked(s') && forall e :: e in es ==> !e.Connected? && !e.ConnectFailed?
    ensures forall c :: IsLive(s', c) <==> IsLive(s, c)
    decreases |es|
  {
    if es != [] {
      var e, m := es[0], Step(s, es[0]);
      assert e in es;
      StepKeepsInv(s, e);
      StepKeepsStocked(s, e);
      HealthyPoolNeverConnects(m, es[1..], s');
      forall c ensures IsLive(s', c) <==> IsLive(s, c) {
        LiveChangesOnlySo(s, e, c);
      }
    }
  }

  /** So from the start, for any number of threads. */
  lemma ConnectionsOfTheStartSuffice(size: nat, n: nat, es: seq<Event>, s: System)
    requires Leads(Init(size, n), es, s) && forall e :: e in es && e.Release? ==> e.open
    ensures forall t :: 0 <= t < |s.threads| ==> !s.threads[t].Connecting?
    ensures forall c: Conn :: IsLive(s, c) <==> c < size
  {
    InitInv(size, n);
    HealthyPoolNeverConnects(Init(size, n), es, s);
    forall c: Conn ensures IsLive(Init(size, n), c) <==> c < size {
      if c < size {
        assert Init(size, n).core.queue[c] == c;
      }
    }
  }

  lemma {:induction false} LeadsAppend(s: System, es: seq<Event>, m: System, fs: seq<Event>, s': System)
    requires Leads(s, es, m) && Leads(m, fs, s')
    ensures Leads(s, es + fs, s')
    decreases |es|
  {
    if es == [] {
      assert es + fs == fs;
    } else {
      assert (es + fs)[1..] == es[1..] + fs;
      LeadsAppend(Step(s, es[0]), es[1..], m, fs, s');
    }
  }

  lemma {:induction false} LeadsKeepsSize(s: System, es: seq<Event>, s': System)
    requires Leads(s, es, s')
    ensures s'.core.size == s.core.size && |s'.threads| == |s.threads|
    decreases |es|
  {
    if es != [] {
      LeadsKeepsSize(Step(s, es[0]), es[1..], s');
    }
  }

  ghost predicate FirstHold(s: System, k: nat) {
    forall t :: 0 <= t < |s.threads| ==> if t < k then s.threads[t].Holding? else s.threads[t].Idle?
  }

  lemma {:induction false} IdlePoolServes(s: System, k: nat) returns (es: seq<Event>, s': System)
    requires Inv(s) && FirstHold(s, 0)
    requires k <= |s.threads| && k <= s.core.size
    ensures Leads(s, es, s') && FirstHold(s', k) && s'.core.active == k
    ensures s'.core.size == s.core.size && |s'.threads| == |s.threads|
    ensures forall e :: e in es ==> e.Enter? || e.Connected?
  {
    if k == 0 {
      CountNone(s.threads, IsUser);
      return [], s;
    }
    var m;
    es, m := IdlePoolServes(s, k - 1);
    LeadsKeepsInv(s, es, m);
    var t := k - 1;
    var a := Step(m, Enter(t));
    if a.threads[t].Connecting? {
      s' := Step(a, Connected(t));
      assert Leads(a, [Connected(t)], s') by { assert Leads(s', [], s'); }
      assert [Enter(t), Connected(t)][1..] == [Connected(t)];
      assert Leads(m, [Enter(t), Connected(t)], s');
      LeadsAppend(s, es, m, [Enter(t), Connected(t)], s');
      es := es + [Enter(t), Connected(t)];
    } else {
      s' := a;
      assert Leads(m, [Enter(t)], s') by { assert Leads(s', [], s'); }
      LeadsAppend(s, es, m, [Enter(t)], s');
      es := es + [Enter(t)];
    }
  }

  /**
   Self-healing: whatever broke or failed to connect on the way, once no thread connects or
   holds, all permits are back; and with every thread idle the pool serves its full size
   again, without anybody waiting.
   */
  lemma FullCapacityReturns(size: nat, n: nat, s: System)
    requires Reachable(size, n, s) && forall t :: 0 <= t < |s.threads| ==> !IsUser(s.threads[t])
    ensures Permits(s.core) == size
    ensures FirstHold(s, 0) && n >= size ==>
              exists es: seq<Event>, s': System ::
                Leads(s, es, s') && FirstHold(s', size) && forall e :: e in es ==> e.Enter? || e.Connected?
  {
    var es0 :| Leads(Init(size, n), es0, s);
    LeadsKeepsSize(Init(size, n), es0, s);
    ReachableInv(size, n, s);
    CountNone(s.threads, IsUser);
    if FirstHold(s, 0) && n >= size {
      var es, s' := IdlePoolServes(s, size);
    }
  }
}
