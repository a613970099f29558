/**
 * The lease-based GPU lock: the object with its wake loop, and the transition
 * system of acquires, releases, reaps, cancels and the passage of time.
 */
module GpuLockClass {
  import opened Options

  /** The current lease and when it was granted. */
  datatype Held = Held(lease: nat, acquiredAt: nat)

  /** The lock's shared state; `waiters` holds the live receivers, true once woken. */
  datatype Lock = Lock(held: Option<Held>, queue: seq<nat>, waiters: map<nat, bool>, nextTicket: nat)

  /** A bare wake reaches every live receiver among `tickets`. */
  function Signal(waiters: map<nat, bool>, tickets: seq<nat>): map<nat, bool> {
    map t | t in waiters :: waiters[t] || t in tickets
  }

  /** Nobody was lost, those queued were woken, and nobody else was. */
  ghost predicate AllWoken(before: map<nat, bool>, tickets: seq<nat>, after: map<nat, bool>) {
    && after.Keys == before.Keys
    && forall t | t in before :: after[t] <==> before[t] || t in tickets
  }

  /** The lock is dropped and everybody queued is woken. */
  function Freed(l: Lock): Lock {
    l.(held := None, queue := [], waiters := Signal(l.waiters, l.queue))
  }

  function Parked(l: Lock): Lock {
    l.(queue := l.queue + [l.nextTicket], waiters := l.waiters[l.nextTicket := false],
       nextTicket := l.nextTicket + 1)
  }

  function Granted(l: Lock, lease: nat, now: nat): Lock {
    l.(held := Some(Held(lease, now)))
  }

  predicate Expired(l: Lock, now: nat, maxHold: nat) {
    l.held.Some? && now > l.held.value.acquiredAt + maxHold
  }

  class GpuLock {
    const maxHold: nat
    var held: Option<Held>
    var queue: seq<nat>
    var waiters: map<nat, bool>
    var nextTicket: nat

    function State(): Lock
      reads this
    {
      Lock(held, queue, waiters, nextTicket)
    }

    constructor (maxHold: nat)
      ensures this.maxHold == maxHold && State() == Lock(None, [], map[], 0)
    {
      this.maxHold := maxHold;
      held, queue, waiters, nextTicket := None, [], map[], 0;
    }

    /** One pass of the `acquire` loop: the fresh lease if the lock is free, else a ticket. */
    method AcquirePass(lease: nat, now: nat) returns (got: bool)
      modifies this
      ensures got <==> old(held).None?
      ensures State() == if got then Granted(old(State()), lease, now) else Parked(old(State()))
      ensures got ==> held == Some(Held(lease, now)) && queue == old(queue) && waiters == old(waiters)
      ensures !got ==> held == old(held) && queue == old(queue) + [old(nextTicket)]
      ensures !got ==> waiters == old(waiters)[old(nextTicket) := false]
    {
      if held.None? {
        held := Some(Held(lease, now));
        return true;
      }
      queue, waiters := queue + [nextTicket], waiters[nextTicket := false];
      nextTicket := nextTicket + 1;
      return false;
    }

    /** Succeeds only for the current lease; any other id changes nothing. */
    method Release(lease: nat) returns (ok: bool)
      modifies this
      ensures ok <==> old(held).Some? && old(held).value.lease == lease
      ensures State() == if ok then Freed(old(State())) else old(State())
      ensures ok ==> held.None? && queue == [] && AllWoken(old(waiters), old(queue), waiters)
    {
      if held.Some? && held.value.lease == lease {
        held := None;
        WakeAll();
        return true;
      }
      return false;
    }

    method ReapExpired(now: nat) returns (reaped: bool)
      modifies this
      ensures reaped <==> Expired(old(State()), now, maxHold)
      ensures State() == if reaped then Freed(old(State())) else old(State())
      ensures reaped ==> held.None? && queue == [] && AllWoken(old(waiters), old(queue), waiters)
    {
      reaped := held.Some? && now > held.value.acquiredAt + maxHold;
      if reaped {
        held := None;
        WakeAll();
      }
    }

    method WakeAll()
      modifies this`queue, this`waiters
      ensures queue == [] && waiters == Signal(old(waiters), old(queue))
      ensures AllWoken(old(waiters), old(queue), waiters)
    {
      ghost var sent := [];
      while queue != []
        invariant sent + queue == old(queue)
        invariant waiters == Signal(old(waiters), sent)
        decreases |queue|
      {
        var t := queue[0];
        queue := queue[1..];
        if t in waiters {
          waiters := waiters[t := true];
        }
        sent := sent + [t];
      }
      assert sent == old(queue);
    }
  }
}

module GpuLockRuns {
  import opened Options
  import opened GpuLockClass

  /**
   * The lock with its history: `issued` and the disjoint ways leases ended,
   * the clock, and the time of the last reap tick.
   */
  datatype World = World(
    lock: Lock, issued: set<nat>, released: set<nat>, reaped: set<nat>, now: nat, lastReap: nat)

  /** `maxHold` is the lock's expiry, `period` the longest gap between reap ticks. */
  datatype Config = Config(maxHold: nat, period: nat)

  datatype Event =
    | Arrive(lease: nat)
    | Retry(ticket: nat, lease: nat)
    | Cancel(ticket: nat)
    | Release(lease: nat)
    | Reap
    | Pass(d: nat)

  predicate Init(w: World) {
    w == World(Lock(None, [], map[], 0), {}, {}, {}, w.now, w.now)
  }

  /** One pass of `acquire`, with `lease` the fresh id it would mint. */
  function Acquired(w: World, l: Lock, lease: nat): World {
    if l.held.None?
    then w.(lock := Granted(l, lease, w.now), issued := w.issued + {lease})
    else w.(lock := Parked(l))
  }

  predicate Step(c: Config, w: World, e: Event, w': World) {
    match e
    case Arrive(lease) => lease !in w.issued && w' == Acquired(w, w.lock, lease)
    case Retry(t, lease) =>
      && lease !in w.issued
      && t in w.lock.waiters && w.lock.waiters[t]
      && w' == Acquired(w, w.lock.(waiters := w.lock.waiters - {t}), lease)
    case Cancel(t) =>
      t in w.lock.waiters && w' == w.(lock := w.lock.(waiters := w.lock.waiters - {t}))
    case Release(lease) =>
      w' == if w.lock.held.Some? && w.lock.held.value.lease == lease
            then w.(lock := Freed(w.lock), released := w.released + {lease})
            else w
    case Reap =>
      w' == (if Expired(w.lock, w.now, c.maxHold)
             then w.(lock := Freed(w.lock), reaped := w.reaped + {w.lock.held.value.lease})
             else w).(lastReap := w.now)
    case Pass(d) =>
      w.now + d <= w.lastReap + c.period && w' == w.(now := w.now + d)
  }

  ghost predicate IsPath(c: Config, ws: seq<World>, es: seq<Event>) {
    && |ws| == |es| + 1
    && forall k | 0 <= k < |es| :: Step(c, ws[k], es[k], ws[k + 1])
  }

  ghost predicate Reachable(c: Config, w: World) {
    exists ws, es :: IsPath(c, ws, es) && Init(ws[0]) && ws[|es|] == w
  }

  ghost predicate Inv(c: Config, w: World) {
    var l := w.lock;
    && (forall t | t in l.queue :: t < l.nextTicket && (t in l.waiters ==> !l.waiters[t]))
    && (forall t | t in l.waiters :: t < l.nextTicket && (!l.waiters[t] ==> t in l.queue))
    && (l.held.None? ==> l.queue == [])
    && (l.held.Some? ==>
          && l.held.value.lease in w.issued - w.released - w.reaped
          && l.held.value.acquiredAt <= w.now
          && w.lastReap <= l.held.value.acquiredAt + c.maxHold)
    && w.released + w.reaped <= w.issued
    && w.released !! w.reaped
    && (forall x | x in w.issued :: x in w.released || x in w.reaped || (l.held.Some? && l.held.value.lease == x))
    && w.lastReap <= w.now <= w.lastReap + c.period
  }

  lemma StepInv(c: Config, w: World, e: Event, w': World)
    requires Inv(c, w) && Step(c, w, e, w')
    ensures Inv(c, w')
  {
  }

  lemma {:induction false} PathInv(c: Config, ws: seq<World>, es: seq<Event>, k: nat)
    requires IsPath(c, ws, es) && Inv(c, ws[0]) && k <= |es|
    ensures Inv(c, ws[k])
  {
    if k > 0 {
      PathInv(c, ws, es, k - 1);
      assert Step(c, ws[k - 1], es[k - 1], ws[k]);
      StepInv(c, ws[k - 1], es[k - 1], ws[k]);
    }
  }

  lemma ReachableInv(c: Config, w: World)
    requires Reachable(c, w)
    ensures Inv(c, w)
  {
    var ws, es :| IsPath(c, ws, es) && Init(ws[0]) && ws[|es|] == w;
    PathInv(c, ws, es, |es|);
  }

  lemma Extend(c: Config, w: World, e: Event, w': World)
    requires Reachable(c, w) && Step(c, w, e, w')
    ensures Reachable(c, w')
  {
    var ws, es :| IsPath(c, ws, es) && Init(ws[0]) && ws[|es|] == w;
    var ws', es' := ws + [w'], es + [e];
    forall k | 0 <= k < |es'| ensures Step(c, ws'[k], es'[k], ws'[k + 1]) {
      if k < |es| {
        assert Step(c, ws[k], es[k], ws[k + 1]);
      }
    }
    assert IsPath(c, ws', es') && ws'[|es'|] == w';
  }

  // --------------------------------------------------------------- theorems

  /** Acquires = releases + reaps + (1 if held), and no lease ended both ways. */
  lemma LeasesConserved(c: Config, w: World)
    requires Reachable(c, w)
    ensures |w.issued| == |w.released| + |w.reaped| + if w.lock.held.Some? then 1 else 0
    ensures w.released !! w.reaped
  {
    ReachableInv(c, w);
    var ended := w.released + w.reaped;
    assert |ended| == |w.released| + |w.reaped|;
    if w.lock.held.Some? {
      assert w.issued == ended + {w.lock.held.value.lease};
    } else {
      assert w.issued == ended;
    }
  }

  /**
   * An ended lease stays ended: from then on nobody holds it, it is never
   * issued again, and a stale release of it changes nothing.
   */
  lemma {:induction false} EndedLeaseIsInert(c: Config, ws: seq<World>, es: seq<Event>, j: nat, k: nat, x: nat)
    requires IsPath(c, ws, es) && Inv(c, ws[0]) && j <= k < |es|
    requires x in ws[j].released + ws[j].reaped
    ensures x in ws[k].released + ws[k].reaped
    ensures ws[k].lock.held.Some? ==> ws[k].lock.held.value.lease != x
    ensures es[k] == Release(x) ==> ws[k + 1] == ws[k]
    ensures x in ws[j].released ==> x in ws[k].released
    ensures x in ws[j].reaped ==> x in ws[k].reaped
    decreases k
  {
    PathInv(c, ws, es, k);
    assert Step(c, ws[k], es[k], ws[k + 1]);
    if j < k {
      EndedLeaseIsInert(c, ws, es, j, k - 1, x);
      assert Step(c, ws[k - 1], es[k - 1], ws[k]);
    }
  }

  /**
   * No lost wakeup, unconditionally: while the lock is free every live waiter
   * has been woken, whoever gave up in between, and its retry gets the lock.
   */
  lemma FreeLockHasNoParkedWaiter(c: Config, w: World, t: nat, lease: nat)
    requires Reachable(c, w) && w.lock.held.None? && t in w.lock.waiters && lease !in w.issued
    ensures w.lock.waiters[t]
    ensures exists w' :: Step(c, w, Retry(t, lease), w') && w'.lock.held == Some(Held(lease, w.now))
  {
    ReachableInv(c, w);
    var w' := Acquired(w, w.lock.(waiters := w.lock.waiters - {t}), lease);
    assert Step(c, w, Retry(t, lease), w');
  }

  /** A waiter is lost only by giving up or retrying, and is woken exactly by a step that frees the lock. */
  lemma WaiterStep(c: Config, w: World, e: Event, w': World, t: nat)
    requires Inv(c, w) && Step(c, w, e, w') && t in w.lock.waiters
    ensures t !in w'.lock.waiters <==> e == Cancel(t) || (e.Retry? && e.ticket == t)
    ensures t in w'.lock.waiters ==>
      (w'.lock.waiters[t] <==> w.lock.waiters[t] || (w.lock.held.Some? && w'.lock.held.None?))
  {
  }

  /** A request that finds the lock held leaves it alone and waits under a fresh ticket. */
  lemma RefusedWaits(c: Config, w: World, e: Event, w': World)
    requires Inv(c, w) && Step(c, w, e, w') && (e.Arrive? || e.Retry?) && w.lock.held.Some?
    ensures w'.lock.held == w.lock.held && w'.issued == w.issued
    ensures w.lock.nextTicket !in w.lock.waiters
    ensures w.lock.nextTicket in w'.lock.waiters && !w'.lock.waiters[w.lock.nextTicket]
  {
  }

  /** With reap ticks at most `period` apart no lease is held longer than `maxHold + period`. */
  lemma HoldIsBounded(c: Config, w: World)
    requires Reachable(c, w) && w.lock.held.Some?
    ensures w.now - w.lock.held.value.acquiredAt <= c.maxHold + c.period
  {
    ReachableInv(c, w);
  }

  /** A lease of age `a` just after a reap tick, for any `a` up to the expiry. */
  lemma {:induction false} HeldPastTick(c: Config, a: nat) returns (w: World)
    requires c.period > 0 && a <= c.maxHold
    ensures Reachable(c, w) && w.lock.held == Some(Held(0, 0)) && w.now == w.lastReap == a
  {
    if a == 0 {
      var w0 := World(Lock(None, [], map[], 0), {}, {}, {}, 0, 0);
      assert IsPath(c, [w0], []) && Init([w0][0]) && [w0][0] == w0;
      w := Acquired(w0, w0.lock, 0);
      assert Step(c, w0, Arrive(0), w);
      Extend(c, w0, Arrive(0), w);
    } else {
      var v := HeldPastTick(c, a - 1);
      var u := v.(now := a);
      assert Step(c, v, Pass(1), u);
      Extend(c, v, Pass(1), u);
      w := u.(lastReap := a);
      assert Step(c, u, Reap, w);
      Extend(c, u, Reap, w);
    }
  }

  /** The bound is exact: an age is reachable iff it is at most `maxHold + period`. */
  lemma HoldBoundIsExact(c: Config, a: nat)
    requires c.period > 0
    ensures a <= c.maxHold + c.period <==>
      exists w :: Reachable(c, w) && w.lock.held.Some? && w.now - w.lock.held.value.acquiredAt == a
  {
    if a <= c.maxHold + c.period {
      var tick := if a <= c.maxHold then a else c.maxHold;
      var v := HeldPastTick(c, tick);
      var w := v.(now := a);
      assert Step(c, v, Pass(a - tick), w);
      Extend(c, v, Pass(a - tick), w);
    }
    forall w | Reachable(c, w) && w.lock.held.Some?
      ensures w.now - w.lock.held.value.acquiredAt <= c.maxHold + c.period
    {
      HoldIsBounded(c, w);
    }
  }
}
