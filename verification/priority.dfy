/**
 * Priority on a free: how far the waiters of a slot come before general
 * waiters parked when that slot is freed.
 */
module Priority {
  import opened Slots
  import opened Protocol
  import opened Invariant
  import opened Wakeups

  /** The event wakes the global queue. */
  predicate WakesGlobals(w: World, e: Event) {
    match e
    case Release(g) => g in w.guards && w.guards[g] < |w.sched.slots| && !Deferring(w.sched, w.guards[g])
    case Reconcile(i) =>
      i < |w.sched.slots| && w.sched.slots[i].seededUnowned && !Deferring(w.sched, i)
    case _ => false
  }

  lemma {:induction false} ParkedUntilWake(ws: seq<World>, es: seq<Event>, t: nat, k: nat)
    requires IsPath(ws, es) && Inv(ws[0]) && k <= |es|
    requires ws[0].sched.ParkedGlobally(t)
    requires forall j | 0 <= j < k :: !WakesGlobals(ws[j], es[j])
    ensures t in ws[k].sched.waiters ==> ws[k].sched.ParkedGlobally(t)
    ensures t < ws[k].sched.nextTicket
  {
    if k > 0 {
      var w, e, w' := ws[k - 1], es[k - 1], ws[k];
      assert Step(w, e, w') && !WakesGlobals(w, e);
      ParkedUntilWake(ws, es, t, k - 1);
      PathInv(ws, es, k - 1);
      PathInv(ws, es, k);
      if t in w.sched.waiters {
        ParkedStep(w, e, w', t);
      } else {
        DeadStaysDead(w, e, w', t);
      }
    }
  }

  lemma DeadStaysDead(w: World, e: Event, w': World, t: nat)
    requires Step(w, e, w') && t !in w.sched.waiters && t < w.sched.nextTicket
    ensures t !in w'.sched.waiters && t < w'.sched.nextTicket
  {
  }

  /**
   * Priority of one free. If freeing a slot wakes a live specific waiter,
   * every global waiter unwoken at that moment retries (and so can be
   * admitted) only after a later event that wakes the global queue.
   */
  lemma DeferredRetryNeedsLaterWake(ws: seq<World>, es: seq<Event>, n: nat, i: nat, t: nat, k: nat)
    requires IsPath(ws, es) && Reachable(ws[0], n) && 1 <= k < |es|
    requires Frees(ws[0], es[0], i) && Deferring(ws[0].sched, i)
    requires ws[0].sched.ParkedGlobally(t)
    requires es[k].Retry? && es[k].ticket == t
    ensures exists j :: 1 <= j < k && WakesGlobals(ws[j], es[j])
  {
    ReachableInv(ws[0], n);
    assert Step(ws[k], es[k], ws[k + 1]);
    assert !WakesGlobals(ws[0], es[0]);
    if forall j | 1 <= j < k :: !WakesGlobals(ws[j], es[j]) {
      ParkedUntilWake(ws, es, t, k);
    }
  }

  /** Nobody is admitted in the first `k` events. */
  predicate NoAdmission(es: seq<Event>, k: nat)
    requires k <= |es|
  {
    forall j | 0 <= j < k :: !Admits(es[j])
  }

  /** A one-slot broker whose slot is idle and was claimed before: nothing can free it again. */
  ghost predicate IdleAndClaimed(w: World) {
    |w.sched.slots| == 1 && Idle(w.sched.slots, 0) && !w.sched.slots[0].seededUnowned
  }

  lemma NoGuardOnIdle(w: World)
    requires Ledger(w) && IdleAndClaimed(w)
    ensures w.guards == map[]
  {
    assert forall g | g in w.guards :: w.guards[g] == 0;
  }

  lemma IdleAndClaimedStep(w: World, e: Event, w': World)
    requires Ledger(w) && IdleAndClaimed(w) && Step(w, e, w')
    requires !Admits(e)
    ensures IdleAndClaimed(w') && !WakesGlobals(w, e)
  {
    NoGuardOnIdle(w);
  }

  lemma {:induction false} StaysIdleAndClaimed(ws: seq<World>, es: seq<Event>, k: nat)
    requires IsPath(ws, es) && Inv(ws[0]) && IdleAndClaimed(ws[0]) && k <= |es|
    requires NoAdmission(es, k)
    ensures IdleAndClaimed(ws[k])
    ensures forall j | 0 <= j < k :: !WakesGlobals(ws[j], es[j])
  {
    if k > 0 {
      var w, e, w' := ws[k - 1], es[k - 1], ws[k];
      assert Step(w, e, w');
      StaysIdleAndClaimed(ws, es, k - 1);
      PathInv(ws, es, k - 1);
      IdleAndClaimedStep(w, e, w');
    }
  }

  /**
   * On a one-slot broker, after a release that wakes a live specific waiter
   * the next holder is never a global waiter that was parked at that moment.
   * After an idle report it can be one: a second report wakes it.
   */
  lemma OneSlotNextHolder(w: World, g: nat, ws: seq<World>, es: seq<Event>, t: nat)
    requires Reachable(w, 1) && g in w.guards && Deferring(w.sched, w.guards[g])
    requires w.sched.ParkedGlobally(t)
    requires IsPath(ws, es) && Step(w, Release(g), ws[0])
    requires |es| > 0 && NoAdmission(es, |es| - 1)
    ensures es[|es| - 1].Retry? ==> es[|es| - 1].ticket != t
  {
    OneSlotDeferred(w, g, ws[0], t);
    StillParked(ws, es, t, |es| - 1);
  }

  lemma StillParked(ws: seq<World>, es: seq<Event>, t: nat, k: nat)
    requires IsPath(ws, es) && Inv(ws[0]) && IdleAndClaimed(ws[0]) && ws[0].sched.ParkedGlobally(t)
    requires k < |es| && NoAdmission(es, k)
    ensures es[k].Retry? ==> es[k].ticket != t
  {
    StaysIdleAndClaimed(ws, es, k);
    ParkedUntilWake(ws, es, t, k);
    RetriesAreWoken(ws[k], es[k], ws[k + 1], t);
  }

  lemma RetriesAreWoken(w: World, e: Event, w': World, t: nat)
    requires Step(w, e, w') && (t in w.sched.waiters ==> w.sched.ParkedGlobally(t))
    ensures e.Retry? ==> e.ticket != t
  {
  }

  lemma OneSlotDeferred(w: World, g: nat, w': World, t: nat)
    requires Reachable(w, 1) && g in w.guards && Deferring(w.sched, w.guards[g])
    requires w.sched.ParkedGlobally(t) && Step(w, Release(g), w')
    ensures Inv(w') && IdleAndClaimed(w') && w'.sched.ParkedGlobally(t)
  {
    ReachableInv(w, 1);
    StepInv(w, Release(g), w');
    ParkedStep(w, Release(g), w', t);
  }
}
