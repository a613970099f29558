/**
 * What every interleaving keeps: queue discipline, capacity and exclusion of
 * guards, the admission history, and who may be parked beside an idle slot.
 */
module Invariant {
  import opened Options
  import opened Slots
  import opened Protocol

  /** The position, from 1, of the last admission onto `i`; 0 if there was none. */
  function LastUse(log: seq<nat>, i: nat): (k: nat)
    ensures k <= |log|
    ensures k > 0 ==> log[k - 1] == i
    ensures forall j | k <= j < |log| :: log[j] != i
  {
    if log == [] then 0
    else if log[|log| - 1] == i then |log|
    else LastUse(log[..|log| - 1], i)
  }

  /** Every sender is queued where its slot's release drains it, and no waiter is lost. */
  ghost predicate QueuesOk(s: Sched) {
    && (forall p | p in s.slotWaiters :: p < |s.slots|)
    && (forall h, t: nat | s.Enqueued(t, h) ::
          t < s.nextTicket && (t in s.waiters ==> !s.waiters[t].woken && s.Home(t) == h))
    && (forall t | t in s.waiters ::
          t < s.nextTicket && (!s.waiters[t].woken ==> s.Enqueued(t, s.Home(t))))
  }

  /** A live unwoken waiter of slot `i` means `i` is in range and busy. */
  ghost predicate SpecificWaitersBlocked(s: Sched) {
    forall t | t in s.waiters && !s.waiters[t].woken && s.Home(t).Some? ::
      s.slots[s.Home(t).value].busy
  }

  /** An idle slot beside a parked global waiter is still owed to a specific waiter. */
  ghost predicate IdleIsOwed(w: World) {
    forall i, g | Idle(w.sched.slots, i) && w.sched.ParkedGlobally(g) ::
      exists t :: t in w.owed && w.owed[t] == i
  }

  ghost predicate OwedOk(w: World) {
    forall t | t in w.owed ::
      && t < w.sched.nextTicket
      && w.owed[t] < |w.sched.slots|
      && (t in w.sched.waiters ==> w.sched.Woken(t) && w.sched.Home(t) == Some(w.owed[t]))
  }

  /**
   * Slots against history. A slot is busy iff exactly one guard owns it or it
   * is seeded and unreported; clock, stamps, guards and released guards are
   * exactly the admission log.
   */
  ghost predicate LedgerOk(slots: seq<Slot>, clock: nat, log: seq<nat>,
                           guards: map<nat, nat>, released: set<nat>, seeded: set<nat>)
  {
    && CapacityOk(slots, guards, seeded)
    && clock == |log|
    && (forall k | 0 <= k < |log| :: log[k] < |slots|)
    && (forall i | 0 <= i < |slots| :: slots[i].lastUsed == LastUse(log, i))
    && (forall i | 0 <= i < |slots| && slots[i].seededUnowned :: slots[i].lastUsed == 0)
    && (forall g: nat :: 1 <= g <= |log| <==> (g in guards || g in released))
    && (forall g | g in guards :: g !in released)
  }

  ghost predicate CapacityOk(slots: seq<Slot>, guards: map<nat, nat>, seeded: set<nat>) {
    && (forall g | g in guards ::
          && guards[g] < |slots|
          && slots[guards[g]].busy
          && !slots[guards[g]].seededUnowned
          && slots[guards[g]].lastUsed == g)
    && (forall i | i in seeded :: i < |slots| && slots[i].busy && slots[i].seededUnowned)
    && (forall i | 0 <= i < |slots| && slots[i].busy ::
          i in seeded || (slots[i].lastUsed in guards && guards[slots[i].lastUsed] == i))
  }

  /** Some live guard holds slot `i`. */
  ghost predicate Owned(guards: map<nat, nat>, i: nat) {
    exists g :: g in guards && guards[g] == i
  }

  ghost predicate Ledger(w: World) {
    LedgerOk(w.sched.slots, w.sched.clock, w.log, w.guards, w.released, w.seeded)
  }

  ghost predicate Inv(w: World) {
    && QueuesOk(w.sched)
    && SpecificWaitersBlocked(w.sched)
    && OwedOk(w)
    && IdleIsOwed(w)
    && Ledger(w)
  }

  // ------------------------------------------------------- ledger, per write

  lemma LedgerClaim(slots: seq<Slot>, clock: nat, log: seq<nat>,
                    guards: map<nat, nat>, released: set<nat>, seeded: set<nat>, i: nat)
    requires LedgerOk(slots, clock, log, guards, released, seeded) && Idle(slots, i)
    ensures LedgerOk(Claim(slots, i, clock + 1), clock + 1, log + [i],
                     guards[clock + 1 := i], released, seeded)
  {
    assert (log + [i])[..|log|] == log;
  }

  lemma LedgerRelease(slots: seq<Slot>, clock: nat, log: seq<nat>,
                      guards: map<nat, nat>, released: set<nat>, seeded: set<nat>, g: nat)
    requires LedgerOk(slots, clock, log, guards, released, seeded) && g in guards
    ensures guards[g] < |slots|
    ensures LedgerOk(slots[guards[g] := slots[guards[g]].(busy := false)], clock, log,
                     guards - {g}, released + {g}, seeded)
  {
  }

  lemma LedgerReport(slots: seq<Slot>, clock: nat, log: seq<nat>,
                     guards: map<nat, nat>, released: set<nat>, seeded: set<nat>, i: nat)
    requires LedgerOk(slots, clock, log, guards, released, seeded)
    requires i < |slots| && slots[i].seededUnowned
    ensures LedgerOk(slots[i := slots[i].(busy := false)], clock, log,
                     guards, released, seeded - {i})
  {
  }

  lemma LedgerResidency(slots: seq<Slot>, slots': seq<Slot>, clock: nat, log: seq<nat>,
                        guards: map<nat, nat>, released: set<nat>, seeded: set<nat>)
    requires LedgerOk(slots, clock, log, guards, released, seeded) && |slots'| == |slots|
    requires forall i | 0 <= i < |slots| ::
      && slots'[i].busy == slots[i].busy
      && slots'[i].seededUnowned == slots[i].seededUnowned
      && slots'[i].lastUsed == slots[i].lastUsed
    ensures LedgerOk(slots', clock, log, guards, released, seeded)
  {
  }

  // --------------------------------------------------------------- induction

  lemma InitInv(w: World, n: nat)
    requires Init(w, n)
    ensures Inv(w)
  {
  }

  lemma LedgerAttempt(w: World, s: Sched, hint: Option<Hint>, o: Outcome, s': Sched)
    requires Ledger(w) && s.slots == w.sched.slots && s.clock == w.sched.clock
    requires Attempt(s, hint, o, s')
    ensures Ledger(Recorded(w, o, s'))
  {
    if o.Admitted? {
      LedgerClaim(s.slots, s.clock, w.log, w.guards, w.released, w.seeded, o.admission.slotId);
    }
  }

  lemma LedgerAdmission(w: World, e: Event, w': World)
    requires Ledger(w) && Step(w, e, w') && (e.Arrive? || e.Retry?)
    ensures Ledger(w')
  {
    match e
    case Arrive(hint, o) => LedgerAttempt(w, w.sched, hint, o, w'.sched);
    case Retry(t, o) => LedgerAttempt(w, Resumed(w.sched, t), w.sched.waiters[t].hint, o, w'.sched);
  }

  lemma LedgerReconcile(w: World, i: nat, w': World)
    requires Ledger(w) && Step(w, Reconcile(i), w')
    ensures Ledger(w')
  {
    var s := w.sched;
    if i < |s.slots| && s.slots[i].seededUnowned {
      LedgerReport(s.slots, s.clock, w.log, w.guards, w.released, w.seeded, i);
    }
  }

  lemma LedgerStep(w: World, e: Event, w': World)
    requires Ledger(w) && Step(w, e, w')
    ensures Ledger(w')
  {
    var s := w.sched;
    if e.Arrive? || e.Retry? {
      LedgerAdmission(w, e, w');
    } else if e.Reconcile? {
      LedgerReconcile(w, e.slot, w');
    } else if e.Release? {
      LedgerRelease(s.slots, s.clock, w.log, w.guards, w.released, w.seeded, e.stamp);
    } else {
      LedgerResidency(s.slots, w'.sched.slots, s.clock, w.log, w.guards, w.released, w.seeded);
    }
  }

  // ------------------------------------------------------ queues, per section

  ghost predicate WaitingOk(s: Sched) {
    QueuesOk(s) && SpecificWaitersBlocked(s)
  }

  lemma WaitingPark(s: Sched, hint: Option<Hint>)
    requires WaitingOk(s) && Blocked(s.slots, hint)
    ensures WaitingOk(Park(s, hint))
  {
    var home, s' := UsablePreference(hint, |s.slots|), Park(s, hint);
    assert forall h, t :: s'.Enqueued(t, h) <==>
      (s.Enqueued(t, h) || (h == home && t == s.nextTicket));
    assert forall t | t in s.waiters :: s'.Home(t) == s.Home(t);
  }

  lemma WaitingClaim(s: Sched, i: nat, stamp: nat)
    requires WaitingOk(s) && i < |s.slots|
    ensures WaitingOk(s.(slots := Claim(s.slots, i, stamp), clock := stamp))
  {
    var s' := s.(slots := Claim(s.slots, i, stamp), clock := stamp);
    assert forall h, t :: s'.Enqueued(t, h) == s.Enqueued(t, h);
    assert forall t | t in s.waiters :: s'.Home(t) == s.Home(t);
  }

  lemma WaitingAttempt(s: Sched, hint: Option<Hint>, o: Outcome, s': Sched)
    requires WaitingOk(s) && Attempt(s, hint, o, s')
    ensures WaitingOk(s')
  {
    match o
    case Queued(_) => WaitingPark(s, hint);
    case Admitted(a) => WaitingClaim(s, a.slotId, s.clock + 1);
  }

  lemma WaitingResumed(s: Sched, t: nat)
    requires WaitingOk(s)
    ensures WaitingOk(Resumed(s, t))
  {
    assert forall h, u :: Resumed(s, t).Enqueued(u, h) == s.Enqueued(u, h);
  }

  /** Freeing `i` empties exactly the drained queues ... */
  lemma FreedQueues(s: Sched, i: nat, h: Option<nat>, t: nat)
    requires i < |s.slots|
    ensures Freed(s, i).Enqueued(t, h) <==> s.Enqueued(t, h) && !Drains(s, i, h)
  {
  }

  /** ... and wakes exactly the live waiters found there. */
  lemma FreedWaiters(s: Sched, i: nat, t: nat)
    requires i < |s.slots| && t in s.waiters
    ensures t in Freed(s, i).waiters
    ensures Freed(s, i).waiters[t].hint == s.waiters[t].hint
    ensures Freed(s, i).waiters[t].woken <==>
      (s.waiters[t].woken || s.Enqueued(t, Some(i)) || (s.Enqueued(t, None) && Drains(s, i, None)))
  {
  }

  lemma WaitingFreed(s: Sched, i: nat)
    requires WaitingOk(s)
    ensures WaitingOk(Freed(s, i))
  {
    if i < |s.slots| {
      var s' := Freed(s, i);
      forall h, t: nat ensures s'.Enqueued(t, h) <==> s.Enqueued(t, h) && !Drains(s, i, h) {
        FreedQueues(s, i, h, t);
      }
      forall t | t in s'.waiters
        ensures t < s'.nextTicket
        ensures !s'.waiters[t].woken ==> s'.Enqueued(t, s'.Home(t))
        ensures !s'.waiters[t].woken && s'.Home(t).Some? ==> s'.slots[s'.Home(t).value].busy
      {
        FreedWaiters(s, i, t);
      }
      forall h, t: nat | s'.Enqueued(t, h)
        ensures t < s'.nextTicket && (t in s'.waiters ==> !s'.waiters[t].woken && s'.Home(t) == h)
      {
        if t in s.waiters { FreedWaiters(s, i, t); }
      }
    }
  }

  lemma WaitingResidency(s: Sched, slots: seq<Slot>)
    requires WaitingOk(s) && |slots| == |s.slots|
    requires forall i | 0 <= i < |slots| :: slots[i].busy == s.slots[i].busy
    ensures WaitingOk(s.(slots := slots))
  {
    assert forall h, t :: s.(slots := slots).Enqueued(t, h) == s.Enqueued(t, h);
    assert forall t | t in s.waiters :: s.(slots := slots).Home(t) == s.Home(t);
  }

  lemma WaitingStep(w: World, e: Event, w': World)
    requires WaitingOk(w.sched) && Step(w, e, w')
    ensures WaitingOk(w'.sched)
  {
    var s := w.sched;
    match e
    case Arrive(hint, o) => WaitingAttempt(s, hint, o, w'.sched);
    case Retry(t, o) =>
      WaitingResumed(s, t);
      WaitingAttempt(Resumed(s, t), s.waiters[t].hint, o, w'.sched);
    case Cancel(t) => WaitingResumed(s, t);
    case Release(g) => WaitingFreed(s, w.guards[g]);
    case Reconcile(i) => WaitingFreed(s, i);
    case MarkResident(i, m, p) => WaitingResidency(s, w'.sched.slots);
    case ClearResident(i) => WaitingResidency(s, w'.sched.slots);
  }

  // ------------------------------------------------------------------ owed

  ghost predicate OwingOk(w: World) {
    OwedOk(w) && IdleIsOwed(w)
  }

  lemma OwingAttempt(w: World, t: nat, hint: Option<Hint>, o: Outcome, s': Sched, w': World)
    requires WaitingOk(w.sched) && OwingOk(w)
    requires t in w.sched.waiters ==> w.sched.Woken(t) && w.sched.waiters[t].hint == hint
    requires Attempt(Resumed(w.sched, t), hint, o, s')
    requires w' == Recorded(w, o, s').(owed := w.owed - {t})
    requires t !in w.sched.waiters ==> t !in w.owed
    ensures OwingOk(w')
  {
    forall i: nat, g | Idle(s'.slots, i) && s'.ParkedGlobally(g)
      ensures exists u :: u in w'.owed && w'.owed[u] == i
    {
      assert Idle(w.sched.slots, i);
      assert w.sched.ParkedGlobally(g);
      var u :| u in w.owed && w.owed[u] == i;
      assert u in w'.owed;
    }
  }

  lemma OwedFreed(w: World, i: nat, w': World)
    requires WaitingOk(w.sched) && OwedOk(w) && i < |w.sched.slots|
    requires w'.sched == Freed(w.sched, i)
    requires w'.owed == Owing(w, i) || w'.owed == w.owed
    ensures OwedOk(w')
  {
    var s := w.sched;
    forall t | t in w'.owed
      ensures t < s.nextTicket && w'.owed[t] < |s.slots|
      ensures t in w'.sched.waiters ==>
        w'.sched.Woken(t) && w'.sched.Home(t) == Some(w'.owed[t])
    {
      if t in s.waiters {
        FreedWaiters(s, i, t);
        assert s.Enqueued(t, Some(i)) <==> t in s.Queue(i);
      }
    }
  }

  lemma IdleIsOwedFreed(w: World, i: nat, w': World)
    requires WaitingOk(w.sched) && OwingOk(w) && i < |w.sched.slots|
    requires w'.sched == Freed(w.sched, i)
    requires w'.owed == if w.sched.slots[i].busy then Owing(w, i) else w.owed
    ensures IdleIsOwed(w')
  {
    var s := w.sched;
    forall k: nat, g | Idle(w'.sched.slots, k) && w'.sched.ParkedGlobally(g)
      ensures exists t :: t in w'.owed && w'.owed[t] == k
    {
      FreedWaiters(s, i, g);
      assert s.ParkedGlobally(g) && s.Enqueued(g, None);
      if k == i && s.slots[i].busy {
        var t :| t in s.Queue(i) && t in s.waiters;
        assert t in w'.owed && w'.owed[t] == i;
      } else {
        assert Idle(s.slots, k);
        var t :| t in w.owed && w.owed[t] == k;
        assert t in s.Queue(i) ==> s.Enqueued(t, Some(i));
        assert t in w'.owed && w'.owed[t] == k;
      }
    }
  }

  lemma OwingStep(w: World, e: Event, w': World)
    requires Inv(w) && Step(w, e, w')
    ensures OwingOk(w')
  {
    var s := w.sched;
    match e
    case Arrive(hint, o) =>
      assert Resumed(s, s.nextTicket) == s && w.owed - {s.nextTicket} == w.owed;
      OwingAttempt(w, s.nextTicket, hint, o, w'.sched, w');
    case Retry(t, o) => OwingAttempt(w, t, s.waiters[t].hint, o, w'.sched, w');
    case Cancel(t) => assert forall g | w'.sched.ParkedGlobally(g) :: s.ParkedGlobally(g);
    case Release(g) =>
      OwedFreed(w, w.guards[g], w');
      IdleIsOwedFreed(w, w.guards[g], w');
    case Reconcile(i) =>
      if i < |s.slots| && s.slots[i].seededUnowned {
        OwedFreed(w, i, w');
        IdleIsOwedFreed(w, i, w');
      }
    case MarkResident(i, m, p) => OwingResidency(w, w'.sched.slots);
    case ClearResident(i) => OwingResidency(w, w'.sched.slots);
  }

  lemma OwingResidency(w: World, slots: seq<Slot>)
    requires OwingOk(w) && |slots| == |w.sched.slots|
    requires forall i | 0 <= i < |slots| :: slots[i].busy == w.sched.slots[i].busy
    ensures OwingOk(w.(sched := w.sched.(slots := slots)))
  {
    var s' := w.sched.(slots := slots);
    assert forall g | s'.ParkedGlobally(g) :: w.sched.ParkedGlobally(g);
    assert forall i: nat | Idle(slots, i) :: Idle(w.sched.slots, i);
  }

  // ------------------------------------------------------------------- runs

  lemma StepInv(w: World, e: Event, w': World)
    requires Inv(w) && Step(w, e, w')
    ensures Inv(w') && |w'.sched.slots| == |w.sched.slots|
  {
    LedgerStep(w, e, w');
    WaitingStep(w, e, w');
    OwingStep(w, e, w');
    SizeStep(w, e, w');
  }

  /** The number of slots is fixed at startup. */
  lemma SizeStep(w: World, e: Event, w': World)
    requires Step(w, e, w')
    ensures |w'.sched.slots| == |w.sched.slots|
  {
  }

  lemma {:induction false} PathInv(ws: seq<World>, es: seq<Event>, k: nat)
    requires IsPath(ws, es) && Inv(ws[0]) && k <= |es|
    ensures Inv(ws[k]) && |ws[k].sched.slots| == |ws[0].sched.slots|
  {
    if k > 0 {
      PathInv(ws, es, k - 1);
      var w, e, w' := ws[k - 1], es[k - 1], ws[k];
      assert Step(w, e, w');
      StepInv(w, e, w');
    }
  }

  /** The invariant of every reachable state, over all interleavings. */
  lemma ReachableInv(w: World, n: nat)
    requires Reachable(w, n)
    ensures Inv(w) && |w.sched.slots| == n
  {
    var ws, es :| IsRun(ws, es, n) && ws[|es|] == w;
    InitInv(ws[0], n);
    PathInv(ws, es, |es|);
  }
}
