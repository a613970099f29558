/**
 * What the wake discipline guarantees to waiters, and exactly where it stops:
 * lost wakes, quiescence, and stranded global waiters.
 */
module Wakeups {
  import opened Options
  import opened Slots
  import opened Protocol
  import opened Invariant

  function Pending(w: World): set<nat> {
    set t | t in w.sched.waiters && w.sched.waiters[t].woken
  }

  ghost predicate Quiescent(w: World) {
    Pending(w) == {}
  }

  lemma Extend(w: World, n: nat, e: Event, w': World)
    requires Reachable(w, n) && Step(w, e, w')
    ensures Reachable(w', n)
  {
    var ws, es :| IsRun(ws, es, n) && ws[|es|] == w;
    var ws', es' := ws + [w'], es + [e];
    forall k | 0 <= k < |es'| ensures Step(ws'[k], es'[k], ws'[k + 1]) {
      if k < |es| {
        assert Step(ws[k], es[k], ws[k + 1]);
      }
    }
    assert IsRun(ws', es', n) && ws'[|es'|] == w';
  }

  // ------------------------------------------------------------ no lost wake

  /** No specific waiter is lost: its slot is busy, and the next free of that slot wakes it. */
  lemma SpecificWaiterIsWoken(w: World, n: nat, t: nat, i: nat, e: Event, w': World)
    requires Reachable(w, n) && w.sched.ParkedFor(t, i) && Step(w, e, w')
    ensures i < n && w.sched.slots[i].busy
    ensures Idle(w'.sched.slots, i) ==> w'.sched.Woken(t)
  {
    ReachableInv(w, n);
    Extend(w, n, e, w');
    ReachableInv(w', n);
    if Idle(w'.sched.slots, i) {
      ParkedStep(w, e, w', t);
    }
  }

  /** The step carries out a free of slot `i`. */
  predicate Frees(w: World, e: Event, i: nat) {
    match e
    case Release(g) => g in w.guards && w.guards[g] == i && i < |w.sched.slots|
    case Reconcile(j) => j == i && i < |w.sched.slots| && w.sched.slots[i].seededUnowned
    case _ => false
  }

  /** A parked waiter leaves that state only by giving up or by a free that drains its queue. */
  lemma ParkedStep(w: World, e: Event, w': World, t: nat)
    requires WaitingOk(w.sched) && Step(w, e, w')
    requires t in w.sched.waiters && !w.sched.waiters[t].woken
    ensures t in w'.sched.waiters ==> w'.sched.waiters[t].hint == w.sched.waiters[t].hint
    ensures t !in w'.sched.waiters <==> e == Cancel(t)
    ensures w'.sched.Woken(t) <==>
      exists i: nat :: Frees(w, e, i) && Drains(w.sched, i, w.sched.Home(t))
  {
    assert w.sched.Enqueued(t, w.sched.Home(t));
    var i := if e.Release? && e.stamp in w.guards then w.guards[e.stamp]
             else if e.Reconcile? then e.slot else 0;
    assert forall j: nat :: Frees(w, e, j) ==> j == i;
    if Frees(w, e, i) {
      FreedWaiters(w.sched, i, t);
    }
  }

  // -------------------------------------------------------------- quiescence

  /** Consuming one outstanding wake: the woken waiter retries, or gives up instead. */
  ghost predicate Consumes(w: World, e: Event) {
    (e.Retry? || e.Cancel?) && w.sched.Woken(e.ticket)
  }

  lemma ConsumeStep(w: World, e: Event, w': World)
    requires WaitingOk(w.sched) && Step(w, e, w') && Consumes(w, e)
    ensures Pending(w') == Pending(w) - {e.ticket} && e.ticket in Pending(w)
  {
  }

  /** The step frees some slot. */
  ghost predicate FreesSome(w: World, e: Event) {
    exists i: nat :: Frees(w, e, i)
  }

  /** Arrivals, marks, clears, ignored reports and cancels of parked waiters settle no wake and cause none. */
  lemma NeutralStep(w: World, e: Event, w': World)
    requires Ledger(w) && WaitingOk(w.sched) && Step(w, e, w') && !Consumes(w, e) && !FreesSome(w, e)
    ensures Pending(w') == Pending(w)
  {
    match e
    case Release(g) => assert Frees(w, e, w.guards[g]);
    case Reconcile(i) => assert !Frees(w, e, i);
    case _ =>
  }

  /** How many of the first `k` events consume a wake. */
  ghost function Consumed(ws: seq<World>, es: seq<Event>, k: nat): nat
    requires k <= |es| <= |ws|
  {
    if k == 0 then 0
    else Consumed(ws, es, k - 1) + if Consumes(ws[k - 1], es[k - 1]) then 1 else 0
  }

  /** As long as no slot is freed, every consumed wake, and nothing else, leaves one fewer outstanding. */
  lemma {:induction false} ConsumptionCounts(ws: seq<World>, es: seq<Event>, k: nat)
    requires IsPath(ws, es) && Inv(ws[0]) && k <= |es|
    requires forall j | 0 <= j < k :: !FreesSome(ws[j], es[j])
    ensures |Pending(ws[k])| + Consumed(ws, es, k) == |Pending(ws[0])|
  {
    if k > 0 {
      var w, e, w' := ws[k - 1], es[k - 1], ws[k];
      assert Step(w, e, w') && !FreesSome(w, e);
      ConsumptionCounts(ws, es, k - 1);
      PathInv(ws, es, k - 1);
      if Consumes(w, e) {
        ConsumeStep(w, e, w');
      } else {
        NeutralStep(w, e, w');
      }
    }
  }

  /** A request can always be decided on the spot. */
  lemma AttemptDecides(s: Sched, hint: Option<Hint>) returns (o: Outcome, s': Sched)
    ensures Attempt(s, hint, o, s')
  {
    ChoiceIffNotBlocked(s.slots, hint);
    if Blocked(s.slots, hint) {
      o, s' := Queued(s.nextTicket), Park(s, hint);
    } else {
      var i: nat :| Chosen(s.slots, hint, i);
      assert Idle(s.slots, i);
      o := Admitted(Admission(i, ResidentMatch(s.slots, hint, i)));
      s' := s.(slots := Claim(s.slots, i, s.clock + 1), clock := s.clock + 1);
    }
  }

  /** Some woken waiter can retry, which leaves one outstanding wake less. */
  lemma RetryOne(w: World) returns (e: Event, w': World)
    requires Inv(w) && !Quiescent(w)
    ensures e.Retry? && Step(w, e, w') && Inv(w') && |Pending(w')| == |Pending(w)| - 1
  {
    var t :| t in Pending(w);
    var o, s' := AttemptDecides(Resumed(w.sched, t), w.sched.waiters[t].hint);
    e, w' := Retry(t, o), Recorded(w, o, s').(owed := w.owed - {t});
    assert Step(w, e, w');
    StepInv(w, e, w');
    ConsumeStep(w, e, w');
  }

  /** From any state, letting every woken waiter retry once reaches quiescence. */
  lemma {:induction false} RetriesReachQuiescence(w: World) returns (ws: seq<World>, es: seq<Event>)
    requires Inv(w)
    ensures IsPath(ws, es) && ws[0] == w && |es| == |Pending(w)| && Quiescent(ws[|es|])
    ensures forall e | e in es :: e.Retry?
    decreases |Pending(w)|
  {
    if Quiescent(w) {
      ws, es := [w], [];
    } else {
      var e, w' := RetryOne(w);
      var ws', es' := RetriesReachQuiescence(w');
      ws, es := [w] + ws', [e] + es';
      PrependStep(w, e, ws', es');
    }
  }

  lemma PrependStep(w: World, e: Event, ws: seq<World>, es: seq<Event>)
    requires IsPath(ws, es) && Step(w, e, ws[0])
    ensures IsPath([w] + ws, [e] + es)
  {
    var ws', es' := [w] + ws, [e] + es;
    forall k | 0 <= k < |es'| ensures Step(ws'[k], es'[k], ws'[k + 1]) {
      if k > 0 {
        assert Step(ws[k - 1], es[k - 1], ws[k]);
      }
    }
  }

  /** A specific waiter that was already woken gives up instead of retrying. */
  ghost predicate AbandonsWake(w: World, e: Event) {
    e.Cancel? && w.sched.Woken(e.ticket) && w.sched.Home(e.ticket).Some?
  }

  lemma {:induction false} OwedStayAlive(ws: seq<World>, es: seq<Event>, n: nat, k: nat)
    requires IsRun(ws, es, n) && k <= |es|
    requires forall j | 0 <= j < |es| :: !AbandonsWake(ws[j], es[j])
    ensures ws[k].owed.Keys <= ws[k].sched.waiters.Keys
  {
    if k > 0 {
      var w, e, w' := ws[k - 1], es[k - 1], ws[k];
      assert Step(w, e, w') && !AbandonsWake(w, e);
      OwedStayAlive(ws, es, n, k - 1);
      InitInv(ws[0], n);
      PathInv(ws, es, k - 1);
      OwedAliveStep(w, e, w');
    }
  }

  lemma OwedAliveStep(w: World, e: Event, w': World)
    requires Inv(w) && Step(w, e, w') && !AbandonsWake(w, e)
    requires w.owed.Keys <= w.sched.waiters.Keys
    ensures w'.owed.Keys <= w'.sched.waiters.Keys
  {
    match e
    case Release(g) => FreeKeepsOwedAlive(w, w.guards[g]);
    case Reconcile(i) => FreeKeepsOwedAlive(w, i);
    case _ =>
  }

  lemma FreeKeepsOwedAlive(w: World, i: nat)
    requires w.owed.Keys <= w.sched.waiters.Keys
    ensures Freed(w.sched, i).waiters.Keys == w.sched.waiters.Keys
    ensures Owing(w, i).Keys <= w.sched.waiters.Keys
  {
  }

  /**
   * Work conservation. Over any run in which no woken specific waiter gave up
   * before retrying: once no wake is outstanding, an idle slot means nobody is
   * waiting for it, neither specifically nor globally.
   */
  lemma WorkConserving(ws: seq<World>, es: seq<Event>, n: nat, i: nat, t: nat)
    requires IsRun(ws, es, n)
    requires forall j | 0 <= j < |es| :: !AbandonsWake(ws[j], es[j])
    requires Quiescent(ws[|es|]) && Idle(ws[|es|].sched.slots, i)
    ensures !ws[|es|].sched.ParkedGlobally(t) && !ws[|es|].sched.ParkedFor(t, i)
  {
    var w := ws[|es|];
    InitInv(ws[0], n);
    PathInv(ws, es, |es|);
    OwedStayAlive(ws, es, n, |es|);
    assert w.owed.Keys <= Pending(w);
    assert forall u :: u !in w.owed.Keys;
  }

  /** Slot `i` goes from busy to free. */
  predicate FreedBy(w: World, w': World, i: nat) {
    i < |w.sched.slots| && w.sched.slots[i].busy && Idle(w'.sched.slots, i)
  }

  /** Event `j` freed slot `i` and woke `t` for it; up to `k` nothing freed `i` again and `t` did not retry. */
  ghost predicate OwedSince(ws: seq<World>, es: seq<Event>, t: nat, i: nat, j: nat, k: nat)
    requires |ws| == |es| + 1
  {
    && j < k <= |es|
    && FreedBy(ws[j], ws[j + 1], i)
    && ws[j].sched.ParkedFor(t, i) && ws[j + 1].sched.Woken(t)
    && (forall m: nat | j < m < k :: !FreedBy(ws[m], ws[m + 1], i))
    && (forall m: nat | j < m < k :: !(es[m].Retry? && es[m].ticket == t))
  }

  lemma OwedByFree(w: World, k: nat, w': World, t: nat, i: nat)
    requires WaitingOk(w.sched) && k < |w.sched.slots| && w.sched.slots[k].busy
    requires w'.sched == Freed(w.sched, k) && w'.owed == Owing(w, k) && t in w'.owed && w'.owed[t] == i
    ensures FreedBy(w, w', i) <==> i == k
    ensures if i == k then w.sched.ParkedFor(t, i) && w'.sched.Woken(t) else t in w.owed && w.owed[t] == i
  {
    if i == k {
      assert w.sched.Enqueued(t, Some(i));
      FreedWaiters(w.sched, i, t);
    }
  }

  /** A debt is either older than a step or made by it. */
  lemma OwedByStep(w: World, e: Event, w': World, t: nat, i: nat)
    requires WaitingOk(w.sched) && Ledger(w) && Step(w, e, w') && t in w'.owed && w'.owed[t] == i
    ensures if FreedBy(w, w', i) then w.sched.ParkedFor(t, i) && w'.sched.Woken(t)
            else t in w.owed && w.owed[t] == i && !(e.Retry? && e.ticket == t)
  {
    match e
    case Release(g) => OwedByFree(w, w.guards[g], w', t, i);
    case Reconcile(k) =>
      if k < |w.sched.slots| && w.sched.slots[k].seededUnowned && w.sched.slots[k].busy {
        OwedByFree(w, k, w', t, i);
      }
    case _ =>
  }

  lemma {:induction false} OwedIsHistory(ws: seq<World>, es: seq<Event>, n: nat, t: nat, i: nat, k: nat) returns (j: nat)
    requires IsRun(ws, es, n) && k <= |es| && t in ws[k].owed && ws[k].owed[t] == i
    ensures OwedSince(ws, es, t, i, j, k)
  {
    assert k > 0;
    var w, e, w' := ws[k - 1], es[k - 1], ws[k];
    assert Step(w, e, w');
    InitInv(ws[0], n);
    PathInv(ws, es, k - 1);
    OwedByStep(w, e, w', t, i);
    if FreedBy(w, w', i) {
      j := k - 1;
    } else {
      j := OwedIsHistory(ws, es, n, t, i, k - 1);
    }
  }

  /**
   * Over any run: a global waiter parked beside idle slot `i` means that the
   * latest event to free `i` woke a waiter parked for it which has not retried
   * since; that waiter is either about to, or gave up after the wake.
   */
  lemma IdleBesideGlobalIsOwed(ws: seq<World>, es: seq<Event>, n: nat, i: nat, g: nat) returns (j: nat, t: nat)
    requires IsRun(ws, es, n)
    requires Idle(ws[|es|].sched.slots, i) && ws[|es|].sched.ParkedGlobally(g)
    ensures OwedSince(ws, es, t, i, j, |es|)
    ensures t in ws[|es|].sched.waiters ==> ws[|es|].sched.Woken(t)
  {
    var w := ws[|es|];
    InitInv(ws[0], n);
    PathInv(ws, es, |es|);
    t :| t in w.owed && w.owed[t] == i;
    j := OwedIsHistory(ws, es, n, t, i, |es|);
  }

  // --------------------------------------------------- stranded and deferred

  /** Wakes of slot `i` are withheld from the global queue exactly while somebody alive is parked for it. */
  lemma DeferringIff(s: Sched, i: nat)
    requires QueuesOk(s)
    ensures Deferring(s, i) <==> exists u :: s.ParkedFor(u, i)
  {
    if Deferring(s, i) {
      var u :| u in s.Queue(i) && u in s.waiters;
      assert s.Enqueued(u, Some(i)) && s.ParkedFor(u, i);
    }
    if u :| s.ParkedFor(u, i) {
      assert s.Enqueued(u, Some(i));
    }
  }

  /**
   * A free of a slot, by a release or by an idle report, leaves a parked global
   * waiter parked exactly when someone alive waits for that slot.
   */
  lemma FreeDefersIff(w: World, n: nat, e: Event, i: nat, w': World, t: nat)
    requires Reachable(w, n) && Step(w, e, w') && Frees(w, e, i) && w.sched.ParkedGlobally(t)
    ensures w'.sched.ParkedGlobally(t) <==> exists u :: w.sched.ParkedFor(u, i)
  {
    ReachableInv(w, n);
    ParkedStep(w, e, w', t);
    DeferringIff(w.sched, i);
    assert forall k: nat | Frees(w, e, k) :: k == i;
  }

  /** Cancelling every outstanding wake leaves slots and parked waiters as they are. */
  lemma {:induction false} AbandonAll(w: World) returns (ws: seq<World>, es: seq<Event>)
    requires WaitingOk(w.sched)
    ensures IsPath(ws, es) && ws[0] == w && (forall e | e in es :: e.Cancel?)
    ensures Quiescent(ws[|es|]) && ws[|es|].sched.slots == w.sched.slots
    ensures forall t | w.sched.ParkedGlobally(t) :: ws[|es|].sched.ParkedGlobally(t)
    decreases |Pending(w)|
  {
    if Quiescent(w) {
      ws, es := [w], [];
    } else {
      var t :| t in Pending(w);
      var v := w.(sched := Resumed(w.sched, t));
      assert Step(w, Cancel(t), v);
      WaitingStep(w, Cancel(t), v);
      ConsumeStep(w, Cancel(t), v);
      var ws', es' := AbandonAll(v);
      PrependStep(w, Cancel(t), ws', es');
      ws, es := [w] + ws', [Cancel(t)] + es';
      assert forall u | w.sched.ParkedGlobally(u) :: v.sched.ParkedGlobally(u);
    }
  }

  /**
   * The deferral of `FreeDefersIff` is all it takes to strand: whenever a free
   * of slot `i` defers parked global waiter `t`, the run can go on, by waiters
   * giving up, to where the slot is idle, no wake is outstanding, and `t` is
   * still parked.
   */
  lemma DeferredWaiterCanStrand(w: World, n: nat, e: Event, i: nat, w': World, u: nat, t: nat)
    returns (ws: seq<World>, es: seq<Event>)
    requires Reachable(w, n) && Step(w, e, w') && Frees(w, e, i)
    requires w.sched.ParkedFor(u, i) && w.sched.ParkedGlobally(t)
    ensures IsPath(ws, es) && ws[0] == w' && (forall e | e in es :: e.Cancel?)
    ensures Quiescent(ws[|es|]) && Idle(ws[|es|].sched.slots, i) && ws[|es|].sched.ParkedGlobally(t)
  {
    FreeDefersIff(w, n, e, i, w', t);
    ReachableInv(w, n);
    StepInv(w, e, w');
    assert Idle(w'.sched.slots, i);
    ws, es := AbandonAll(w');
  }

  /** Reachable states are closed under paths. */
  lemma {:induction false} ExtendAlong(ws: seq<World>, es: seq<Event>, n: nat, k: nat)
    requires IsPath(ws, es) && Reachable(ws[0], n) && k <= |es|
    ensures Reachable(ws[k], n)
  {
    if k > 0 {
      ExtendAlong(ws, es, n, k - 1);
      Extend(ws[k - 1], n, es[k - 1], ws[k]);
    }
  }

  // --------------------------------------------------------- repeated reports

  /**
   * An idle report for a slot that is already idle wakes the global queue iff
   * the slot was seeded and never claimed, although nothing becomes free: it
   * is what brings a global waiter parked beside such a slot back.
   */
  lemma RepeatedReportIff(w: World, n: nat, i: nat, w': World, t: nat)
    requires Reachable(w, n) && Idle(w.sched.slots, i) && w.sched.ParkedGlobally(t)
    requires Step(w, Reconcile(i), w')
    ensures w'.sched.slots == w.sched.slots
    ensures w'.sched.Woken(t) <==> w.sched.slots[i].seededUnowned
  {
    ReachableInv(w, n);
    ParkedStep(w, Reconcile(i), w', t);
    DeferringIff(w.sched, i);
    assert Frees(w, Reconcile(i), i) <==> w.sched.slots[i].seededUnowned;
    assert forall u :: !w.sched.ParkedFor(u, i);
  }
}
