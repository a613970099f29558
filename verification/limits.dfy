/**
 * Concrete one-slot runs showing where the waiters' guarantees end: a global
 * waiter can be stranded, and a woken specific waiter can be pre-empted.
 */
module Limits {
  import opened Options
  import opened Slots
  import opened Protocol
  import opened Wakeups
  import opened Preemption

  const PREFERS_ZERO := Some(Hint("p", Some(0), None))

  function OneSlot(slot: Slot, clock: nat, specific: map<nat, seq<nat>>, global: seq<nat>,
                   waiters: map<nat, Waiter>, next: nat): Sched
  {
    Sched([slot], clock, specific, global, waiters, next)
  }

  /** One slot, held by the first request, with a global waiter parked as ticket 0. */
  lemma HeldWithGlobalWaiter() returns (w: World)
    ensures Reachable(w, 1) && w.guards == map[1 := 0] && w.owed == map[]
    ensures w.sched == OneSlot(FRESH_SLOT.(busy := true, lastUsed := 1), 1, map[], [0],
                               map[0 := Waiter(None, false)], 1)
  {
    var w0 := World(OneSlot(FRESH_SLOT, 0, map[], [], map[], 0), [], map[], {}, {}, map[]);
    assert Init(w0, 1);
    assert IsRun([w0], [], 1) && [w0][0] == w0;
    var w1 := Recorded(w0, Admitted(Admission(0, false)),
      OneSlot(FRESH_SLOT.(busy := true, lastUsed := 1), 1, map[], [], map[], 0));
    assert Idle(w0.sched.slots, 0);
    assert Step(w0, Arrive(None, Admitted(Admission(0, false))), w1);
    Extend(w0, 1, Arrive(None, Admitted(Admission(0, false))), w1);
    w := Recorded(w1, Queued(0), Park(w1.sched, None));
    assert Step(w1, Arrive(None, Queued(0)), w);
    Extend(w1, 1, Arrive(None, Queued(0)), w);
  }

  /** Stranding happens: an idle slot, no wake outstanding, and a global waiter still parked. */
  lemma StrandedGlobalWaiterExists() returns (w: World)
    ensures Reachable(w, 1) && Quiescent(w)
    ensures Idle(w.sched.slots, 0) && w.sched.ParkedGlobally(0)
  {
    var held := HeldWithGlobalWaiter();
    var both := Recorded(held, Queued(1), Park(held.sched, PREFERS_ZERO));
    assert Step(held, Arrive(PREFERS_ZERO, Queued(1)), both);
    Extend(held, 1, Arrive(PREFERS_ZERO, Queued(1)), both);
    var v := both.(sched := Freed(both.sched, 0), guards := both.guards - {1},
                   released := both.released + {1}, owed := Owing(both, 0));
    assert Step(both, Release(1), v);
    Extend(both, 1, Release(1), v);
    var ws, es := DeferredWaiterCanStrand(both, 1, Release(1), 0, v, 1, 0);
    ExtendAlong(ws, es, 1, |es|);
    w := ws[|es|];
  }

  const HELD := FRESH_SLOT.(busy := true, lastUsed := 2)

  /**
   * The first release woke global waiter 0, but a new arrival took the slot
   * before it retried; waiter 1 now waits specifically for the slot.
   */
  lemma WokenGlobalBesideSpecific() returns (w: World)
    ensures Reachable(w, 1) && w.guards == map[2 := 0] && w.owed == map[]
    ensures w.sched == OneSlot(HELD, 2, map[0 := [1]], [],
      map[0 := Waiter(None, true), 1 := Waiter(PREFERS_ZERO, false)], 2)
  {
    var held := HeldWithGlobalWaiter();
    var woken := held.(sched := Freed(held.sched, 0), guards := held.guards - {1},
                       released := held.released + {1}, owed := Owing(held, 0));
    assert Step(held, Release(1), woken);
    Extend(held, 1, Release(1), woken);
    assert woken.sched == OneSlot(FRESH_SLOT.(lastUsed := 1), 1, map[], [], map[0 := Waiter(None, true)], 1);
    assert woken.owed == map[];
    assert Idle(woken.sched.slots, 0);
    var taken := Admission(0, false);
    var again := Recorded(woken, Admitted(taken),
      woken.sched.(slots := Claim(woken.sched.slots, 0, 2), clock := 2));
    assert Step(woken, Arrive(None, Admitted(taken)), again);
    Extend(woken, 1, Arrive(None, Admitted(taken)), again);
    assert again.sched.slots == [HELD];
    w := Recorded(again, Queued(1), Park(again.sched, PREFERS_ZERO));
    assert again.sched.Queue(0) + [1] == [1];
    assert w.sched.waiters == map[0 := Waiter(None, true), 1 := Waiter(PREFERS_ZERO, false)];
    assert w.sched.slotWaiters == map[0 := [1]];
    assert Step(again, Arrive(PREFERS_ZERO, Queued(1)), w);
    Extend(again, 1, Arrive(PREFERS_ZERO, Queued(1)), w);
  }

  /**
   * Pre-emption happens even on one slot: a global waiter woken by an earlier
   * release takes the slot while the specific waiter woken for it by the
   * latest release has not retried yet.
   */
  lemma SpecificWaiterCanBePreempted() returns (before: World, freed: World, after: World)
    ensures Reachable(before, 1) && before.sched.ParkedFor(1, 0)
    ensures before.sched.Woken(0) && before.sched.Home(0) == None
    ensures Step(before, Release(2), freed) && freed.sched.Woken(1)
    ensures Step(freed, Retry(0, Admitted(Admission(0, false))), after)
    ensures after.sched.Woken(1) && !Idle(after.sched.slots, 0)
  {
    before := WokenGlobalBesideSpecific();
    freed := before.(sched := Freed(before.sched, 0), guards := before.guards - {2},
                     released := before.released + {2}, owed := Owing(before, 0));
    assert 1 in before.sched.Queue(0);
    var resumed := Resumed(freed.sched, 0);
    assert Idle(resumed.slots, 0);
    after := Recorded(freed, Admitted(Admission(0, false)),
      resumed.(slots := Claim(resumed.slots, 0, 3), clock := 3)).(owed := freed.owed - {0});
  }

  const SEEDED := FRESH_SLOT.(busy := true, seededUnowned := true)

  /** One slot, busy since startup, with a global waiter parked as ticket 0 and a specific one as ticket 1. */
  lemma SeededWithBothWaiters() returns (w: World)
    ensures Reachable(w, 1)
    ensures w.sched == OneSlot(SEEDED, 0, map[0 := [1]], [0],
      map[0 := Waiter(None, false), 1 := Waiter(PREFERS_ZERO, false)], 2)
  {
    var w0 := World(OneSlot(SEEDED, 0, map[], [], map[], 0), [], map[], {}, {0}, map[]);
    assert Init(w0, 1);
    assert IsRun([w0], [], 1) && [w0][0] == w0;
    var w1 := Recorded(w0, Queued(0), Park(w0.sched, None));
    assert Step(w0, Arrive(None, Queued(0)), w1);
    Extend(w0, 1, Arrive(None, Queued(0)), w1);
    assert w1.sched == OneSlot(SEEDED, 0, map[], [0], map[0 := Waiter(None, false)], 1);
    w := Recorded(w1, Queued(1), Park(w1.sched, PREFERS_ZERO));
    assert w1.sched.Queue(0) + [1] == [1];
    assert w.sched.slotWaiters == map[0 := [1]];
    assert Step(w1, Arrive(PREFERS_ZERO, Queued(1)), w);
    Extend(w1, 1, Arrive(PREFERS_ZERO, Queued(1)), w);
  }

  /**
   * With no general waiter woken, an idle report followed by the same report
   * again loses the specific waiter its only slot.
   */
  lemma ReportedSlotCanBePreempted() returns (before: World, freed: World, ws: seq<World>, es: seq<Event>)
    ensures Reachable(before, 1) && before.sched.ParkedFor(1, 0)
    ensures forall t :: !WokenGeneral(before.sched, t)
    ensures Step(before, Reconcile(0), freed) && Takes(freed, ws, es, 1, 0, 0) && StaysIdle(ws, es, 0)
  {
    before := SeededWithBothWaiters();
    freed := before.(sched := Freed(before.sched, 0), seeded := before.seeded - {0}, owed := Owing(before, 0));
    assert Step(before, Reconcile(0), freed);
    DeferringFree(before, 1, Reconcile(0), 0, 1, freed);
    assert General(before.sched, 0);
    ws, es := RepeatedReportLetsTake(freed, 1, 0, 0);
  }
}
