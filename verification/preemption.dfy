/**
 * Exactly when a specific waiter that was woken for its freed slot can lose
 * that slot to a general waiter.
 */
module Preemption {
  import opened Options
  import opened Slots
  import opened Protocol
  import opened Invariant
  import opened Wakeups
  import opened Priority

  /** A live waiter that takes any slot. */
  predicate General(s: Sched, t: nat) {
    t in s.waiters && s.Home(t) == None
  }

  predicate WokenGeneral(s: Sched, t: nat) {
    s.Woken(t) && s.Home(t) == None
  }

  /** Idle slot `i` is there for woken waiter `u` to take. */
  predicate Awaits(s: Sched, i: nat, u: nat) {
    Idle(s.slots, i) && s.Woken(u) && s.Home(u) == Some(i)
  }

  /** A run from `v` that ends with general waiter `t` claiming slot `i` on its retry, `u` not having retried. */
  ghost predicate Takes(v: World, ws: seq<World>, es: seq<Event>, u: nat, t: nat, i: nat) {
    && IsPath(ws, es) && ws[0] == v && |es| > 0
    && es[|es| - 1].Retry? && es[|es| - 1].ticket == t
    && Admits(es[|es| - 1]) && es[|es| - 1].outcome.admission.slotId == i
    && WokenGeneral(ws[|es| - 1].sched, t)
    && ws[|es|].sched.Woken(u)
  }

  /** Slot `i` is idle before every event of the run. */
  ghost predicate StaysIdle(ws: seq<World>, es: seq<Event>, i: nat) {
    |ws| == |es| + 1 && forall j: nat | j < |es| :: Idle(ws[j].sched.slots, i)
  }

  ghost predicate NoGlobalWake(ws: seq<World>, es: seq<Event>) {
    |ws| == |es| + 1 && forall j: nat | j < |es| :: !WakesGlobals(ws[j], es[j])
  }

  // ------------------------------------------------ where the claimant is from

  /** While some slot is idle nobody new parks globally. */
  lemma GeneralsAreOldStep(w: World, e: Event, w': World, i: nat, t: nat)
    requires Step(w, e, w') && Idle(w.sched.slots, i) && General(w'.sched, t)
    ensures General(w.sched, t)
  {
    SizeStep(w, e, w');
  }

  lemma {:induction false} GeneralsAreOld(ws: seq<World>, es: seq<Event>, i: nat, t: nat, k: nat)
    requires IsPath(ws, es) && StaysIdle(ws, es, i) && k <= |es| && General(ws[k].sched, t)
    ensures General(ws[0].sched, t)
  {
    if k > 0 {
      var w, e, w' := ws[k - 1], es[k - 1], ws[k];
      assert Step(w, e, w');
      GeneralsAreOldStep(w, e, w', i, t);
      GeneralsAreOld(ws, es, i, t, k - 1);
    }
  }

  /** Only a wake of the global queue adds a woken general waiter. */
  lemma WokenGeneralsAreOldStep(w: World, e: Event, w': World, t: nat)
    requires WaitingOk(w.sched) && Step(w, e, w') && !WakesGlobals(w, e) && WokenGeneral(w'.sched, t)
    ensures WokenGeneral(w.sched, t)
  {
    SizeStep(w, e, w');
    assert forall i: nat | Frees(w, e, i) :: !Drains(w.sched, i, None);
    if t in w.sched.waiters && !w.sched.waiters[t].woken {
      ParkedStep(w, e, w', t);
    }
  }

  lemma {:induction false} WokenGeneralsAreOld(ws: seq<World>, es: seq<Event>, t: nat, k: nat)
    requires IsPath(ws, es) && Inv(ws[0]) && k <= |es|
    requires forall j: nat | j < k :: !WakesGlobals(ws[j], es[j])
    requires WokenGeneral(ws[k].sched, t)
    ensures WokenGeneral(ws[0].sched, t)
  {
    if k > 0 {
      var w, e, w' := ws[k - 1], es[k - 1], ws[k];
      assert Step(w, e, w') && !WakesGlobals(w, e);
      PathInv(ws, es, k - 1);
      WokenGeneralsAreOldStep(w, e, w', t);
      WokenGeneralsAreOld(ws, es, t, k - 1);
    }
  }

  /** The state that a free leads to, when somebody alive is parked for its slot. */
  lemma DeferringFree(w: World, n: nat, e: Event, i: nat, u: nat, v: World)
    requires Reachable(w, n) && Step(w, e, v) && Frees(w, e, i) && w.sched.ParkedFor(u, i)
    ensures Inv(v) && |v.sched.slots| == n && !WakesGlobals(w, e) && Awaits(v.sched, i, u)
    ensures v.sched == Freed(w.sched, i)
    ensures forall t :: General(v.sched, t) <==> General(w.sched, t)
    ensures forall t :: WokenGeneral(v.sched, t) <==> WokenGeneral(w.sched, t)
    ensures forall t | General(w.sched, t) :: v.sched.waiters[t].hint == w.sched.waiters[t].hint
  {
    ReachableInv(w, n);
    StepInv(w, e, v);
    assert v.sched == Freed(w.sched, i);
    DeferringIff(w.sched, i);
    assert w.sched.Enqueued(u, Some(i));
    FreedWaiters(w.sched, i, u);
    FreedGenerals(w.sched, i);
  }

  lemma FreedGenerals(s: Sched, i: nat)
    requires WaitingOk(s) && i < |s.slots| && Deferring(s, i)
    ensures Freed(s, i).waiters.Keys == s.waiters.Keys
    ensures forall t :: General(Freed(s, i), t) <==> General(s, t)
    ensures forall t :: WokenGeneral(Freed(s, i), t) <==> WokenGeneral(s, t)
    ensures forall t | General(s, t) :: Freed(s, i).waiters[t].hint == s.waiters[t].hint
  {
    forall t | t in s.waiters
      ensures Freed(s, i).waiters[t].hint == s.waiters[t].hint
      ensures s.Home(t) == None ==> Freed(s, i).waiters[t].woken == s.waiters[t].woken
    {
      FreedWaiters(s, i, t);
      assert s.Enqueued(t, Some(i)) ==> s.Home(t) == Some(i);
    }
  }

  // --------------------------------------------------------- runs, from behind

  /** A taking run may be extended at its front. */
  lemma PrependTakes(w: World, e: Event, v: World, ws: seq<World>, es: seq<Event>, u: nat, t: nat, i: nat)
    requires Takes(v, ws, es, u, t, i) && Step(w, e, v)
    ensures Takes(w, [w] + ws, [e] + es, u, t, i)
    ensures Idle(w.sched.slots, i) && StaysIdle(ws, es, i) ==> StaysIdle([w] + ws, [e] + es, i)
    ensures !WakesGlobals(w, e) && NoGlobalWake(ws, es) ==> NoGlobalWake([w] + ws, [e] + es)
  {
    PrependStep(w, e, ws, es);
  }

  function IdleOthers(slots: seq<Slot>, i: nat): set<nat> {
    set k | 0 <= k < |slots| && !slots[k].busy && k != i
  }

  /** A newcomer that prefers idle slot `k` takes it; waiters are left alone. */
  lemma TakeByPreference(w: World, k: nat) returns (e: Event, w': World)
    requires Idle(w.sched.slots, k)
    ensures Step(w, e, w') && e.Arrive? && w'.sched.waiters == w.sched.waiters
    ensures w'.sched.slots == Claim(w.sched.slots, k, w.sched.clock + 1)
    ensures w'.sched.clock in w'.guards && w'.guards[w'.sched.clock] == k
  {
    var s, hint := w.sched, Some(Hint("", Some(k), None));
    var o := Admitted(Admission(k, ResidentMatch(s.slots, hint, k)));
    e := Arrive(hint, o);
    w' := Recorded(w, o, s.(slots := Claim(s.slots, k, s.clock + 1), clock := s.clock + 1));
  }

  /** A general waiter that retries when `i` is the only idle slot gets it. */
  lemma OnlyIdleIsChosen(slots: seq<Slot>, hint: Option<Hint>, i: nat)
    requires UsablePreference(hint, |slots|) == None && forall k: nat :: Idle(slots, k) <==> k == i
    ensures Chosen(slots, hint, i)
  {
    assert Idle(slots, i);
  }

  lemma RetryOnto(w: World, t: nat, i: nat) returns (e: Event, w': World)
    requires w.sched.Woken(t) && Chosen(w.sched.slots, w.sched.waiters[t].hint, i)
    ensures Step(w, e, w') && e.Retry? && e.ticket == t && Admits(e) && e.outcome.admission.slotId == i
    ensures w'.sched.waiters == w.sched.waiters - {t}
  {
    var hint, s := w.sched.waiters[t].hint, Resumed(w.sched, t);
    assert Idle(s.slots, i);
    var o := Admitted(Admission(i, ResidentMatch(s.slots, hint, i)));
    e := Retry(t, o);
    w' := Recorded(w, o, s.(slots := Claim(s.slots, i, s.clock + 1), clock := s.clock + 1)).(owed := w.owed - {t});
  }

  /** A woken general waiter can always take idle slot `i`: newcomers take every other idle slot first. */
  lemma {:induction false} WokenGeneralCanTake(v: World, u: nat, t: nat, i: nat) returns (ws: seq<World>, es: seq<Event>)
    requires WokenGeneral(v.sched, t) && Awaits(v.sched, i, u)
    ensures Takes(v, ws, es, u, t, i) && StaysIdle(ws, es, i) && NoGlobalWake(ws, es)
    decreases |IdleOthers(v.sched.slots, i)|
  {
    if k :| k in IdleOthers(v.sched.slots, i) {
      var e, v' := TakeByPreference(v, k);
      assert IdleOthers(v'.sched.slots, i) == IdleOthers(v.sched.slots, i) - {k};
      var ws', es' := WokenGeneralCanTake(v', u, t, i);
      PrependTakes(v, e, v', ws', es', u, t, i);
      ws, es := [v] + ws', [e] + es';
    } else {
      assert forall k: nat | Idle(v.sched.slots, k) && k != i :: k in IdleOthers(v.sched.slots, i);
      OnlyIdleIsChosen(v.sched.slots, v.sched.waiters[t].hint, i);
      var e, w' := RetryOnto(v, t, i);
      ws, es := [v, w'], [e];
    }
  }

  // -------------------------------------------------- waking a parked claimant

  function LiveFor(s: Sched, k: nat): set<nat> {
    set x | x in s.waiters && s.ParkedFor(x, k)
  }

  /** A busy slot can be freed: its guard may go, or it is seeded and may be reported idle. */
  lemma FreeOne(w: World, k: nat) returns (e: Event, w': World)
    requires Ledger(w) && k < |w.sched.slots| && w.sched.slots[k].busy
    ensures Step(w, e, w') && Frees(w, e, k) && w'.sched == Freed(w.sched, k)
  {
    var s := w.sched;
    if k in w.seeded {
      e := Reconcile(k);
      w' := w.(sched := Reconciled(s, k), seeded := w.seeded - {k}, owed := Owing(w, k));
    } else {
      var g := s.slots[k].lastUsed;
      e := Release(g);
      w' := w.(sched := Freed(s, k), guards := w.guards - {g}, released := w.released + {g}, owed := Owing(w, k));
    }
  }

  /** Freeing a slot nobody is parked for wakes general waiter `t`, with slot `i` idle for `u` afterwards. */
  lemma FreeWakes(w: World, e: Event, k: nat, v: World, i: nat, u: nat, t: nat)
    requires Inv(w) && Step(w, e, v) && Frees(w, e, k) && LiveFor(w.sched, k) == {}
    requires w.sched.Woken(u) && w.sched.Home(u) == Some(i) && (i == k || Idle(w.sched.slots, i))
    requires General(w.sched, t)
    ensures Awaits(v.sched, i, u) && WokenGeneral(v.sched, t)
  {
    DeferringIff(w.sched, k);
    assert forall x | w.sched.ParkedFor(x, k) :: x in LiveFor(w.sched, k);
    assert v.sched == Freed(w.sched, k);
    UndeferredFree(w.sched, k, u);
    UndeferredFree(w.sched, k, t);
  }

  lemma UndeferredFree(s: Sched, k: nat, t: nat)
    requires QueuesOk(s) && k < |s.slots| && !Deferring(s, k) && t in s.waiters
    ensures t in Freed(s, k).waiters && Freed(s, k).Home(t) == s.Home(t)
    ensures s.waiters[t].woken || s.Home(t) == None ==> Freed(s, k).Woken(t)
  {
    FreedWaiters(s, k, t);
    assert !s.waiters[t].woken ==> s.Enqueued(t, s.Home(t));
  }

  /** Once nobody is parked for another, busy slot `k`, freeing it wakes general waiter `t`, which may then take `i`. */
  lemma {:induction false} FreedSlotLetsTake(w: World, u: nat, t: nat, i: nat, k: nat) returns (ws: seq<World>, es: seq<Event>)
    requires Inv(w) && Awaits(w.sched, i, u) && General(w.sched, t)
    requires k < |w.sched.slots| && w.sched.slots[k].busy
    ensures Takes(w, ws, es, u, t, i) && StaysIdle(ws, es, i)
    decreases |LiveFor(w.sched, k)|
  {
    var e, v;
    if x :| x in LiveFor(w.sched, k) {
      e, v := Cancel(x), w.(sched := Resumed(w.sched, x));
      assert LiveFor(v.sched, k) == LiveFor(w.sched, k) - {x};
      StepInv(w, e, v);
      ws, es := FreedSlotLetsTake(v, u, t, i, k);
    } else {
      e, v := FreeOne(w, k);
      FreeWakes(w, e, k, v, i, u, t);
      ws, es := WokenGeneralCanTake(v, u, t, i);
    }
    PrependTakes(w, e, v, ws, es, u, t, i);
    ws, es := [w] + ws, [e] + es;
  }

  /** With a second slot, any general waiter can take `i`: that slot is claimed, if need be, and freed. */
  lemma SecondSlotLetsTake(w: World, u: nat, t: nat, i: nat) returns (ws: seq<World>, es: seq<Event>)
    requires Inv(w) && |w.sched.slots| >= 2 && Awaits(w.sched, i, u) && General(w.sched, t)
    ensures Takes(w, ws, es, u, t, i) && StaysIdle(ws, es, i)
  {
    var k := if i == 0 then 1 else 0;
    if w.sched.slots[k].busy {
      ws, es := FreedSlotLetsTake(w, u, t, i, k);
    } else {
      var e, v := TakeByPreference(w, k);
      StepInv(w, e, v);
      var ws', es' := FreedSlotLetsTake(v, u, t, i, k);
      PrependTakes(w, e, v, ws', es', u, t, i);
      ws, es := [w] + ws', [e] + es';
    }
  }

  /** On a seeded slot never claimed, a repeated idle report wakes any general waiter. */
  lemma RepeatedReportLetsTake(w: World, u: nat, t: nat, i: nat) returns (ws: seq<World>, es: seq<Event>)
    requires Inv(w) && Awaits(w.sched, i, u) && General(w.sched, t) && w.sched.slots[i].seededUnowned
    ensures Takes(w, ws, es, u, t, i) && StaysIdle(ws, es, i)
  {
    var e, v := Reconcile(i), w.(sched := Reconciled(w.sched, i), seeded := w.seeded - {i});
    assert Step(w, e, v);
    assert LiveFor(w.sched, i) == {};
    FreeWakes(w, e, i, v, i, u, t);
    var ws', es' := WokenGeneralCanTake(v, u, t, i);
    PrependTakes(w, e, v, ws', es', u, t, i);
    ws, es := [w] + ws', [e] + es';
  }

  // -------------------------------------------------------------- the theorems

  lemma {:induction false} IdleMeansNoAdmission(ws: seq<World>, es: seq<Event>, k: nat)
    requires IsPath(ws, es) && StaysIdle(ws, es, 0) && k < |es| && |ws[0].sched.slots| == 1
    ensures NoAdmission(es, k) && |ws[k].sched.slots| == 1
  {
    if k > 0 {
      IdleMeansNoAdmission(ws, es, k - 1);
      var w, e, w' := ws[k - 1], es[k - 1], ws[k];
      assert Step(w, e, w');
      SizeStep(w, e, w');
      AdmissionFillsOneSlot(w, e, w');
    }
  }

  lemma AdmissionFillsOneSlot(w: World, e: Event, w': World)
    requires Step(w, e, w') && |w.sched.slots| == 1 && Idle(w'.sched.slots, 0)
    ensures !Admits(e)
  {
  }

  /** On one slot that was claimed before, nothing new is woken until the slot is claimed. */
  lemma OneSlotTakerWasWoken(v: World, ws: seq<World>, es: seq<Event>, u: nat, t: nat)
    requires Inv(v) && IdleAndClaimed(v) && Takes(v, ws, es, u, t, 0) && StaysIdle(ws, es, 0)
    ensures WokenGeneral(v.sched, t)
  {
    var k := |es| - 1;
    IdleMeansNoAdmission(ws, es, k);
    StaysIdleAndClaimed(ws, es, k);
    WokenGeneralsAreOld(ws, es, t, k);
  }

  /** The state in which a specific waiter can lose the slot that event `e` frees before anybody claims it. */
  ghost predicate CanLose(w: World, e: Event) {
    || (exists t :: WokenGeneral(w.sched, t))
    || ((|w.sched.slots| >= 2 || e.Reconcile?) && exists t :: General(w.sched, t))
  }

  lemma TakerIsOld(v: World, ws: seq<World>, es: seq<Event>, u: nat, t: nat, i: nat)
    requires Takes(v, ws, es, u, t, i) && StaysIdle(ws, es, i)
    ensures General(v.sched, t)
  {
    GeneralsAreOld(ws, es, i, t, |es| - 1);
  }

  lemma TakerMeansCanLose(w: World, n: nat, e: Event, i: nat, u: nat, v: World, ws: seq<World>, es: seq<Event>, t: nat)
    requires Reachable(w, n) && Step(w, e, v) && Frees(w, e, i) && w.sched.ParkedFor(u, i)
    requires Takes(v, ws, es, u, t, i) && StaysIdle(ws, es, i)
    ensures CanLose(w, e)
  {
    DeferringFree(w, n, e, i, u, v);
    TakerIsOld(v, ws, es, u, t, i);
    if |w.sched.slots| == 1 && e.Release? {
      ReleasedIsClaimed(w, n, e, v);
      OneSlotTakerWasWoken(v, ws, es, u, t);
    }
  }

  lemma ReleasedIsClaimed(w: World, n: nat, e: Event, v: World)
    requires Reachable(w, n) && Step(w, e, v) && e.Release? && |w.sched.slots| == 1
    ensures IdleAndClaimed(v)
  {
    ReachableInv(w, n);
  }

  lemma CanLoseMeansTaker(w: World, n: nat, e: Event, i: nat, u: nat, v: World)
    returns (ws: seq<World>, es: seq<Event>, t: nat)
    requires Reachable(w, n) && Step(w, e, v) && Frees(w, e, i) && w.sched.ParkedFor(u, i) && CanLose(w, e)
    ensures Takes(v, ws, es, u, t, i) && StaysIdle(ws, es, i)
  {
    DeferringFree(w, n, e, i, u, v);
    if x :| WokenGeneral(w.sched, x) {
      t := x;
      ws, es := WokenGeneralCanTake(v, u, t, i);
    } else {
      t :| General(w.sched, t);
      if e.Reconcile? {
        ws, es := RepeatedReportLetsTake(v, u, t, i);
      } else {
        SizeStep(w, e, v);
        ws, es := SecondSlotLetsTake(v, u, t, i);
      }
    }
  }

  /**
   * The exact limit of a specific waiter's priority. After a free of slot `i`
   * that wakes `u` for it, by a release or by an idle report and whatever the
   * number of slots, some run keeps `i` idle until a general waiter claims it
   * ahead of `u` iff at the free a general waiter was woken already, or one
   * was waiting at all and a further wake can reach it: there is a second
   * slot, or the slot was freed by a report, which may be repeated.
   */
  lemma PreemptionIff(w: World, n: nat, e: Event, i: nat, u: nat, v: World)
    requires Reachable(w, n) && Step(w, e, v) && Frees(w, e, i) && w.sched.ParkedFor(u, i)
    ensures (exists ws, es, t :: Takes(v, ws, es, u, t, i) && StaysIdle(ws, es, i)) <==>
      || (exists t :: WokenGeneral(w.sched, t))
      || ((n >= 2 || e.Reconcile?) && exists t :: General(w.sched, t))
  {
    ReachableInv(w, n);
    if CanLose(w, e) {
      var ws, es, t := CanLoseMeansTaker(w, n, e, i, u, v);
    }
    if ws, es, t :| Takes(v, ws, es, u, t, i) && StaysIdle(ws, es, i) {
      TakerMeansCanLose(w, n, e, i, u, v, ws, es, t);
    }
  }

  lemma TakerWasWoken(v: World, ws: seq<World>, es: seq<Event>, u: nat, t: nat, i: nat)
    requires Inv(v) && Takes(v, ws, es, u, t, i) && NoGlobalWake(ws, es)
    ensures WokenGeneral(v.sched, t)
  {
    WokenGeneralsAreOld(ws, es, t, |es| - 1);
  }

  /** Until the next wake of the global queue, the waiters woken already are the only ones that can. */
  lemma PreemptionBeforeNextWakeIff(w: World, n: nat, e: Event, i: nat, u: nat, v: World)
    requires Reachable(w, n) && Step(w, e, v) && Frees(w, e, i) && w.sched.ParkedFor(u, i)
    ensures (exists ws, es, t :: Takes(v, ws, es, u, t, i) && NoGlobalWake(ws, es))
      <==> exists t :: WokenGeneral(w.sched, t)
  {
    DeferringFree(w, n, e, i, u, v);
    if t :| WokenGeneral(w.sched, t) {
      var ws, es := WokenGeneralCanTake(v, u, t, i);
    }
    if ws, es, t :| Takes(v, ws, es, u, t, i) && NoGlobalWake(ws, es) {
      TakerWasWoken(v, ws, es, u, t, i);
    }
  }

  /** The retry of a general waiter takes slot `i` as the very next event. */
  ghost predicate TakesNext(v: World, t: nat, i: nat) {
    && General(v.sched, t)
    && exists a: Admission, x: World :: a.slotId == i && Step(v, Retry(t, Admitted(a)), x)
  }

  lemma TakesNextIff(v: World, t: nat, i: nat)
    ensures TakesNext(v, t, i) <==>
      WokenGeneral(v.sched, t) && Chosen(v.sched.slots, v.sched.waiters[t].hint, i)
  {
    if WokenGeneral(v.sched, t) && Chosen(v.sched.slots, v.sched.waiters[t].hint, i) {
      var e, x := RetryOnto(v, t, i);
      assert Step(v, Retry(t, Admitted(e.outcome.admission)), x);
    }
  }

  /** The next event can be such a retry iff the freed slot is what some general waiter woken earlier would get. */
  lemma ImmediatePreemptionIff(w: World, n: nat, e: Event, i: nat, u: nat, v: World)
    requires Reachable(w, n) && Step(w, e, v) && Frees(w, e, i) && w.sched.ParkedFor(u, i)
    ensures (exists t :: TakesNext(v, t, i)) <==>
      exists t :: WokenGeneral(w.sched, t) && Chosen(v.sched.slots, w.sched.waiters[t].hint, i)
  {
    DeferringFree(w, n, e, i, u, v);
    if t :| TakesNext(v, t, i) {
      TakesNextIff(v, t, i);
      assert General(w.sched, t);
      assert WokenGeneral(w.sched, t) && Chosen(v.sched.slots, w.sched.waiters[t].hint, i);
    }
    if t :| WokenGeneral(w.sched, t) && Chosen(v.sched.slots, w.sched.waiters[t].hint, i) {
      assert General(w.sched, t);
      TakesNextIff(v, t, i);
    }
  }

  /** With one slot there is nothing else to get: the next event can be such a retry iff a general waiter was woken. */
  lemma OneSlotPreemptionIff(w: World, e: Event, u: nat, v: World)
    requires Reachable(w, 1) && Step(w, e, v) && Frees(w, e, 0) && w.sched.ParkedFor(u, 0)
    ensures (exists t :: TakesNext(v, t, 0)) <==> exists t :: WokenGeneral(w.sched, t)
  {
    ImmediatePreemptionIff(w, 1, e, 0, u, v);
    if t :| WokenGeneral(w.sched, t) {
      ReachableInv(w, 1);
      SizeStep(w, e, v);
      OnlyIdleIsChosen(v.sched.slots, w.sched.waiters[t].hint, 0);
    }
  }

  // ------------------------------------------------------- beyond the next claim

  /** A newcomer takes slot `i`, the last idle one, and then a general request parks. */
  lemma ClaimAndPark(w: World, u: nat, i: nat) returns (e1: Event, w1: World, e2: Event, w2: World, t: nat)
    requires Inv(w) && Awaits(w.sched, i, u) && (forall k: nat :: Idle(w.sched.slots, k) <==> k == i)
    ensures Step(w, e1, w1) && Step(w1, e2, w2) && Inv(w2)
    ensures w2.sched.Woken(u) && w2.sched.Home(u) == Some(i) && General(w2.sched, t)
    ensures w2.sched.slots[i].busy && LiveFor(w2.sched, i) == {}
  {
    e1, w1 := TakeByPreference(w, i);
    StepInv(w, e1, w1);
    assert forall k: nat | Idle(w1.sched.slots, k) :: Idle(w.sched.slots, k);
    e2, w2, t := ParkGeneral(w1);
    StepInv(w1, e2, w2);
    NobodyParkedFor(w, i, w2, t);
  }

  /** The newcomer's release wakes the general request, which takes the slot. */
  lemma ClaimParkRelease(w: World, u: nat, i: nat) returns (ws: seq<World>, es: seq<Event>, t: nat)
    requires Inv(w) && Awaits(w.sched, i, u) && (forall k: nat :: Idle(w.sched.slots, k) <==> k == i)
    ensures Takes(w, ws, es, u, t, i)
  {
    var e1, w1, e2, w2;
    e1, w1, e2, w2, t := ClaimAndPark(w, u, i);
    var e3, w3 := FreeOne(w2, i);
    FreeWakes(w2, e3, i, w3, i, u, t);
    var ws3, es3 := WokenGeneralCanTake(w3, u, t, i);
    PrependTakes(w2, e3, w3, ws3, es3, u, t, i);
    PrependTakes(w1, e2, w2, [w2] + ws3, [e3] + es3, u, t, i);
    PrependTakes(w, e1, w1, [w1] + ([w2] + ws3), [e2] + ([e3] + es3), u, t, i);
    ws, es := [w] + ([w1] + ([w2] + ws3)), [e1] + ([e2] + ([e3] + es3));
  }

  /** With no slot idle a request without a hint parks globally. */
  lemma ParkGeneral(w: World) returns (e: Event, w': World, t: nat)
    requires WaitingOk(w.sched) && forall k: nat :: !Idle(w.sched.slots, k)
    ensures Step(w, e, w') && t == w.sched.nextTicket && General(w'.sched, t)
    ensures w'.sched.waiters == w.sched.waiters[t := Waiter(None, false)] && w'.sched.slots == w.sched.slots
  {
    t := w.sched.nextTicket;
    e, w' := Arrive(None, Queued(t)), Recorded(w, Queued(t), Park(w.sched, None));
  }

  /** Nobody was parked for idle slot `i`, and one more general waiter does not change that. */
  lemma NobodyParkedFor(w: World, i: nat, w': World, t: nat)
    requires WaitingOk(w.sched) && Idle(w.sched.slots, i) && |w'.sched.slots| == |w.sched.slots|
    requires w'.sched.waiters == w.sched.waiters[t := Waiter(None, false)]
    ensures LiveFor(w'.sched, i) == {}
  {
    forall x | w'.sched.ParkedFor(x, i) ensures w.sched.ParkedFor(x, i) {
    }
  }

  /**
   * The priority is per free. Once a newcomer may claim the slot in between, a
   * woken specific waiter that does not retry can always lose it, even to a
   * general waiter that was not there at the free.
   */
  lemma {:induction false} LateWaiterCanLose(w: World, u: nat, i: nat) returns (ws: seq<World>, es: seq<Event>, t: nat)
    requires Inv(w) && Awaits(w.sched, i, u)
    ensures Takes(w, ws, es, u, t, i)
    decreases |IdleOthers(w.sched.slots, i)|
  {
    if k :| k in IdleOthers(w.sched.slots, i) {
      var e, v := TakeByPreference(w, k);
      assert IdleOthers(v.sched.slots, i) == IdleOthers(w.sched.slots, i) - {k};
      StepInv(w, e, v);
      var ws', es';
      ws', es', t := LateWaiterCanLose(v, u, i);
      PrependTakes(w, e, v, ws', es', u, t, i);
      ws, es := [w] + ws', [e] + es';
    } else {
      assert forall k: nat | Idle(w.sched.slots, k) && k != i :: k in IdleOthers(w.sched.slots, i);
      ws, es, t := ClaimParkRelease(w, u, i);
    }
  }
}
