/**
 * Bursts of unhinted requests: which slots they claim, in which order, and
 * when they start to queue.
 */
module Claims {
  import opened Slots
  import opened Protocol
  import opened Invariant
  import opened Sizes
  import opened Lru

  function IdleSlots(slots: seq<Slot>): set<nat> {
    set i: nat | i < |slots| && !slots[i].busy
  }

  /** Only unhinted requests arrive, and only guards handed out after clock `c` are released. */
  predicate UnhintedEvent(e: Event, c: nat) {
    match e
    case Arrive(hint, _) => hint.None?
    case Release(g) => g > c
    case Retry(_, _) => false
    case Reconcile(_) => false
    case _ => true
  }

  /** The slots claimed since the log had length `c`, oldest first. */
  function Picks(w: World, c: nat): seq<nat>
    requires c <= |w.log|
  {
    w.log[c..]
  }

  /** `picks` lists the least idle slots of `slots` in fallback order. */
  ghost predicate LeastInOrder(slots: seq<Slot>, picks: seq<nat>) {
    && (forall a | 0 <= a < |picks| :: Idle(slots, picks[a]))
    && (forall a, b | 0 <= a < b < |picks| :: Before(slots, picks[a], picks[b]))
    && (forall a, u: nat | 0 <= a < |picks| && Idle(slots, u) && u !in picks ::
          Before(slots, picks[a], u))
  }

  /** Since `slots`, unpicked idle slots are untouched and picked ones carry a stamp after `c`. */
  ghost predicate Untouched(slots: seq<Slot>, now: seq<Slot>, picks: seq<nat>, c: nat) {
    && |now| == |slots|
    && (forall i: nat | Idle(now, i) :: Idle(slots, i))
    && (forall u: nat | Idle(slots, u) && u !in picks ::
          Idle(now, u) && now[u].lastUsed == slots[u].lastUsed)
    && (forall u | 0 <= u < |slots| :: slots[u].lastUsed <= c)
    && (forall u | u in picks :: u < |slots| && Idle(slots, u) && now[u].lastUsed > c)
  }

  lemma UntouchedClaim(slots: seq<Slot>, now: seq<Slot>, picks: seq<nat>, c: nat, i: nat, stamp: nat)
    requires Untouched(slots, now, picks, c) && Idle(now, i) && stamp > c
    ensures Untouched(slots, Claim(now, i, stamp), picks + [i], c)
  {
    assert i in picks + [i];
  }

  lemma UntouchedFree(slots: seq<Slot>, now: seq<Slot>, picks: seq<nat>, c: nat, i: nat)
    requires Untouched(slots, now, picks, c) && i in picks
    ensures Untouched(slots, now[i := now[i].(busy := false)], picks, c)
  {
  }

  lemma GuardIsPicked(w: World, g: nat, c: nat)
    requires Ledger(w) && g in w.guards && c < g
    ensures c <= |w.log| && w.guards[g] in Picks(w, c)
  {
    assert g in w.guards || g in w.released;
    assert w.log[g - 1] == w.guards[g] && Picks(w, c)[g - 1 - c] == w.guards[g];
  }

  lemma UntouchedRelease(slots: seq<Slot>, w: World, g: nat, w': World, c: nat)
    requires Ledger(w) && Step(w, Release(g), w') && g > c
    requires c <= |w.log| && Untouched(slots, w.sched.slots, Picks(w, c), c)
    ensures w'.log == w.log && Untouched(slots, w'.sched.slots, Picks(w', c), c)
  {
    GuardIsPicked(w, g, c);
    UntouchedFree(slots, w.sched.slots, Picks(w, c), c, w.guards[g]);
  }

  lemma UntouchedQuiet(slots: seq<Slot>, w: World, e: Event, w': World, c: nat)
    requires Step(w, e, w') && !Admits(e) && !e.Release? && !e.Reconcile?
    requires c <= |w.log| && Untouched(slots, w.sched.slots, Picks(w, c), c)
    ensures w'.log == w.log && Untouched(slots, w'.sched.slots, Picks(w', c), c)
  {
    KeepsBusyAndStamps(w, e, w');
    assert forall i: nat :: Idle(w'.sched.slots, i) == Idle(w.sched.slots, i);
  }

  lemma UntouchedStep(slots: seq<Slot>, w: World, e: Event, w': World, c: nat)
    requires Ledger(w) && Step(w, e, w') && UnhintedEvent(e, c)
    requires c <= |w.log| && Untouched(slots, w.sched.slots, Picks(w, c), c)
    ensures |w.log| <= |w'.log| && Untouched(slots, w'.sched.slots, Picks(w', c), c)
  {
    if Admits(e) {
      StampsOfStep(w, e, w');
      var i := e.outcome.admission.slotId;
      assert Picks(w', c) == Picks(w, c) + [i];
      UntouchedClaim(slots, w.sched.slots, Picks(w, c), c, i, w.sched.clock + 1);
    } else if e.Release? {
      UntouchedRelease(slots, w, e.stamp, w', c);
    } else {
      UntouchedQuiet(slots, w, e, w', c);
    }
  }

  lemma KeepsBusyAndStamps(w: World, e: Event, w': World)
    requires Step(w, e, w') && !Admits(e) && !e.Release? && !e.Reconcile?
    ensures w'.log == w.log && |w'.sched.slots| == |w.sched.slots|
    ensures forall i | 0 <= i < |w.sched.slots| ::
      && w'.sched.slots[i].busy == w.sched.slots[i].busy
      && w'.sched.slots[i].lastUsed == w.sched.slots[i].lastUsed
  {
  }

  /** The next claim extends the sorted list. */
  lemma NextPickIsLeast(slots: seq<Slot>, now: seq<Slot>, picks: seq<nat>, c: nat, i: nat)
    requires Untouched(slots, now, picks, c) && LeastInOrder(slots, picks)
    requires LeastIdle(now, i)
    requires |picks| < |IdleSlots(slots)|
    ensures LeastInOrder(slots, picks + [i])
  {
    var u := Leftover(IdleSlots(slots), picks);
    assert Idle(slots, u) && Idle(now, u) && i !in picks;
    forall v: nat | Idle(slots, v) && v !in picks + [i] ensures Before(slots, i, v) {
      assert Idle(now, v);
    }
  }

  lemma {:induction false} Leftover(pool: set<nat>, taken: seq<nat>) returns (u: nat)
    requires |taken| < |pool|
    ensures u in pool && u !in taken
  {
    if taken == [] {
      u :| u in pool;
    } else {
      var last, init := taken[|taken| - 1], taken[..|taken| - 1];
      assert taken == init + [last];
      u := Leftover(pool - {last}, init);
    }
  }

  lemma {:induction false} BurstInvariant(ws: seq<World>, es: seq<Event>, k: nat)
    requires IsPath(ws, es) && Inv(ws[0]) && k <= |es|
    requires forall e | e in es :: UnhintedEvent(e, |ws[0].log|)
    ensures |ws[0].log| <= |ws[k].log|
    ensures Untouched(ws[0].sched.slots, ws[k].sched.slots, Picks(ws[k], |ws[0].log|), |ws[0].log|)
    ensures |Picks(ws[k], |ws[0].log|)| <= |IdleSlots(ws[0].sched.slots)| ==>
      LeastInOrder(ws[0].sched.slots, Picks(ws[k], |ws[0].log|))
  {
    var slots, c := ws[0].sched.slots, |ws[0].log|;
    if k > 0 {
      var w, e, w' := ws[k - 1], es[k - 1], ws[k];
      assert Step(w, e, w') && e in es;
      PathInv(ws, es, k - 1);
      BurstInvariant(ws, es, k - 1);
      BurstStep(slots, w, e, w', c);
    }
  }

  lemma BurstStep(slots: seq<Slot>, w: World, e: Event, w': World, c: nat)
    requires Ledger(w) && Step(w, e, w') && UnhintedEvent(e, c)
    requires c <= |w.log| && Untouched(slots, w.sched.slots, Picks(w, c), c)
    requires |Picks(w, c)| <= |IdleSlots(slots)| ==> LeastInOrder(slots, Picks(w, c))
    ensures c <= |w'.log| && Untouched(slots, w'.sched.slots, Picks(w', c), c)
    ensures |Picks(w', c)| <= |IdleSlots(slots)| ==> LeastInOrder(slots, Picks(w', c))
  {
    UntouchedStep(slots, w, e, w', c);
    StampsOfStep(w, e, w');
    if Admits(e) {
      var i := e.outcome.admission.slotId;
      assert Picks(w', c) == Picks(w, c) + [i];
      if |Picks(w', c)| <= |IdleSlots(slots)| {
        NextPickIsLeast(slots, w.sched.slots, Picks(w, c), c, i);
      }
    }
  }

  /**
   * As long as unhinted requests claim no more slots than were idle at the
   * start, they claim the least-recently-used ones, in order, whether or not
   * the claimed slots are released again in between.
   */
  lemma UnhintedClaimsAreSorted(ws: seq<World>, es: seq<Event>, n: nat)
    requires IsPath(ws, es) && Reachable(ws[0], n)
    requires forall e | e in es :: UnhintedEvent(e, |ws[0].log|)
    ensures |ws[0].log| <= |ws[|es|].log|
    ensures |Picks(ws[|es|], |ws[0].log|)| <= |IdleSlots(ws[0].sched.slots)| ==>
      LeastInOrder(ws[0].sched.slots, Picks(ws[|es|], |ws[0].log|))
  {
    ReachableInv(ws[0], n);
    BurstInvariant(ws, es, |es|);
  }

  /** From an all-idle state, n successive unhinted admit/release rounds use n distinct slots. */
  lemma RoundsSpread(ws: seq<World>, es: seq<Event>, n: nat)
    requires IsPath(ws, es) && Reachable(ws[0], n)
    requires forall e | e in es :: UnhintedEvent(e, |ws[0].log|)
    requires forall i: nat | i < |ws[0].sched.slots| :: Idle(ws[0].sched.slots, i)
    requires |ws[0].log| <= |ws[|es|].log| <= |ws[0].log| + n
    ensures var picks := Picks(ws[|es|], |ws[0].log|);
      forall a, b | 0 <= a < b < |picks| :: picks[a] != picks[b]
  {
    ReachableInv(ws[0], n);
    var slots := ws[0].sched.slots;
    assert IdleSlots(slots) == Below(n) by {
      forall i: nat ensures i in IdleSlots(slots) <==> i < n {
        assert i < n ==> Idle(slots, i);
      }
    }
    UnhintedClaimsAreSorted(ws, es, n);
  }

  lemma {:induction false} BurstLeavesFewer(ws: seq<World>, es: seq<Event>, k: nat)
    requires IsPath(ws, es) && k <= |es|
    requires forall e | e in es :: e.Arrive? && e.hint.None?
    ensures |IdleSlots(ws[k].sched.slots)| ==
      if k < |IdleSlots(ws[0].sched.slots)| then |IdleSlots(ws[0].sched.slots)| - k else 0
  {
    if k > 0 {
      var w, e, w' := ws[k - 1], es[k - 1], ws[k];
      assert Step(w, e, w') && e in es;
      BurstLeavesFewer(ws, es, k - 1);
      if e.outcome.Admitted? {
        var i := e.outcome.admission.slotId;
        assert i in IdleSlots(w.sched.slots);
        assert IdleSlots(w'.sched.slots) == IdleSlots(w.sched.slots) - {i};
      } else {
        NoneIdle(w.sched.slots);
      }
    }
  }

  lemma NoneIdle(slots: seq<Slot>)
    requires forall k: nat :: !Idle(slots, k)
    ensures IdleSlots(slots) == {}
  {
    forall i | i in IdleSlots(slots) ensures false {
      assert Idle(slots, i);
    }
  }

  /** In a burst without releases exactly the first |idle| requests are admitted, the rest queue. */
  lemma BurstAdmitsExactlyTheIdle(ws: seq<World>, es: seq<Event>, k: nat)
    requires IsPath(ws, es) && k < |es|
    requires forall e | e in es :: e.Arrive? && e.hint.None?
    ensures es[k].outcome.Admitted? <==> k < |IdleSlots(ws[0].sched.slots)|
  {
    var w, e := ws[k], es[k];
    assert Step(w, e, ws[k + 1]) && e in es;
    BurstLeavesFewer(ws, es, k);
    if e.outcome.Admitted? {
      assert e.outcome.admission.slotId in IdleSlots(w.sched.slots);
    } else {
      NoneIdle(w.sched.slots);
    }
  }
}
