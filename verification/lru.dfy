/**
 * The fallback tier against the admission history: stamps are the history,
 * the tier is least-recently-admitted, nobody idle is bypassed forever, and
 * unhinted claims come out in sorted order.
 */
module Lru {
  import opened Options
  import opened Slots
  import opened Protocol
  import opened Invariant
  import opened Sizes

  /** Stamps are distinct, bounded by the clock, and ordered like the last admissions. */
  lemma StampsAreHistory(w: World, n: nat)
    requires Reachable(w, n)
    ensures |w.sched.slots| == n
    ensures forall i: nat | i < n ::
      w.sched.slots[i].lastUsed == LastUse(w.log, i) <= w.sched.clock
    ensures forall i: nat, j: nat | i < n && j < n && i != j && w.sched.slots[i].lastUsed > 0 ::
      w.sched.slots[i].lastUsed != w.sched.slots[j].lastUsed
  {
    ReachableInv(w, n);
    forall i: nat, j: nat | i < n && j < n && i != j && w.sched.slots[i].lastUsed > 0
      ensures w.sched.slots[i].lastUsed != w.sched.slots[j].lastUsed
    {
      assert w.log[LastUse(w.log, i) - 1] == i;
    }
  }

  /**
   * A request with no usable preference and no resident match gets the idle
   * slot whose last admission is oldest in the whole log; among slots never
   * admitted, the lowest index.
   */
  lemma FallbackPicksOldest(w: World, n: nat, hint: Option<Hint>, i: nat, k: nat)
    requires Reachable(w, n)
    requires FallbackTier(w.sched.slots, hint) && Chosen(w.sched.slots, hint, i)
    requires Idle(w.sched.slots, k) && k != i
    ensures LastUse(w.log, i) < LastUse(w.log, k) || (i !in w.log && k !in w.log && i < k)
  {
    ReachableInv(w, n);
    StampsAreHistory(w, n);
  }

  // --------------------------------------------------------- bounded bypass

  /** The idle order's positions ahead of `x`. */
  function Ahead(slots: seq<Slot>, x: nat): set<nat> {
    set y: nat | y < |slots| && x < |slots| && Before(slots, y, x)
  }

  ghost predicate FallbackAdmission(w: World, e: Event) {
    Admits(e) && FallbackTier(w.sched.slots, AttemptHint(w, e))
  }

  ghost function FallbackCount(ws: seq<World>, es: seq<Event>, k: nat): nat
    requires |ws| == |es| + 1 && k <= |es|
  {
    if k == 0 then 0
    else FallbackCount(ws, es, k - 1) + Bypasses(ws[k - 1], es[k - 1])
  }

  /** What a step does to the stamps: an admission stamps one chosen slot, nothing else does. */
  lemma StampsOfStep(w: World, e: Event, w': World)
    requires Step(w, e, w')
    ensures |w'.sched.slots| == |w.sched.slots|
    ensures Admits(e) ==>
      && Chosen(w.sched.slots, AttemptHint(w, e), e.outcome.admission.slotId)
      && w'.sched.slots == Claim(w.sched.slots, e.outcome.admission.slotId, w.sched.clock + 1)
      && w'.log == w.log + [e.outcome.admission.slotId]
    ensures !Admits(e) ==> w'.log == w.log && forall i | 0 <= i < |w.sched.slots| ::
      w'.sched.slots[i].lastUsed == w.sched.slots[i].lastUsed
  {
  }

  /** One step moves nobody ahead of an idle slot, and a fallback admission removes someone. */
  lemma AheadShrinks(w: World, e: Event, w': World, x: nat)
    requires Ledger(w) && Step(w, e, w') && Idle(w.sched.slots, x) && Idle(w'.sched.slots, x)
    ensures Ahead(w'.sched.slots, x) <= Ahead(w.sched.slots, x)
    ensures FallbackAdmission(w, e) ==> Ahead(w'.sched.slots, x) < Ahead(w.sched.slots, x)
  {
    var slots, slots' := w.sched.slots, w'.sched.slots;
    StampsOfStep(w, e, w');
    if Admits(e) {
      var a := e.outcome.admission.slotId;
      assert forall i | 0 <= i < |slots| :: slots[i].lastUsed <= w.sched.clock;
      assert a !in Ahead(slots', x);
      if FallbackAdmission(w, e) {
        assert LeastIdle(slots, a);
        assert a in Ahead(slots, x);
      }
    }
  }

  ghost function Bypasses(w: World, e: Event): nat {
    if FallbackAdmission(w, e) then 1 else 0
  }

  lemma AheadPotential(w: World, e: Event, w': World, x: nat)
    requires Ledger(w) && Step(w, e, w') && Idle(w.sched.slots, x) && Idle(w'.sched.slots, x)
    ensures Bypasses(w, e) + |Ahead(w'.sched.slots, x)| <= |Ahead(w.sched.slots, x)|
  {
    AheadShrinks(w, e, w', x);
    SubsetSize(Ahead(w'.sched.slots, x), Ahead(w.sched.slots, x));
  }

  lemma {:induction false} BypassPotential(ws: seq<World>, es: seq<Event>, x: nat, k: nat)
    requires IsPath(ws, es) && Inv(ws[0]) && k <= |es|
    requires forall j: nat | j <= k :: Idle(ws[j].sched.slots, x)
    ensures FallbackCount(ws, es, k) + |Ahead(ws[k].sched.slots, x)| <= |Ahead(ws[0].sched.slots, x)|
  {
    if k > 0 {
      PathInv(ws, es, k - 1);
      var w, e, w' := ws[k - 1], es[k - 1], ws[k];
      assert Step(w, e, w');
      assert Idle(w.sched.slots, x) && Idle(w'.sched.slots, x);
      AheadPotential(w, e, w', x);
      BypassPotential(ws, es, x, k - 1);
    }
  }

  /**
   * While a slot stays idle, at most n - 1 fallback admissions pass it over,
   * whatever other admissions, releases, cancels and reports interleave.
   */
  lemma BoundedBypass(ws: seq<World>, es: seq<Event>, n: nat, x: nat)
    requires IsPath(ws, es) && Reachable(ws[0], n)
    requires forall j: nat | j <= |es| :: Idle(ws[j].sched.slots, x)
    ensures FallbackCount(ws, es, |es|) <= n - 1
  {
    ReachableInv(ws[0], n);
    BypassPotential(ws, es, x, |es|);
    assert Idle(ws[0].sched.slots, x);
    var ahead := Ahead(ws[0].sched.slots, x);
    SubsetSize(ahead + {x}, Below(n));
  }
}
