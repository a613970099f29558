/**
 * Capacity over whole runs: who a busy slot belongs to, what a guard's life
 * looks like, and why an idle report can never take a slot from its holder.
 */
module Capacity {
  import opened Slots
  import opened Protocol
  import opened Invariant
  import opened Sizes

  function BusySlots(w: World): set<nat> {
    set i | 0 <= i < |w.sched.slots| && w.sched.slots[i].busy
  }

  /** A slot is busy iff exactly one of: one live guard owns it; it was seeded and not reported idle. */
  lemma BusyIffOwnedOnce(w: World, n: nat)
    requires Reachable(w, n)
    ensures |w.sched.slots| == n
    ensures forall i: nat | i < n ::
      w.sched.slots[i].busy <==> (Owned(w.guards, i) != (i in w.seeded))
    ensures forall i: nat | i < n :: !(Owned(w.guards, i) && i in w.seeded)
    ensures forall g, h | g in w.guards && h in w.guards && w.guards[g] == w.guards[h] :: g == h
  {
    ReachableInv(w, n);
  }

  /** Sizes of the two disjoint owners add up: busy = live guards + unreconciled seeded slots. */
  lemma BusyCount(w: World, n: nat)
    requires Reachable(w, n)
    ensures |BusySlots(w)| == |w.guards| + |w.seeded|
  {
    ReachableInv(w, n);
    OwnersPartition(w.sched.slots, w.guards, w.seeded);
    assert BusySlots(w) == w.guards.Values + w.seeded;
  }

  lemma OwnersPartition(slots: seq<Slot>, guards: map<nat, nat>, seeded: set<nat>)
    requires CapacityOk(slots, guards, seeded)
    ensures guards.Values !! seeded && |guards.Values| == |guards|
    ensures forall i: nat :: i in guards.Values + seeded <==> i < |slots| && slots[i].busy
  {
    InjectiveSize(guards);
    forall i: nat | i < |slots| && slots[i].busy ensures i in guards.Values + seeded {
      if i !in seeded {
        assert slots[i].lastUsed in guards.Keys && guards[slots[i].lastUsed] == i;
      }
    }
  }

  /** Conservation: every admission ever made is either still guarded or was released, never both. */
  lemma AdmissionsConserved(w: World, n: nat)
    requires Reachable(w, n)
    ensures |w.log| == |w.guards| + |w.released|
    ensures w.guards.Keys !! w.released
  {
    ReachableInv(w, n);
    SplitSize(|w.log|, w.guards.Keys, w.released);
    assert |w.guards.Keys| == |w.guards|;
  }

  lemma SplitSize(k: nat, a: set<nat>, b: set<nat>)
    requires a !! b
    requires forall g: nat :: 1 <= g <= k <==> (g in a || g in b)
    ensures |a| + |b| == k
  {
    assert Below(k + 1) == {0} + (a + b);
  }

  lemma {:induction false} ReleasedStays(ws: seq<World>, es: seq<Event>, g: nat, j: nat, k: nat)
    requires IsPath(ws, es) && Inv(ws[0]) && j <= k <= |es| && g in ws[j].released
    ensures g in ws[k].released && g !in ws[k].guards
    decreases k
  {
    PathInv(ws, es, k);
    if j < k {
      ReleasedStays(ws, es, g, j, k - 1);
      assert Step(ws[k - 1], es[k - 1], ws[k]);
    }
  }

  /** A guard is released at most once in a run. */
  lemma ReleasedOnce(ws: seq<World>, es: seq<Event>, n: nat, g: nat, j: nat, k: nat)
    requires IsRun(ws, es, n) && j < |es| && k < |es|
    requires es[j] == Release(g) && es[k] == Release(g)
    ensures j == k
  {
    InitInv(ws[0], n);
    if j < k {
      assert Step(ws[j], es[j], ws[j + 1]) && Step(ws[k], es[k], ws[k + 1]);
      ReleasedStays(ws, es, g, j + 1, k);
    } else if k < j {
      assert Step(ws[j], es[j], ws[j + 1]) && Step(ws[k], es[k], ws[k + 1]);
      ReleasedStays(ws, es, g, k + 1, j);
    }
  }

  // ----------------------------------------------------------- idle reports

  /** Once the broker has claimed a slot, an idle report for it changes nothing at all. */
  lemma ReportOfClaimedSlotIsIgnored(w: World, n: nat, i: nat, w': World)
    requires Reachable(w, n) && i in w.log
    requires Step(w, Reconcile(i), w')
    ensures w' == w
  {
    ReachableInv(w, n);
    var k :| 0 <= k < |w.log| && w.log[k] == i;
    assert LastUse(w.log, i) > 0;
  }

  lemma {:induction false} SeededShrinks(ws: seq<World>, es: seq<Event>, j: nat, k: nat)
    requires IsPath(ws, es) && j <= k <= |es|
    ensures ws[k].seeded <= ws[j].seeded
    decreases k
  {
    if j < k {
      SeededShrinks(ws, es, j, k - 1);
      assert Step(ws[k - 1], es[k - 1], ws[k]);
    }
  }

  /**
   * Whatever else happens meanwhile, once every slot has been reported idle
   * (possibly late, repeatedly or out of order) only guard-held slots are busy.
   */
  lemma FullPollLeavesOnlyGuardHeld(ws: seq<World>, es: seq<Event>, n: nat)
    requires IsRun(ws, es, n)
    requires forall i: nat | i < n :: Reconcile(i) in es
    ensures ws[|es|].seeded == {} && |ws[|es|].sched.slots| == n
    ensures forall i: nat | i < n :: ws[|es|].sched.slots[i].busy <==> Owned(ws[|es|].guards, i)
  {
    var last := ws[|es|];
    InitInv(ws[0], n);
    PathInv(ws, es, |es|);
    forall i: nat | i < n ensures i !in last.seeded {
      var k :| 0 <= k < |es| && es[k] == Reconcile(i);
      PathInv(ws, es, k);
      assert Step(ws[k], es[k], ws[k + 1]);
      SeededShrinks(ws, es, k + 1, |es|);
    }
    assert last.seeded == {};
  }
}
