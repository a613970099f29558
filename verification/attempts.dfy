/**
 * One attempt at admission read off the table's own fields and the preference
 * a client sent: when it is refused, which slot it gets, whether that slot is
 * cache-ready, and what a refusal leaves behind.
 */
module Attempts {
  import opened Options
  import opened Slots
  import opened Protocol

  /** The client named no slot, or one that does not exist. */
  predicate NamesNoSlot(hint: Option<Hint>, n: nat) {
    hint.None? || hint.value.preferredSlot.None? || hint.value.preferredSlot.value >= n
  }

  /** The slot's record is exactly the hint's prefix and model. */
  predicate RecordedFor(slot: Slot, hint: Option<Hint>) {
    hint.Some? && slot.residentPrefix == Some(hint.value.prefixHash) && slot.residentModel == hint.value.model
  }

  function WithoutPreference(hint: Option<Hint>): Option<Hint> {
    match hint
    case Some(h) => Some(h.(preferredSlot := None))
    case None => None
  }

  /** A preference out of range is no preference: the same admissions are possible without it. */
  lemma OutOfRangeIsNoPreference(s: Sched, hint: Option<Hint>, a: Admission, s': Sched)
    requires NamesNoSlot(hint, |s.slots|)
    ensures Attempt(s, hint, Admitted(a), s') <==> Attempt(s, WithoutPreference(hint), Admitted(a), s')
  {
    assert forall k: nat :: ResidentMatch(s.slots, hint, k) <==> ResidentMatch(s.slots, WithoutPreference(hint), k);
  }

  /** Without a named slot the attempt is refused iff every slot is busy, and a refusal queues globally. */
  lemma UnnamedIsRefusedIff(s: Sched, hint: Option<Hint>, o: Outcome, s': Sched)
    requires Attempt(s, hint, o, s') && NamesNoSlot(hint, |s.slots|)
    ensures o.Queued? <==> forall i | 0 <= i < |s.slots| :: s.slots[i].busy
    ensures o.Queued? ==> s'.globalWaiters == s.globalWaiters + [o.ticket] && s'.slotWaiters == s.slotWaiters
  {
    match o
    case Queued(_) => assert forall i | 0 <= i < |s.slots| :: s.slots[i].busy || Idle(s.slots, i);
    case Admitted(a) => assert Idle(s.slots, a.slotId);
  }

  /** With one it is refused iff that slot is busy, gets only that slot, and queues only there. */
  lemma NamedIsRefusedIff(s: Sched, h: Hint, p: nat, o: Outcome, s': Sched)
    requires Attempt(s, Some(h), o, s') && h.preferredSlot == Some(p) && p < |s.slots|
    ensures o.Queued? <==> s.slots[p].busy
    ensures o.Admitted? ==> o.admission.slotId == p
    ensures o.Queued? ==>
      && s'.slotWaiters == s.slotWaiters[p := (if p in s.slotWaiters then s.slotWaiters[p] else []) + [o.ticket]]
      && s'.globalWaiters == s.globalWaiters
  {
    assert UsablePreference(Some(h), |s.slots|) == Some(p);
  }

  /** What a refusal adds and what it leaves alone: one waiter with the request's own hint. */
  lemma RefusalParks(s: Sched, hint: Option<Hint>, t: nat, s': Sched)
    requires Attempt(s, hint, Queued(t), s')
    ensures s'.slots == s.slots && s'.clock == s.clock
    ensures t == s.nextTicket && s'.nextTicket == t + 1
    ensures s'.waiters == s.waiters[t := Waiter(hint, false)]
  {
  }

  /** What an admission takes and what it leaves alone. */
  lemma AdmissionTakes(s: Sched, hint: Option<Hint>, a: Admission, s': Sched)
    requires Attempt(s, hint, Admitted(a), s')
    ensures a.slotId < |s.slots| == |s'.slots| && !s.slots[a.slotId].busy
    ensures s'.slots[a.slotId] == s.slots[a.slotId].(busy := true, seededUnowned := false, lastUsed := s'.clock)
    ensures forall i | 0 <= i < |s.slots| && i != a.slotId :: s'.slots[i] == s.slots[i]
    ensures s'.clock == s.clock + 1 && s'.waiters == s.waiters && s'.nextTicket == s.nextTicket
    ensures s'.slotWaiters == s.slotWaiters && s'.globalWaiters == s.globalWaiters
    ensures a.cacheReady <==> RecordedFor(s.slots[a.slotId], hint)
  {
    assert Idle(s.slots, a.slotId);
  }

  /**
   * Without a named slot: the lowest idle slot recorded for the hint, if there
   * is one, and else the idle slot with the smallest stamp, the lowest of equals.
   */
  lemma UnnamedChoice(s: Sched, hint: Option<Hint>, a: Admission, s': Sched, k: nat)
    requires Attempt(s, hint, Admitted(a), s') && NamesNoSlot(hint, |s.slots|)
    requires k < |s.slots| && !s.slots[k].busy && k != a.slotId
    ensures RecordedFor(s.slots[k], hint) ==> a.cacheReady && a.slotId < k
    ensures !a.cacheReady ==>
      || s.slots[a.slotId].lastUsed < s.slots[k].lastUsed
      || (s.slots[a.slotId].lastUsed == s.slots[k].lastUsed && a.slotId < k)
  {
    assert Idle(s.slots, k) && Idle(s.slots, a.slotId);
    assert ResidentMatch(s.slots, hint, k) <==> RecordedFor(s.slots[k], hint);
  }
}
