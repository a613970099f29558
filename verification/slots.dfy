/**
 * The occupancy table of the slot scheduler and the admission rule stated
 * declaratively: which slot a request must be given, and when it must queue.
 * The scan loops that compute this choice are in `SchedulerClass`.
 */
module Slots {
  import opened Options

  datatype Slot = Slot(
    busy: bool,
    residentPrefix: Option<string>,
    residentModel: Option<string>,
    seededUnowned: bool,
    lastUsed: nat)

  datatype Hint = Hint(prefixHash: string, preferredSlot: Option<nat>, model: Option<string>)

  datatype Admission = Admission(slotId: nat, cacheReady: bool)

  const FRESH_SLOT := Slot(false, None, None, false, 0)

  /** The slot holds the hint's prefix, computed by the hint's model. */
  predicate IsResidentIn(h: Hint, s: Slot) {
    s.residentPrefix == Some(h.prefixHash) && s.residentModel == h.model
  }

  /** The preference a request really has: an out-of-range one counts as none. */
  function UsablePreference(hint: Option<Hint>, n: nat): (p: Option<nat>)
    ensures p.Some? ==> p.value < n
    ensures forall q: nat :: p == Some(q) <==> hint.Some? && hint.value.preferredSlot == Some(q) && q < n
  {
    if hint.Some? && hint.value.preferredSlot.Some? && hint.value.preferredSlot.value < n
    then hint.value.preferredSlot
    else None
  }

  predicate Idle(slots: seq<Slot>, i: nat) {
    i < |slots| && !slots[i].busy
  }

  /** The fallback tier's order: least recently used first, then lowest index. */
  predicate Before(slots: seq<Slot>, i: nat, j: nat)
    requires i < |slots| && j < |slots|
  {
    slots[i].lastUsed < slots[j].lastUsed || (slots[i].lastUsed == slots[j].lastUsed && i < j)
  }

  predicate ResidentMatch(slots: seq<Slot>, hint: Option<Hint>, i: nat) {
    Idle(slots, i) && hint.Some? && IsResidentIn(hint.value, slots[i])
  }

  /** `i` is the least idle slot in the fallback order. */
  ghost predicate LeastIdle(slots: seq<Slot>, i: nat) {
    Idle(slots, i) && forall k: nat :: Idle(slots, k) && k != i ==> Before(slots, i, k)
  }

  /** `i` is the lowest idle slot already holding the request's prefix. */
  ghost predicate FirstResident(slots: seq<Slot>, hint: Option<Hint>, i: nat) {
    ResidentMatch(slots, hint, i) && forall k: nat :: ResidentMatch(slots, hint, k) ==> i <= k
  }

  /** The admission falls to the last tier: no usable preference, no resident match. */
  ghost predicate FallbackTier(slots: seq<Slot>, hint: Option<Hint>) {
    UsablePreference(hint, |slots|).None? && forall k: nat :: !ResidentMatch(slots, hint, k)
  }

  /** `i` is the slot the three tiers must pick for `hint`. */
  ghost predicate Chosen(slots: seq<Slot>, hint: Option<Hint>, i: nat) {
    match UsablePreference(hint, |slots|)
    case Some(p) => i == p && Idle(slots, i)
    case None =>
      if FallbackTier(slots, hint) then LeastIdle(slots, i) else FirstResident(slots, hint, i)
  }

  /** The request has to queue. */
  ghost predicate Blocked(slots: seq<Slot>, hint: Option<Hint>) {
    match UsablePreference(hint, |slots|)
    case Some(p) => slots[p].busy
    case None => forall k: nat :: !Idle(slots, k)
  }

  /** What one successful admission writes into slot `i`. */
  function Claim(slots: seq<Slot>, i: nat, stamp: nat): seq<Slot>
    requires i < |slots|
  {
    slots[i := slots[i].(busy := true, seededUnowned := false, lastUsed := stamp)]
  }

  lemma {:induction false} LeastIdleExists(slots: seq<Slot>, hi: nat) returns (i: nat)
    requires hi <= |slots| && exists k: nat :: k < hi && Idle(slots, k)
    ensures i < hi && Idle(slots, i)
    ensures forall k: nat :: k < hi && Idle(slots, k) && k != i ==> Before(slots, i, k)
    decreases hi
  {
    if hi > 0 && exists k: nat :: k < hi - 1 && Idle(slots, k) {
      i := LeastIdleExists(slots, hi - 1);
      if Idle(slots, hi - 1) && Before(slots, hi - 1, i) {
        i := hi - 1;
      }
    } else {
      i := hi - 1;
    }
  }

  lemma {:induction false} FirstResidentExists(slots: seq<Slot>, hint: Option<Hint>, k: nat) returns (i: nat)
    requires ResidentMatch(slots, hint, k)
    ensures FirstResident(slots, hint, i)
    decreases k
  {
    if j :| 0 <= j < k && ResidentMatch(slots, hint, j) {
      i := FirstResidentExists(slots, hint, j);
    } else {
      i := k;
    }
  }

  /** Admission is total and exclusive: a request is admitted exactly when it is not blocked. */
  lemma ChoiceIffNotBlocked(slots: seq<Slot>, hint: Option<Hint>)
    ensures (exists i: nat :: Chosen(slots, hint, i)) <==> !Blocked(slots, hint)
  {
    if !Blocked(slots, hint) {
      if UsablePreference(hint, |slots|).Some? {
        assert Chosen(slots, hint, UsablePreference(hint, |slots|).value);
      } else if FallbackTier(slots, hint) {
        var i := LeastIdleExists(slots, |slots|);
        assert Chosen(slots, hint, i);
      } else {
        var k :| ResidentMatch(slots, hint, k);
        var i := FirstResidentExists(slots, hint, k);
        assert Chosen(slots, hint, i);
      }
    }
  }

  /** The three tiers leave no freedom: at most one slot qualifies. */
  lemma ChoiceUnique(slots: seq<Slot>, hint: Option<Hint>, i: nat, j: nat)
    requires Chosen(slots, hint, i) && Chosen(slots, hint, j)
    ensures i == j
  {
    assert Idle(slots, i) && Idle(slots, j);
  }

  /**
   * A request whose slot already holds its prefix and model is found by the
   * resident tier whenever such an idle slot exists, so the fallback tier is
   * never cache-ready.
   */
  lemma CacheReadyIffResidentExists(slots: seq<Slot>, hint: Option<Hint>, i: nat)
    requires UsablePreference(hint, |slots|).None? && Chosen(slots, hint, i)
    ensures ResidentMatch(slots, hint, i) <==> exists k: nat :: ResidentMatch(slots, hint, k)
    ensures FallbackTier(slots, hint) ==> !(hint.Some? && IsResidentIn(hint.value, slots[i]))
  {
    assert Idle(slots, i);
  }
}
