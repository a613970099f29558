/**
 * The scheduler object: an in-place slot table, the waiter queues, the
 * admission scans and the wake loops. Each method is one critical section and
 * is proved against the step it performs in `Protocol`.
 */
module SchedulerClass {
  import opened Options
  import opened Slots
  import opened Protocol

  datatype SlotSnapshot = SlotSnapshot(
    slotId: nat, busy: bool, residentPrefix: Option<string>, residentModel: Option<string>)

  class Scheduler {
    const slots: array<Slot>
    var clock: nat
    var slotWaiters: map<nat, seq<nat>>
    var globalWaiters: seq<nat>
    /** The receiving ends of the oneshot channels still alive in some `admit` call. */
    var waiters: map<nat, Waiter>
    var nextTicket: nat

    function State(): Sched
      reads this, slots
    {
      Sched(slots[..], clock, slotWaiters, globalWaiters, waiters, nextTicket)
    }

    constructor (n: nat)
      ensures State() == Sched(seq(n, _ => FRESH_SLOT), 0, map[], [], map[], 0)
      ensures slots.Length == n && fresh(slots)
      ensures forall i | 0 <= i < n ::
        !slots[i].busy && !slots[i].seededUnowned && slots[i].lastUsed == 0
        && slots[i].residentPrefix.None? && slots[i].residentModel.None?
    {
      slots := new Slot[n](_ => FRESH_SLOT);
      clock, slotWaiters, globalWaiters, waiters, nextTicket := 0, map[], [], map[], 0;
    }

    method SeedBusy(i: nat)
      modifies slots
      ensures State() == SeededBusy(old(State()), i)
      ensures forall k | 0 <= k < slots.Length ::
        slots[k] == if k == i then old(slots[k]).(busy := true, seededUnowned := true) else old(slots[k])
    {
      if i < slots.Length {
        slots[i] := slots[i].(busy := true, seededUnowned := true);
      }
    }

    method MarkResident(i: nat, model: Option<string>, prefix: string)
      modifies slots
      ensures State() == Marked(old(State()), i, model, prefix)
      ensures forall k | 0 <= k < slots.Length ::
        slots[k] == if k == i then old(slots[k]).(residentPrefix := Some(prefix), residentModel := model)
                    else old(slots[k])
    {
      if i < slots.Length {
        slots[i] := slots[i].(residentPrefix := Some(prefix), residentModel := model);
      }
    }

    method ClearResident(i: nat)
      modifies slots
      ensures State() == Cleared(old(State()), i)
      ensures forall k | 0 <= k < slots.Length ::
        slots[k] == if k == i then old(slots[k]).(residentPrefix := None, residentModel := None)
                    else old(slots[k])
    {
      if i < slots.Length {
        slots[i] := slots[i].(residentPrefix := None, residentModel := None);
      }
    }

    method ReconcileSeededIdle(i: nat)
      modifies this, slots
      ensures State() == Reconciled(old(State()), i)
    {
      if i < slots.Length && slots[i].seededUnowned {
        slots[i] := slots[i].(busy := false);
        WakeWaitersFor(i);
      }
    }

    method Release(i: nat)
      modifies this, slots
      ensures State() == Freed(old(State()), i)
    {
      if i >= slots.Length {
        return;
      }
      slots[i] := slots[i].(busy := false);
      WakeWaitersFor(i);
    }

    /** A oneshot send: it succeeds iff the receiver is still alive. */
    method Send(t: nat) returns (ok: bool)
      modifies this`waiters
      ensures ok <==> t in old(waiters)
      ensures waiters == Signal(old(waiters), [t])
    {
      ok := t in waiters;
      if ok {
        waiters := waiters[t := waiters[t].(woken := true)];
      }
    }

    /** The first drain loop: signals slot `i`'s whole queue and reports whether anyone was alive. */
    method DrainSlotQueue(i: nat) returns (live: bool)
      requires i in slotWaiters
      modifies this`slotWaiters, this`waiters
      ensures slotWaiters == old(slotWaiters)[i := []]
      ensures waiters == Signal(old(waiters), old(slotWaiters)[i])
      ensures live <==> LiveIn(old(waiters), old(slotWaiters)[i])
    {
      live := false;
      ghost var all, done := slotWaiters[i], [];
      while slotWaiters[i] != []
        invariant i in slotWaiters && slotWaiters == old(slotWaiters)[i := slotWaiters[i]]
        invariant all == done + slotWaiters[i]
        invariant waiters == Signal(old(waiters), done)
        invariant live <==> LiveIn(old(waiters), done)
        decreases |slotWaiters[i]|
      {
        var t := slotWaiters[i][0];
        slotWaiters := slotWaiters[i := slotWaiters[i][1..]];
        var ok := Send(t);
        live := live || ok;
        assert LiveIn(old(waiters), done + [t]) <==> LiveIn(old(waiters), done) || t in old(waiters) by {
          assert t in done + [t];
        }
        done := done + [t];
      }
      assert done == all;
    }

    /** The second drain loop: signals every global waiter. */
    method DrainGlobalQueue()
      modifies this`globalWaiters, this`waiters
      ensures globalWaiters == []
      ensures waiters == Signal(old(waiters), old(globalWaiters))
    {
      ghost var done := [];
      while globalWaiters != []
        invariant old(globalWaiters) == done + globalWaiters
        invariant waiters == Signal(old(waiters), done)
        decreases |globalWaiters|
      {
        var t := globalWaiters[0];
        globalWaiters := globalWaiters[1..];
        var _ := Send(t);
        done := done + [t];
      }
      assert done == old(globalWaiters);
    }

    method WakeWaitersFor(i: nat)
      modifies this
      ensures State() == Wake(old(State()), i)
    {
      var live := false;
      if i in slotWaiters {
        live := DrainSlotQueue(i);
      } else {
        assert Signal(waiters, []) == waiters;
      }
      if !live {
        DrainGlobalQueue();
      }
    }

    /** The first idle slot already holding the hint's prefix, if there is one. */
    method FindResident(h: Hint) returns (r: Option<nat>)
      ensures match r
        case Some(i) => FirstResident(slots[..], Some(h), i)
        case None => forall k: nat :: !ResidentMatch(slots[..], Some(h), k)
    {
      for i := 0 to slots.Length
        invariant forall k: nat | k < i :: !ResidentMatch(slots[..], Some(h), k)
      {
        if !slots[i].busy && IsResidentIn(h, slots[i]) {
          return Some(i);
        }
      }
      return None;
    }

    /** The idle slot with the smallest stamp, the first one among equals. */
    method FindLeastUsed() returns (r: Option<nat>)
      ensures match r
        case Some(i) => LeastIdle(slots[..], i)
        case None => forall k: nat :: !Idle(slots[..], k)
    {
      r := None;
      for i := 0 to slots.Length
        invariant r.None? ==> forall k: nat | k < i :: !Idle(slots[..], k)
        invariant r.Some? ==> r.value < i && Idle(slots[..], r.value)
        invariant r.Some? ==> forall k: nat | k < i && Idle(slots[..], k) && k != r.value ::
          Before(slots[..], r.value, k)
      {
        if !slots[i].busy && (r.None? || slots[i].lastUsed < slots[r.value].lastUsed) {
          r := Some(i);
        }
      }
    }

    /** Marks slot `i` taken and stamps it. */
    method Take(i: nat)
      requires i < slots.Length
      modifies this`clock, slots
      ensures clock == old(clock) + 1
      ensures slots[..] == Claim(old(slots[..]), i, clock)
    {
      clock := clock + 1;
      slots[i] := slots[i].(busy := true, seededUnowned := false, lastUsed := clock);
    }

    method TryAdmitLocked(hint: Option<Hint>) returns (r: Option<Admission>)
      modifies this`clock, slots
      ensures match r
        case Some(a) => Attempt(old(State()), hint, Admitted(a), State())
        case None => Blocked(old(State()).slots, hint) && State() == old(State())
    {
      if hint.Some? && hint.value.preferredSlot.Some? && hint.value.preferredSlot.value < slots.Length {
        var preferred := hint.value.preferredSlot.value;
        if slots[preferred].busy {
          return None;
        }
        Take(preferred);
        return Some(Admission(preferred, IsResidentIn(hint.value, slots[preferred])));
      }
      if hint.Some? {
        var resident := FindResident(hint.value);
        if resident.Some? {
          Take(resident.value);
          return Some(Admission(resident.value, true));
        }
      }
      var least := FindLeastUsed();
      if least.None? {
        assert slots[..] == old(slots[..]);
        return None;
      }
      Take(least.value);
      var ready := hint.Some? && IsResidentIn(hint.value, slots[least.value]);
      return Some(Admission(least.value, ready));
    }

    /** One pass of the `admit` loop: admission, or a fresh ticket in the right queue. */
    method AdmitPass(hint: Option<Hint>) returns (o: Outcome)
      modifies this, slots
      ensures Attempt(old(State()), hint, o, State())
    {
      var admission := TryAdmitLocked(hint);
      if admission.Some? {
        return Admitted(admission.value);
      }
      var t := nextTicket;
      waiters, nextTicket := waiters[t := Waiter(hint, false)], t + 1;
      match UsablePreference(hint, slots.Length) {
        case Some(p) =>
          var queue := if p in slotWaiters then slotWaiters[p] else [];
          slotWaiters := slotWaiters[p := queue + [t]];
        case None =>
          globalWaiters := globalWaiters + [t];
      }
      return Queued(t);
    }

    /** A woken waiter resumes: its channel is spent and the pass starts over. */
    method Resume(t: nat) returns (o: Outcome)
      requires State().Woken(t)
      modifies this, slots
      ensures Attempt(Resumed(old(State()), t), old(waiters[t].hint), o, State())
    {
      var hint := waiters[t].hint;
      waiters := waiters - {t};
      o := AdmitPass(hint);
    }

    /** Timeout or disconnect: the receiver goes away, the sender stays queued. */
    method GiveUp(t: nat)
      modifies this`waiters
      ensures State() == Resumed(old(State()), t)
      ensures waiters == old(waiters) - {t}
    {
      waiters := waiters - {t};
    }

    function Snapshot(): (r: seq<SlotSnapshot>)
      reads this, slots
      ensures |r| == slots.Length
      ensures forall i | 0 <= i < |r| :: r[i].slotId == i && (r[i].busy <==> !Idle(slots[..], i))
      ensures forall i | 0 <= i < |r| ::
        r[i].residentPrefix == slots[i].residentPrefix && r[i].residentModel == slots[i].residentModel
      ensures forall i, h: Hint | 0 <= i < |r| ::
        (r[i].residentPrefix == Some(h.prefixHash) && r[i].residentModel == h.model)
        <==> IsResidentIn(h, slots[i])
    {
      seq(slots.Length, i requires 0 <= i < slots.Length reads this, slots =>
        SlotSnapshot(i, slots[i].busy, slots[i].residentPrefix, slots[i].residentModel))
    }
  }
}
