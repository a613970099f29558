/**
 * One request from its admission to the release of its slot: restore or warm
 * the slot, save it, record it, or clear the record of a hint-less request;
 * send the real request; relay the response; let go. Each method is proved
 * against what it leaves behind and as a walk through the steps of
 * `Residency`; what the store and llama-server answer is an input.
 */
module SlotServer {
  import opened Options
  import opened Slots
  import opened Protocol
  import opened SchedulerClass
  import opened Residency
  import opened Coherence
  import opened Lifetime
  import opened RelayTask

  /**
   * The outside's answers to one preparation, and what the two calls that can
   * fail leave in the slot when they do; `None` leaves it as it was.
   */
  datatype Replies = Replies(
    restoreFails: bool, restoreDamage: Option<Content>,
    warmUpOk: bool, warmUpDamage: Option<Content>,
    saveOk: bool)

  /** The damage `env` allows. */
  ghost predicate Plausible(env: Env, r: Replies) {
    env.harmless ==> r.restoreDamage.None? && r.warmUpDamage.None?
  }

  /**
   * What the real request comes to. sent: llama-server answered it. left: what
   * a hint-less generation leaves in the slot. The rest is its response, and
   * the fates of the head and the items on their way to the client.
   */
  datatype Upstream = Upstream(sent: bool, left: Content, headTaken: bool, items: seq<Item>, fates: seq<Fate>)

  /** How far the job got. */
  datatype JobEnd = NotRun | PrepareFailed | RequestFailed | Responded

  /** A forwarding task that has not begun. */
  ghost predicate Unstarted(task: ForwardTask)
    reads task
  {
    task.client && !task.abandoned && task.guard && task.effects == []
  }

  /**
   * What precedes the real request, case by case: whether it succeeds, and what
   * the slot, which held `c`, and the store hold then.
   */
  ghost predicate Prepares(hint: Option<Hint>, ready: bool, r: Replies, c: Content, store: map<Key, Content>,
                           ok: bool, c': Content, store': map<Key, Content>)
  {
    if hint.None? || ready then
      ok && c' == c && store' == store
    else if !r.restoreFails && KeyOf(hint.value) in store then
      ok && c' == store[KeyOf(hint.value)] && store' == store
    else if r.warmUpOk then
      && ok && c' == ContentOf(hint.value)
      && store' == if r.saveOk then store[KeyOf(hint.value) := ContentOf(hint.value)] else store
    else
      !ok && c' == r.warmUpDamage.GetOr(r.restoreDamage.GetOr(c)) && store' == store
  }

  /** What the occupancy table says once the real request may be sent, or cannot be. */
  function TableLeft(s: Sched, hint: Option<Hint>, a: Admission, ok: bool): Sched {
    if !ok then s
    else if hint.None? then Cleared(s, a.slotId)
    else if a.cacheReady then s
    else Marked(s, a.slotId, hint.value.model, hint.value.prefixHash)
  }

  /** The table tells what the served request left in its slot. */
  ghost predicate ToldByTable(env: Env, hint: Option<Hint>, slot: Slot, c: Content) {
    match hint
    case None => slot.residentPrefix.None?
    case Some(h) => IsResidentIn(h, slot) && (env.harmless ==> Holds(env, c, h.model, h.prefixHash))
  }

  lemma ServedIsRecorded(env: Env, b: Broker, n: nat, g: nat)
    requires CanReach(env, b, n) && HasJob(b, g) && Served(b.jobs[g].phase)
    ensures ToldByTable(env, b.jobs[g].hint, b.w.sched.slots[b.jobs[g].slot], b.kv[b.jobs[g].slot])
  {
    ServingIsRecorded(env, b, n, g);
    if env.harmless && b.jobs[g].hint.Some? {
      ServedOnOwnPrefix(env, b, n, g);
    }
  }

  /** A hint finds its slot cache-ready after its job iff it was so before or was prepared. */
  lemma ReadyAfterIff(s0: Sched, h: Hint, a: Admission, s: Sched, ok: bool)
    requires Attempt(s0, Some(h), Admitted(a), s) && (a.cacheReady ==> ok)
    ensures ResidentMatch(Freed(TableLeft(s, Some(h), a, ok), a.slotId).slots, Some(h), a.slotId) <==> ok
  {
  }

  class Server {
    const sched: Scheduler
    const kv: array<Content>
    var store: map<Key, Content>

    constructor (sched: Scheduler, kv: array<Content>, store: map<Key, Content>)
      ensures this.sched == sched && this.kv == kv && this.store == store
    {
      this.sched, this.kv, this.store := sched, kv, store;
    }

    ghost predicate Views(b: Broker)
      reads this, kv, sched, sched.slots
    {
      b.w.sched == sched.State() && b.kv == kv[..] && b.store == store
    }

    method WarmOrRestore(h: Hint, i: nat, r: Replies, ghost env: Env, ghost n: nat, ghost g: nat, ghost b0: Broker)
      returns (ok: bool, ghost b: Broker)
      requires Views(b0) && CanReach(env, b0, n) && HasJob(b0, g)
      requires b0.jobs[g] == Job(i, Some(h), false, Starting, Other)
      requires Plausible(env, r)
      modifies this`store, kv, sched.slots
      ensures Views(b) && CanReach(env, b, n) && HasJob(b, g)
      ensures b.jobs == b0.jobs[g := Job(i, Some(h), false, if ok then Serving else Failed, old(kv[i]))]
      ensures !r.restoreFails && KeyOf(h) in old(store) ==>
        ok && kv[..] == old(kv[..])[i := old(store)[KeyOf(h)]] && store == old(store)
      ensures r.restoreFails || KeyOf(h) !in old(store) ==> ok == r.warmUpOk
      ensures (r.restoreFails || KeyOf(h) !in old(store)) && ok ==>
        && kv[..] == old(kv[..])[i := Prefix(h.model, h.prefixHash)]
        && store == if r.saveOk then old(store)[KeyOf(h) := Prefix(h.model, h.prefixHash)] else old(store)
      ensures !ok ==> store == old(store)
      ensures !ok ==> kv[..] == old(kv[..])[i := r.warmUpDamage.GetOr(r.restoreDamage.GetOr(old(kv[i])))]
      ensures sched.State() ==
        if ok then Marked(old(sched.State()), i, h.model, h.prefixHash) else old(sched.State())
    {
      ok, b := TryRestore(h, i, r, env, n, g, b0);
      if !ok {
        ok, b := WarmAndSave(h, i, r, env, n, g, b);
      }
      if ok {
        b := RecordResident(h, i, env, n, g, b);
      }
    }

    /** A saved entry under the hint's key replaces the slot's content; an error counts as a miss. */
    method TryRestore(h: Hint, i: nat, r: Replies, ghost env: Env, ghost n: nat, ghost g: nat, ghost b0: Broker)
      returns (restored: bool, ghost b: Broker)
      requires Views(b0) && CanReach(env, b0, n) && HasJob(b0, g)
      requires b0.jobs[g] == Job(i, Some(h), false, Starting, Other)
      requires Plausible(env, r)
      modifies kv
      ensures Views(b) && CanReach(env, b, n) && HasJob(b, g) && b.w == b0.w
      ensures restored <==> !r.restoreFails && KeyOf(h) in store
      ensures b.jobs == b0.jobs[g := Job(i, Some(h), false, if restored then Prepared else Warming, old(kv[i]))]
      ensures kv[..] == old(kv[..])[i := if restored then store[KeyOf(h)] else r.restoreDamage.GetOr(old(kv[i]))]
    {
      restored := !r.restoreFails && KeyOf(h) in store;
      if restored {
        kv[i] := store[KeyOf(h)];
        b := HitOn(env, b0, n, g, h);
      } else {
        kv[i] := r.restoreDamage.GetOr(kv[i]);
        b := MissOn(env, b0, n, g, kv[i]);
      }
    }

    method RecordResident(h: Hint, i: nat, ghost env: Env, ghost n: nat, ghost g: nat, ghost b0: Broker)
      returns (ghost b: Broker)
      requires Views(b0) && CanReach(env, b0, n) && HasJob(b0, g)
      requires b0.jobs[g] == Job(i, Some(h), false, Prepared, b0.jobs[g].before)
      modifies sched.slots
      ensures Views(b) && CanReach(env, b, n) && HasJob(b, g)
      ensures b.jobs == b0.jobs[g := b0.jobs[g].(phase := Serving)]
      ensures sched.State() == Marked(old(sched.State()), i, h.model, h.prefixHash)
    {
      sched.MarkResident(i, h.model, h.prefixHash);
      b := MarkOn(env, b0, n, g, h);
    }

    /** The cold path: the warm-up request, then a save whose failure is ignored. */
    method WarmAndSave(h: Hint, i: nat, r: Replies, ghost env: Env, ghost n: nat, ghost g: nat, ghost b0: Broker)
      returns (ok: bool, ghost b: Broker)
      requires Views(b0) && CanReach(env, b0, n) && HasJob(b0, g)
      requires b0.jobs[g] == Job(i, Some(h), false, Warming, b0.jobs[g].before)
      requires Plausible(env, r) && (env.harmless ==> kv[i] == b0.jobs[g].before)
      modifies this`store, kv
      ensures Views(b) && CanReach(env, b, n) && HasJob(b, g)
      ensures ok == r.warmUpOk && b.w == b0.w
      ensures b.jobs == b0.jobs[g := b0.jobs[g].(phase := if ok then Prepared else Failed)]
      ensures kv[..] == old(kv[..])[i := if ok then ContentOf(h) else r.warmUpDamage.GetOr(old(kv[i]))]
      ensures store == if ok && r.saveOk then old(store)[KeyOf(h) := ContentOf(h)] else old(store)
    {
      ok := r.warmUpOk;
      ghost var l := LocalOf(b0, g);
      if !ok {
        kv[i] := r.warmUpDamage.GetOr(kv[i]);
        b := WorkOn(env, b0, n, g, WarmFails(kv[i]), l.(phase := Failed, content := kv[i]));
        return;
      }
      kv[i] := ContentOf(h);
      ghost var l1 := l.(phase := Warmed, content := kv[i]);
      b := WorkOn(env, b0, n, g, WarmOk, l1);
      if r.saveOk {
        store := store[KeyOf(h) := kv[i]];
      }
      ghost var l2 := l1.(phase := Prepared, store := store);
      b := WorkOn(env, b, n, g, SaveEnds(r.saveOk), l2);
    }

    /**
     * What precedes the real request: prepare, clear or skip. On success the
     * job is serving, and a slot of a hint-less request names no prefix.
     */
    method PrepareSlot(hint: Option<Hint>, a: Admission, r: Replies,
                       ghost env: Env, ghost n: nat, ghost g: nat, ghost b0: Broker)
      returns (ok: bool, ghost b: Broker)
      requires Views(b0) && CanReach(env, b0, n) && HasJob(b0, g)
      requires b0.jobs[g] == Job(a.slotId, hint, a.cacheReady, Starting, Other)
      requires Plausible(env, r)
      modifies this`store, kv, sched.slots
      ensures Views(b) && CanReach(env, b, n) && HasJob(b, g)
      ensures b.jobs == b0.jobs[g := b0.jobs[g].(phase := if ok then Serving else Failed, before := b.jobs[g].before)]
      ensures Prepares(hint, a.cacheReady, r, old(kv[a.slotId]), old(store), ok, kv[a.slotId], store)
      ensures kv[..] == old(kv[..])[a.slotId := kv[a.slotId]]
      ensures sched.State() == TableLeft(old(sched.State()), hint, a, ok)
      ensures ok && hint.Some? && env.harmless ==>
        Holds(env, kv[a.slotId], hint.value.model, hint.value.prefixHash)
    {
      ok := true;
      ghost var l := LocalOf(b0, g);
      match hint {
        case Some(h) =>
          if !a.cacheReady {
            ok, b := WarmOrRestore(h, a.slotId, r, env, n, g, b0);
          } else {
            b := WorkOn(env, b0, n, g, Skip, l.(phase := Serving));
          }
          if ok && env.harmless {
            ServedOnOwnPrefix(env, b, n, g);
          }
        case None =>
          sched.ClearResident(a.slotId);
          b := WorkOn(env, b0, n, g, Clear, l.(phase := Serving,
            slot := l.slot.(residentPrefix := None, residentModel := None)));
      }
    }

    /** Admission by the handler; building the guard and spawning the job follow without a wait. */
    method Admit(hint: Option<Hint>, ghost env: Env, ghost n: nat, ghost b0: Broker)
      returns (o: Outcome, ghost b: Broker)
      requires Views(b0) && CanReach(env, b0, n) && HintAllowed(env, hint)
      modifies sched, sched.slots
      ensures Views(b) && CanReach(env, b, n)
      ensures Attempt(old(sched.State()), hint, o, sched.State())
      ensures o.Queued? <==> Blocked(b0.w.sched.slots, hint)
      ensures o.Admitted? ==> Chosen(b0.w.sched.slots, hint, o.admission.slotId)
      ensures match o
        case Admitted(a) =>
          HasJob(b, sched.clock) && b.jobs[sched.clock] == Job(a.slotId, hint, a.cacheReady, Starting, Other)
            && sched.clock !in b0.jobs && b.jobs == b0.jobs[sched.clock := b.jobs[sched.clock]]
        case Queued(_) => b.jobs == b0.jobs
    {
      o := sched.AdmitPass(hint);
      ChoiceIffNotBlocked(b0.w.sched.slots, hint);
      b := AdmitOn(env, b0, n, hint, o, sched.State());
    }

    /** The job is over: its guard is dropped. */
    method Finish(i: nat, ghost env: Env, ghost n: nat, ghost g: nat, ghost b0: Broker)
      returns (ghost b: Broker)
      requires Views(b0) && CanReach(env, b0, n) && HasJob(b0, g) && b0.jobs[g].slot == i
      requires Over(b0.jobs[g].phase)
      modifies sched, sched.slots
      ensures Views(b) && CanReach(env, b, n) && b.jobs == b0.jobs - {g}
      ensures sched.State() == Freed(old(sched.State()), i) && b.kv == b0.kv && store == old(store)
    {
      sched.Release(i);
      JobsNeverOverlap(env, b0, n, g);
      b := FinishOn(env, b0, n, g);
    }

    /**
     * The real request and its response: the response is read to its end or
     * its error whatever the client does, and only then is the job over.
     */
    method SendAndRelay(hint: Option<Hint>, i: nat, u: Upstream, task: ForwardTask,
                        ghost env: Env, ghost n: nat, ghost g: nat, ghost b0: Broker)
      returns (ghost b: Broker)
      requires Views(b0) && CanReach(env, b0, n) && HasJob(b0, g)
      requires b0.jobs[g].slot == i && b0.jobs[g].hint == hint && b0.jobs[g].phase == Serving
      requires Unstarted(task) && ReadCount(u.items) <= |u.fates|
      modifies kv, task
      ensures Views(b) && CanReach(env, b, n) && HasJob(b, g) && b.w == b0.w
      ensures b.jobs == b0.jobs[g := b0.jobs[g].(phase := Ended)]
      ensures kv[..] == if hint.None? then old(kv[..])[i := u.left] else old(kv[..])
      ensures task.guard && Progress(task.effects, task.client) ==
        if u.sent then After(u.headTaken, u.items, u.fates, ReadCount(u.items)) else Progress([CloseSender], false)
    {
      if hint.None? {
        kv[i] := u.left;
      }
      b := ServeOn(env, b0, n, g, kv[i]);
      if u.sent {
        task.RelayBody(u.headTaken, u.items, u.fates);
      } else {
        task.DropSender();
      }
    }

    /** The guard is dropped, which frees the slot, and then the sender, if it is still held. */
    method LetGo(i: nat, task: ForwardTask, ghost env: Env, ghost n: nat, ghost g: nat, ghost b0: Broker)
      returns (ghost b: Broker)
      requires Views(b0) && CanReach(env, b0, n) && HasJob(b0, g) && b0.jobs[g].slot == i
      requires Over(b0.jobs[g].phase) && task.guard
      modifies sched, sched.slots, task
      ensures Views(b) && CanReach(env, b, n) && b.jobs == b0.jobs - {g} && b.kv == b0.kv
      ensures sched.State() == Freed(old(sched.State()), i)
      ensures !task.guard && !task.client
      ensures task.effects == Finished(Progress(old(task.effects), old(task.client)))
      ensures old(task.effects) == [CloseSender] && !old(task.client) ==> task.effects == [CloseSender, ReleaseSlot]
      ensures |sched.State().slots| == |b0.w.sched.slots|
      ensures sched.State().slots[i] == b0.w.sched.slots[i].(busy := false)
    {
      b := Finish(i, env, n, g, b0);
      task.DropGuard();
      task.DropSender();
    }

    /** The job up to the end of its upstream work; the slot is still held. */
    method SeeThrough(hint: Option<Hint>, a: Admission, r: Replies, u: Upstream, task: ForwardTask,
                      ghost env: Env, ghost n: nat, ghost g: nat, ghost b0: Broker)
      returns (end: JobEnd, ghost c: Content, ghost b: Broker)
      requires Views(b0) && CanReach(env, b0, n) && HasJob(b0, g)
      requires b0.jobs[g] == Job(a.slotId, hint, a.cacheReady, Starting, Other)
      requires Plausible(env, r) && Unstarted(task) && ReadCount(u.items) <= |u.fates|
      modifies this`store, kv, sched.slots, task
      ensures Views(b) && CanReach(env, b, n) && HasJob(b, g)
      ensures b.jobs == b0.jobs[g := b0.jobs[g].(phase := if end == PrepareFailed then Failed else Ended,
                                                 before := b.jobs[g].before)]
      ensures Prepares(hint, a.cacheReady, r, old(kv[a.slotId]), old(store), end != PrepareFailed, c, store)
      ensures end != PrepareFailed ==> end == if u.sent then Responded else RequestFailed
      ensures kv[..] == old(kv[..])[a.slotId := if hint.None? then u.left else c]
      ensures sched.State() == TableLeft(old(sched.State()), hint, a, end != PrepareFailed)
      ensures task.guard
      ensures end == Responded ==>
        Progress(task.effects, task.client) == After(u.headTaken, u.items, u.fates, ReadCount(u.items))
      ensures end != Responded ==> task.effects == [CloseSender] && !task.client
    {
      var ok;
      ok, b := PrepareSlot(hint, a, r, env, n, g, b0);
      c := kv[a.slotId];
      if ok {
        end := if u.sent then Responded else RequestFailed;
        b := SendAndRelay(hint, a.slotId, u, task, env, n, g, b);
      } else {
        end := PrepareFailed;
        task.DropSender();
      }
    }

    /**
     * An admitted job from start to end, whatever the outside answers and the
     * client does: the upstream work is seen through, then its slot is idle
     * again, and unless the preparation failed the table tells what is there.
     */
    method RunJob(hint: Option<Hint>, a: Admission, r: Replies, u: Upstream, task: ForwardTask,
                  ghost env: Env, ghost n: nat, ghost g: nat, ghost b0: Broker)
      returns (end: JobEnd, ghost b: Broker)
      requires Views(b0) && CanReach(env, b0, n) && HasJob(b0, g)
      requires b0.jobs[g] == Job(a.slotId, hint, a.cacheReady, Starting, Other)
      requires Plausible(env, r) && Unstarted(task) && ReadCount(u.items) <= |u.fates|
      modifies this`store, kv, sched, sched.slots, task
      ensures Views(b) && CanReach(env, b, n) && b.jobs == b0.jobs - {g}
      ensures hint.None? ==>
        end != PrepareFailed && store == old(store) && kv[..] == old(kv[..])[a.slotId := u.left]
      ensures hint.Some? && a.cacheReady ==>
        end != PrepareFailed && store == old(store) && kv[..] == old(kv[..])
      ensures hint.Some? && !a.cacheReady && !r.restoreFails && KeyOf(hint.value) in old(store) ==>
        && end != PrepareFailed && store == old(store)
        && kv[..] == old(kv[..])[a.slotId := old(store)[KeyOf(hint.value)]]
      ensures hint.Some? && !a.cacheReady && (r.restoreFails || KeyOf(hint.value) !in old(store)) ==>
        && (end == PrepareFailed <==> !r.warmUpOk)
        && (r.warmUpOk ==> kv[..] == old(kv[..])[a.slotId := Prefix(hint.value.model, hint.value.prefixHash)])
        && store == if r.warmUpOk && r.saveOk
                    then old(store)[KeyOf(hint.value) := Prefix(hint.value.model, hint.value.prefixHash)] else old(store)
      ensures end != PrepareFailed ==> end == if u.sent then Responded else RequestFailed
      ensures end == Responded ==>
        task.effects == Finished(After(u.headTaken, u.items, u.fates, ReadCount(u.items)))
      ensures end != Responded ==> task.effects == [CloseSender, ReleaseSlot]
      ensures !task.guard && !task.client
      ensures sched.State() == Freed(TableLeft(old(sched.State()), hint, a, end != PrepareFailed), a.slotId)
      ensures end == PrepareFailed ==> sched.State().slots[a.slotId] == old(sched.State().slots)[a.slotId].(busy := false)
      ensures Idle(sched.State().slots, a.slotId) && kv[..] == old(kv[..])[a.slotId := kv[a.slotId]]
      ensures end != PrepareFailed ==> ToldByTable(env, hint, sched.State().slots[a.slotId], b.kv[a.slotId])
    {
      ghost var c;
      end, c, b := SeeThrough(hint, a, r, u, task, env, n, g, b0);
      if end != PrepareFailed {
        ServedIsRecorded(env, b, n, g);
      }
      b := LetGo(a.slotId, task, env, n, g, b);
    }

    /**
     * One whole request that is either queued or admitted at once and run to
     * its end. A hint is cache-ready on its slot afterwards iff its preparation
     * did not fail.
     */
    method Handle(hint: Option<Hint>, r: Replies, u: Upstream, task: ForwardTask,
                  ghost env: Env, ghost n: nat, ghost b0: Broker)
      returns (o: Outcome, end: JobEnd, ghost b: Broker)
      requires Views(b0) && CanReach(env, b0, n) && HintAllowed(env, hint)
      requires Plausible(env, r) && Unstarted(task) && ReadCount(u.items) <= |u.fates|
      modifies this`store, kv, sched, sched.slots, task
      ensures Views(b) && CanReach(env, b, n) && b.jobs == b0.jobs
      ensures o.Queued? <==> Blocked(b0.w.sched.slots, hint)
      ensures o.Queued? <==> end == NotRun
      ensures o.Queued? ==> Unstarted(task)
      ensures o.Admitted? ==> Chosen(b0.w.sched.slots, hint, o.admission.slotId)
      ensures o.Admitted? ==> Idle(sched.State().slots, o.admission.slotId)
      ensures o.Admitted? ==> !task.guard && !task.client
      ensures end == Responded ==>
        task.effects == Finished(After(u.headTaken, u.items, u.fates, ReadCount(u.items)))
      ensures end == PrepareFailed || end == RequestFailed ==> task.effects == [CloseSender, ReleaseSlot]
      ensures end == PrepareFailed ==> hint.Some? && !r.warmUpOk && (r.restoreFails || KeyOf(hint.value) !in old(store))
      ensures o.Admitted? && hint.Some? ==>
        (ResidentMatch(sched.State().slots, hint, o.admission.slotId) <==> end != PrepareFailed)
    {
      end := NotRun;
      o, b := Admit(hint, env, n, b0);
      if o.Admitted? {
        ghost var s := sched.State();
        end, b := RunJob(hint, o.admission, r, u, task, env, n, sched.clock, b);
        if hint.Some? {
          ReadyAfterIff(b0.w.sched, hint.value, o.admission, s, end != PrepareFailed);
        }
      }
    }
  }
}
