/**
 * Cache coherence over whole broker runs, and the condition under which it is
 * exact.
 */
module Coherence {
  import opened Options
  import opened Slots
  import opened Protocol
  import opened Residency

  lemma {:induction false} HistoryInv(env: Env, bs: seq<Broker>, acts: seq<Act>, n: nat, k: nat)
    requires IsHistory(env, bs, acts, n) && k <= |acts|
    ensures BrokerInv(env, bs[k]) && |bs[k].w.sched.slots| == n
  {
    if k == 0 {
      StartsInv(env, bs[0], n);
    } else {
      HistoryInv(env, bs, acts, n, k - 1);
      assert DoesAt(env, bs, acts, k - 1);
      ActInv(env, bs[k - 1], acts[k - 1], bs[k]);
      ActKeepsSize(env, bs[k - 1], acts[k - 1], bs[k]);
    }
  }

  lemma ActKeepsSize(env: Env, b: Broker, a: Act, b': Broker)
    requires Does(env, b, a, b')
    ensures |b'.w.sched.slots| == |b.w.sched.slots|
  {
  }

  lemma CanReachInv(env: Env, b: Broker, n: nat)
    requires CanReach(env, b, n)
    ensures BrokerInv(env, b) && |b.w.sched.slots| == n
  {
    var bs: seq<Broker>, acts: seq<Act> :| IsHistory(env, bs, acts, n) && bs[|acts|] == b;
    HistoryInv(env, bs, acts, n, |acts|);
  }

  /** A job is rewriting slot `i`, or has rewritten it and not yet recorded it. */
  predicate UnderPreparation(b: Broker, i: nat) {
    exists g :: g in b.jobs && b.jobs[g].slot == i && Preparing(b.jobs[g].phase)
  }

  predicate Preparing(phase: Phase) {
    phase == Restoring || phase == Warming || phase == Warmed || phase == Prepared
  }

  /** From the moment the real request may be sent until its slot is let go. */
  predicate Served(phase: Phase) {
    phase == Serving || phase == Generating || phase == Ended
  }

  // ------------------------------------------------------------- coherence

  /**
   * Every slot not under preparation holds what the table records for it, up
   * to the store's spelling of an unnamed model, provided failed preparations
   * leave the content alone.
   */
  lemma RecordsAreTrue(env: Env, b: Broker, n: nat, i: nat)
    requires CanReach(env, b, n) && env.harmless && i < n
    requires i < |b.w.sched.slots| && !UnderPreparation(b, i) && b.w.sched.slots[i].residentPrefix.Some?
    ensures i < |b.kv|
    ensures Holds(env, b.kv[i], b.w.sched.slots[i].residentModel, b.w.sched.slots[i].residentPrefix.value)
  {
    CanReachInv(env, b, n);
    if g :| g in b.w.guards && b.w.guards[g] == i {
      assert g in b.jobs && b.jobs[g].slot == i;
    }
  }

  /** Every saved entry holds its key's content, whatever failed, was evicted or raced. */
  lemma StoreIsTrue(env: Env, b: Broker, n: nat, h: Hint)
    requires CanReach(env, b, n) && KeyOf(h) in b.store
    ensures b.store[KeyOf(h)].Prefix? && b.store[KeyOf(h)].prefix == h.prefixHash
    ensures ModelId(b.store[KeyOf(h)].model) == ModelId(h.model)
  {
    CanReachInv(env, b, n);
  }

  /**
   * A job admitted as cache-ready, and any hinted job from its real request to
   * the end of its response, sits on its own prefix and model.
   */
  lemma ServedOnOwnPrefix(env: Env, b: Broker, n: nat, g: nat)
    requires CanReach(env, b, n) && env.harmless && g in b.jobs && b.jobs[g].hint.Some?
    requires Served(b.jobs[g].phase) || (b.jobs[g].phase == Starting && b.jobs[g].ready)
    ensures b.jobs[g].slot < |b.kv|
    ensures Holds(env, b.kv[b.jobs[g].slot], b.jobs[g].hint.value.model, b.jobs[g].hint.value.prefixHash)
  {
    CanReachInv(env, b, n);
    var i := b.jobs[g].slot;
    OwnPrefix(env, b.jobs[g], b.w.sched.slots[i], b.kv[i]);
  }

  lemma OwnPrefix(env: Env, job: Job, slot: Slot, c: Content)
    requires JobOk(env, job, slot, c) && env.harmless && job.hint.Some?
    requires Served(job.phase) || (job.phase == Starting && job.ready)
    ensures Holds(env, c, job.hint.value.model, job.hint.value.prefixHash)
  {
  }

  /** The slot of a job being served is recorded under its hint, or names no prefix without one. */
  lemma ServingIsRecorded(env: Env, b: Broker, n: nat, g: nat)
    requires CanReach(env, b, n) && HasJob(b, g) && Served(b.jobs[g].phase)
    ensures var job, slot := b.jobs[g], b.w.sched.slots[b.jobs[g].slot];
      if job.hint.Some? then IsResidentIn(job.hint.value, slot) else slot.residentPrefix.None?
  {
    CanReachInv(env, b, n);
    var i := b.jobs[g].slot;
    assert JobOk(env, b.jobs[g], b.w.sched.slots[i], b.kv[i]);
  }

  // ------------------------------------------------- when it is exact

  ghost predicate ExactlyCoherent(b: Broker) {
    forall i: nat | i < |b.w.sched.slots| && i < |b.kv| && !UnderPreparation(b, i) ::
      b.w.sched.slots[i].residentPrefix.Some? ==>
        b.kv[i] == Prefix(b.w.sched.slots[i].residentModel, b.w.sched.slots[i].residentPrefix.value)
  }

  /** Clients do not both omit the model and send an empty one. */
  ghost predicate ModelsDistinguishable(env: Env) {
    !(None in env.models && Some("") in env.models)
  }

  lemma ExactWhenDistinguishable(env: Env, b: Broker, n: nat)
    requires env.harmless && ModelsDistinguishable(env) && CanReach(env, b, n)
    ensures ExactlyCoherent(b)
  {
    CanReachInv(env, b, n);
    forall i: nat | i < |b.w.sched.slots| && !UnderPreparation(b, i)
      && b.w.sched.slots[i].residentPrefix.Some?
      ensures b.kv[i] == Prefix(b.w.sched.slots[i].residentModel, b.w.sched.slots[i].residentPrefix.value)
    {
      RecordsAreTrue(env, b, n, i);
    }
  }

  lemma Extend(env: Env, b: Broker, n: nat, a: Act, b': Broker)
    requires CanReach(env, b, n) && Does(env, b, a, b')
    ensures CanReach(env, b', n)
  {
    var bs: seq<Broker>, acts: seq<Act> :| IsHistory(env, bs, acts, n) && bs[|acts|] == b;
    var bs', acts' := bs + [b'], acts + [a];
    forall k: nat | k < |acts'| ensures DoesAt(env, bs', acts', k) {
      assert k < |acts| ==> DoesAt(env, bs, acts, k);
    }
    assert IsHistory(env, bs', acts', n) && bs'[|acts'|] == b';
  }

  /** A hint pinned to slot 0. */
  function OnZero(model: Option<string>, prefix: string): Hint {
    Hint(prefix, Some(0), model)
  }

  /** A request attempts admission; if admitted, a job starts under a new guard. */
  lemma AdmitOn(env: Env, b: Broker, n: nat, hint: Option<Hint>, o: Outcome, s: Sched) returns (b': Broker)
    requires CanReach(env, b, n) && HintAllowed(env, hint) && Attempt(b.w.sched, hint, o, s)
    ensures CanReach(env, b', n) && b' == b.(w := b'.w, jobs := b'.jobs)
    ensures b'.w == Recorded(b.w, o, s)
    ensures match o
      case Queued(_) => b'.jobs == b.jobs
      case Admitted(a) =>
        && s.clock !in b.jobs && a.slotId < |b.kv|
        && b'.jobs == b.jobs[s.clock := Job(a.slotId, hint, a.cacheReady, Starting, Other)]
  {
    CanReachInv(env, b, n);
    var e, w' := Arrive(hint, o), Recorded(b.w, o, s);
    assert Step(b.w, e, w');
    b' := b.(w := w', jobs := if Admits(e)
      then b.jobs[s.clock := Job(o.admission.slotId, hint, o.admission.cacheReady, Starting, Other)]
      else b.jobs);
    assert Does(env, b, Schedule(e), b');
    Extend(env, b, n, Schedule(e), b');
  }

  /** A request pinned to the idle slot 0, which does not hold its prefix, starts a job there. */
  lemma StartOnZero(env: Env, b: Broker, n: nat, h: Hint) returns (b': Broker)
    requires CanReach(env, b, n) && h.preferredSlot == Some(0) && h.model in env.models
    requires Idle(b.w.sched.slots, 0) && |b.kv| == n && !IsResidentIn(h, b.w.sched.slots[0])
    ensures CanReach(env, b', n) && b'.kv == b.kv && b'.store == b.store
    ensures b'.w.sched.slots == Claim(b.w.sched.slots, 0, b.w.sched.clock + 1)
    ensures b'.w.sched.clock == b.w.sched.clock + 1
    ensures b'.w.guards == b.w.guards[b'.w.sched.clock := 0]
    ensures b'.jobs == b.jobs[b'.w.sched.clock := Job(0, Some(h), false, Starting, Other)]
    ensures HasJob(b', b'.w.sched.clock)
  {
    var s := b.w.sched;
    b' := AdmitOn(env, b, n, Some(h), Admitted(Admission(0, false)),
                  s.(slots := Claim(s.slots, 0, s.clock + 1), clock := s.clock + 1));
  }

  /** Job `g` takes one step. */
  lemma WorkOn(env: Env, b: Broker, n: nat, g: nat, a: JobAct, l: Local) returns (b': Broker)
    requires CanReach(env, b, n) && HasJob(b, g)
    requires LocalStep(env, b.jobs[g].hint, b.jobs[g].ready, LocalOf(b, g), a, l)
    ensures b' == Put(b, g, l) && HasJob(b', g) && LocalOf(b', g) == l && CanReach(env, b', n)
  {
    b' := Put(b, g, l);
    assert LocalOf(b', g) == l;
    assert Does(env, b, Work(g, a), b');
    Extend(env, b, n, Work(g, a), b');
  }

  /** The starting job asks the store and finds nothing. */
  lemma MissOn(env: Env, b: Broker, n: nat, g: nat, left: Content) returns (b': Broker)
    requires CanReach(env, b, n) && HasJob(b, g) && b.jobs[g].phase == Starting
    requires b.jobs[g].hint.Some? && !b.jobs[g].ready
    requires env.harmless ==> left == b.kv[b.jobs[g].slot]
    ensures CanReach(env, b', n) && HasJob(b', g)
    ensures var l := LocalOf(b, g);
      b' == Put(b, g, l.(phase := Warming, before := l.content, content := left))
  {
    var l := LocalOf(b, g);
    var l1 := l.(phase := Restoring, before := l.content);
    var l2 := l1.(phase := Warming, content := left);
    var b1 := WorkOn(env, b, n, g, BeginRestore, l1);
    b' := WorkOn(env, b1, n, g, RestoreMiss(left), l2);
    PutTwice(b, g, l1, l2);
  }

  /** The starting job asks the store and its slot is filled from it. */
  lemma HitOn(env: Env, b: Broker, n: nat, g: nat, h: Hint) returns (b': Broker)
    requires CanReach(env, b, n) && HasJob(b, g) && b.jobs[g].phase == Starting
    requires b.jobs[g].hint == Some(h) && !b.jobs[g].ready && KeyOf(h) in b.store
    ensures CanReach(env, b', n) && HasJob(b', g)
    ensures var l := LocalOf(b, g);
      b' == Put(b, g, l.(phase := Prepared, before := l.content, content := b.store[KeyOf(h)]))
  {
    var l := LocalOf(b, g);
    var l1 := l.(phase := Restoring, before := l.content);
    var l2 := l1.(phase := Prepared, content := l.store[KeyOf(h)]);
    var b1 := WorkOn(env, b, n, g, BeginRestore, l1);
    b' := WorkOn(env, b1, n, g, RestoreHit, l2);
    PutTwice(b, g, l1, l2);
  }

  /** The serving job sends its request, which leaves `left` behind, and the response ends. */
  lemma ServeOn(env: Env, b: Broker, n: nat, g: nat, left: Content) returns (b': Broker)
    requires CanReach(env, b, n) && HasJob(b, g) && b.jobs[g].phase == Serving
    requires b.jobs[g].hint.Some? ==> left == b.kv[b.jobs[g].slot]
    ensures CanReach(env, b', n) && HasJob(b', g)
    ensures b' == Put(b, g, LocalOf(b, g).(phase := Ended, content := left))
  {
    var l := LocalOf(b, g);
    var l1 := l.(phase := Generating);
    var l2 := l1.(content := left);
    var l3 := l2.(phase := Ended);
    var b1 := WorkOn(env, b, n, g, SendRequest, l1);
    var b2 := WorkOn(env, b1, n, g, Generate(left), l2);
    b' := WorkOn(env, b2, n, g, UpstreamEnds, l3);
    PutTwice(b, g, l1, l2);
    PutTwice(b, g, l2, l3);
  }

  /** The starting job misses the store, warms its slot and saves it. */
  lemma WarmOn(env: Env, b: Broker, n: nat, g: nat, h: Hint) returns (b': Broker)
    requires CanReach(env, b, n) && HasJob(b, g)
    requires b.jobs[g] == Job(b.jobs[g].slot, Some(h), false, Starting, b.jobs[g].before)
    ensures CanReach(env, b', n) && HasJob(b', g)
    ensures var l := LocalOf(b, g);
      b' == Put(b, g, l.(phase := Prepared, before := l.content, content := ContentOf(h),
                         store := b.store[KeyOf(h) := ContentOf(h)]))
  {
    var l := LocalOf(b, g);
    var l1 := l.(phase := Warming, before := l.content);
    var l2 := l1.(phase := Warmed, content := ContentOf(h));
    var l3 := l2.(phase := Prepared, store := l2.store[KeyOf(h) := ContentOf(h)]);
    var b1 := MissOn(env, b, n, g, l.content);
    var b2 := WorkOn(env, b1, n, g, WarmOk, l2);
    b' := WorkOn(env, b2, n, g, SaveEnds(true), l3);
    PutTwice(b, g, l1, l2);
    PutTwice(b, g, l2, l3);
  }

  lemma PutTwice(b: Broker, g: nat, l: Local, l': Local)
    requires HasJob(b, g)
    ensures HasJob(Put(b, g, l), g) && Put(Put(b, g, l), g, l') == Put(b, g, l')
  {
  }

  /** The prepared job records its prefix and may be served. */
  lemma MarkOn(env: Env, b: Broker, n: nat, g: nat, h: Hint) returns (b': Broker)
    requires CanReach(env, b, n) && HasJob(b, g)
    requires b.jobs[g].hint == Some(h) && b.jobs[g].phase == Prepared
    ensures CanReach(env, b', n) && HasJob(b', g)
    ensures var l := LocalOf(b, g);
      b' == Put(b, g, l.(phase := Serving,
        slot := l.slot.(residentPrefix := Some(h.prefixHash), residentModel := h.model)))
  {
    var l := LocalOf(b, g);
    b' := WorkOn(env, b, n, g, Mark, l.(phase := Serving,
      slot := l.slot.(residentPrefix := Some(h.prefixHash), residentModel := h.model)));
  }

  /** The job of guard `g`, which is over, lets go of its slot. */
  lemma FinishOn(env: Env, b: Broker, n: nat, g: nat) returns (b': Broker)
    requires CanReach(env, b, n) && HasJob(b, g) && Over(b.jobs[g].phase)
    requires g in b.w.guards && b.w.guards[g] == b.jobs[g].slot
    ensures b'.w.sched == Freed(b.w.sched, b.jobs[g].slot)
    ensures CanReach(env, b', n) && b'.kv == b.kv && b'.store == b.store && b'.jobs == b.jobs - {g}
  {
    var i := b.w.guards[g];
    var w' := b.w.(sched := Freed(b.w.sched, i), guards := b.w.guards - {g},
                   released := b.w.released + {g}, owed := Owing(b.w, i));
    assert Step(b.w, Release(g), w');
    b' := b.(w := w', jobs := b.jobs - {g});
    assert Does(env, b, Finish(g), b');
    Extend(env, b, n, Finish(g), b');
  }

  /** A broker just started, with an empty store. */
  lemma FreshBroker(env: Env, n: nat) returns (b: Broker)
    ensures CanReach(env, b, n) && |b.kv| == n && b.jobs == map[]
    ensures b.w.sched.slots == seq(n, _ => FRESH_SLOT)
  {
    var w := World(Sched(seq(n, _ => FRESH_SLOT), 0, map[], [], map[], 0), [], map[], {}, {}, map[]);
    b := Broker(w, map[], seq(n, _ => Other), map[]);
    assert Init(w, n);
    assert IsHistory(env, [b], [], n) && [b][0] == b;
  }

  /** A cold request for `h` on slot 0 of a fresh broker, up to where its real request may be sent. */
  lemma PreparedOnce(env: Env, n: nat, h: Hint) returns (b: Broker, g: nat)
    requires n > 0 && h.preferredSlot == Some(0) && h.model in env.models
    ensures CanReach(env, b, n) && HasJob(b, g) && |b.kv| == |b.w.sched.slots| == n
    ensures b.jobs.Keys == {g} && b.jobs[g].slot == 0 && b.jobs[g].hint == Some(h) && b.jobs[g].phase == Serving
    ensures g in b.w.guards && b.w.guards[g] == 0
    ensures b.w.sched.slots[0] ==
      FRESH_SLOT.(busy := true, lastUsed := b.w.sched.slots[0].lastUsed,
                  residentPrefix := Some(h.prefixHash), residentModel := h.model)
    ensures b.kv[0] == ContentOf(h)
    ensures KeyOf(h) in b.store && b.store[KeyOf(h)] == ContentOf(h)
  {
    var b0 := FreshBroker(env, n);
    var b1 := StartOnZero(env, b0, n, h);
    g := b1.w.sched.clock;
    var b2 := WarmOn(env, b1, n, g, h);
    b := MarkOn(env, b2, n, g, h);
  }

  /** Slot 0 served `h` once, cold: it is idle again, recorded and saved. */
  lemma ServedOnce(env: Env, n: nat, h: Hint) returns (b: Broker)
    requires n > 0 && h.preferredSlot == Some(0) && h.model in env.models
    ensures CanReach(env, b, n) && |b.kv| == |b.w.sched.slots| == n
    ensures Idle(b.w.sched.slots, 0) && b.jobs == map[]
    ensures b.w.sched.slots[0].residentPrefix == Some(h.prefixHash)
    ensures b.w.sched.slots[0].residentModel == h.model
    ensures b.kv[0] == ContentOf(h)
    ensures KeyOf(h) in b.store && b.store[KeyOf(h)] == ContentOf(h)
  {
    var b0, g := PreparedOnce(env, n, h);
    var b1 := ServeOn(env, b0, n, g, ContentOf(h));
    b := FinishOn(env, b1, n, g);
  }

  /** A failed warm-up that disturbs the slot leaves the previous record in place, untrue. */
  lemma DamageBreaksCoherence(env: Env, n: nat, m: Option<string>) returns (b: Broker)
    requires n > 0 && !env.harmless && m in env.models
    ensures CanReach(env, b, n) && !ExactlyCoherent(b)
  {
    var b0 := ServedOnce(env, n, OnZero(m, "a"));
    var b1 := StartOnZero(env, b0, n, OnZero(m, "b"));
    var g := b1.w.sched.clock;
    var l := LocalOf(b1, g);
    var b2 := MissOn(env, b1, n, g, Other);
    b := WorkOn(env, b2, n, g, WarmFails(Other), LocalOf(b2, g).(phase := Failed));
    assert !UnderPreparation(b, 0);
  }

  /** A prefix saved without a model is restored for the empty model and recorded as its own. */
  lemma EmptyModelBreaksCoherence(env: Env, n: nat) returns (b: Broker)
    requires n > 0 && !ModelsDistinguishable(env)
    ensures CanReach(env, b, n) && !ExactlyCoherent(b)
  {
    var h := OnZero(Some(""), "a");
    var b0 := ServedOnce(env, n, OnZero(None, "a"));
    assert KeyOf(h) == KeyOf(OnZero(None, "a"));
    var b1 := StartOnZero(env, b0, n, h);
    var g := b1.w.sched.clock;
    var l := LocalOf(b1, g);
    var b2 := HitOn(env, b1, n, g, h);
    b := MarkOn(env, b2, n, g, h);
    assert !UnderPreparation(b, 0);
  }

  /**
   * Coherence is exact in every reachable state iff failed preparations leave
   * the slot's content alone and clients never mix an omitted with an empty
   * model name.
   */
  lemma CoherenceIsExactIff(env: Env, n: nat, m: Option<string>)
    requires n > 0 && m in env.models
    ensures (forall b | CanReach(env, b, n) :: ExactlyCoherent(b))
      <==> env.harmless && ModelsDistinguishable(env)
  {
    if env.harmless && ModelsDistinguishable(env) {
      forall b | CanReach(env, b, n) ensures ExactlyCoherent(b) {
        ExactWhenDistinguishable(env, b, n);
      }
    } else if !env.harmless {
      var b := DamageBreaksCoherence(env, n, m);
    } else {
      var b := EmptyModelBreaksCoherence(env, n);
    }
  }
}
