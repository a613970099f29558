/**
 * Three views of the KV cache over whole runs: what the occupancy table
 * records, what the slots physically hold, and what the store has saved.
 * Upstream jobs of different slots interleave freely with each other, with
 * the scheduler and with store eviction.
 */
module Residency {
  import opened Options
  import opened Slots
  import opened Protocol
  import opened Invariant

  /** What a slot's KV state starts with: some prefix computed by some model, or anything else. */
  datatype Content = Other | Prefix(model: Option<string>, prefix: string)

  datatype Key = Key(modelId: string, prefixHash: string)

  /**
   * A job's progress. Restoring: the restore call is out. Warming: it found
   * nothing and the warm-up request is out. Warmed: the warm-up succeeded and
   * the save is out. Prepared: restored, or past the save. Serving: the real
   * request may be sent. Generating: it is out and its response is not over.
   * Ended: that response ended or failed. Failed: the warm-up failed. Only an
   * ended or failed job lets go of its slot.
   */
  datatype Phase =
    | Starting
    | Restoring
    | Warming
    | Warmed
    | Prepared
    | Serving
    | Generating
    | Ended
    | Failed

  /** `before` is what the slot held when its preparation began. */
  datatype Job = Job(slot: nat, hint: Option<Hint>, ready: bool, phase: Phase, before: Content)

  datatype Broker = Broker(w: World, jobs: map<nat, Job>, kv: seq<Content>, store: map<Key, Content>)

  /**
   * What is assumed of the outside. harmless: a preparation that fails leaves
   * the slot's content as it was before. models: the values clients put in `model`.
   */
  datatype Env = Env(harmless: bool, models: iset<Option<string>>)

  /** What a job does, or what its calls to the store and llama-server come back with. */
  datatype JobAct =
    | BeginRestore
    | Disturb(left: Content)
    | RestoreHit
    | RestoreMiss(left: Content)
    | WarmOk
    | WarmFails(left: Content)
    | SaveEnds(saved: bool)
    | Mark
    | Clear
    | Skip
    | SendRequest
    | Generate(left: Content)
    | UpstreamEnds

  datatype Act =
    | Schedule(event: Event)
    | Work(g: nat, act: JobAct)
    | Finish(g: nat)
    | Evict(key: Key)
    | Foreign(slot: nat, left: Content)

  /** The store keys an unnamed model as the empty name. */
  function ModelId(model: Option<string>): string {
    model.GetOr("")
  }

  function KeyOf(h: Hint): Key {
    Key(ModelId(h.model), h.prefixHash)
  }

  function ContentOf(h: Hint): Content {
    Prefix(h.model, h.prefixHash)
  }

  ghost predicate HintAllowed(env: Env, hint: Option<Hint>) {
    hint.Some? ==> hint.value.model in env.models
  }

  /** The scheduler events a job does not drive itself. */
  predicate Undriven(e: Event) {
    e.Arrive? || e.Retry? || e.Cancel? || e.Reconcile?
  }

  /** All a job touches: its progress, its slot's record and content, and the store. */
  datatype Local = Local(phase: Phase, before: Content, slot: Slot, content: Content, store: map<Key, Content>)

  predicate HasJob(b: Broker, g: nat) {
    g in b.jobs && b.jobs[g].slot < |b.kv| && b.jobs[g].slot < |b.w.sched.slots|
  }

  function LocalOf(b: Broker, g: nat): Local
    requires HasJob(b, g)
  {
    Local(b.jobs[g].phase, b.jobs[g].before, b.w.sched.slots[b.jobs[g].slot], b.kv[b.jobs[g].slot], b.store)
  }

  /** The job with the progress `l` has. */
  function At(job: Job, l: Local): Job {
    job.(phase := l.phase, before := l.before)
  }

  /** The broker after job `g` changed its part to `l`. */
  function Put(b: Broker, g: nat, l: Local): Broker
    requires HasJob(b, g)
  {
    var i := b.jobs[g].slot;
    var sched := b.w.sched.(slots := b.w.sched.slots[i := l.slot]);
    Broker(b.w.(sched := sched), b.jobs[g := At(b.jobs[g], l)], b.kv[i := l.content], l.store)
  }

  /** One step of a job with this hint. */
  ghost predicate LocalStep(env: Env, hint: Option<Hint>, ready: bool, l: Local, a: JobAct, l': Local) {
    match a
    case BeginRestore =>
      && l.phase == Starting && hint.Some? && !ready
      && l' == l.(phase := Restoring, before := l.content)
    case Disturb(left) =>
      && (l.phase == Restoring || l.phase == Warming)
      && l' == l.(content := left)
    case RestoreHit =>
      && l.phase == Restoring && hint.Some? && KeyOf(hint.value) in l.store
      && l' == l.(phase := Prepared, content := l.store[KeyOf(hint.value)])
    case RestoreMiss(left) =>
      && l.phase == Restoring && (env.harmless ==> left == l.before)
      && l' == l.(phase := Warming, content := left)
    case WarmOk =>
      && l.phase == Warming && hint.Some?
      && l' == l.(phase := Warmed, content := ContentOf(hint.value))
    case WarmFails(left) =>
      && l.phase == Warming && (env.harmless ==> left == l.before)
      && l' == l.(phase := Failed, content := left)
    case SaveEnds(saved) =>
      && l.phase == Warmed && hint.Some?
      && l' == l.(phase := Prepared,
                  store := if saved then l.store[KeyOf(hint.value) := l.content] else l.store)
    case Mark =>
      && l.phase == Prepared && hint.Some?
      && l' == l.(phase := Serving,
                  slot := l.slot.(residentPrefix := Some(hint.value.prefixHash),
                                  residentModel := hint.value.model))
    case Clear =>
      && l.phase == Starting && hint.None?
      && l' == l.(phase := Serving, slot := l.slot.(residentPrefix := None, residentModel := None))
    case Skip =>
      l.phase == Starting && hint.Some? && ready && l' == l.(phase := Serving)
    case SendRequest =>
      l.phase == Serving && l' == l.(phase := Generating)
    case Generate(left) =>
      && l.phase == Generating && (hint.Some? ==> left == l.content)
      && l' == l.(content := left)
    case UpstreamEnds =>
      l.phase == Generating && l' == l.(phase := Ended)
  }

  /** The upstream work of the job is over: its response ended or failed, or its warm-up failed. */
  predicate Over(phase: Phase) {
    phase == Ended || phase == Failed
  }

  ghost predicate Does(env: Env, b: Broker, a: Act, b': Broker) {
    match a
    case Schedule(e) =>
      && Undriven(e) && Step(b.w, e, b'.w)
      && HintAllowed(env, AttemptHint(b.w, e))
      && b' == b.(w := b'.w, jobs :=
           if Admits(e)
           then b.jobs[b'.w.sched.clock := Job(e.outcome.admission.slotId, AttemptHint(b.w, e),
                                               e.outcome.admission.cacheReady, Starting, Other)]
           else b.jobs)
    case Work(g, act) =>
      && HasJob(b, g) && HasJob(b', g)
      && LocalStep(env, b.jobs[g].hint, b.jobs[g].ready, LocalOf(b, g), act, LocalOf(b', g))
      && b' == Put(b, g, LocalOf(b', g))
    case Finish(g) =>
      && g in b.jobs && Over(b.jobs[g].phase)
      && Step(b.w, Release(g), b'.w)
      && b' == b.(w := b'.w, jobs := b.jobs - {g})
    case Evict(key) =>
      b' == b.(store := b.store - {key})
    case Foreign(i, left) =>
      && i in b.w.seeded && i < |b.kv|
      && b' == b.(kv := b.kv[i := left])
  }

  ghost predicate StoreOk(env: Env, store: map<Key, Content>) {
    forall key | key in store ::
      && store[key].Prefix?
      && store[key].prefix == key.prefixHash
      && ModelId(store[key].model) == key.modelId
      && store[key].model in env.models
  }

  /** A fresh broker over slots of unknown content and a store that earlier runs filled. */
  ghost predicate Starts(env: Env, b: Broker, n: nat) {
    Init(b.w, n) && b.jobs == map[] && |b.kv| == n && StoreOk(env, b.store)
  }

  ghost predicate DoesAt(env: Env, bs: seq<Broker>, acts: seq<Act>, k: nat) {
    k < |acts| && |bs| == |acts| + 1 && Does(env, bs[k], acts[k], bs[k + 1])
  }

  ghost predicate IsHistory(env: Env, bs: seq<Broker>, acts: seq<Act>, n: nat) {
    && |bs| == |acts| + 1
    && Starts(env, bs[0], n)
    && forall k: nat | k < |acts| :: DoesAt(env, bs, acts, k)
  }

  ghost predicate CanReach(env: Env, b: Broker, n: nat) {
    exists bs: seq<Broker>, acts: seq<Act> :: IsHistory(env, bs, acts, n) && bs[|acts|] == b
  }

  // -------------------------------------------------------------- invariant

  /** `c` holds the named prefix, up to the store's spelling of the model. */
  ghost predicate Holds(env: Env, c: Content, model: Option<string>, prefix: string) {
    && c.Prefix? && c.prefix == prefix
    && ModelId(c.model) == ModelId(model)
    && c.model in env.models && model in env.models
  }

  /** What the table records about a slot is what the slot holds. */
  ghost predicate RecordOk(env: Env, slot: Slot, c: Content) {
    env.harmless && slot.residentPrefix.Some? ==>
      Holds(env, c, slot.residentModel, slot.residentPrefix.value)
  }

  ghost predicate JobOk(env: Env, job: Job, slot: Slot, c: Content) {
    && HintAllowed(env, job.hint)
    && match job.phase
       case Starting =>
         RecordOk(env, slot, c) && (job.ready ==> job.hint.Some? && IsResidentIn(job.hint.value, slot))
       case Restoring => job.hint.Some? && RecordOk(env, slot, job.before)
       case Warming => job.hint.Some? && RecordOk(env, slot, job.before)
       case Warmed => job.hint.Some? && c == ContentOf(job.hint.value)
       case Prepared => job.hint.Some? && Holds(env, c, job.hint.value.model, job.hint.value.prefixHash)
       case Failed => RecordOk(env, slot, c)
       case _ =>
         && RecordOk(env, slot, c)
         && (job.hint.Some? ==> IsResidentIn(job.hint.value, slot))
         && (job.hint.None? ==> slot.residentPrefix.None?)
  }

  ghost predicate JobsOk(env: Env, b: Broker) {
    && |b.kv| == |b.w.sched.slots|
    && b.jobs.Keys == b.w.guards.Keys
    && (forall g | g in b.jobs ::
          && b.jobs[g].slot == b.w.guards[g] < |b.kv|
          && JobOk(env, b.jobs[g], b.w.sched.slots[b.w.guards[g]], b.kv[b.w.guards[g]]))
  }

  ghost predicate UnownedOk(env: Env, b: Broker)
    requires |b.kv| == |b.w.sched.slots|
  {
    && (forall i | 0 <= i < |b.kv| :: Owned(b.w.guards, i) || RecordOk(env, b.w.sched.slots[i], b.kv[i]))
    && (forall i | 0 <= i < |b.kv| && i in b.w.seeded :: b.w.sched.slots[i].residentPrefix.None?)
  }

  ghost predicate WaitersOk(env: Env, b: Broker) {
    forall t | t in b.w.sched.waiters :: HintAllowed(env, b.w.sched.waiters[t].hint)
  }

  ghost predicate BrokerInv(env: Env, b: Broker) {
    && Inv(b.w)
    && JobsOk(env, b)
    && UnownedOk(env, b)
    && WaitersOk(env, b)
    && StoreOk(env, b.store)
  }

  lemma StartsInv(env: Env, b: Broker, n: nat)
    requires Starts(env, b, n)
    ensures BrokerInv(env, b)
  {
    InitInv(b.w, n);
  }

  /** Guards never share a slot, so a job's slot belongs to no other job and to no seed. */
  lemma SlotIsOwn(w: World, g: nat, h: nat)
    requires Ledger(w) && g in w.guards
    ensures h in w.guards && h != g ==> w.guards[h] != w.guards[g]
    ensures w.guards[g] !in w.seeded
  {
  }

  // ------------------------------------------------------- steps of one job

  lemma LocalStepOk(env: Env, job: Job, l: Local, a: JobAct, l': Local)
    requires l.phase == job.phase && l.before == job.before && LocalStep(env, job.hint, job.ready, l, a, l')
    requires JobOk(env, job, l.slot, l.content) && StoreOk(env, l.store)
    ensures JobOk(env, At(job, l'), l'.slot, l'.content) && StoreOk(env, l'.store)
    ensures l'.slot == l.slot.(residentPrefix := l'.slot.residentPrefix, residentModel := l'.slot.residentModel)
  {
  }

  /** Changing records leaves the scheduler's invariant alone. */
  lemma RecordChangeInv(w: World, slots: seq<Slot>)
    requires Inv(w) && |slots| == |w.sched.slots|
    requires forall i | 0 <= i < |slots| ::
      slots[i] == w.sched.slots[i].(
        residentPrefix := slots[i].residentPrefix, residentModel := slots[i].residentModel)
    ensures Inv(w.(sched := w.sched.(slots := slots)))
  {
    WaitingResidency(w.sched, slots);
    OwingResidency(w, slots);
    LedgerResidency(w.sched.slots, slots, w.sched.clock, w.log, w.guards, w.released, w.seeded);
  }

  lemma PutJobs(env: Env, b: Broker, g: nat, l: Local)
    requires JobsOk(env, b) && Ledger(b.w) && HasJob(b, g)
    requires JobOk(env, At(b.jobs[g], l), l.slot, l.content)
    ensures JobsOk(env, Put(b, g, l))
  {
    forall h | h in b.jobs && h != g ensures b.w.guards[h] != b.w.guards[g] {
      SlotIsOwn(b.w, g, h);
    }
  }

  lemma PutUnowned(env: Env, b: Broker, g: nat, l: Local)
    requires JobsOk(env, b) && UnownedOk(env, b) && Ledger(b.w) && HasJob(b, g)
    ensures UnownedOk(env, Put(b, g, l))
  {
    SlotIsOwn(b.w, g, g);
    assert Owned(b.w.guards, b.w.guards[g]);
  }

  lemma PutInv(env: Env, b: Broker, g: nat, l: Local)
    requires BrokerInv(env, b) && HasJob(b, g) && StoreOk(env, l.store)
    requires JobOk(env, At(b.jobs[g], l), l.slot, l.content)
    requires l.slot == b.w.sched.slots[b.jobs[g].slot].(
      residentPrefix := l.slot.residentPrefix, residentModel := l.slot.residentModel)
    ensures BrokerInv(env, Put(b, g, l))
  {
    PutJobs(env, b, g, l);
    PutUnowned(env, b, g, l);
    RecordChangeInv(b.w, Put(b, g, l).w.sched.slots);
  }

  lemma WorkInv(env: Env, b: Broker, g: nat, a: JobAct, b': Broker)
    requires BrokerInv(env, b) && Does(env, b, Work(g, a), b')
    ensures BrokerInv(env, b')
  {
    var l' := LocalOf(b', g);
    LocalStepOk(env, b.jobs[g], LocalOf(b, g), a, l');
    PutInv(env, b, g, l');
  }

  // --------------------------------------------------- steps of the scheduler

  ghost predicate SameRecords(slots: seq<Slot>, slots': seq<Slot>) {
    && |slots'| == |slots|
    && forall i | 0 <= i < |slots| ::
         && slots'[i].residentPrefix == slots[i].residentPrefix
         && slots'[i].residentModel == slots[i].residentModel
  }

  /** The scheduler itself never touches what a slot is recorded to hold. */
  lemma SchedulingKeepsRecords(w: World, e: Event, w': World)
    requires Step(w, e, w') && !e.MarkResident? && !e.ClearResident?
    ensures SameRecords(w.sched.slots, w'.sched.slots)
  {
  }

  ghost predicate TableOk(env: Env, b: Broker) {
    JobsOk(env, b) && UnownedOk(env, b)
  }

  lemma ScheduleWaiters(env: Env, b: Broker, e: Event, b': Broker)
    requires WaitersOk(env, b) && Does(env, b, Schedule(e), b')
    ensures WaitersOk(env, b')
  {
  }

  /** Nobody is admitted: at most a seeded slot is freed. */
  lemma QuietTable(env: Env, b: Broker, b': Broker)
    requires TableOk(env, b)
    requires b'.jobs == b.jobs && b'.kv == b.kv && SameRecords(b.w.sched.slots, b'.w.sched.slots)
    requires b'.w.guards == b.w.guards && b'.w.seeded <= b.w.seeded
    ensures TableOk(env, b')
  {
    forall h | h in b'.jobs
      ensures b'.jobs[h].slot == b'.w.guards[h] < |b'.kv|
      ensures JobOk(env, b'.jobs[h], b'.w.sched.slots[b'.w.guards[h]], b'.kv[b'.w.guards[h]])
    {
      KeptJob(env, b, b', h);
    }
  }

  /** Every job of `b'` was already one of `b`, on the same slot with the same record and content. */
  lemma KeptJob(env: Env, b: Broker, b': Broker, h: nat)
    requires JobsOk(env, b) && h in b.jobs
    requires b'.kv == b.kv && SameRecords(b.w.sched.slots, b'.w.sched.slots)
    requires h in b'.jobs && b'.jobs[h] == b.jobs[h]
    requires h in b'.w.guards && b'.w.guards[h] == b.w.guards[h]
    ensures b'.jobs[h].slot == b'.w.guards[h] < |b'.kv| == |b'.w.sched.slots|
    ensures JobOk(env, b'.jobs[h], b'.w.sched.slots[b'.w.guards[h]], b'.kv[b'.w.guards[h]])
  {
    var i := b.w.guards[h];
    JobOkSameRecord(env, b.jobs[h], b.w.sched.slots[i], b'.w.sched.slots[i], b.kv[i]);
  }

  /** A job starts on a slot nobody owned. */
  lemma StartTable(env: Env, b: Broker, b': Broker, g: nat, i: nat, job: Job)
    requires TableOk(env, b) && g !in b.w.guards && !Owned(b.w.guards, i) && i < |b.kv|
    requires job.slot == i && job.phase == Starting && HintAllowed(env, job.hint)
    requires job.ready ==> ResidentMatch(b.w.sched.slots, job.hint, i)
    requires b'.kv == b.kv && SameRecords(b.w.sched.slots, b'.w.sched.slots)
    requires b'.jobs == b.jobs[g := job] && b'.w.guards == b.w.guards[g := i]
    requires b'.w.seeded == b.w.seeded
    ensures TableOk(env, b')
  {
    forall h | h in b'.jobs && h != g
      ensures b'.jobs[h].slot == b'.w.guards[h] < |b'.kv|
      ensures JobOk(env, b'.jobs[h], b'.w.sched.slots[b'.w.guards[h]], b'.kv[b'.w.guards[h]])
    {
      KeptJob(env, b, b', h);
    }
    StartUnowned(env, b, b', g, i);
  }

  lemma StartUnowned(env: Env, b: Broker, b': Broker, g: nat, i: nat)
    requires |b.kv| == |b.w.sched.slots| && UnownedOk(env, b) && g !in b.w.guards
    requires b'.kv == b.kv && SameRecords(b.w.sched.slots, b'.w.sched.slots)
    requires b'.w.guards == b.w.guards[g := i] && b'.w.seeded == b.w.seeded
    ensures UnownedOk(env, b')
  {
    forall k | Owned(b.w.guards, k) ensures Owned(b'.w.guards, k) {
      var h :| h in b.w.guards && b.w.guards[h] == k;
      assert h in b'.w.guards && b'.w.guards[h] == k;
    }
  }

  /** A job ends and its slot is nobody's again. */
  lemma EndTable(env: Env, b: Broker, b': Broker, g: nat)
    requires TableOk(env, b) && g in b.jobs && Over(b.jobs[g].phase)
    requires b'.kv == b.kv && SameRecords(b.w.sched.slots, b'.w.sched.slots)
    requires b'.jobs == b.jobs - {g} && b'.w.guards == b.w.guards - {g}
    requires b'.w.seeded == b.w.seeded
    ensures TableOk(env, b')
  {
    forall h | h in b'.jobs
      ensures b'.jobs[h].slot == b'.w.guards[h] < |b'.kv|
      ensures JobOk(env, b'.jobs[h], b'.w.sched.slots[b'.w.guards[h]], b'.kv[b'.w.guards[h]])
    {
      KeptJob(env, b, b', h);
    }
    var i := b.w.guards[g];
    assert RecordOk(env, b.w.sched.slots[i], b.kv[i]);
    EndUnowned(env, b, b', g);
  }

  lemma EndUnowned(env: Env, b: Broker, b': Broker, g: nat)
    requires |b.kv| == |b.w.sched.slots| && UnownedOk(env, b)
    requires g in b.w.guards && b.w.guards[g] < |b.kv|
    requires RecordOk(env, b.w.sched.slots[b.w.guards[g]], b.kv[b.w.guards[g]])
    requires b'.kv == b.kv && SameRecords(b.w.sched.slots, b'.w.sched.slots)
    requires b'.w.guards == b.w.guards - {g} && b'.w.seeded == b.w.seeded
    ensures UnownedOk(env, b')
  {
    forall k | 0 <= k < |b'.kv| && !Owned(b'.w.guards, k)
      ensures RecordOk(env, b'.w.sched.slots[k], b'.kv[k])
    {
      if h :| h in b.w.guards && b.w.guards[h] == k {
        assert h != g ==> h in b'.w.guards && b'.w.guards[h] == k;
      }
    }
  }

  lemma JobOkSameRecord(env: Env, job: Job, slot: Slot, slot': Slot, c: Content)
    requires JobOk(env, job, slot, c)
    requires slot'.residentPrefix == slot.residentPrefix && slot'.residentModel == slot.residentModel
    ensures JobOk(env, job, slot', c)
  {
  }

  lemma AdmissionFacts(w: World, e: Event, w': World)
    requires Ledger(w) && Undriven(e) && Step(w, e, w') && Admits(e)
    ensures var i := e.outcome.admission.slotId;
      && i < |w.sched.slots|
      && !Owned(w.guards, i)
      && w'.sched.clock !in w.guards
      && w'.guards == w.guards[w'.sched.clock := i]
      && w'.seeded == w.seeded
      && (e.outcome.admission.cacheReady ==> ResidentMatch(w.sched.slots, AttemptHint(w, e), i))
  {
    assert Idle(w.sched.slots, e.outcome.admission.slotId);
  }

  lemma ScheduleInv(env: Env, b: Broker, e: Event, b': Broker)
    requires BrokerInv(env, b) && Does(env, b, Schedule(e), b')
    ensures BrokerInv(env, b')
  {
    StepInv(b.w, e, b'.w);
    SchedulingKeepsRecords(b.w, e, b'.w);
    ScheduleWaiters(env, b, e, b');
    if Admits(e) {
      AdmissionFacts(b.w, e, b'.w);
      StartTable(env, b, b', b'.w.sched.clock, e.outcome.admission.slotId, b'.jobs[b'.w.sched.clock]);
    } else {
      QuietTable(env, b, b');
    }
  }

  lemma FinishInv(env: Env, b: Broker, g: nat, b': Broker)
    requires BrokerInv(env, b) && Does(env, b, Finish(g), b')
    ensures BrokerInv(env, b')
  {
    StepInv(b.w, Release(g), b'.w);
    SchedulingKeepsRecords(b.w, Release(g), b'.w);
    EndTable(env, b, b', g);
    FreedKeepsHints(b.w.sched, b.w.guards[g]);
  }

  lemma FreedKeepsHints(s: Sched, i: nat)
    ensures Freed(s, i).waiters.Keys == s.waiters.Keys
    ensures forall t | t in s.waiters :: Freed(s, i).waiters[t].hint == s.waiters[t].hint
  {
  }

  lemma ForeignInv(env: Env, b: Broker, i: nat, left: Content, b': Broker)
    requires BrokerInv(env, b) && Does(env, b, Foreign(i, left), b')
    ensures BrokerInv(env, b')
  {
    forall g | g in b.jobs ensures b.w.guards[g] != i {
      SlotIsOwn(b.w, g, g);
    }
  }

  lemma ActInv(env: Env, b: Broker, a: Act, b': Broker)
    requires BrokerInv(env, b) && Does(env, b, a, b')
    ensures BrokerInv(env, b')
  {
    match a
    case Schedule(e) => ScheduleInv(env, b, e, b');
    case Work(g, act) => WorkInv(env, b, g, act, b');
    case Finish(g) => FinishInv(env, b, g, b');
    case Evict(_) =>
    case Foreign(i, left) => ForeignInv(env, b, i, left, b');
  }

  /** An act as the scheduler sees it; what it does not see is a report of a slot that does not exist. */
  function Seen(b: Broker, a: Act): Event {
    match a
    case Schedule(e) => e
    case Finish(g) => Release(g)
    case Work(g, act) =>
      if g !in b.jobs then Reconcile(|b.w.sched.slots|)
      else if act.Mark? && b.jobs[g].hint.Some? then
        MarkResident(b.jobs[g].slot, b.jobs[g].hint.value.model, b.jobs[g].hint.value.prefixHash)
      else if act.Clear? then ClearResident(b.jobs[g].slot)
      else Reconcile(|b.w.sched.slots|)
    case _ => Reconcile(|b.w.sched.slots|)
  }

  /** Every act is a step of the admission protocol. */
  lemma ActIsProtocolStep(env: Env, b: Broker, a: Act, b': Broker)
    requires Does(env, b, a, b')
    ensures Step(b.w, Seen(b, a), b'.w)
  {
    match a
    case Work(g, act) => WorkIsProtocolStep(env, b, g, act, b');
    case _ =>
  }

  lemma WorkIsProtocolStep(env: Env, b: Broker, g: nat, a: JobAct, b': Broker)
    requires Does(env, b, Work(g, a), b')
    ensures Step(b.w, Seen(b, Work(g, a)), b'.w)
  {
    if !a.Mark? && !a.Clear? {
      assert b'.w.sched.slots == b.w.sched.slots;
    }
  }
}
