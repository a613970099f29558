/**
 * The lifetime of a slot's upstream jobs: they take turns on the slot, and a
 * guard is released only when its job's upstream work is over.
 */
module Lifetime {
  import opened Protocol
  import opened Invariant
  import opened Residency
  import opened Coherence

  /**
   * No two jobs share a slot, and while a job lasts its slot is busy, its guard
   * is live and its slot is not one that was busy at startup.
   */
  lemma JobsNeverOverlap(env: Env, b: Broker, n: nat, g: nat)
    requires CanReach(env, b, n) && g in b.jobs
    ensures b.jobs[g].slot < n == |b.w.sched.slots| && b.w.sched.slots[b.jobs[g].slot].busy
    ensures g in b.w.guards && b.w.guards[g] == b.jobs[g].slot && g !in b.w.released
    ensures b.jobs[g].slot !in b.w.seeded
    ensures forall h | h in b.jobs && h != g :: b.jobs[h].slot != b.jobs[g].slot
  {
    CanReachInv(env, b, n);
    forall h | h in b.jobs && h != g ensures b.jobs[h].slot != b.jobs[g].slot {
      SlotIsOwn(b.w, g, h);
    }
  }

  /** The act that ends the upstream work of job `g`. */
  predicate EndsUpstream(a: Act, g: nat) {
    a.Work? && a.g == g && (a.act.UpstreamEnds? || a.act.WarmFails?)
  }

  predicate IsWorkOf(a: Act, g: nat) {
    a.Work? && a.g == g
  }

  /** The upstream work of job `g`, on slot `i`, is not over. */
  predicate Pending(b: Broker, g: nat, i: nat) {
    g in b.jobs && b.jobs[g].slot == i && !Over(b.jobs[g].phase)
  }

  /** What act `k` of a history starts from and does. */
  lemma ActOf(env: Env, bs: seq<Broker>, acts: seq<Act>, n: nat, k: nat)
    requires IsHistory(env, bs, acts, n) && k < |acts|
    ensures Does(env, bs[k], acts[k], bs[k + 1])
    ensures Ledger(bs[k].w) && bs[k].jobs.Keys == bs[k].w.guards.Keys
  {
    assert DoesAt(env, bs, acts, k);
    HistoryInv(env, bs, acts, n, k);
  }

  lemma ScheduleKeepsJobs(env: Env, b: Broker, e: Event, b': Broker, g: nat)
    requires Does(env, b, Schedule(e), b') && Ledger(b.w) && b.jobs.Keys == b.w.guards.Keys && g in b.jobs
    ensures g in b'.jobs && b'.jobs[g] == b.jobs[g]
  {
    if Admits(e) {
      AdmissionFacts(b.w, e, b'.w);
    }
  }

  lemma OwnWorkKeepsPending(env: Env, b: Broker, a: JobAct, b': Broker, g: nat, i: nat)
    requires Does(env, b, Work(g, a), b') && Pending(b, g, i) && !EndsUpstream(Work(g, a), g)
    ensures Pending(b', g, i)
  {
    assert LocalStep(env, b.jobs[g].hint, b.jobs[g].ready, LocalOf(b, g), a, LocalOf(b', g));
  }

  lemma PendingStep(env: Env, b: Broker, a: Act, b': Broker, g: nat, i: nat)
    requires Does(env, b, a, b') && Ledger(b.w) && b.jobs.Keys == b.w.guards.Keys
    requires Pending(b, g, i) && !EndsUpstream(a, g)
    ensures Pending(b', g, i)
  {
    match a
    case Schedule(e) => ScheduleKeepsJobs(env, b, e, b', g);
    case Work(h, act) =>
      if h == g {
        OwnWorkKeepsPending(env, b, act, b', g, i);
      } else {
        assert b'.jobs[g] == b.jobs[g];
      }
    case _ => assert b'.jobs[g] == b.jobs[g];
  }

  /** Work that is not over stays so, on its slot, until an act ends it. */
  lemma {:induction false} PendingUntilEnded(env: Env, bs: seq<Broker>, acts: seq<Act>, n: nat, g: nat, i: nat, j: nat, k: nat)
    requires IsHistory(env, bs, acts, n) && j <= k <= |acts| && Pending(bs[j], g, i)
    requires forall m: nat | j <= m < k :: !EndsUpstream(acts[m], g)
    ensures Pending(bs[k], g, i)
    decreases k
  {
    if j < k {
      PendingUntilEnded(env, bs, acts, n, g, i, j, k - 1);
      ActOf(env, bs, acts, n, k - 1);
      PendingStep(env, bs[k - 1], acts[k - 1], bs[k], g, i);
    }
  }

  /** Whatever touches slot `i` for the sake of a job: a call, a record, or the end of the job. */
  predicate Touches(b: Broker, a: Act, i: nat, h: nat) {
    (a == Finish(h) || IsWorkOf(a, h)) && h in b.jobs && b.jobs[h].slot == i
  }

  lemma TouchIsOwn(env: Env, b: Broker, a: Act, g: nat, h: nat, i: nat)
    requires BrokerInv(env, b) && Pending(b, g, i) && Touches(b, a, i, h)
    ensures h == g
  {
    if h != g {
      SlotIsOwn(b.w, g, h);
    }
  }

  /**
   * One slot, one upstream job at a time: between an act of one job on a slot
   * and a later act of another job on it lies the end of the first one's
   * upstream work, whoever is still listening.
   */
  lemma UpstreamWorkNeverOverlaps(env: Env, bs: seq<Broker>, acts: seq<Act>, n: nat, g: nat, h: nat, i: nat, j: nat, k: nat)
    requires IsHistory(env, bs, acts, n) && j < k < |acts| && g != h
    requires Pending(bs[j], g, i) && Touches(bs[k], acts[k], i, h)
    ensures exists m: nat :: j <= m < k && EndsUpstream(acts[m], g)
  {
    HistoryInv(env, bs, acts, n, k);
    if forall m: nat | j <= m < k :: !EndsUpstream(acts[m], g) {
      PendingUntilEnded(env, bs, acts, n, g, i, j, k);
      TouchIsOwn(env, bs[k], acts[k], g, h, i);
    }
  }

  lemma ReleasedGrows(env: Env, b: Broker, a: Act, b': Broker)
    requires Does(env, b, a, b')
    ensures b.w.released <= b'.w.released
    ensures forall g | g in b'.w.released && g !in b.w.released :: a == Finish(g)
  {
  }

  lemma {:induction false} ReleasedStays(env: Env, bs: seq<Broker>, acts: seq<Act>, n: nat, g: nat, j: nat, k: nat)
    requires IsHistory(env, bs, acts, n) && j <= k <= |acts| && g in bs[j].w.released
    ensures g in bs[k].w.released
    decreases k
  {
    if j < k {
      ReleasedStays(env, bs, acts, n, g, j, k - 1);
      ActOf(env, bs, acts, n, k - 1);
      ReleasedGrows(env, bs[k - 1], acts[k - 1], bs[k]);
    }
  }

  /** A finish needs its guard unreleased. */
  lemma FinishIsFirst(env: Env, bs: seq<Broker>, acts: seq<Act>, n: nat, g: nat, k: nat)
    requires IsHistory(env, bs, acts, n) && k < |acts| && acts[k] == Finish(g)
    ensures g !in bs[k].w.released && g in bs[k + 1].w.released
    ensures g in bs[k].jobs && Over(bs[k].jobs[g].phase)
  {
    ActOf(env, bs, acts, n, k);
  }

  lemma FinishOnce(env: Env, bs: seq<Broker>, acts: seq<Act>, n: nat, g: nat, j: nat, k: nat)
    requires IsHistory(env, bs, acts, n) && j < k < |acts| && acts[j] == Finish(g)
    ensures acts[k] != Finish(g)
  {
    FinishIsFirst(env, bs, acts, n, g, j);
    ReleasedStays(env, bs, acts, n, g, j + 1, k);
    if acts[k] == Finish(g) {
      FinishIsFirst(env, bs, acts, n, g, k);
    }
  }

  /** Each guard is released by the end of its own job, and only once. */
  lemma ReleasedExactlyByItsJob(env: Env, bs: seq<Broker>, acts: seq<Act>, n: nat, g: nat, j: nat)
    requires IsHistory(env, bs, acts, n) && j < |acts|
    requires g in bs[j + 1].w.released && g !in bs[j].w.released
    ensures acts[j] == Finish(g)
    ensures g in bs[j].jobs && Over(bs[j].jobs[g].phase)
    ensures forall k | 0 <= k < |acts| && acts[k] == Finish(g) :: k == j
  {
    ActOf(env, bs, acts, n, j);
    ReleasedGrows(env, bs[j], acts[j], bs[j + 1]);
    FinishIsFirst(env, bs, acts, n, g, j);
    forall k | 0 <= k < |acts| && acts[k] == Finish(g) ensures k == j {
      if j < k {
        FinishOnce(env, bs, acts, n, g, j, k);
      } else if k < j {
        FinishOnce(env, bs, acts, n, g, k, j);
      }
    }
  }

  predicate InPhase(b: Broker, g: nat, phase: Phase) {
    g in b.jobs && b.jobs[g].phase == phase
  }

  /** How a job gets into each of the phases that follow its real request. */
  lemma PhaseStep(env: Env, b: Broker, a: Act, b': Broker, g: nat)
    requires Does(env, b, a, b')
    ensures InPhase(b', g, Ended) ==>
      if IsWorkOf(a, g) then a.act.UpstreamEnds? && InPhase(b, g, Generating) else InPhase(b, g, Ended)
    ensures InPhase(b', g, Failed) ==>
      if IsWorkOf(a, g) then a.act.WarmFails? else InPhase(b, g, Failed)
    ensures InPhase(b', g, Generating) ==>
      a == Work(g, SendRequest) || InPhase(b, g, Generating)
  {
  }

  /** A request that is out was sent. */
  lemma {:induction false} RequestWasSent(env: Env, bs: seq<Broker>, acts: seq<Act>, n: nat, g: nat, k: nat)
    requires IsHistory(env, bs, acts, n) && k <= |acts| && InPhase(bs[k], g, Generating)
    ensures exists q: nat :: q < k && acts[q] == Work(g, SendRequest)
  {
    if k > 0 {
      ActOf(env, bs, acts, n, k - 1);
      PhaseStep(env, bs[k - 1], acts[k - 1], bs[k], g);
      if acts[k - 1] != Work(g, SendRequest) {
        RequestWasSent(env, bs, acts, n, g, k - 1);
      }
    }
  }

  /** Act `m` ended the upstream work of job `g`, which did nothing between it and act `k`. */
  ghost predicate EndedBy(acts: seq<Act>, g: nat, m: nat, k: nat) {
    && m < k <= |acts|
    && EndsUpstream(acts[m], g)
    && (forall j: nat | m < j < k :: !IsWorkOf(acts[j], g))
    && (acts[m].act.UpstreamEnds? ==> exists q: nat :: q < m && acts[q] == Work(g, SendRequest))
  }

  /**
   * A job that is over has seen its upstream work through: its last act was
   * the end of the response to a request it had sent, or its failed warm-up.
   */
  lemma {:induction false} OverMeansUpstreamEnded(env: Env, bs: seq<Broker>, acts: seq<Act>, n: nat, g: nat, k: nat)
    returns (m: nat)
    requires IsHistory(env, bs, acts, n) && k <= |acts|
    requires InPhase(bs[k], g, Ended) || InPhase(bs[k], g, Failed)
    ensures EndedBy(acts, g, m, k)
    ensures acts[m].act.WarmFails? <==> InPhase(bs[k], g, Failed)
  {
    assert k > 0;
    LastActOf(env, bs, acts, n, g, k);
    if IsWorkOf(acts[k - 1], g) {
      m := k - 1;
    } else {
      m := OverMeansUpstreamEnded(env, bs, acts, n, g, k - 1);
      EndedByLater(acts, g, m, k);
    }
  }

  /** A job that is over was ended by the last act or was over before it. */
  lemma LastActOf(env: Env, bs: seq<Broker>, acts: seq<Act>, n: nat, g: nat, k: nat)
    requires IsHistory(env, bs, acts, n) && 0 < k <= |acts|
    requires InPhase(bs[k], g, Ended) || InPhase(bs[k], g, Failed)
    ensures if IsWorkOf(acts[k - 1], g)
            then EndedBy(acts, g, k - 1, k) && (acts[k - 1].act.WarmFails? <==> InPhase(bs[k], g, Failed))
            else InPhase(bs[k - 1], g, if InPhase(bs[k], g, Failed) then Failed else Ended)
  {
    ActOf(env, bs, acts, n, k - 1);
    PhaseStep(env, bs[k - 1], acts[k - 1], bs[k], g);
    if IsWorkOf(acts[k - 1], g) && acts[k - 1].act.UpstreamEnds? {
      RequestWasSent(env, bs, acts, n, g, k - 1);
    }
  }

  lemma EndedByLater(acts: seq<Act>, g: nat, m: nat, k: nat)
    requires 0 < k <= |acts| && EndedBy(acts, g, m, k - 1) && !IsWorkOf(acts[k - 1], g)
    ensures EndedBy(acts, g, m, k)
  {
  }

  lemma NoWorkAfterRelease(env: Env, bs: seq<Broker>, acts: seq<Act>, n: nat, g: nat, j: nat, k: nat)
    requires IsHistory(env, bs, acts, n) && j <= k < |acts| && g in bs[j].w.released
    ensures !IsWorkOf(acts[k], g)
  {
    ReleasedStays(env, bs, acts, n, g, j, k);
    ActOf(env, bs, acts, n, k);
  }

  /** A guard is released only after the upstream work of its job ended or failed, and its job does no more. */
  lemma ReleasedAfterUpstreamEnded(env: Env, bs: seq<Broker>, acts: seq<Act>, n: nat, g: nat, j: nat) returns (m: nat)
    requires IsHistory(env, bs, acts, n) && j < |acts|
    requires g in bs[j + 1].w.released && g !in bs[j].w.released
    ensures m < j && EndedBy(acts, g, m, |acts|)
  {
    ReleasedExactlyByItsJob(env, bs, acts, n, g, j);
    m := OverMeansUpstreamEnded(env, bs, acts, n, g, j);
    forall k: nat | m < k < |acts| ensures !IsWorkOf(acts[k], g) {
      if k > j {
        NoWorkAfterRelease(env, bs, acts, n, g, j + 1, k);
      }
    }
  }
}
