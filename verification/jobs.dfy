/**
 * Broker histories as runs of the admission protocol, and where a job comes
 * from: the admission of a request, whose own hint it serves to its end.
 */
module Jobs {
  import opened Protocol
  import opened Invariant
  import opened Requests
  import opened Residency
  import opened Coherence
  import opened Lifetime

  function Worlds(bs: seq<Broker>): seq<World> {
    seq(|bs|, k requires 0 <= k < |bs| => bs[k].w)
  }

  function Events(bs: seq<Broker>, acts: seq<Act>): seq<Event>
    requires |bs| == |acts| + 1
  {
    seq(|acts|, k requires 0 <= k < |acts| => Seen(bs[k], acts[k]))
  }

  /** A broker history, seen from the scheduler, is a run of the admission protocol. */
  lemma HistoryIsRun(env: Env, bs: seq<Broker>, acts: seq<Act>, n: nat)
    requires IsHistory(env, bs, acts, n)
    ensures IsRun(Worlds(bs), Events(bs, acts), n)
  {
    var ws, es := Worlds(bs), Events(bs, acts);
    forall k: nat | k < |es| ensures Step(ws[k], es[k], ws[k + 1]) {
      ActOf(env, bs, acts, n, k);
      ActIsProtocolStep(env, bs[k], acts[k], bs[k + 1]);
    }
  }

  /** The act admits a request and starts job `g`. */
  predicate Starts(a: Act, b': Broker, g: nat) {
    a.Schedule? && Admits(a.event) && g == b'.w.sched.clock
  }

  /** A job is new or keeps its slot, its hint and its readiness. */
  lemma JobOfStep(env: Env, b: Broker, a: Act, b': Broker, g: nat)
    requires Does(env, b, a, b') && Ledger(b.w) && b.jobs.Keys == b.w.guards.Keys && g in b'.jobs
    ensures if Starts(a, b', g) then
        b'.jobs[g] == Job(a.event.outcome.admission.slotId, AttemptHint(b.w, a.event),
                          a.event.outcome.admission.cacheReady, Starting, Other)
      else
        g in b.jobs && b'.jobs[g] == b.jobs[g].(phase := b'.jobs[g].phase, before := b'.jobs[g].before)
  {
  }

  /** The new job's hint is that of an arrived request. */
  lemma StartIsMadeFor(env: Env, bs: seq<Broker>, acts: seq<Act>, n: nat, j: nat, g: nat)
    requires IsHistory(env, bs, acts, n) && j < |acts| && Starts(acts[j], bs[j + 1], g)
    ensures MadeFor(Events(bs, acts), j, AttemptHint(bs[j].w, acts[j].event))
  {
    HistoryIsRun(env, bs, acts, n);
    var hint := AttemptHasItsRequest(Worlds(bs), Events(bs, acts), n, j);
  }

  /** Job `g` has the slot, the readiness and the request of the admission that act `j` was. */
  ghost predicate StartedBy(bs: seq<Broker>, acts: seq<Act>, j: nat, g: nat, job: Job)
    requires |bs| == |acts| + 1
  {
    && j < |acts| && Starts(acts[j], bs[j + 1], g)
    && MadeFor(Events(bs, acts), j, job.hint)
    && job.slot == acts[j].event.outcome.admission.slotId
    && job.ready == acts[j].event.outcome.admission.cacheReady
  }

  lemma LastActOfJob(env: Env, bs: seq<Broker>, acts: seq<Act>, n: nat, g: nat, k: nat)
    requires IsHistory(env, bs, acts, n) && 0 < k <= |acts| && g in bs[k].jobs
    ensures StartedBy(bs, acts, k - 1, g, bs[k].jobs[g]) ||
      (g in bs[k - 1].jobs && forall j :: StartedBy(bs, acts, j, g, bs[k - 1].jobs[g]) ==> StartedBy(bs, acts, j, g, bs[k].jobs[g]))
  {
    ActOf(env, bs, acts, n, k - 1);
    JobOfStep(env, bs[k - 1], acts[k - 1], bs[k], g);
    if Starts(acts[k - 1], bs[k], g) {
      StartIsMadeFor(env, bs, acts, n, k - 1, g);
    }
  }

  /**
   * Every job was started by the admission of a request, at once or on a
   * retry, has the slot and readiness of that admission, and carries the hint
   * the request arrived with.
   */
  lemma {:induction false} JobServesItsRequest(env: Env, bs: seq<Broker>, acts: seq<Act>, n: nat, g: nat, k: nat)
    returns (j: nat)
    requires IsHistory(env, bs, acts, n) && k <= |acts| && g in bs[k].jobs
    ensures j < k && StartedBy(bs, acts, j, g, bs[k].jobs[g])
  {
    assert k > 0;
    LastActOfJob(env, bs, acts, n, g, k);
    if StartedBy(bs, acts, k - 1, g, bs[k].jobs[g]) {
      j := k - 1;
    } else {
      j := JobServesItsRequest(env, bs, acts, n, g, k - 1);
    }
  }

  /** Whatever requests, waiters and idle reports do to the scheduler can happen beside any jobs. */
  lemma SchedulerIsFree(env: Env, b: Broker, n: nat, e: Event, w': World) returns (b': Broker)
    requires CanReach(env, b, n) && Step(b.w, e, w') && HintAllowed(env, AttemptHint(b.w, e))
    requires e.Arrive? || e.Retry? || e.Cancel? || e.Reconcile?
    ensures CanReach(env, b', n) && b'.w == w' && b'.kv == b.kv && b'.store == b.store
    ensures Admits(e) ==> w'.sched.clock in b'.jobs
  {
    b' := b.(w := w', jobs :=
      if Admits(e)
      then b.jobs[w'.sched.clock := Job(e.outcome.admission.slotId, AttemptHint(b.w, e),
                                        e.outcome.admission.cacheReady, Starting, Other)]
      else b.jobs);
    assert Does(env, b, Schedule(e), b');
    Extend(env, b, n, Schedule(e), b');
  }
}
