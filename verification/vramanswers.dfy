/**
 * What the VRAM cache serves, against what the probes answered: every reading
 * is the answer of a probe in the history, and it stays until it expires.
 */
module VramAnswers {
  import opened Options
  import opened VramCacheClass
  import opened VramCacheRuns

  ghost predicate IsRun(ws: seq<World>, es: seq<Event>) {
    IsPath(ws, es) && Init(ws[0])
  }

  /** The wait of the lock holder ends, with the probe's answer or at the deadline. */
  predicate Settles(e: Event) {
    e.Complete? || e.Deadline?
  }

  /** Between events `i` and `j` no probe starts and none returns. */
  ghost predicate NoProbing(es: seq<Event>, i: nat, j: nat)
    requires j <= |es|
  {
    forall m: nat | i < m < j :: !es[m].ThreadReturns? && es[m] != Get(Probe)
  }

  /** The wait that ends by event `j` got what the probe returned by event `i`. */
  ghost predicate AnsweredBy(es: seq<Event>, i: nat, j: nat, end: ProbeEnd) {
    i < j < |es| && es[i] == ThreadReturns(end) && es[j] == Complete && NoProbing(es, i, j)
  }

  /** An answer the holder has not yet picked up is the latest one to be returned. */
  lemma {:induction false} AnswerIsLatest(ws: seq<World>, es: seq<Event>, k: nat) returns (i: nat)
    requires IsRun(ws, es) && k <= |es| && ws[k].holder.Some? && ws[k].holder.value.answer.Some?
    ensures i < k && es[i] == ThreadReturns(ws[k].holder.value.answer.value) && NoProbing(es, i, k)
  {
    assert k > 0;
    var w, e, w' := ws[k - 1], es[k - 1], ws[k];
    assert Step(w, e, w');
    PathInv(ws, es, k - 1);
    if e.ThreadReturns? {
      i := k - 1;
    } else {
      i := AnswerIsLatest(ws, es, k - 1);
    }
  }

  /** A wait that ends with an answer ends with the latest one. */
  lemma AnswerIsUnique(ws: seq<World>, es: seq<Event>, i: nat, j: nat, end: ProbeEnd)
    requires IsRun(ws, es) && AnsweredBy(es, i, j, end)
    ensures ws[j].holder.Some? && ws[j].holder.value.answer == Some(end)
  {
    assert Step(ws[j], es[j], ws[j + 1]);
    var l := AnswerIsLatest(ws, es, j);
    assert l == i;
  }

  /** What the end of a wait writes. */
  lemma SettleWrites(w: World, e: Event, w': World)
    requires Inv(w) && Step(w, e, w') && Settles(e)
    ensures w'.holder.None? && w'.last.Some? && w'.last.value.taken == w.now
    ensures e.Deadline? ==> w'.last.value.vram.None? && w'.last.value.freshFor == TIMEOUT_BACKOFF
    ensures e.Complete? && w.holder.value.answer.value.Answered? ==>
      w'.last.value.vram == w.holder.value.answer.value.vram
    ensures e.Complete? && !w.holder.value.answer.value.Answered? ==> w'.last.value.vram.None?
    ensures w.latestStart.Some?
    ensures e.Complete? ==> (w'.last.value.freshFor ==
      if w.holder.value.answer.value == Answered(None) && w.now - w.latestStart.value >= NVIDIA_SMI_TIMEOUT
      then TIMEOUT_BACKOFF else CACHE_TTL)
  {
  }

  lemma OnlySettlesWrite(w: World, e: Event, w': World)
    requires Step(w, e, w') && !Settles(e)
    ensures w'.last == w.last
  {
  }

  /** What a caller makes of a probe's end. */
  function Got(end: ProbeEnd): Option<Vram> {
    if end.Answered? then end.vram else None
  }

  /** The cached reading was written by wait end `j`, the latest one: the answer that wait got, or nothing. */
  ghost predicate WrittenBy(ws: seq<World>, es: seq<Event>, j: nat, r: Reading)
    requires |ws| == |es| + 1
  {
    && j < |es| && Settles(es[j]) && r.taken == ws[j].now
    && (es[j].Deadline? ==> r.vram.None?)
    && (es[j].Complete? ==> exists i: nat, end: ProbeEnd ::
          AnsweredBy(es, i, j, end) && r.vram == Got(end))
  }

  lemma SettleIsWriter(ws: seq<World>, es: seq<Event>, j: nat)
    requires IsRun(ws, es) && j < |es| && Settles(es[j])
    ensures ws[j + 1].last.Some? && WrittenBy(ws, es, j, ws[j + 1].last.value)
  {
    assert Step(ws[j], es[j], ws[j + 1]);
    PathInv(ws, es, j);
    SettleWrites(ws[j], es[j], ws[j + 1]);
    if es[j].Complete? {
      var i := AnswerIsLatest(ws, es, j);
      assert AnsweredBy(es, i, j, ws[j].holder.value.answer.value);
    }
  }

  /** The cached reading is always the outcome of the latest wait to end. */
  lemma {:induction false} LastIsLatestAnswer(ws: seq<World>, es: seq<Event>, k: nat) returns (j: nat)
    requires IsRun(ws, es) && k <= |es| && ws[k].last.Some?
    ensures j < k && WrittenBy(ws, es, j, ws[k].last.value)
    ensures forall m: nat | j < m < k :: !Settles(es[m])
  {
    assert k > 0;
    assert Step(ws[k - 1], es[k - 1], ws[k]);
    if Settles(es[k - 1]) {
      j := k - 1;
      SettleIsWriter(ws, es, j);
    } else {
      OnlySettlesWrite(ws[k - 1], es[k - 1], ws[k]);
      j := LastIsLatestAnswer(ws, es, k - 1);
    }
  }

  /** No value is served that no probe ever answered. */
  lemma ServedValueWasAnswered(ws: seq<World>, es: seq<Event>, k: nat, v: Vram)
    requires IsRun(ws, es) && k < |es| && es[k] == Get(Serve(Some(v)))
    ensures exists i: nat :: i < k && es[i] == ThreadReturns(Answered(Some(v)))
  {
    assert Step(ws[k], es[k], ws[k + 1]);
    var j := LastIsLatestAnswer(ws, es, k);
    var i: nat, end: ProbeEnd :| AnsweredBy(es, i, j, end) && ws[k].last.value.vram == Got(end);
    assert i < k && es[i] == ThreadReturns(Answered(Some(v)));
  }

  /** Until it expires a reading is neither replaced nor probed again. */
  lemma {:induction false} ReadingHolds(ws: seq<World>, es: seq<Event>, j: nat, k: nat, r: Reading)
    requires IsPath(ws, es) && j <= k <= |es|
    requires ws[j].holder.None? && ws[j].last == Some(r) && ws[k].now < r.taken + r.freshFor
    ensures ws[k].holder.None? && ws[k].last == Some(r)
    decreases k
  {
    if j < k {
      assert Step(ws[k - 1], es[k - 1], ws[k]);
      ReadingHolds(ws, es, j, k - 1, r);
    }
  }

  /** Every caller that asks while the reading is fresh is served that reading. */
  lemma FreshIsServed(ws: seq<World>, es: seq<Event>, j: nat, k: nat, r: Reading, d: Decision)
    requires IsPath(ws, es) && j <= k < |es| && es[k] == Get(d)
    requires ws[j].holder.None? && ws[j].last == Some(r) && ws[k].now < r.taken + r.freshFor
    ensures d == Serve(r.vram)
  {
    ReadingHolds(ws, es, j, k, r);
    assert Step(ws[k], es[k], ws[k + 1]);
  }

  /** What a probe answered is what everybody is served for the cache lifetime. */
  lemma AnswerIsServed(ws: seq<World>, es: seq<Event>, i: nat, j: nat, k: nat, v: Vram, d: Decision)
    requires IsRun(ws, es) && AnsweredBy(es, i, j, Answered(Some(v)))
    requires j < k < |es| && es[k] == Get(d) && ws[k].now < ws[j].now + CACHE_TTL
    ensures d == Serve(Some(v))
  {
    AnswerIsUnique(ws, es, i, j, Answered(Some(v)));
    PathInv(ws, es, j);
    assert Step(ws[j], es[j], ws[j + 1]);
    SettleWrites(ws[j], es[j], ws[j + 1]);
    FreshIsServed(ws, es, j + 1, k, ws[j + 1].last.value, d);
  }

  /** The wait ended by event `j` points at a wedged driver: the deadline passed, or nothing came back slowly. */
  ghost predicate Wedged(ws: seq<World>, es: seq<Event>, j: nat)
    requires |ws| == |es| + 1
  {
    && j < |es|
    && (|| es[j].Deadline?
        || (&& (exists i: nat :: AnsweredBy(es, i, j, Answered(None)))
            && ws[j].latestStart.Some? && ws[j].now - ws[j].latestStart.value >= NVIDIA_SMI_TIMEOUT))
  }

  /** After that nothing is probed for the whole back-off, and nothing is what callers are told. */
  lemma BackOffHolds(ws: seq<World>, es: seq<Event>, j: nat, k: nat, d: Decision)
    requires IsRun(ws, es) && Wedged(ws, es, j)
    requires j < k < |es| && es[k] == Get(d) && ws[k].now < ws[j].now + TIMEOUT_BACKOFF
    ensures d == Serve(None)
  {
    PathInv(ws, es, j);
    assert Step(ws[j], es[j], ws[j + 1]);
    if es[j].Complete? {
      var i: nat :| AnsweredBy(es, i, j, Answered(None));
      AnswerIsUnique(ws, es, i, j, Answered(None));
    }
    SettleWrites(ws[j], es[j], ws[j + 1]);
    FreshIsServed(ws, es, j + 1, k, ws[j + 1].last.value, d);
  }

  /** Any other empty outcome is retried after the cache lifetime: the next caller probes. */
  lemma EmptyAnswerIsRetried(ws: seq<World>, es: seq<Event>, j: nat, k: nat, d: Decision)
    requires IsRun(ws, es) && j < k < |es| && Settles(es[j]) && !Wedged(ws, es, j) && es[k] == Get(d)
    requires forall m: nat | j < m < k :: !Settles(es[m])
    requires ws[k].threads == [] && ws[k].now >= ws[j].now + CACHE_TTL
    ensures d == Probe
  {
    SettleIsWriter(ws, es, j);
    var i: nat, end: ProbeEnd :| AnsweredBy(es, i, j, end);
    AnswerIsUnique(ws, es, i, j, end);
    PathInv(ws, es, j);
    PathInv(ws, es, k);
    assert Step(ws[j], es[j], ws[j + 1]) && Step(ws[k], es[k], ws[k + 1]);
    SettleWrites(ws[j], es[j], ws[j + 1]);
    LastUnwritten(ws, es, j + 1, k);
  }

  lemma {:induction false} LastUnwritten(ws: seq<World>, es: seq<Event>, j: nat, k: nat)
    requires IsPath(ws, es) && j <= k <= |es| && forall m: nat | j <= m < k :: !Settles(es[m])
    ensures ws[k].last == ws[j].last
    decreases k
  {
    if j < k {
      LastUnwritten(ws, es, j, k - 1);
      OnlySettlesWrite(ws[k - 1], es[k - 1], ws[k]);
    }
  }

  /**
   * While a probe is out, an expired reading is still served up to the back-off
   * lifetime, nothing after that, and no second probe starts.
   */
  lemma StuckProbeServesLast(w: World, d: Decision, w': World)
    requires Reachable(w) && Step(w, Get(d), w') && w.threads != []
    ensures d == Serve(
      if w.last.Some? && (w.now < w.last.value.taken + TIMEOUT_BACKOFF
                          || w.now < w.last.value.taken + w.last.value.freshFor)
      then w.last.value.vram else None)
  {
    ReachableInv(w);
  }

  /** Nobody waits past the deadline: once it has passed, the wait can end, whatever the probe does. */
  lemma WaitCanEnd(w: World) returns (e: Event, w': World)
    requires Reachable(w) && w.holder.Some? && w.now >= w.holder.value.started + PROBE_DEADLINE
    ensures Step(w, e, w') && Settles(e) && w'.holder.None?
  {
    var h := w.holder.value;
    if h.answer.Some? {
      e, w' := Complete, w.(last := Some(Outcome(h.answer.value, h.started, w.now)), holder := None);
    } else {
      e, w' := Deadline, w.(last := Some(Outcome(TimedOut, h.started, w.now)), holder := None);
    }
  }
}
