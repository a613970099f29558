/**
 * The single-flight cache of GPU memory readings. Times are in milliseconds.
 * The object holds the two synchronous halves of `get`, before and after its
 * one wait; the transition system interleaves callers, the probe thread,
 * cancellation and time.
 */
module VramCacheClass {
  import opened Options

  datatype Vram = Vram(totalBytes: nat, usedBytes: nat)

  datatype Reading = Reading(taken: nat, vram: Option<Vram>, freshFor: nat)

  /** How the wait for the probe ended: the thread's answer, its panic, or the deadline. */
  datatype ProbeEnd = Answered(vram: Option<Vram>) | Panicked | TimedOut

  datatype Decision = Serve(vram: Option<Vram>) | Probe

  const CACHE_TTL: nat := 2000
  const TIMEOUT_BACKOFF: nat := 30000
  const PROBE_DEADLINE: nat := 2500
  const NVIDIA_SMI_TIMEOUT: nat := 2000

  predicate Fresh(last: Option<Reading>, now: nat) {
    last.Some? && now < last.value.taken + last.value.freshFor
  }

  /** The reading a finished wait leaves behind. */
  function Outcome(end: ProbeEnd, started: nat, now: nat): Reading {
    match end
    case Answered(None) =>
      Reading(now, None, if now >= started + NVIDIA_SMI_TIMEOUT then TIMEOUT_BACKOFF else CACHE_TTL)
    case Answered(Some(v)) => Reading(now, Some(v), CACHE_TTL)
    case Panicked => Reading(now, None, CACHE_TTL)
    case TimedOut => Reading(now, None, TIMEOUT_BACKOFF)
  }

  /** Up to the wait: what a caller that just got the lock does. */
  predicate Begins(last: Option<Reading>, inFlight: bool, now: nat, d: Decision, inFlight': bool) {
    if Fresh(last, now) then
      d == Serve(last.value.vram) && inFlight' == inFlight
    else if inFlight then
      && inFlight'
      && d == Serve(if last.Some? && now < last.value.taken + TIMEOUT_BACKOFF
                    then last.value.vram else None)
    else
      d == Probe && inFlight'
  }

  class VramCache {
    var last: Option<Reading>
    var inFlight: bool

    constructor ()
      ensures last.None? && !inFlight
    {
      last, inFlight := None, false;
    }

    method Begin(now: nat) returns (d: Decision)
      modifies this`inFlight
      ensures Begins(last, old(inFlight), now, d, inFlight)
      ensures d == Probe <==>
        !old(inFlight) && (last.Some? ==> now >= last.value.taken + last.value.freshFor)
      ensures d.Serve? && last.Some? && (now < last.value.taken + last.value.freshFor || now < last.value.taken + TIMEOUT_BACKOFF)
        ==> d.vram == last.value.vram
      ensures d.Serve? && d.vram.Some? ==> last.Some? && d.vram == last.value.vram
    {
      if last.Some? && now < last.value.taken + last.value.freshFor {
        return Serve(last.value.vram);
      }
      var was := inFlight;
      inFlight := true;
      if was {
        if last.Some? && now < last.value.taken + TIMEOUT_BACKOFF {
          return Serve(last.value.vram);
        }
        return Serve(None);
      }
      return Probe;
    }

    method Finish(end: ProbeEnd, started: nat, now: nat) returns (vram: Option<Vram>)
      modifies this`last
      ensures last == Some(Outcome(end, started, now))
      ensures vram == last.value.vram && last.value.taken == now
      ensures end.Answered? ==> vram == end.vram
      ensures !end.Answered? ==> vram.None?
      ensures last.value.freshFor ==
        if end.TimedOut? || (end == Answered(None) && now - started >= NVIDIA_SMI_TIMEOUT)
        then TIMEOUT_BACKOFF else CACHE_TTL
    {
      var freshFor := CACHE_TTL;
      vram := None;
      match end {
        case Answered(v) =>
          if now >= started + NVIDIA_SMI_TIMEOUT && v.None? {
            freshFor := TIMEOUT_BACKOFF;
          } else {
            vram := v;
          }
        case Panicked =>
        case TimedOut => freshFor := TIMEOUT_BACKOFF;
      }
      last := Some(Reading(now, vram, freshFor));
    }

    /** The probe closure ended, normally or not. */
    method ProbeReturned()
      modifies this`inFlight
      ensures !inFlight
    {
      inFlight := false;
    }
  }
}

module VramCacheRuns {
  import opened Options
  import opened VramCacheClass

  /** A caller waiting for its probe while it holds the cache's lock. */
  datatype Waiting = Waiting(caller: nat, started: nat, answer: Option<ProbeEnd>)

  /**
   * threads  callers whose probe thread has not returned yet
   * starts   when the latest probe was started, and whether its caller gave up on it
   */
  datatype World = World(
    last: Option<Reading>, inFlight: bool, holder: Option<Waiting>, threads: seq<nat>,
    now: nat, latestStart: Option<nat>, gaveUp: bool, nextCaller: nat)

  datatype Event =
    | Get(decision: Decision)
    | ThreadReturns(end: ProbeEnd)
    | Complete
    | Deadline
    | HolderCancelled
    | Pass(ms: nat)

  predicate Init(w: World) {
    w == World(None, false, None, [], w.now, None, false, 0)
  }

  predicate Step(w: World, e: Event, w': World) {
    match e
    case Get(d) =>
      && w.holder.None?
      && Begins(w.last, w.inFlight, w.now, d, w'.inFlight)
      && w' == if d.Probe?
               then w.(inFlight := w'.inFlight,
                       holder := Some(Waiting(w.nextCaller, w.now, None)),
                       threads := w.threads + [w.nextCaller],
                       latestStart := Some(w.now), gaveUp := false,
                       nextCaller := w.nextCaller + 1)
               else w.(inFlight := w'.inFlight)
    case ThreadReturns(end) =>
      && !end.TimedOut?
      && w.threads != []
      && w' == w.(
           inFlight := false,
           threads := w.threads[1..],
           holder := if w.holder.Some? && w.holder.value.caller == w.threads[0]
                     then Some(w.holder.value.(answer := Some(end))) else w.holder)
    case Complete =>
      && w.holder.Some? && w.holder.value.answer.Some?
      && w' == w.(last := Some(Outcome(w.holder.value.answer.value, w.holder.value.started, w.now)),
                  holder := None)
    case Deadline =>
      && w.holder.Some? && w.holder.value.answer.None?
      && w.now >= w.holder.value.started + PROBE_DEADLINE
      && w' == w.(last := Some(Outcome(TimedOut, w.holder.value.started, w.now)), holder := None)
    case HolderCancelled =>
      w.holder.Some? && w' == w.(holder := None, gaveUp := true)
    case Pass(ms) => w' == w.(now := w.now + ms)
  }

  ghost predicate IsPath(ws: seq<World>, es: seq<Event>) {
    && |ws| == |es| + 1
    && forall k | 0 <= k < |es| :: Step(ws[k], es[k], ws[k + 1])
  }

  ghost predicate Reachable(w: World) {
    exists ws, es :: IsPath(ws, es) && Init(ws[0]) && ws[|es|] == w
  }

  predicate Inv(w: World) {
    && |w.threads| <= 1
    && (w.inFlight <==> |w.threads| == 1)
    && (forall t | t in w.threads :: t < w.nextCaller)
    && (w.holder.Some? ==>
          && w.holder.value.caller < w.nextCaller
          && w.latestStart == Some(w.holder.value.started)
          && (w.holder.value.answer.None? <==> w.threads == [w.holder.value.caller])
          && (w.holder.value.answer.Some? ==> !w.holder.value.answer.value.TimedOut?)
          && (w.holder.value.answer.Some? ==> w.threads == []))
    && (w.last.Some? ==>
          && w.last.value.taken <= w.now
          && w.last.value.freshFor in {CACHE_TTL, TIMEOUT_BACKOFF}
          && (w.last.value.vram.Some? ==> w.last.value.freshFor == CACHE_TTL))
    && (w.latestStart.Some? ==> w.latestStart.value <= w.now)
    && (w.holder.None? && w.latestStart.Some? && !w.gaveUp ==>
          w.last.Some? && w.latestStart.value <= w.last.value.taken)
  }

  lemma StepInv(w: World, e: Event, w': World)
    requires Inv(w) && Step(w, e, w')
    ensures Inv(w')
  {
  }

  lemma {:induction false} PathInv(ws: seq<World>, es: seq<Event>, k: nat)
    requires IsPath(ws, es) && Init(ws[0]) && k <= |es|
    ensures Inv(ws[k])
  {
    if k > 0 {
      PathInv(ws, es, k - 1);
      StepInv(ws[k - 1], es[k - 1], ws[k]);
    }
  }

  lemma ReachableInv(w: World)
    requires Reachable(w)
    ensures Inv(w)
  {
    var ws, es :| IsPath(ws, es) && Init(ws[0]) && ws[|es|] == w;
    PathInv(ws, es, |es|);
  }

  /** Single flight: at most one probe thread is out, and the flag is up exactly while it is. */
  lemma AtMostOneProbe(w: World)
    requires Reachable(w)
    ensures |w.threads| <= 1 && (w.inFlight <==> |w.threads| == 1)
  {
    ReachableInv(w);
  }

  /**
   * A served value is a reading younger than the cache lifetime, or, only
   * while a probe is stuck, younger than the back-off.
   */
  lemma ServedReadingIsRecent(w: World, d: Decision, w': World)
    requires Reachable(w) && Step(w, Get(d), w') && d.Serve? && d.vram.Some?
    ensures w.last.Some? && d.vram == w.last.value.vram
    ensures w.now - w.last.value.taken < CACHE_TTL
         || (|w.threads| == 1 && w.now - w.last.value.taken < TIMEOUT_BACKOFF)
  {
    ReachableInv(w);
  }

  /** A new probe starts at least the cache lifetime after the latest reading was stamped ... */
  lemma ProbeWaitsForReadingToExpire(w: World, w': World)
    requires Reachable(w) && Step(w, Get(Probe), w') && w.last.Some?
    ensures w.now >= w.last.value.taken + CACHE_TTL
  {
    ReachableInv(w);
  }

  /** ... and that long after the latest probe started, unless that probe's caller gave up on it. */
  lemma ProbesAreSpaced(w: World, w': World)
    requires Reachable(w) && Step(w, Get(Probe), w')
    ensures w.latestStart.Some? && w.now < w.latestStart.value + CACHE_TTL ==> w.gaveUp
  {
    ReachableInv(w);
  }

  lemma Extend(w: World, e: Event, w': World)
    requires Reachable(w) && Step(w, e, w')
    ensures Reachable(w')
  {
    var ws, es :| IsPath(ws, es) && Init(ws[0]) && ws[|es|] == w;
    var ws', es' := ws + [w'], es + [e];
    forall k | 0 <= k < |es'| ensures Step(ws'[k], es'[k], ws'[k + 1]) {
      if k < |es| {
        assert Step(ws[k], es[k], ws[k + 1]);
      }
    }
    assert IsPath(ws', es') && ws'[|es'|] == w';
  }

  /** The exception is real: after a cancelled caller the next probe can start at once. */
  lemma CancelledProbeCanRestartAtOnce() returns (w: World, w': World)
    ensures Reachable(w) && w.latestStart == Some(w.now) && w.gaveUp
    ensures Step(w, Get(Probe), w')
  {
    var w0 := World(None, false, None, [], 0, None, false, 0);
    assert IsPath([w0], []) && Init([w0][0]) && [w0][0] == w0;
    var w1 := World(None, true, Some(Waiting(0, 0, None)), [0], 0, Some(0), false, 1);
    assert Step(w0, Get(Probe), w1);
    Extend(w0, Get(Probe), w1);
    var w2 := w1.(holder := None, gaveUp := true);
    assert Step(w1, HolderCancelled, w2);
    Extend(w1, HolderCancelled, w2);
    w := w2.(inFlight := false, threads := []);
    assert Step(w2, ThreadReturns(Panicked), w);
    Extend(w2, ThreadReturns(Panicked), w);
    w' := World(None, true, Some(Waiting(1, 0, None)), [1], 0, Some(0), false, 2);
  }
}
