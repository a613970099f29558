/**
 * How relaying ends: the task always finishes and then the slot is free, and
 * which endings a client can see while its slot is still held.
 */
module RelayEnds {
  import opened RelayTask
  import opened RelayRuns

  // ------------------------------------------------- the task always finishes

  /** Steps the task still has to take, at most. */
  function Work(t: Task): nat
    requires t.pos <= |t.items|
  {
    2 * (|t.items| - t.pos) + (if t.open then 1 else 0) +
    match t.pc
    case Preparing => 4
    case Reading => 3
    case Offering(_) => 4
    case Closing(_) => 3
    case Ending => 2
    case Failed => 1
    case Dropping => 1
    case Done => 0
  }

  function TaskSteps(es: seq<Event>): nat {
    if es == [] then 0 else TaskSteps(es[..|es| - 1]) + if es[|es| - 1].ByTask? then 1 else 0
  }

  lemma ActsWork(t: Task, a: TaskAct, alive: bool, buffered: nat, t': Task)
    requires ControlOk(t) && Acts(t, a, alive, buffered, t') && t'.pos <= |t'.items|
    ensures Work(t') < Work(t)
  {
  }

  lemma StepWork(r: Relay, e: Event, r': Relay)
    requires Inv(r) && Step(r, e, r') && Inv(r')
    ensures Work(r'.task) + (if e.ByTask? then 1 else 0) <= Work(r.task)
  {
    match e
    case ByTask(a) => ActsWork(r.task, a, r.alive, |r.queue|, r'.task);
    case ByClient(a) => assert r'.task == r.task;
  }

  lemma {:induction false} WorkSpent(rs: seq<Relay>, es: seq<Event>, items: seq<Item>, k: nat)
    requires IsRun(rs, es, items) && k <= |es|
    ensures Inv(rs[k]) && TaskSteps(es[..k]) + Work(rs[k].task) <= 2 * |items| + 5
  {
    if k == 0 {
      FreshInv(items);
    } else {
      var r, e, r' := rs[k - 1], es[k - 1], rs[k];
      WorkSpent(rs, es, items, k - 1);
      assert Step(r, e, r');
      StepInv(r, e, r');
      StepWork(r, e, r');
      assert es[..k][..k - 1] == es[..k - 1];
    }
  }

  /** However the client reads, stalls or hangs up, the task takes at most 2 * |items| + 5 steps. */
  lemma TaskStepsAreBounded(rs: seq<Relay>, es: seq<Event>, items: seq<Item>)
    requires IsRun(rs, es, items)
    ensures TaskSteps(es) <= 2 * |items| + 5
  {
    WorkSpent(rs, es, items, |es|);
    assert es[..|es|] == es;
  }

  lemma OfferCanStep(r: Relay) returns (a: TaskAct, r': Relay)
    requires r.task.pc.Offering?
    ensures TaskStep(r, a, r')
  {
    var t, item := r.task, r.task.pc.item;
    if r.alive && |r.queue| < CHANNEL_CHUNKS {
      a, r' := SendTaken, r.(queue := r.queue + [item], task := t.(pc := AfterItem(item),
        effects := t.effects + [Sent(item)], fates := t.fates + [Taken]));
    } else if r.alive {
      a, r' := SendTimesOut, r.(task := t.(pc := Closing(item), abandoned := true,
        effects := t.effects + [Abandon]));
    } else {
      a, r' := SendHungUp, r.(task := t.(pc := AfterItem(item), open := false,
        effects := t.effects + [CloseSender], fates := t.fates + [HungUp]));
    }
  }

  lemma ReadingCanStep(r: Relay) returns (a: TaskAct, r': Relay)
    requires r.task.pc == Reading && r.task.pos <= |r.task.items|
    ensures TaskStep(r, a, r')
  {
    var t := r.task;
    if t.pos == |t.items| {
      a, r' := StreamEnds, r.(task := t.(pc := Ending));
    } else {
      var item := t.items[t.pos];
      var read := t.(pos := t.pos + 1, effects := t.effects + [Received(item)]);
      a, r' := NextItem, r.(task := if t.open then read.(pc := Offering(item))
                                    else read.(pc := AfterItem(item), fates := t.fates + [HungUp]));
    }
  }

  /** The task is never stuck behind its client. */
  lemma TaskCanStep(r: Relay) returns (a: TaskAct, r': Relay)
    requires Inv(r) && r.task.pc != Done
    ensures TaskStep(r, a, r')
  {
    var t := r.task;
    match t.pc {
      case Preparing =>
        a, r' := PrepareFails, r.(task := t.(pc := Failed, head := HeadError, open := false,
          effects := t.effects + [CloseSender]));
      case Failed =>
        a, r' := DropGuard, r.(task := t.(pc := Done, guard := false, effects := t.effects + [ReleaseSlot]));
      case Reading =>
        a, r' := ReadingCanStep(r);
      case Offering(item) =>
        a, r' := OfferCanStep(r);
      case Closing(item) =>
        a, r' := CloseAfterTimeout, r.(task := t.(pc := AfterItem(item), open := false,
          effects := t.effects + [CloseSender], fates := t.fates + [Stalled]));
      case Ending =>
        a, r' := DropGuard, r.(task := t.(pc := Dropping, guard := false, effects := t.effects + [ReleaseSlot]));
      case Dropping =>
        a, r' := DropSender, r.(task := t.(pc := Done, open := false,
          effects := t.effects + if t.open then [CloseSender] else []));
    }
  }

  lemma DoneIsFinal(r: Relay, a: TaskAct, r': Relay)
    requires r.task.pc == Done
    ensures !TaskStep(r, a, r')
  {
  }

  /** A run in which the task can take no further step has finished the task and freed the slot. */
  lemma StuckIffDone(r: Relay, items: seq<Item>)
    requires Reachable(r, items)
    ensures (forall a, r' :: !TaskStep(r, a, r')) <==> r.task.pc == Done
    ensures r.task.pc == Done ==> !r.task.guard
  {
    ReachableInv(r, items);
    if r.task.pc == Done {
      forall a, r' ensures !TaskStep(r, a, r') {
        DoneIsFinal(r, a, r');
      }
    } else {
      var a, r' := TaskCanStep(r);
    }
  }

  /** A path may be extended at its front. */
  lemma PathFrom(r: Relay, e: Event, rs: seq<Relay>, es: seq<Event>)
    requires IsPath(rs, es) && Step(r, e, rs[0])
    ensures IsPath([r] + rs, [e] + es)
  {
    var rs', es' := [r] + rs, [e] + es;
    forall k | 0 <= k < |es'| ensures Step(rs'[k], es'[k], rs'[k + 1]) {
      if k > 0 {
        assert Step(rs[k - 1], es[k - 1], rs[k]);
      }
    }
  }

  /** The invariant holds and the task needs at most `work` more steps. */
  ghost predicate Within(r: Relay, work: nat) {
    Inv(r) && Work(r.task) <= work
  }

  lemma NextStep(r: Relay, work: nat) returns (e: Event, r': Relay)
    requires Within(r, work) && r.task.pc != Done
    ensures e.ByTask? && Step(r, e, r') && work > 0 && Within(r', work - 1)
  {
    var a;
    a, r' := TaskCanStep(r);
    e := ByTask(a);
    StepInv(r, e, r');
    StepWork(r, e, r');
  }

  lemma {:induction false} TaskAlone(r: Relay, work: nat) returns (rs: seq<Relay>, es: seq<Event>)
    requires Within(r, work)
    ensures IsPath(rs, es) && rs[0] == r && (forall e | e in es :: e.ByTask?)
    ensures rs[|es|].task.pc == Done && !rs[|es|].task.guard
    decreases work
  {
    if r.task.pc == Done {
      rs, es := [r], [];
    } else {
      var e, r' := NextStep(r, work);
      var rest, later := TaskAlone(r', work - 1);
      PathFrom(r, e, rest, later);
      rs, es := [r] + rest, [e] + later;
    }
  }

  /**
   * From any moment of any run, the task reaches its end and frees the slot by
   * its own steps, with no help from the client.
   */
  lemma TaskFinishesAlone(r: Relay, items: seq<Item>) returns (rs: seq<Relay>, es: seq<Event>)
    requires Reachable(r, items)
    ensures IsPath(rs, es) && rs[0] == r && (forall e | e in es :: e.ByTask?)
    ensures rs[|es|].task.pc == Done && !rs[|es|].task.guard
  {
    ReachableInv(r, items);
    rs, es := TaskAlone(r, Work(r.task));
  }

  // --------------------------------------- endings seen while the slot is held

  /** The relay has delivered `d` chunks and buffers the next `q`; the task is about to read on. */
  ghost predicate Flowing(r: Relay, items: seq<Item>, d: nat, q: nat) {
    && d + q <= |items| && q <= CHANNEL_CHUNKS
    && r.task.items == items && r.task.pos == d + q && r.task.pc == Reading
    && r.task.head == HeadOk && r.task.open && r.task.guard
    && r.alive && r.end == Open && r.delivered == items[..d] && r.queue == items[d..d + q]
  }

  lemma HeadReached(items: seq<Item>) returns (r: Relay)
    ensures Reachable(r, items) && Flowing(r, items, 0, 0)
  {
    var r0 := Fresh(items);
    FreshReachable(items);
    r := r0.(task := r0.task.(pc := Reading, head := HeadOk, headTaken := true));
    assert Acts(r0.task, HeadArrives, true, 0, r.task);
    ReachableStep(r0, ByTask(HeadArrives), r, items);
  }

  lemma FreshReachable(items: seq<Item>)
    ensures Reachable(Fresh(items), items)
  {
    var rs, es: seq<Event> := [Fresh(items)], [];
    assert IsRun(rs, es, items) && rs[|es|] == Fresh(items);
  }

  /** The next item is read and offered to the client. */
  lemma OfferNext(r: Relay, items: seq<Item>, d: nat, q: nat) returns (r': Relay)
    requires Reachable(r, items) && Flowing(r, items, d, q) && d + q < |items|
    ensures Reachable(r', items) && r'.task.pc == Offering(items[d + q])
    ensures r' == r.(task := r'.task)
    ensures r'.task == r.task.(pos := d + q + 1, pc := r'.task.pc, effects := r'.task.effects)
  {
    var t := r.task;
    r' := r.(task := t.(pos := t.pos + 1, pc := Offering(items[t.pos]), effects := t.effects + [Received(items[t.pos])]));
    ReachableStep(r, ByTask(NextItem), r', items);
  }

  lemma Take(r: Relay, items: seq<Item>, d: nat, q: nat) returns (r': Relay)
    requires Reachable(r, items) && Flowing(r, items, d, q) && d + q < |items| && q < CHANNEL_CHUNKS
    ensures Reachable(r', items)
    ensures r' == r.(task := r'.task, queue := items[d..d + q + 1])
    ensures r'.task == r.task.(pos := d + q + 1, pc := AfterItem(items[d + q]),
                               effects := r'.task.effects, fates := r'.task.fates)
  {
    var m := OfferNext(r, items, d, q);
    var t, item := m.task, items[d + q];
    r' := m.(queue := m.queue + [item], task := t.(pc := AfterItem(item),
      effects := t.effects + [Sent(item)], fates := t.fates + [Taken]));
    ReachableStep(m, ByTask(SendTaken), r', items);
    assert items[d..d + q + 1] == items[d..d + q] + [item];
  }

  lemma ReadOne(r: Relay, items: seq<Item>) returns (r': Relay)
    requires Reachable(r, items) && r.alive && Streaming(r.task) && r.end == Open && r.queue != [] && r.queue[0].Chunk?
    ensures Reachable(r', items)
    ensures r' == r.(queue := r.queue[1..], delivered := r.delivered + [r.queue[0]])
  {
    r' := r.(queue := r.queue[1..], delivered := r.delivered + [r.queue[0]]);
    ReachableStep(r, ByClient(Read), r', items);
  }

  /** A client that keeps up can have taken any number of chunks. */
  lemma {:induction false} Feed(items: seq<Item>, d: nat, q: nat) returns (r: Relay)
    requires d + q <= |items| && q <= CHANNEL_CHUNKS && (forall k | 0 <= k < d + q :: items[k].Chunk?)
    ensures Reachable(r, items) && Flowing(r, items, d, q)
    decreases 2 * d + q
  {
    if q > 0 {
      var m := Feed(items, d, q - 1);
      r := Take(m, items, d, q - 1);
    } else if d > 0 {
      var m := Feed(items, d - 1, 1);
      r := ReadOne(m, items);
      assert items[..d] == items[..d - 1] + [items[d - 1]];
    } else {
      r := HeadReached(items);
    }
  }

  lemma {:induction false} ReadAll(r: Relay, items: seq<Item>) returns (r': Relay)
    requires Reachable(r, items) && r.alive && Streaming(r.task) && r.end == Open
    requires forall x | x in r.queue :: x.Chunk?
    ensures Reachable(r', items) && r' == r.(queue := [], delivered := r'.delivered)
    decreases |r.queue|
  {
    if r.queue == [] {
      r' := r;
    } else {
      var m := ReadOne(r, items);
      r' := ReadAll(m, items);
    }
  }

  /** The client reads an upstream error before the task lets go of the slot. */
  lemma EarlyUpstreamError(items: seq<Item>) returns (r: Relay)
    requires UpstreamFails(items)
    ensures Reachable(r, items) && r.end == BodyError && r.task.guard
  {
    var c := ReadCount(items) - 1;
    FirstError(items);
    var m := Feed(items, c, 0);
    var n := Take(m, items, c, 0);
    r := n.(queue := [], alive := false, end := BodyError);
    ReachableStep(n, ByClient(Read), r, items);
  }

  lemma FirstError(items: seq<Item>)
    requires UpstreamFails(items)
    ensures ReadCount(items) > 0 && items[ReadCount(items) - 1].Broken?
  {
    var k :| 0 <= k < |items| && items[k].Broken?;
    var m := ReadCount(items);
    assert !(k < m - 1);
  }

  /** A client given up on reads what is buffered and the error, while upstream is still being drained. */
  lemma EarlyStallError(items: seq<Item>) returns (r: Relay)
    requires !UpstreamFails(items) && |items| > CHANNEL_CHUNKS
    ensures Reachable(r, items) && r.end == BodyError && r.task.guard
  {
    var m := Feed(items, 0, CHANNEL_CHUNKS);
    var offering := OfferNext(m, items, 0, CHANNEL_CHUNKS);
    var t, item := offering.task, items[CHANNEL_CHUNKS];
    var late := offering.(task := t.(pc := Closing(item), abandoned := true, effects := t.effects + [Abandon]));
    ReachableStep(offering, ByTask(SendTimesOut), late, items);
    var closed := late.(task := late.task.(pc := AfterItem(item), open := false,
      effects := late.task.effects + [CloseSender], fates := late.task.fates + [Stalled]));
    ReachableStep(late, ByTask(CloseAfterTimeout), closed, items);
    var drained := ReadAll(closed, items);
    r := drained.(end := BodyError);
    ReachableStep(drained, ByClient(ReadEnd), r, items);
  }

  /** Of the endings a client can see, only an error can come before the slot is free. */
  lemma EarlyEndIsError(r: Relay, items: seq<Item>)
    requires Reachable(r, items) && r.end != Open && r.task.guard
    ensures r.end == BodyError
    ensures r.task.abandoned || UpstreamFails(items)
  {
    ReachableInv(r, items);
  }

  /**
   * The slot is free before the client sees the end of its body exactly for
   * the responses that do not fail and fit the channel: for every other one,
   * some run shows the client the end while its slot is still held.
   */
  lemma EndCanPrecedeReleaseIff(items: seq<Item>)
    ensures (exists r :: Reachable(r, items) && r.end != Open && r.task.guard)
      <==> UpstreamFails(items) || |items| > CHANNEL_CHUNKS
  {
    if r :| Reachable(r, items) && r.end != Open && r.task.guard {
      EarlyEndIsError(r, items);
      ReachableInv(r, items);
    }
    if UpstreamFails(items) {
      var r := EarlyUpstreamError(items);
    } else if |items| > CHANNEL_CHUNKS {
      var r := EarlyStallError(items);
    }
  }

  /**
   * The head comes first, whatever it is: no run frees the slot before the
   * head's outcome is known, and for every response both outcomes can be seen
   * while the slot is still held.
   */
  lemma HeadPrecedesRelease(items: seq<Item>)
    ensures forall r | Reachable(r, items) && !r.task.guard :: r.task.head != NoHead
    ensures exists r :: Reachable(r, items) && r.task.head == HeadError && r.task.guard
    ensures exists r :: Reachable(r, items) && r.task.head == HeadOk && r.task.guard
  {
    forall r | Reachable(r, items) && !r.task.guard ensures r.task.head != NoHead {
      ReachableInv(r, items);
    }
    var ok := HeadReached(items);
    var r := Fresh(items);
    FreshReachable(items);
    var failed := r.(task := r.task.(pc := Failed, head := HeadError, open := false,
      effects := r.task.effects + [CloseSender]));
    ReachableStep(r, ByTask(PrepareFails), failed, items);
  }
}
