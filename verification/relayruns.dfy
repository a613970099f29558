/**
 * The forwarding task beside its client: a bounded channel, a shared
 * `abandoned` flag, and a client that may read, stall or hang up at any
 * moment. The client's handler ends the body when the channel is closed and
 * empty, with an error if `abandoned` is set.
 */
module RelayRuns {
  import opened RelayTask

  const CHANNEL_CHUNKS: nat := 16

  /** Where the task is. `Offering` and `Closing` hold the item being offered. */
  datatype Pc =
    | Preparing
    | Failed
    | Reading
    | Offering(item: Item)
    | Closing(item: Item)
    | Ending
    | Dropping
    | Done

  datatype Head = NoHead | HeadOk | HeadError

  datatype BodyEnd = Open | Clean | BodyError

  /**
   * The task's side; the client never writes it.
   *
   * items     the upstream response, fixed for the run
   * pos       how many items the task has read
   * open      the task still holds the sender
   * effects, fates, headTaken   what the task did and what its offers met
   */
  datatype Task = Task(
    items: seq<Item>, pos: nat, pc: Pc, head: Head, open: bool, abandoned: bool, guard: bool,
    effects: seq<Effect>, fates: seq<Fate>, headTaken: bool)

  /** With the channel and the client; `alive` while the client still holds the receivers. */
  datatype Relay = Relay(task: Task, queue: seq<Item>, alive: bool, delivered: seq<Item>, end: BodyEnd)

  datatype TaskAct =
    | PrepareFails
    | HeadArrives
    | NextItem
    | StreamEnds
    | SendTaken
    | SendHungUp
    | SendTimesOut
    | CloseAfterTimeout
    | DropGuard
    | DropSender

  datatype ClientAct = Read | ReadEnd | HangUp

  datatype Event = ByTask(task: TaskAct) | ByClient(client: ClientAct)

  function Fresh(items: seq<Item>): Relay {
    Relay(Task(items, 0, Preparing, NoHead, true, false, true, [], [], false), [], true, [], Open)
  }

  /** The loop goes on after an item, or breaks if that item was the upstream error. */
  function AfterItem(item: Item): Pc {
    if item.Broken? then Ending else Reading
  }

  /** One act of the task, given whether the client is there and how full its buffer is. */
  predicate Acts(t: Task, a: TaskAct, alive: bool, buffered: nat, t': Task) {
    match a
    case PrepareFails =>
      && t.pc == Preparing
      && t' == t.(pc := Failed, head := HeadError, open := false, effects := t.effects + [CloseSender])
    case HeadArrives =>
      && t.pc == Preparing
      && t' == t.(pc := Reading, head := HeadOk, open := alive, headTaken := alive,
                  effects := t.effects + if alive then [] else [CloseSender])
    case NextItem =>
      && t.pc == Reading && t.pos < |t.items|
      && var item := t.items[t.pos];
         var read := t.(pos := t.pos + 1, effects := t.effects + [Received(item)]);
         t' == if t.open then read.(pc := Offering(item))
               else read.(pc := AfterItem(item), fates := t.fates + [HungUp])
    case StreamEnds =>
      t.pc == Reading && t.pos == |t.items| && t' == t.(pc := Ending)
    case SendTaken =>
      && t.pc.Offering? && alive && buffered < CHANNEL_CHUNKS
      && t' == t.(pc := AfterItem(t.pc.item),
                  effects := t.effects + [Sent(t.pc.item)], fates := t.fates + [Taken])
    case SendHungUp =>
      && t.pc.Offering? && !alive
      && t' == t.(pc := AfterItem(t.pc.item), open := false,
                  effects := t.effects + [CloseSender], fates := t.fates + [HungUp])
    case SendTimesOut =>
      && t.pc.Offering? && buffered >= CHANNEL_CHUNKS
      && t' == t.(pc := Closing(t.pc.item), abandoned := true, effects := t.effects + [Abandon])
    case CloseAfterTimeout =>
      && t.pc.Closing?
      && t' == t.(pc := AfterItem(t.pc.item), open := false,
                  effects := t.effects + [CloseSender], fates := t.fates + [Stalled])
    case DropGuard =>
      && (t.pc == Ending || t.pc == Failed)
      && t' == t.(pc := if t.pc == Failed then Done else Dropping, guard := false,
                  effects := t.effects + [ReleaseSlot])
    case DropSender =>
      && t.pc == Dropping
      && t' == t.(pc := Done, open := false,
                  effects := t.effects + if t.open then [CloseSender] else [])
  }

  predicate TaskStep(r: Relay, a: TaskAct, r': Relay) {
    && Acts(r.task, a, r.alive, |r.queue|, r'.task)
    && r' == r.(task := r'.task,
                queue := if a == SendTaken then r.queue + [r.task.pc.item] else r.queue)
  }

  predicate ClientStep(r: Relay, a: ClientAct, r': Relay) {
    match a
    case Read =>
      && r.alive && r.task.head == HeadOk && r.end == Open && r.queue != []
      && r' == if r.queue[0].Chunk?
               then r.(queue := r.queue[1..], delivered := r.delivered + [r.queue[0]])
               else r.(queue := [], alive := false, end := BodyError)
    case ReadEnd =>
      && r.alive && r.task.head == HeadOk && r.end == Open && r.queue == [] && !r.task.open
      && r' == r.(end := if r.task.abandoned then BodyError else Clean)
    case HangUp =>
      r.alive && r' == r.(alive := false, queue := [])
  }

  predicate Step(r: Relay, e: Event, r': Relay) {
    match e
    case ByTask(a) => TaskStep(r, a, r')
    case ByClient(a) => ClientStep(r, a, r')
  }

  ghost predicate IsPath(rs: seq<Relay>, es: seq<Event>) {
    && |rs| == |es| + 1
    && forall k | 0 <= k < |es| :: Step(rs[k], es[k], rs[k + 1])
  }

  ghost predicate IsRun(rs: seq<Relay>, es: seq<Event>, items: seq<Item>) {
    IsPath(rs, es) && rs[0] == Fresh(items)
  }

  ghost predicate Reachable(r: Relay, items: seq<Item>) {
    exists rs: seq<Relay>, es: seq<Event> :: IsRun(rs, es, items) && rs[|es|] == r
  }

  // -------------------------------------------------------------- invariant

  /** Items whose offer is settled. */
  function Settled(t: Task): nat {
    if (t.pc.Offering? || t.pc.Closing?) && t.pos > 0 then t.pos - 1 else t.pos
  }

  predicate Streaming(t: Task) {
    t.head == HeadOk
  }

  ghost predicate ControlOk(t: Task) {
    && t.pos <= |t.items|
    && (t.pc == Preparing <==> t.head == NoHead)
    && (t.pc == Failed ==> t.head == HeadError)
    && (t.head == HeadError ==> (t.pc == Failed || t.pc == Done) && !t.open)
    && (t.head != HeadOk ==> t.pos == 0)
    && (t.pc == Preparing ==> t.open && !t.abandoned)
    && (t.pc.Offering? || t.pc.Closing? ==> t.open && t.pos > 0 && t.pc.item == t.items[t.pos - 1])
    && (t.guard <==> t.pc != Dropping && t.pc != Done)
    && (t.pc == Done ==> !t.open)
    && (t.pc.Closing? ==> t.abandoned)
    && (t.abandoned && t.open ==> t.pc.Closing?)
  }

  /** The task reads on until the response is over, and not beyond its first error. */
  ghost predicate ReadOk(t: Task)
    requires t.pos <= |t.items|
  {
    && (forall k | 0 <= k < t.pos - 1 :: t.items[k].Chunk?)
    && (t.pc == Reading && t.pos > 0 ==> t.items[t.pos - 1].Chunk?)
    && (Streaming(t) && (t.pc == Ending || t.pc == Dropping || t.pc == Done) ==>
          t.pos == |t.items| || (t.pos > 0 && t.items[t.pos - 1].Broken?))
  }

  /** The effects are those of the forwarding loop on the fates the offers met. */
  ghost predicate EffectsOk(t: Task)
    requires t.pos <= |t.items|
  {
    && (t.pc == Preparing ==> t.effects == [] && t.fates == [])
    && (t.head == HeadError ==> t.effects == [CloseSender] + if t.guard then [] else [ReleaseSlot])
    && (Streaming(t) ==>
          && |t.fates| == Settled(t)
          && var p := After(t.headTaken, t.items, t.fates, Settled(t));
             match t.pc
             case Offering(item) => p.open && t.effects == p.effects + [Received(item)]
             case Closing(item) => p.open && t.effects == p.effects + [Received(item), Abandon]
             case Dropping => t.open == p.open && t.effects == p.effects + [ReleaseSlot]
             case Done => t.effects == Finished(p)
             case _ => t.open == p.open && t.effects == p.effects)
  }

  /** The slot is released exactly once, when the guard goes. */
  ghost predicate ReleaseOk(t: Task) {
    multiset(t.effects)[ReleaseSlot] == if t.guard then 0 else 1
  }

  ghost predicate TaskOk(t: Task) {
    ControlOk(t) && ReadOk(t) && EffectsOk(t) && ReleaseOk(t)
  }

  /** Delivered then buffered items are a prefix of the response; all of it so far while nobody left. */
  ghost predicate PrefixOk(r: Relay) {
    var t, n := r.task, |r.delivered| + |r.queue|;
    && |r.queue| <= CHANNEL_CHUNKS
    && n <= Settled(t) <= |t.items|
    && r.delivered + r.queue == t.items[..n]
    && (forall x | x in r.delivered :: x.Chunk?)
    && (r.alive && (t.open || (Streaming(t) && !t.abandoned)) ==> n == Settled(t))
    && (r.alive && Streaming(t) && !t.open && !t.abandoned ==> t.pc == Done)
    && (t.abandoned ==> |t.items| > CHANNEL_CHUNKS)
  }

  ghost predicate EndOk(r: Relay) {
    var t := r.task;
    && (r.end == Clean ==>
          Streaming(t) && t.pc == Done && !t.abandoned && r.queue == [] && |r.delivered| == t.pos)
    && (r.end == BodyError ==> t.abandoned || exists k :: 0 <= k < |t.items| && t.items[k].Broken?)
  }

  ghost predicate Inv(r: Relay) {
    TaskOk(r.task) && PrefixOk(r) && EndOk(r)
  }

  // ------------------------------------------------------- steps of the task

  lemma ActsControl(t: Task, a: TaskAct, alive: bool, buffered: nat, t': Task)
    requires ControlOk(t) && Acts(t, a, alive, buffered, t')
    ensures ControlOk(t') && t'.items == t.items
  {
  }

  lemma NextItemRead(t: Task, alive: bool, buffered: nat, t': Task)
    requires ControlOk(t) && ReadOk(t) && Acts(t, NextItem, alive, buffered, t') && t'.pos <= |t'.items|
    ensures ReadOk(t')
  {
    assert t'.items == t.items && t'.pos == t.pos + 1;
  }

  lemma ActsRead(t: Task, a: TaskAct, alive: bool, buffered: nat, t': Task)
    requires ControlOk(t) && ReadOk(t) && Acts(t, a, alive, buffered, t') && t'.pos <= |t'.items|
    ensures ReadOk(t')
  {
    if a == NextItem {
      NextItemRead(t, alive, buffered, t');
    } else {
      assert t'.items == t.items && t'.pos == t.pos;
    }
  }

  lemma ActsRelease(t: Task, a: TaskAct, alive: bool, buffered: nat, t': Task)
    requires ControlOk(t) && ReleaseOk(t) && Acts(t, a, alive, buffered, t')
    ensures ReleaseOk(t')
  {
  }

  /** Settled fates are never revised, so the loop's progress on them is fixed. */
  lemma {:induction false} AfterIsStable(headTaken: bool, items: seq<Item>, fates: seq<Fate>, more: seq<Fate>, k: nat)
    requires k <= |items| && k <= |fates|
    ensures After(headTaken, items, fates + more, k) == After(headTaken, items, fates, k)
  {
    if k > 0 {
      AfterIsStable(headTaken, items, fates, more, k - 1);
      assert (fates + more)[k - 1] == fates[k - 1];
    }
  }

  /** Settling one more item moves the loop's progress by one round. */
  lemma EffectsSettle(t: Task, t': Task, item: Item, fate: Fate)
    requires |t.fates| < |t.items| && item == t.items[|t.fates|]
    requires t'.items == t.items && t'.headTaken == t.headTaken && t'.fates == t.fates + [fate]
    ensures After(t'.headTaken, t'.items, t'.fates, |t'.fates|)
         == Offered(After(t.headTaken, t.items, t.fates, |t.fates|), item, fate)
  {
    AfterIsStable(t.headTaken, t.items, t.fates, [fate], |t.fates|);
  }

  lemma EffectsOffer(t: Task, a: TaskAct, alive: bool, buffered: nat, t': Task)
    requires ControlOk(t) && EffectsOk(t) && Acts(t, a, alive, buffered, t')
    requires a == SendTaken || a == SendHungUp
    ensures t'.pos <= |t'.items| && EffectsOk(t')
  {
    EffectsSettle(t, t', t.pc.item, if a == SendTaken then Taken else HungUp);
  }

  lemma EffectsStall(t: Task, a: TaskAct, alive: bool, buffered: nat, t': Task)
    requires ControlOk(t) && EffectsOk(t) && Acts(t, a, alive, buffered, t')
    requires a == SendTimesOut || a == CloseAfterTimeout
    ensures t'.pos <= |t'.items| && EffectsOk(t')
  {
    var p := After(t.headTaken, t.items, t.fates, |t.fates|);
    var read := [Received(t.pc.item)];
    assert (p.effects + read) + [Abandon] == p.effects + [Received(t.pc.item), Abandon];
    if a == CloseAfterTimeout {
      EffectsSettle(t, t', t.pc.item, Stalled);
      assert (p.effects + read) + [Abandon, CloseSender]
          == (p.effects + [Received(t.pc.item), Abandon]) + [CloseSender];
    }
  }

  lemma EffectsNext(t: Task, alive: bool, buffered: nat, t': Task)
    requires ControlOk(t) && EffectsOk(t) && Acts(t, NextItem, alive, buffered, t')
    ensures t'.pos <= |t'.items| && EffectsOk(t')
  {
    if !t.open {
      EffectsSettle(t, t', t.items[t.pos], HungUp);
    }
  }

  lemma EffectsQuiet(t: Task, a: TaskAct, alive: bool, buffered: nat, t': Task)
    requires ControlOk(t) && EffectsOk(t) && Acts(t, a, alive, buffered, t')
    requires a in {PrepareFails, HeadArrives, StreamEnds, DropGuard, DropSender}
    ensures t'.pos <= |t'.items| && EffectsOk(t')
  {
  }

  lemma ActsEffects(t: Task, a: TaskAct, alive: bool, buffered: nat, t': Task)
    requires ControlOk(t) && EffectsOk(t) && Acts(t, a, alive, buffered, t')
    ensures t'.pos <= |t'.items| && EffectsOk(t')
  {
    match a
    case SendTaken => EffectsOffer(t, a, alive, buffered, t');
    case SendHungUp => EffectsOffer(t, a, alive, buffered, t');
    case SendTimesOut => EffectsStall(t, a, alive, buffered, t');
    case CloseAfterTimeout => EffectsStall(t, a, alive, buffered, t');
    case NextItem => EffectsNext(t, alive, buffered, t');
    case _ => EffectsQuiet(t, a, alive, buffered, t');
  }

  lemma ActsOk(t: Task, a: TaskAct, alive: bool, buffered: nat, t': Task)
    requires TaskOk(t) && Acts(t, a, alive, buffered, t')
    ensures TaskOk(t') && t'.items == t.items
  {
    ActsControl(t, a, alive, buffered, t');
    ActsRead(t, a, alive, buffered, t');
    ActsRelease(t, a, alive, buffered, t');
    ActsEffects(t, a, alive, buffered, t');
  }

  /** What an act does to the parts a client can see. */
  lemma ActsOutside(t: Task, a: TaskAct, alive: bool, buffered: nat, t': Task)
    requires ControlOk(t) && Acts(t, a, alive, buffered, t')
    requires alive && Streaming(t) && !t.open && !t.abandoned ==> t.pc == Done
    ensures Settled(t) <= Settled(t')
    ensures a != SendTaken && alive && (t'.open || (Streaming(t') && !t'.abandoned)) ==>
      Settled(t') == Settled(t) && (t.open || (Streaming(t) && !t.abandoned))
    ensures alive && Streaming(t') && !t'.open && !t'.abandoned ==> t'.pc == Done
    ensures t'.abandoned ==> t.abandoned || a == SendTimesOut
  {
  }

  lemma SendTakenPrefix(r: Relay, r': Relay)
    requires ControlOk(r.task) && PrefixOk(r) && TaskStep(r, SendTaken, r')
    ensures PrefixOk(r')
  {
    var t, n := r.task, |r.delivered| + |r.queue|;
    assert r'.delivered + r'.queue == (r.delivered + r.queue) + [t.pc.item];
    assert t.items[..n + 1] == t.items[..n] + [t.items[n]];
  }

  /** Apart from `SendTaken` the task moves neither chunks nor the settled count of an open channel. */
  lemma QuietPrefix(r: Relay, a: TaskAct, r': Relay)
    requires ControlOk(r.task) && PrefixOk(r) && TaskStep(r, a, r') && a != SendTaken
    requires ControlOk(r'.task) && r'.task.items == r.task.items
    ensures PrefixOk(r')
  {
    ActsOutside(r.task, a, r.alive, |r.queue|, r'.task);
  }

  lemma TaskEnd(r: Relay, a: TaskAct, r': Relay)
    requires ControlOk(r.task) && EndOk(r) && TaskStep(r, a, r') && r'.task.items == r.task.items
    ensures EndOk(r')
  {
  }

  lemma TaskInv(r: Relay, a: TaskAct, r': Relay)
    requires Inv(r) && TaskStep(r, a, r')
    ensures Inv(r') && r'.task.items == r.task.items
  {
    ActsOk(r.task, a, r.alive, |r.queue|, r'.task);
    TaskEnd(r, a, r');
    if a == SendTaken {
      SendTakenPrefix(r, r');
    } else {
      QuietPrefix(r, a, r');
    }
  }

  // ----------------------------------------------------- steps of the client

  lemma ReadChunkInv(r: Relay, r': Relay)
    requires PrefixOk(r) && EndOk(r) && ClientStep(r, Read, r') && r.queue[0].Chunk?
    ensures PrefixOk(r') && EndOk(r')
  {
    assert r'.delivered + r'.queue == r.delivered + r.queue;
  }

  /** Throwing the buffer away leaves a prefix. */
  lemma DropQueuePrefix(r: Relay)
    requires PrefixOk(r)
    ensures |r.delivered| <= Settled(r.task) && r.delivered + [] == r.task.items[..|r.delivered|]
  {
    assert r.delivered == (r.delivered + r.queue)[..|r.delivered|];
  }

  lemma ReadErrorInv(r: Relay, r': Relay)
    requires PrefixOk(r) && EndOk(r) && ClientStep(r, Read, r') && r.queue[0].Broken?
    ensures PrefixOk(r') && EndOk(r')
  {
    var k := |r.delivered|;
    assert (r.delivered + r.queue)[k] == r.queue[0];
    assert r.task.items[k].Broken?;
    DropQueuePrefix(r);
  }

  lemma LeaveInv(r: Relay, a: ClientAct, r': Relay)
    requires ControlOk(r.task) && PrefixOk(r) && EndOk(r) && ClientStep(r, a, r') && a != Read
    ensures PrefixOk(r') && EndOk(r')
  {
    DropQueuePrefix(r);
    assert r'.task == r.task && r'.delivered == r.delivered;
  }

  lemma ClientInv(r: Relay, a: ClientAct, r': Relay)
    requires Inv(r) && ClientStep(r, a, r')
    ensures Inv(r') && r'.task == r.task
  {
    if a != Read {
      LeaveInv(r, a, r');
    } else if r.queue[0].Chunk? {
      ReadChunkInv(r, r');
    } else {
      ReadErrorInv(r, r');
    }
  }

  lemma StepInv(r: Relay, e: Event, r': Relay)
    requires Inv(r) && Step(r, e, r')
    ensures Inv(r') && r'.task.items == r.task.items
  {
    match e
    case ByTask(a) => TaskInv(r, a, r');
    case ByClient(a) => ClientInv(r, a, r');
  }

  lemma FreshInv(items: seq<Item>)
    ensures Inv(Fresh(items))
  {
    assert items[..0] == [];
  }

  lemma {:induction false} RunInv(rs: seq<Relay>, es: seq<Event>, items: seq<Item>, k: nat)
    requires IsRun(rs, es, items) && k <= |es|
    ensures Inv(rs[k]) && rs[k].task.items == items
  {
    if k == 0 {
      FreshInv(items);
    } else {
      RunInv(rs, es, items, k - 1);
      var r, e, r' := rs[k - 1], es[k - 1], rs[k];
      assert Step(r, e, r');
      StepInv(r, e, r');
    }
  }

  lemma ReachableInv(r: Relay, items: seq<Item>)
    requires Reachable(r, items)
    ensures Inv(r) && r.task.items == items
  {
    var rs: seq<Relay>, es: seq<Event> :| IsRun(rs, es, items) && rs[|es|] == r;
    RunInv(rs, es, items, |es|);
  }

  /** Reachable states are closed under steps. */
  lemma ReachableStep(r: Relay, e: Event, r': Relay, items: seq<Item>)
    requires Reachable(r, items) && Step(r, e, r')
    ensures Reachable(r', items)
  {
    var rs: seq<Relay>, es: seq<Event> :| IsRun(rs, es, items) && rs[|es|] == r;
    var rs', es' := rs + [r'], es + [e];
    assert forall k | 0 <= k < |es'| :: Step(rs'[k], es'[k], rs'[k + 1]) by {
      assert forall k | 0 <= k < |es| :: Step(rs[k], es[k], rs[k + 1]);
    }
    assert IsRun(rs', es', items) && rs'[|es'|] == r';
  }

  // --------------------------------------------------------------- delivery

  ghost predicate UpstreamFails(items: seq<Item>) {
    exists k :: 0 <= k < |items| && items[k].Broken?
  }

  /**
   * Whatever the client does: what it received followed by what is buffered
   * is a prefix of the response, and at most 16 chunks are buffered.
   */
  lemma DeliveryIsPrefix(r: Relay, items: seq<Item>)
    requires Reachable(r, items)
    ensures r.delivered + r.queue <= items && |r.queue| <= CHANNEL_CHUNKS
  {
    ReachableInv(r, items);
  }

  /**
   * A body that ends cleanly is complete: every item was a chunk and was
   * delivered, the client was not given up on, and its slot is already free.
   */
  lemma CleanEndIsComplete(r: Relay, items: seq<Item>)
    requires Reachable(r, items) && r.end == Clean
    ensures r.delivered == items && !UpstreamFails(items)
    ensures !r.task.abandoned && !r.task.guard
  {
    ReachableInv(r, items);
    assert r.delivered + r.queue == r.delivered;
    assert forall k | 0 <= k < r.task.pos :: items[k] == r.delivered[k] && r.delivered[k] in r.delivered;
    assert items[..|items|] == items;
  }

  /** A body that was ended at all ended cleanly iff the client was not abandoned and upstream did not fail. */
  lemma BodyEndIsExact(r: Relay, items: seq<Item>)
    requires Reachable(r, items) && r.end != Open
    ensures r.end == Clean <==> !r.task.abandoned && !UpstreamFails(items)
  {
    ReachableInv(r, items);
    if r.end == Clean {
      CleanEndIsComplete(r, items);
    }
  }

  // ---------------------------------------------------------------- release

  lemma ReadCountIs(items: seq<Item>, m: nat)
    requires m <= |items| && (forall k | 0 <= k < m - 1 :: items[k].Chunk?)
    requires m == |items| || (m > 0 && items[m - 1].Broken?)
    ensures ReadCount(items) == m
  {
    assert forall k | 0 <= k < ReadCount(items) - 1 :: items[k].Chunk?;
  }

  lemma ReadToTheEnd(t: Task)
    requires ControlOk(t) && ReadOk(t) && !t.guard && Streaming(t)
    ensures t.pos == ReadCount(t.items)
  {
    ReadCountIs(t.items, t.pos);
  }

  /**
   * The slot outlives the upstream work, whatever the client does: it is
   * released only when no response came, or when the response was read to its
   * end or to its error, and it is released once.
   */
  lemma SlotOutlivesUpstream(r: Relay, items: seq<Item>)
    requires Reachable(r, items)
    ensures !r.task.guard ==> r.task.head == HeadError || (Streaming(r.task) && r.task.pos == ReadCount(items))
    ensures multiset(r.task.effects)[ReleaseSlot] == if r.task.guard then 0 else 1
  {
    ReachableInv(r, items);
    if !r.task.guard && Streaming(r.task) {
      ReadToTheEnd(r.task);
    }
  }

  lemma FinishedTask(t: Task)
    requires TaskOk(t) && t.pc == Done && Streaming(t)
    ensures |t.fates| == ReadCount(t.items)
    ensures t.effects == Finished(After(t.headTaken, t.items, t.fates, ReadCount(t.items)))
  {
    ReadCountIs(t.items, t.pos);
  }

  /**
   * Every finished interleaving performed exactly the effects the forwarding
   * loop performs when its offers meet the same fates, in the same order.
   */
  lemma RunRefinesForward(r: Relay, items: seq<Item>)
    requires Reachable(r, items) && r.task.pc == Done && Streaming(r.task)
    ensures |r.task.fates| == ReadCount(items)
    ensures r.task.effects == Finished(After(r.task.headTaken, items, r.task.fates, ReadCount(items)))
  {
    ReachableInv(r, items);
    FinishedTask(r.task);
  }

  /**
   * A task that got no response tells the client so, lets go of the sender and
   * then of the slot; it reads and relays nothing.
   */
  lemma FailedTaskRelaysNothing(r: Relay, items: seq<Item>)
    requires Reachable(r, items) && r.task.head == HeadError
    ensures r.task.effects == if r.task.guard then [CloseSender] else [CloseSender, ReleaseSlot]
    ensures r.task.pc == Done <==> !r.task.guard
    ensures r.task.pos == 0 && r.queue == [] && r.delivered == []
  {
    ReachableInv(r, items);
  }
}
