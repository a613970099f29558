/**
 * Relaying one upstream response to one client: the forwarding task's loop,
 * and every interleaving of that task with a client that reads, stalls or
 * hangs up.
 */
module RelayTask {
  /** One item of the upstream body stream: a chunk, or the error that ends it. */
  datatype Item = Chunk(data: nat) | Broken

  /** What became of an item offered to the client. */
  datatype Fate = Taken | HungUp | Stalled

  /** What the task does, in order: reading upstream, relaying, giving up, letting go. */
  datatype Effect = Received(item: Item) | Sent(item: Item) | Abandon | CloseSender | ReleaseSlot

  /** Progress of the loop: the effects so far and whether the sender is still held. */
  datatype Progress = Progress(effects: seq<Effect>, open: bool)

  /** Items the loop reads: all of them, or up to and including the first error. */
  function ReadCount(items: seq<Item>): (m: nat)
    ensures m <= |items|
    ensures forall k | 0 <= k < m - 1 :: items[k].Chunk?
    ensures m < |items| ==> m > 0 && items[m - 1].Broken?
  {
    if items == [] then 0
    else if items[0].Broken? then 1
    else 1 + ReadCount(items[1..])
  }

  /** One round of the loop: read an item and, to a client still there, offer it. */
  function Offered(p: Progress, item: Item, fate: Fate): Progress {
    var read := p.effects + [Received(item)];
    if !p.open then Progress(read, false)
    else match fate
      case Taken => Progress(read + [Sent(item)], true)
      case HungUp => Progress(read + [CloseSender], false)
      case Stalled => Progress(read + [Abandon, CloseSender], false)
  }

  /** After the first `k` items met the first `k` fates. */
  function After(headTaken: bool, items: seq<Item>, fates: seq<Fate>, k: nat): Progress
    requires k <= |items| && k <= |fates|
  {
    if k == 0 then Progress(if headTaken then [] else [CloseSender], headTaken)
    else Offered(After(headTaken, items, fates, k - 1), items[k - 1], fates[k - 1])
  }

  /** The whole job: the slot is freed before a sender still held is dropped. */
  function Finished(p: Progress): seq<Effect> {
    p.effects + [ReleaseSlot] + if p.open then [CloseSender] else []
  }

  class ForwardTask {
    var client: bool
    var abandoned: bool
    var guard: bool
    ghost var effects: seq<Effect>

    constructor ()
      ensures client && !abandoned && guard && effects == []
    {
      client, abandoned, guard, effects := true, false, true, [];
    }

    /** The body loop of `forward`, once the response head is known. */
    method RelayBody(headTaken: bool, items: seq<Item>, fates: seq<Fate>)
      requires client && !abandoned && guard && effects == [] && ReadCount(items) <= |fates|
      modifies this
      ensures guard
      ensures Progress(effects, client) == After(headTaken, items, fates, ReadCount(items))
      ensures abandoned <==> Abandon in effects
    {
      if !headTaken {
        client, effects := false, effects + [CloseSender];
      }
      var k, failed := 0, false;
      while k < |items| && !failed
        invariant k <= ReadCount(items)
        invariant failed <==> k > 0 && items[k - 1].Broken?
        invariant Progress(effects, client) == After(headTaken, items, fates, k)
        invariant guard && (abandoned <==> Abandon in effects)
      {
        failed, effects := items[k].Broken?, effects + [Received(items[k])];
        if client {
          match fates[k] {
            case Taken =>
              effects := effects + [Sent(items[k])];
            case HungUp =>
              client, effects := false, effects + [CloseSender];
            case Stalled =>
              abandoned, effects := true, effects + [Abandon];
              client, effects := false, effects + [CloseSender];
          }
        }
        k := k + 1;
      }
    }

    /** The guard goes, and with it the slot. */
    method DropGuard()
      requires guard
      modifies this`guard, this`effects
      ensures !guard && effects == old(effects) + [ReleaseSlot]
    {
      guard, effects := false, effects + [ReleaseSlot];
    }

    /** The sender goes, if it is still held. */
    method DropSender()
      modifies this`client, this`effects
      ensures !client && effects == old(effects) + if old(client) then [CloseSender] else []
    {
      if client {
        client, effects := false, effects + [CloseSender];
      }
    }

    /** The task from the response head to its end. */
    method Forward(headTaken: bool, items: seq<Item>, fates: seq<Fate>)
      requires client && !abandoned && guard && effects == [] && ReadCount(items) <= |fates|
      modifies this
      ensures !guard && !client
      ensures effects == Finished(After(headTaken, items, fates, ReadCount(items)))
      ensures abandoned <==> Abandon in effects
    {
      RelayBody(headTaken, items, fates);
      DropGuard();
      DropSender();
    }
  }

  /** Items read and handed on. */
  function Relayed(items: seq<Item>): seq<Effect> {
    if items == [] then []
    else Relayed(items[..|items| - 1]) + [Received(items[|items| - 1]), Sent(items[|items| - 1])]
  }

  /** Items read only. */
  function Drained(items: seq<Item>): seq<Effect> {
    seq(|items|, k requires 0 <= k < |items| => Received(items[k]))
  }

  /** `c` is where the client stopped taking items, if it did. */
  ghost predicate StopsAt(headTaken: bool, fates: seq<Fate>, m: nat, c: nat) {
    && m <= |fates|
    && c <= m
    && (forall k | 0 <= k < c :: fates[k].Taken?)
    && (headTaken && c < m ==> !fates[c].Taken?)
  }

  /** How the task parts with a client that did not take the offered item. */
  function Parting(fate: Fate): seq<Effect> {
    if fate.Stalled? then [Abandon, CloseSender] else [CloseSender]
  }

  /**
   * What the whole task amounts to. Every item is read whatever the client
   * does; exactly the items before its first refusal are sent; a stall is
   * flagged before the sender is closed; the slot is released once, after the
   * last item was read and before an unbroken client's sender closes.
   */
  lemma ForwardShape(headTaken: bool, items: seq<Item>, fates: seq<Fate>, m: nat, c: nat)
    requires m <= |items| && StopsAt(headTaken, fates, m, c)
    ensures Finished(After(headTaken, items, fates, m)) ==
      if !headTaken then [CloseSender] + Drained(items[..m]) + [ReleaseSlot]
      else if c == m then Relayed(items[..m]) + [ReleaseSlot, CloseSender]
      else Relayed(items[..c]) + [Received(items[c])] + Parting(fates[c])
           + Drained(items[c + 1..m]) + [ReleaseSlot]
  {
    AfterShape(headTaken, items, fates, m, c);
  }

  lemma {:induction false} AfterShape(headTaken: bool, items: seq<Item>, fates: seq<Fate>, m: nat, c: nat)
    requires m <= |items| && StopsAt(headTaken, fates, m, c)
    ensures After(headTaken, items, fates, m) ==
      if !headTaken then Progress([CloseSender] + Drained(items[..m]), false)
      else if c == m then Progress(Relayed(items[..m]), true)
      else Progress(Relayed(items[..c]) + [Received(items[c])] + Parting(fates[c])
                    + Drained(items[c + 1..m]), false)
  {
    if m > 0 {
      AfterShape(headTaken, items, fates, m - 1, if c == m then m - 1 else c);
      if !headTaken {
        assert Drained(items[..m]) == Drained(items[..m - 1]) + [Received(items[m - 1])];
      } else if c == m {
        assert items[..m][..m - 1] == items[..m - 1];
      } else if c < m - 1 {
        assert Drained(items[c + 1..m]) == Drained(items[c + 1..m - 1]) + [Received(items[m - 1])];
      } else {
        assert Drained(items[c + 1..m]) == [];
      }
    }
  }
}
