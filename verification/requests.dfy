/**
 * Which request a ticket belongs to: a waiter retries with the hint its
 * request arrived with, however often it is refused.
 */
module Requests {
  import opened Options
  import opened Slots
  import opened Protocol

  /**
   * Among the first `k` events, ticket `t` was left behind by a request that
   * arrived with `hint`: by its arrival or by a refused retry of it.
   */
  predicate Asked(es: seq<Event>, k: nat, t: nat, hint: Option<Hint>)
    requires k <= |es|
  {
    k > 0 &&
    (|| Asked(es, k - 1, t, hint)
     || es[k - 1] == Arrive(hint, Queued(t))
     || (es[k - 1].Retry? && es[k - 1].outcome == Queued(t) && Asked(es, k - 1, es[k - 1].ticket, hint)))
  }

  /** Event `k` is an attempt made for a request that arrived with `hint`. */
  predicate MadeFor(es: seq<Event>, k: nat, hint: Option<Hint>)
    requires k < |es|
  {
    match es[k]
    case Arrive(h, _) => h == hint
    case Retry(t, _) => Asked(es, k, t, hint)
    case _ => false
  }

  /** A step invents no waiter but the one it refuses, and changes nobody's hint. */
  lemma HintsStay(w: World, e: Event, w': World, t: nat)
    requires Step(w, e, w') && t in w'.sched.waiters
    ensures w.sched.nextTicket <= w'.sched.nextTicket
    ensures t in w.sched.waiters && t < w.sched.nextTicket ==> w'.sched.waiters[t].hint == w.sched.waiters[t].hint
    ensures t !in w.sched.waiters ==> (e.Arrive? || e.Retry?) && e.outcome == Queued(t)
  {
  }

  lemma TicketsGrow(w: World, e: Event, w': World)
    requires Step(w, e, w')
    ensures w.sched.nextTicket <= w'.sched.nextTicket
    ensures (e.Arrive? || e.Retry?) && e.outcome.Queued? ==>
      e.outcome.ticket == w.sched.nextTicket && w'.sched.nextTicket == e.outcome.ticket + 1
  {
  }

  /** The hint a refused attempt leaves behind is the one it was made with. */
  lemma RefusedHint(w: World, e: Event, w': World, t: nat)
    requires Step(w, e, w') && (e.Arrive? || e.Retry?) && e.outcome == Queued(t)
    ensures t in w'.sched.waiters
    ensures w'.sched.waiters[t].hint == if e.Arrive? then e.hint else w.sched.waiters[e.ticket].hint
  {
  }

  /** Ticket `t`, if it is live, carries `hint`. */
  predicate Carries(w: World, t: nat, hint: Option<Hint>) {
    t < w.sched.nextTicket && (t in w.sched.waiters ==> w.sched.waiters[t].hint == hint)
  }

  lemma CarriesStays(w: World, e: Event, w': World, t: nat, hint: Option<Hint>)
    requires Step(w, e, w') && Carries(w, t, hint)
    ensures Carries(w', t, hint)
  {
    TicketsGrow(w, e, w');
    if t in w'.sched.waiters {
      HintsStay(w, e, w', t);
    }
  }

  lemma RefusedCarries(w: World, e: Event, w': World, t: nat, hint: Option<Hint>)
    requires Step(w, e, w') && (e.Arrive? || e.Retry?) && e.outcome == Queued(t)
    requires if e.Arrive? then e.hint == hint else Carries(w, e.ticket, hint)
    ensures Carries(w', t, hint)
  {
    TicketsGrow(w, e, w');
    RefusedHint(w, e, w', t);
  }

  lemma {:induction false} AskedIsHint(ws: seq<World>, es: seq<Event>, n: nat, k: nat, t: nat, hint: Option<Hint>)
    requires IsRun(ws, es, n) && k <= |es| && Asked(es, k, t, hint)
    ensures Carries(ws[k], t, hint)
  {
    var w, e, w' := ws[k - 1], es[k - 1], ws[k];
    assert Step(w, e, w');
    if Asked(es, k - 1, t, hint) {
      AskedIsHint(ws, es, n, k - 1, t, hint);
      CarriesStays(w, e, w', t, hint);
    } else {
      if e.Retry? {
        AskedIsHint(ws, es, n, k - 1, e.ticket, hint);
      }
      RefusedCarries(w, e, w', t, hint);
    }
  }

  /** Every live waiter belongs to some arrived request. */
  lemma {:induction false} WaiterWasAsked(ws: seq<World>, es: seq<Event>, n: nat, k: nat, t: nat)
    requires IsRun(ws, es, n) && k <= |es| && t in ws[k].sched.waiters
    ensures Asked(es, k, t, ws[k].sched.waiters[t].hint)
  {
    assert k > 0;
    var w, e, w' := ws[k - 1], es[k - 1], ws[k];
    assert Step(w, e, w');
    HintsStay(w, e, w', t);
    if (e.Arrive? || e.Retry?) && e.outcome == Queued(t) {
      RefusedHint(w, e, w', t);
      if e.Retry? {
        WaiterWasAsked(ws, es, n, k - 1, e.ticket);
      }
    } else {
      WaiterWasAsked(ws, es, n, k - 1, t);
      AskedIsHint(ws, es, n, k - 1, t, w.sched.waiters[t].hint);
    }
  }

  /** Every retry attempts admission with the hint its request arrived with, and so will the retry after a refusal. */
  lemma RetryKeepsItsHint(ws: seq<World>, es: seq<Event>, n: nat, k: nat, hint: Option<Hint>)
    requires IsRun(ws, es, n) && k < |es| && es[k].Retry? && Asked(es, k, es[k].ticket, hint)
    ensures Attempt(Resumed(ws[k].sched, es[k].ticket), hint, es[k].outcome, ws[k + 1].sched)
    ensures es[k].outcome.Queued? ==> Asked(es, k + 1, es[k].outcome.ticket, hint)
  {
    assert Step(ws[k], es[k], ws[k + 1]);
    AskedIsHint(ws, es, n, k, es[k].ticket, hint);
  }

  /** Every attempt of every run is made for exactly one hint, that of an arrival. */
  lemma AttemptHasItsRequest(ws: seq<World>, es: seq<Event>, n: nat, k: nat) returns (hint: Option<Hint>)
    requires IsRun(ws, es, n) && k < |es| && (es[k].Arrive? || es[k].Retry?)
    ensures MadeFor(es, k, hint) && hint == AttemptHint(ws[k], es[k])
    ensures forall other | MadeFor(es, k, other) :: other == hint
  {
    assert Step(ws[k], es[k], ws[k + 1]);
    hint := AttemptHint(ws[k], es[k]);
    if es[k].Retry? {
      WaiterWasAsked(ws, es, n, k, es[k].ticket);
      forall other | Asked(es, k, es[k].ticket, other) ensures other == hint {
        AskedIsHint(ws, es, n, k, es[k].ticket, other);
      }
    }
  }

  lemma {:induction false} ArrivalAsks(es: seq<Event>, j: nat, k: nat, t: nat, hint: Option<Hint>)
    requires j < k <= |es| && es[j] == Arrive(hint, Queued(t))
    ensures Asked(es, k, t, hint)
  {
    if j < k - 1 {
      ArrivalAsks(es, j, k - 1, t, hint);
    }
  }

  /** The first retry: a ticket left behind by an arrival retries with that arrival's hint. */
  lemma RetryOfArrival(ws: seq<World>, es: seq<Event>, n: nat, j: nat, k: nat, t: nat, hint: Option<Hint>)
    requires IsRun(ws, es, n) && j < k < |es|
    requires es[j] == Arrive(hint, Queued(t)) && es[k].Retry? && es[k].ticket == t
    ensures Attempt(Resumed(ws[k].sched, t), hint, es[k].outcome, ws[k + 1].sched)
  {
    ArrivalAsks(es, j, k, t, hint);
    RetryKeepsItsHint(ws, es, n, k, hint);
  }
}
