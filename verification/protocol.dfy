/**
 * The admission protocol as a transition system. One step is one critical
 * section of the scheduler's mutex, or one event of the environment (a waiter
 * giving up, an idle report), so a run is any interleaving of them.
 *
 * A ticket stands for one oneshot channel. Its sender sits in a queue; it has
 * an entry in `waiters` exactly while its receiver is alive. A woken waiter
 * owns nothing: it retries under a fresh lock.
 */
module Protocol {
  import opened Options
  import opened Slots

  datatype Waiter = Waiter(hint: Option<Hint>, woken: bool)

  /** The scheduler's shared state plus the live receivers. */
  datatype Sched = Sched(
    slots: seq<Slot>,
    clock: nat,
    slotWaiters: map<nat, seq<nat>>,
    globalWaiters: seq<nat>,
    waiters: map<nat, Waiter>,
    nextTicket: nat)
  {
    function Queue(i: nat): seq<nat> {
      if i in slotWaiters then slotWaiters[i] else []
    }

    /** All queues under one name: `Some(i)` for slot `i`'s, `None` for the global one. */
    function Line(home: Option<nat>): seq<nat> {
      match home
      case Some(i) => Queue(i)
      case None => globalWaiters
    }

    predicate Enqueued(t: nat, home: Option<nat>) {
      t in Line(home)
    }

    /** The queue a waiter belongs to. */
    function Home(t: nat): Option<nat>
      requires t in waiters
    {
      UsablePreference(waiters[t].hint, |slots|)
    }

    predicate ParkedFor(t: nat, i: nat) {
      t in waiters && !waiters[t].woken && Home(t) == Some(i)
    }

    predicate ParkedGlobally(t: nat) {
      t in waiters && !waiters[t].woken && Home(t) == None
    }

    predicate Woken(t: nat) {
      t in waiters && waiters[t].woken
    }
  }

  // ---------------------------------------------------------------- sections

  datatype Outcome = Admitted(admission: Admission) | Queued(ticket: nat)

  /** The refused request leaves a fresh ticket in the queue of its usable preference. */
  function Park(s: Sched, hint: Option<Hint>): Sched {
    var t := s.nextTicket;
    var s' := s.(waiters := s.waiters[t := Waiter(hint, false)], nextTicket := t + 1);
    match UsablePreference(hint, |s.slots|)
    case Some(p) => s'.(slotWaiters := s.slotWaiters[p := s.Queue(p) + [t]])
    case None => s'.(globalWaiters := s.globalWaiters + [t])
  }

  /** One pass of the `admit` loop under the lock. */
  ghost predicate Attempt(s: Sched, hint: Option<Hint>, o: Outcome, s': Sched) {
    match o
    case Admitted(a) =>
      && Chosen(s.slots, hint, a.slotId)
      && (a.cacheReady <==> ResidentMatch(s.slots, hint, a.slotId))
      && s' == s.(slots := Claim(s.slots, a.slotId, s.clock + 1), clock := s.clock + 1)
    case Queued(t) =>
      && Blocked(s.slots, hint)
      && t == s.nextTicket
      && s' == Park(s, hint)
  }

  /** A bare wake reaches the live receivers among `tickets`; a dead one ignores it. */
  function Signal(waiters: map<nat, Waiter>, tickets: seq<nat>): map<nat, Waiter> {
    map t | t in waiters :: if t in tickets then waiters[t].(woken := true) else waiters[t]
  }

  predicate LiveIn(waiters: map<nat, Waiter>, tickets: seq<nat>) {
    exists t :: t in tickets && t in waiters
  }

  /** Slot `i` became free: its own queue is drained, the global one only if nobody there was alive. */
  function Wake(s: Sched, i: nat): Sched {
    var s' := s.(
      waiters := Signal(s.waiters, s.Queue(i)),
      slotWaiters := if i in s.slotWaiters then s.slotWaiters[i := []] else s.slotWaiters);
    if Deferring(s, i) then s'
    else s'.(waiters := Signal(s'.waiters, s.globalWaiters), globalWaiters := [])
  }

  /** Some live waiter is queued for slot `i`, so a wake of `i` withholds the global queue. */
  predicate Deferring(s: Sched, i: nat) {
    LiveIn(s.waiters, s.Queue(i))
  }

  /** A wake of slot `i` reaches the senders queued under `home`. */
  predicate Drains(s: Sched, i: nat, home: Option<nat>) {
    home == Some(i) || (home == None && !Deferring(s, i))
  }

  function Freed(s: Sched, i: nat): Sched {
    if i < |s.slots| then Wake(s.(slots := s.slots[i := s.slots[i].(busy := false)]), i) else s
  }

  /** An idle report for slot `i`: acts only on a seeded slot the broker never claimed. */
  function Reconciled(s: Sched, i: nat): Sched {
    if i < |s.slots| && s.slots[i].seededUnowned then Freed(s, i) else s
  }

  /** Startup: slot `i` was reported mid-generation; an unknown id is ignored. */
  function SeededBusy(s: Sched, i: nat): Sched {
    if i < |s.slots|
    then s.(slots := s.slots[i := s.slots[i].(busy := true, seededUnowned := true)])
    else s
  }

  function Marked(s: Sched, i: nat, model: Option<string>, prefix: string): Sched {
    if i < |s.slots|
    then s.(slots := s.slots[i := s.slots[i].(residentPrefix := Some(prefix), residentModel := model)])
    else s
  }

  function Cleared(s: Sched, i: nat): Sched {
    if i < |s.slots|
    then s.(slots := s.slots[i := s.slots[i].(residentPrefix := None, residentModel := None)])
    else s
  }

  // ------------------------------------------------------------------- world

  /**
   * The scheduler with its history. Guards are named by the clock stamp of
   * their admission.
   *
   * log      the slots admitted, oldest first
   * guards   live release guards, stamp to slot
   * released stamps whose guard was dropped
   * seeded   slots seeded busy at startup and not reported idle since
   * owed     specific waiters woken by their slot's latest busy-to-free
   *          transition that have not retried since, ticket to slot; a
   *          cancelled one stays
   */
  datatype World = World(
    sched: Sched,
    log: seq<nat>,
    guards: map<nat, nat>,
    released: set<nat>,
    seeded: set<nat>,
    owed: map<nat, nat>)

  datatype Event =
    | Arrive(hint: Option<Hint>, outcome: Outcome)
    | Retry(ticket: nat, outcome: Outcome)
    | Cancel(ticket: nat)
    | Release(stamp: nat)
    | Reconcile(slot: nat)
    | MarkResident(slot: nat, model: Option<string>, prefix: string)
    | ClearResident(slot: nat)

  /** After startup: `seeded` slots are busy and unowned, everything else is fresh. */
  ghost predicate Init(w: World, n: nat) {
    && |w.sched.slots| == n
    && (forall i | 0 <= i < n ::
          w.sched.slots[i] == FRESH_SLOT.(busy := i in w.seeded, seededUnowned := i in w.seeded))
    && (forall i | i in w.seeded :: i < n)
    && w.sched == Sched(w.sched.slots, 0, map[], [], map[], 0)
    && w == World(w.sched, [], map[], {}, w.seeded, map[])
  }

  /** Bookkeeping of one pass of the `admit` loop. */
  function Recorded(w: World, o: Outcome, s': Sched): World {
    match o
    case Admitted(a) =>
      w.(sched := s', log := w.log + [a.slotId], guards := w.guards[s'.clock := a.slotId])
    case Queued(_) => w.(sched := s')
  }

  /** Bookkeeping of a busy-to-free transition of slot `i`. */
  function Owing(w: World, i: nat): map<nat, nat> {
    (map t | t in w.owed && w.owed[t] != i :: w.owed[t])
    + (map t | t in w.sched.waiters && t in w.sched.Queue(i) :: i)
  }

  /** A woken waiter takes its receiver out of the world before it retries. */
  function Resumed(s: Sched, t: nat): Sched {
    s.(waiters := s.waiters - {t})
  }

  ghost predicate Step(w: World, e: Event, w': World) {
    var s := w.sched;
    match e
    case Arrive(hint, o) =>
      Attempt(s, hint, o, w'.sched) && w' == Recorded(w, o, w'.sched)
    case Retry(t, o) =>
      && s.Woken(t)
      && Attempt(Resumed(s, t), s.waiters[t].hint, o, w'.sched)
      && w' == Recorded(w, o, w'.sched).(owed := w.owed - {t})
    case Cancel(t) =>
      t in s.waiters && w' == w.(sched := Resumed(s, t))
    case Release(stamp) =>
      && stamp in w.guards
      && w' == w.(
           sched := Freed(s, w.guards[stamp]),
           guards := w.guards - {stamp},
           released := w.released + {stamp},
           owed := Owing(w, w.guards[stamp]))
    case Reconcile(i) =>
      if i < |s.slots| && s.slots[i].seededUnowned then
        w' == w.(
          sched := Reconciled(s, i),
          seeded := w.seeded - {i},
          owed := if s.slots[i].busy then Owing(w, i) else w.owed)
      else
        w' == w
    case MarkResident(i, model, prefix) => w' == w.(sched := Marked(s, i, model, prefix))
    case ClearResident(i) => w' == w.(sched := Cleared(s, i))
  }

  /** The hint whose admission attempt an event carries out. */
  function AttemptHint(w: World, e: Event): Option<Hint> {
    match e
    case Arrive(hint, _) => hint
    case Retry(t, _) => if t in w.sched.waiters then w.sched.waiters[t].hint else None
    case _ => None
  }

  predicate Admits(e: Event) {
    (e.Arrive? || e.Retry?) && e.outcome.Admitted?
  }

  // -------------------------------------------------------------------- runs

  ghost predicate IsPath(ws: seq<World>, es: seq<Event>) {
    && |ws| == |es| + 1
    && forall k | 0 <= k < |es| :: Step(ws[k], es[k], ws[k + 1])
  }

  ghost predicate IsRun(ws: seq<World>, es: seq<Event>, n: nat) {
    IsPath(ws, es) && Init(ws[0], n)
  }

  ghost predicate Reachable(w: World, n: nat) {
    exists ws, es :: IsRun(ws, es, n) && ws[|es|] == w
  }
}
