/**
 * The two places `main` drives the scheduler from llama-server's slot reports:
 * seeding at startup and the periodic reconciliation poll.
 */
module Startup {
  import opened Slots
  import opened Protocol
  import opened SchedulerClass

  datatype SlotReport = SlotReport(id: nat, processing: bool)

  /** Startup produces exactly the protocol's initial state. */
  method Start(reports: seq<SlotReport>) returns (s: Scheduler)
    ensures fresh(s) && fresh(s.slots)
    ensures var seeded := set i: nat | i < |reports| && SlotReport(i, true) in reports;
      Init(World(s.State(), [], map[], {}, seeded, map[]), |reports|)
  {
    s := new Scheduler(|reports|);
    for k := 0 to |reports|
      invariant s.slots.Length == |reports|
      invariant s.State() == Sched(s.slots[..], 0, map[], [], map[], 0)
      invariant forall i | 0 <= i < s.slots.Length ::
        var b := SlotReport(i, true) in reports[..k];
        s.slots[i] == FRESH_SLOT.(busy := b, seededUnowned := b)
    {
      assert reports[..k + 1] == reports[..k] + [reports[k]];
      if reports[k].processing {
        s.SeedBusy(reports[k].id);
      }
    }
    assert reports[..|reports|] == reports;
  }

  /** The scheduler after one poll's idle reports, in order. */
  function Polled(s: Sched, reports: seq<SlotReport>): Sched {
    if reports == [] then s
    else
      var init, last := reports[..|reports| - 1], reports[|reports| - 1];
      if last.processing then Polled(s, init) else Reconciled(Polled(s, init), last.id)
  }

  method Poll(s: Scheduler, reports: seq<SlotReport>)
    modifies s, s.slots
    ensures s.State() == Polled(old(s.State()), reports)
  {
    for k := 0 to |reports|
      invariant s.State() == Polled(old(s.State()), reports[..k])
    {
      assert reports[..k + 1][..k] == reports[..k];
      if !reports[k].processing {
        s.ReconcileSeededIdle(reports[k].id);
      }
    }
    assert reports[..|reports|] == reports;
  }

  /**
   * A poll frees exactly the busy slots that are reported idle and were never
   * claimed by the broker, whatever ids and duplicates it contains.
   */
  lemma {:induction false} PollFreesExactlyTheUnowned(s: Sched, reports: seq<SlotReport>)
    ensures |Polled(s, reports).slots| == |s.slots|
    ensures forall i: nat | i < |s.slots| ::
      Polled(s, reports).slots[i] == if s.slots[i].seededUnowned && SlotReport(i, false) in reports
                                     then s.slots[i].(busy := false) else s.slots[i]
  {
    if reports != [] {
      var init, last := reports[..|reports| - 1], reports[|reports| - 1];
      PollFreesExactlyTheUnowned(s, init);
      assert reports == init + [last];
    }
  }

  /** A poll is a sequence of `Reconcile` events of the protocol. */
  lemma {:induction false} PollIsPath(w: World, reports: seq<SlotReport>)
    returns (ws: seq<World>, es: seq<Event>)
    ensures IsPath(ws, es) && ws[0] == w && ws[|es|].sched == Polled(w.sched, reports)
    ensures forall e | e in es :: e.Reconcile?
    ensures forall i: nat :: Reconcile(i) in es <==> SlotReport(i, false) in reports
  {
    if reports == [] {
      ws, es := [w], [];
    } else {
      var init, last := reports[..|reports| - 1], reports[|reports| - 1];
      assert reports == init + [last];
      ws, es := PollIsPath(w, init);
      if !last.processing {
        var v, k := ws[|es|], |es|;
        var i, e := last.id, Reconcile(last.id);
        var v' := if i < |v.sched.slots| && v.sched.slots[i].seededUnowned then
                    v.(sched := Reconciled(v.sched, i), seeded := v.seeded - {i},
                       owed := if v.sched.slots[i].busy then Owing(v, i) else v.owed)
                  else v;
        assert Step(v, e, v');
        ws, es := ws + [v'], es + [e];
        forall j | 0 <= j < |es| ensures Step(ws[j], es[j], ws[j + 1]) {
        }
      }
    }
  }
}
