/** Concrete executions of the queue: what it can be brought to do. */
module QueueWitnesses {
  import opened Options
  import opened Tasks
  import opened Graph
  import opened Runs
  import opened TaskIDs
  import opened QueueSpec
  import opened QueueInv
  import opened QueueSteps
  import opened QueueTheorems

  /** `evs` can happen to a new queue and leads to `t`. */
  ghost predicate Leads(s: State, evs: seq<Event>, t: State) {
    Possible(evs) && Execute(s, evs) == t
  }

  lemma Nothing(s: State, evs: seq<Event>)
    ensures Leads(s, evs[..0], s)
  {
  }

  /** The next event of the list. */
  lemma Then(s: State, evs: seq<Event>, k: nat, t: State, u: State)
    requires k < |evs| && Leads(s, evs[..k], t) && Enabled(evs[k]) && Step(t, evs[k]) == u
    ensures Leads(s, evs[..k + 1], u)
  {
    hide Step, Enabled;
    assert evs[..k + 1][..k] == evs[..k];
  }

  lemma LeadsReachable(backend: bool, maxAttempts: int, retryDelay: int, evs: seq<Event>, t: State)
    requires Leads(Initial(backend, maxAttempts, retryDelay), evs, t)
    ensures Reachable(t)
  {
  }

  /*** A run with the one step `a` ***/

  function One(e: Entry, cfg: Config): State {
    State([RunEntry("r", ["a"], map["a" := e], Added, Open, {})], map["r" := 0], cfg, true)
  }

  lemma SetOne(e: Entry, f: Entry, cfg: Config)
    ensures SetEntry(One(e, cfg), 0, "a", f) == One(f, cfg)
  {
    assert map["a" := e]["a" := f] == map["a" := f];
  }

  lemma AddOne(cfg: Config, timeout: int, now: int)
    ensures var ev := Add("r", ["a"], [StepSpec("a", [], timeout, true)], now);
      && Enabled(ev)
      && Step(State([], map[], cfg, true), ev)
         == One(Promote(NewEntry([], timeout, cfg.maxAttempts), cfg.backend, now), cfg)
  {
    hide Promote;
    var steps := [StepSpec("a", [], timeout, true)];
    assert steps[..0] == [];
    var e := NewEntry([], timeout, cfg.maxAttempts);
    assert BuildTasks(steps, cfg.maxAttempts) == map["a" := e];
    assert PromoteReady(RunEntry("r", ["a"], map["a" := e], Added, Open, {}), cfg.backend, now).tasks
      == map["a" := Promote(e, cfg.backend, now)];
  }

  lemma FireOne(e: Entry, cfg: Config, j: nat)
    requires j < |e.jobs| && e.jobs[j].phase.Waiting? && !e.jobs[j].kind.DispatchCall?
    ensures Step(One(e, cfg), TimerFires(0, "a", j)) == One(SetPhase(e, j, Active), cfg)
  {
    SetOne(e, SetPhase(e, j, Active), cfg);
  }

  lemma CheckOne(e: Entry, cfg: Config, j: nat)
    requires j < |e.jobs| && e.jobs[j].phase.Waiting? && e.jobs[j].kind.DispatchCall? && !e.status.Canceled?
    ensures Step(One(e, cfg), DispatchCheck(0, "a", j)) == One(SetPhase(e, j, Active), cfg)
  {
    SetOne(e, SetPhase(e, j, Active), cfg);
  }

  lemma AcceptOne(e: Entry, cfg: Config, j: nat, now: int)
    requires j < |e.jobs| && e.jobs[j].phase.Active? && e.jobs[j].kind.DispatchCall?
    ensures Step(One(e, cfg), DispatchReturns(0, "a", j, Accepted, "", now)) == One(SetPhase(e, j, Flushing), cfg)
  {
    SetOne(e, SetPhase(e, j, Flushing), cfg);
  }

  lemma BusyOne(e: Entry, cfg: Config, j: nat, now: int)
    requires j < |e.jobs| && e.jobs[j].phase.Active? && e.jobs[j].kind.DispatchCall? && e.status.Running?
    ensures Step(One(e, cfg), DispatchReturns(0, "a", j, Busy, "", now)) == One(BusyRequeue(SetPhase(e, j, Flushing), false), cfg)
  {
    hide BusyRequeue;
    var c := SetPhase(e, j, Flushing);
    SetOne(e, c, cfg);
    SetOne(c, BusyRequeue(c, false), cfg);
  }

  lemma TimeoutOne(e: Entry, cfg: Config, j: nat, now: int)
    requires j < |e.jobs| && e.jobs[j].phase.Active? && e.jobs[j].kind.Timeout? && e.status.Running? && e.attempts < e.maxAttempts
    ensures Step(One(e, cfg), TimerBody(0, "a", j, now))
         == One(RetryLater(SetPhase(e, j, Flushing).(timer := None), cfg.retryDelay, cfg.backend, now), cfg)
  {
    hide RetryLater;
    var c := SetPhase(e, j, Flushing);
    var d := c.(timer := None);
    SetOne(e, c, cfg);
    SetOne(c, d, cfg);
    SetOne(d, RetryLater(d, cfg.retryDelay, cfg.backend, now), cfg);
  }

  lemma RequeueOne(e: Entry, cfg: Config, j: nat, now: int)
    requires j < |e.jobs| && e.jobs[j].phase.Active? && e.jobs[j].kind.Requeue? && e.status.Ready?
    ensures Step(One(e, cfg), TimerBody(0, "a", j, now))
         == One(Dispatch(SetPhase(e, j, Flushing).(timer := None), cfg.backend, now), cfg)
  {
    hide Dispatch;
    var c := SetPhase(e, j, Flushing);
    SetOne(e, c, cfg);
    SetOne(c, Dispatch(c.(timer := None), cfg.backend, now), cfg);
  }

  /*** An attempt number is given out twice ***/

  function Twice(status: Status, attempts: int, leaseAt: Option<int>, timer: Option<nat>, jobs: seq<Job>,
                 starts: nat, requeues: nat, retries: nat): Entry {
    Entry([], 1, status, attempts, 3, "", "", leaseAt, timer, jobs, starts, requeues, 0, retries, Fresh)
  }

  /** Two attempts are dispatched, the second gets in first, the first is told busy, and the requeue starts again. */
  function ReuseEvents(): seq<Event> {
    [Add("r", ["a"], [StepSpec("a", [], 1, true)], 0), DispatchCheck(0, "a", 1),
     TimerFires(0, "a", 0), TimerBody(0, "a", 0, 0), DispatchCheck(0, "a", 3),
     DispatchReturns(0, "a", 3, Accepted, "", 0), DispatchReturns(0, "a", 1, Busy, "", 0),
     TimerFires(0, "a", 4), TimerBody(0, "a", 4, 0)]
  }

  function ReuseEntry(): Entry {
    Twice(Running, 2, Some(0), Some(5),
          [Job(Timeout, 1, Flushing), Job(DispatchCall, 1, Flushing), Job(Timeout, 2, Stopped), Job(DispatchCall, 2, Flushing),
           Job(Requeue, 1, Flushing), Job(Timeout, 2, Waiting), Job(DispatchCall, 2, Waiting)], 3, 1, 1)
  }

  /** The entry after the first timeout: the old goroutine waits for the backend's lock, the new one is about to start. */
  function RetriedEntry(): Entry {
    Twice(Running, 2, Some(0), Some(2),
          [Job(Timeout, 1, Flushing), Job(DispatchCall, 1, Active), Job(Timeout, 2, Waiting), Job(DispatchCall, 2, Waiting)], 2, 0, 1)
  }

  /** After the old goroutine was told busy; `p` is where the requeue timer is. */
  function RequeuedEntry(p: Phase): Entry {
    Twice(Ready, 1, None, Some(4),
          [Job(Timeout, 1, Flushing), Job(DispatchCall, 1, Flushing), Job(Timeout, 2, Stopped), Job(DispatchCall, 2, Flushing),
           Job(Requeue, 1, p)], 2, 1, 1)
  }

  lemma FirstTimeout(e: Entry)
    requires e == Twice(Running, 1, Some(0), Some(0), [Job(Timeout, 1, Active), Job(DispatchCall, 1, Active)], 1, 0, 0)
    ensures RetryLater(SetPhase(e, 0, Flushing).(timer := None), 0, true, 0) == RetriedEntry()
  {
  }

  lemma OldBusy(e: Entry)
    requires e == RetriedEntry().(jobs := RetriedEntry().jobs[3 := Job(DispatchCall, 2, Flushing)])
    ensures BusyRequeue(SetPhase(e, 1, Flushing), false)
      == RequeuedEntry(Waiting)
  {
  }

  lemma Again(e: Entry)
    requires e == RequeuedEntry(Active)
    ensures Dispatch(SetPhase(e, 4, Flushing).(timer := None), true, 0) == ReuseEntry()
  {
  }

  lemma Retried()
    ensures Leads(Initial(true, 3, 0), ReuseEvents()[..4], One(RetriedEntry(), Config(true, 3, 0)))
  {
    hide Step, Execute, Possible, Promote, RetryLater, Leads, One;
    var s0, c, evs := Initial(true, 3, 0), Config(true, 3, 0), ReuseEvents();
    AddOne(c, 1, 0);
    FirstStart();
    var e1 := Promote(NewEntry([], 1, 3), true, 0);
    var e2 := SetPhase(e1, 1, Active);
    CheckOne(e1, c, 1);
    var e3 := SetPhase(e2, 0, Active);
    FireOne(e2, c, 0);
    TimeoutOne(e3, c, 0, 0);
    FirstTimeout(e3);
    Nothing(s0, evs);
    Then(s0, evs, 0, s0, One(e1, c));
    Then(s0, evs, 1, One(e1, c), One(e2, c));
    Then(s0, evs, 2, One(e2, c), One(e3, c));
    Then(s0, evs, 3, One(e3, c), One(RetriedEntry(), c));
  }

  /** Two dispatch goroutines of one entry carry the attempt number 2: one was accepted, the other is on its way. */
  lemma AttemptGivenTwice()
    ensures Leads(Initial(true, 3, 0), ReuseEvents(), One(ReuseEntry(), Config(true, 3, 0)))
    ensures Reachable(One(ReuseEntry(), Config(true, 3, 0)))
  {
    hide Step, Execute, Possible, BusyRequeue, Dispatch, Leads, Reachable, One;
    var s0, c, evs := Initial(true, 3, 0), Config(true, 3, 0), ReuseEvents();
    Retried();
    var e4 := RetriedEntry();
    var e5 := SetPhase(e4, 3, Active);
    CheckOne(e4, c, 3);
    var e6 := SetPhase(e5, 3, Flushing);
    AcceptOne(e5, c, 3, 0);
    BusyOne(e6, c, 1, 0);
    OldBusy(e6);
    var e7 := BusyRequeue(SetPhase(e6, 1, Flushing), false);
    var e8 := SetPhase(e7, 4, Active);
    FireOne(e7, c, 4);
    RequeueOne(e8, c, 4, 0);
    Again(e8);
    Then(s0, evs, 4, One(e4, c), One(e5, c));
    Then(s0, evs, 5, One(e5, c), One(e6, c));
    Then(s0, evs, 6, One(e6, c), One(e7, c));
    Then(s0, evs, 7, One(e7, c), One(e8, c));
    Then(s0, evs, 8, One(e8, c), One(ReuseEntry(), c));
    assert evs[..9] == evs;
    LeadsReachable(true, 3, 0, evs, One(ReuseEntry(), c));
  }

  lemma FirstStart()
    ensures Promote(NewEntry([], 1, 3), true, 0)
         == Twice(Running, 1, Some(0), Some(0), [Job(Timeout, 1, Waiting), Job(DispatchCall, 1, Waiting)], 1, 0, 0)
  {
  }

  /*** A step recorded running is put back by a goroutine of an earlier entry ***/

  /** The canceled entry of run `r`, and the one recovered under the same ID. */
  function Both(first: Entry, later: Entry): State {
    State([RunEntry("r", ["a"], map["a" := first], Added, CanceledRun, {}), RunEntry("r", ["a"], map["a" := later], Source.Recovered, Open, {})],
          map["r" := 1], Config(true, 1, 0), true)
  }

  function Plain(status: Status, leaseAt: Option<int>, jobs: seq<Job>): Entry {
    Entry([], 0, status, 1, 1, "", "", leaseAt, None, jobs, 1, 0, 0, 0, Fresh)
  }

  function Carried(status: Status, attempts: int, owner: string, leaseAt: Option<int>, timer: Option<nat>, jobs: seq<Job>,
                   starts: nat, requeues: nat): Entry {
    Entry([], 0, status, attempts, 1, owner, "", leaseAt, timer, jobs, starts, requeues, requeues, 0, RecordedRunning)
  }

  function PutBackEvents(): seq<Event> {
    [Add("r", ["a"], [StepSpec("a", [], 0, true)], 0), DispatchCheck(0, "a", 0), Cancel("r"),
     Event.Recover("r", ["a"], [StepSpec("a", [], 0, true)], [RecoveredStep("a", false, Some(0), 1)], 0),
     RenewLeases("w", ["r:a"], 0), DispatchReturns(0, "a", 0, Busy, "", 0), TimerFires(1, "a", 1), TimerBody(1, "a", 1, 0)]
  }

  function PutBackEntry(): Entry {
    Carried(Running, 1, "", Some(0), None, [Job(Grace, 1, Stopped), Job(Requeue, 0, Flushing), Job(DispatchCall, 1, Waiting)], 1, 1)
  }

  function OldCall(p: Phase): seq<Job> {
    [Job(DispatchCall, 1, p)]
  }

  lemma SetBoth(first: Entry, later: Entry, f: Entry)
    ensures SetEntry(Both(first, later), 0, "a", f) == Both(f, later) && SetEntry(Both(first, later), 1, "a", f) == Both(first, f)
  {
    assert map["a" := first]["a" := f] == map["a" := f];
    assert map["a" := later]["a" := f] == map["a" := f];
  }

  lemma CancelOne(e: Entry, cfg: Config)
    requires !Terminal(e.status)
    ensures Step(One(e, cfg), Cancel("r"))
         == State([RunEntry("r", ["a"], map["a" := CancelEntry(e)], Added, CanceledRun, {})], map[], cfg, true)
  {
    hide CancelEntry;
    assert CancelTasks(map["a" := e]) == map["a" := CancelEntry(e)];
    assert map["r" := 0] - {"r"} == map[];
  }

  lemma RecoverBoth(first: Entry, ev: Event)
    requires ev == PutBackEvents()[3]
    ensures var s := State([RunEntry("r", ["a"], map["a" := first], Added, CanceledRun, {})], map[], Config(true, 1, 0), true);
      Enabled(ev) && Step(s, ev) == Both(first, Carried(Recovering, 1, "", Some(0), Some(0), [Job(Grace, 1, Waiting)], 0, 0))
  {
    var steps, rec := ev.steps, ev.recovered;
    assert steps[..0] == [] && rec[..0] == [];
    assert ByName(rec) == map["a" := rec[0]];
    var e := Carried(Recovering, 1, "", Some(0), Some(0), [Job(Grace, 1, Waiting)], 0, 0);
    assert RecoverEntry(NewEntry([], 0, 1), rec[0], 0) == e;
    assert RecoverTasks(steps, ByName(rec), 1, 0) == map["a" := e];
    var r := RunEntry("r", ["a"], map["a" := e], Source.Recovered, Open, {});
    assert r.tasks["a"] == e && !AllTasksSettled(r);
    assert PromoteReady(r, true, 0).tasks == map["a" := e];
  }

  lemma RenewBoth(first: Entry, later: Entry)
    requires later == Carried(Recovering, 1, "", Some(0), Some(0), [Job(Grace, 1, Waiting)], 0, 0)
    ensures Step(Both(first, later), RenewLeases("w", ["r:a"], 0))
         == Both(first, Carried(Running, 1, "w", Some(0), None, [Job(Grace, 1, Stopped)], 0, 0))
  {
    hide RenewEntry;
    assert ["r:a"][..0] == [];
    assert MakeTaskID("r", "a") == "r:a";
    SplitMakeRoundTrip("r", "a");
    hide SplitTaskID;
    assert SplitTaskID("r:a") == Some(("r", "a"));
    SetBoth(first, later, RenewEntry(later, "w", 0));
    RenewCarried(later);
    var s := Both(first, later);
    assert RenewAll(s, "w", [], 0) == s;
    assert RenewAll(s, "w", ["r:a"], 0) == RenewOne(s, "w", "r:a", 0);
    assert s.runs["r"] == 1 && s.heap[1].tasks["a"] == later;
    assert RenewOne(s, "w", "r:a", 0) == SetEntry(s, 1, "a", RenewEntry(later, "w", 0));
  }

  lemma RenewCarried(later: Entry)
    requires later == Carried(Recovering, 1, "", Some(0), Some(0), [Job(Grace, 1, Waiting)], 0, 0)
    ensures RenewEntry(later, "w", 0) == Carried(Running, 1, "w", Some(0), None, [Job(Grace, 1, Stopped)], 0, 0)
  {
  }

  lemma BusyBoth(first: Entry, later: Entry)
    requires |first.jobs| > 0 && first.jobs[0].kind.DispatchCall? && first.jobs[0].phase.Active? && later.status.Running?
    ensures Step(Both(first, later), DispatchReturns(0, "a", 0, Busy, "", 0))
         == Both(SetPhase(first, 0, Flushing), BusyRequeue(later, true))
  {
    hide BusyRequeue;
    SetBoth(first, later, SetPhase(first, 0, Flushing));
    SetBoth(SetPhase(first, 0, Flushing), later, BusyRequeue(later, true));
  }

  lemma RequeueBoth(first: Entry, later: Entry)
    requires |later.jobs| > 1 && later.jobs[1].kind.Requeue? && later.jobs[1].phase.Waiting? && later.status.Ready?
    ensures Step(Both(first, later), TimerFires(1, "a", 1)) == Both(first, SetPhase(later, 1, Active))
    ensures Step(Both(first, SetPhase(later, 1, Active)), TimerBody(1, "a", 1, 0))
         == Both(first, Dispatch(SetPhase(later, 1, Flushing).(timer := None), true, 0))
  {
    hide Dispatch;
    var a, f := SetPhase(later, 1, Active), SetPhase(later, 1, Flushing);
    assert SetPhase(a, 1, Flushing) == f;
    SetBoth(first, later, a);
    SetBoth(first, a, f);
    SetBoth(first, f, Dispatch(f.(timer := None), true, 0));
  }

  lemma CarriedBooks()
    ensures BusyRequeue(Carried(Running, 1, "w", Some(0), None, [Job(Grace, 1, Stopped)], 0, 0), true)
         == Carried(Ready, 0, "", None, Some(1), [Job(Grace, 1, Stopped), Job(Requeue, 0, Waiting)], 0, 1)
    ensures Dispatch(Carried(Ready, 0, "", None, None, [Job(Grace, 1, Stopped), Job(Requeue, 0, Flushing)], 0, 1), true, 0)
         == PutBackEntry()
  {
  }

  lemma PlainStart()
    ensures Promote(NewEntry([], 0, 1), true, 0) == Plain(Running, Some(0), OldCall(Waiting))
    ensures CancelEntry(Plain(Running, Some(0), OldCall(Active))) == Plain(Canceled, Some(0), OldCall(Active))
  {
  }

  /** The step recorded running is started again, and nothing in the queue ever retried it. */
  lemma PutBackWithoutRetry()
    ensures Leads(Initial(true, 1, 0), PutBackEvents(), Both(Plain(Canceled, Some(0), OldCall(Flushing)), PutBackEntry()))
    ensures Reachable(Both(Plain(Canceled, Some(0), OldCall(Flushing)), PutBackEntry()))
  {
    hide Step, Execute, Possible, BusyRequeue, Dispatch, Leads, Reachable, One, Both, CancelEntry, Promote;
    var s0, c, evs := Initial(true, 1, 0), Config(true, 1, 0), PutBackEvents();
    AddOne(c, 0, 0);
    PlainStart();
    var e1, e2 := Plain(Running, Some(0), OldCall(Waiting)), Plain(Running, Some(0), OldCall(Active));
    assert SetPhase(e1, 0, Active) == e2;
    CheckOne(e1, c, 0);
    CancelOne(e2, c);
    Nothing(s0, evs);
    Then(s0, evs, 0, s0, One(e1, c));
    Then(s0, evs, 1, One(e1, c), One(e2, c));
    var e3 := Plain(Canceled, Some(0), OldCall(Active));
    var s3 := State([RunEntry("r", ["a"], map["a" := e3], Added, CanceledRun, {})], map[], c, true);
    Then(s0, evs, 2, One(e2, c), s3);
    RecoverBoth(e3, evs[3]);
    var n4 := Carried(Recovering, 1, "", Some(0), Some(0), [Job(Grace, 1, Waiting)], 0, 0);
    Then(s0, evs, 3, s3, Both(e3, n4));
    PutBackRest(e3, n4);
    assert evs[..8] == evs;
  }

  lemma PutBackRest(e3: Entry, n4: Entry)
    requires e3 == Plain(Canceled, Some(0), OldCall(Active))
    requires n4 == Carried(Recovering, 1, "", Some(0), Some(0), [Job(Grace, 1, Waiting)], 0, 0)
    requires Leads(Initial(true, 1, 0), PutBackEvents()[..4], Both(e3, n4))
    ensures Leads(Initial(true, 1, 0), PutBackEvents()[..8], Both(Plain(Canceled, Some(0), OldCall(Flushing)), PutBackEntry()))
    ensures Reachable(Both(Plain(Canceled, Some(0), OldCall(Flushing)), PutBackEntry()))
  {
    hide Step, Execute, Possible, BusyRequeue, Dispatch, Leads, Reachable, Both;
    var s0, evs := Initial(true, 1, 0), PutBackEvents();
    RenewBoth(e3, n4);
    var n5 := Carried(Running, 1, "w", Some(0), None, [Job(Grace, 1, Stopped)], 0, 0);
    Then(s0, evs, 4, Both(e3, n4), Both(e3, n5));
    BusyBoth(e3, n5);
    var e6, n6 := Plain(Canceled, Some(0), OldCall(Flushing)), BusyRequeue(n5, true);
    assert SetPhase(e3, 0, Flushing) == e6;
    Then(s0, evs, 5, Both(e3, n5), Both(e6, n6));
    CarriedBooks();
    RequeueBoth(e6, n6);
    var n7 := SetPhase(n6, 1, Active);
    Then(s0, evs, 6, Both(e6, n6), Both(e6, n7));
    assert SetPhase(n6, 1, Flushing).(timer := None)
      == Carried(Ready, 0, "", None, None, [Job(Grace, 1, Stopped), Job(Requeue, 0, Flushing)], 0, 1);
    Then(s0, evs, 7, Both(e6, n7), Both(e6, PutBackEntry()));
    assert evs[..8] == evs;
    LeadsReachable(true, 1, 0, evs, Both(e6, PutBackEntry()));
  }

  /*** A goroutine of a canceled run calls the backend ***/

  /** The run of two steps `a` and `b`, `a` with a deadline, before it is canceled. */
  function Pair(a: Entry, b: Entry): State {
    State([RunEntry("r", ["a", "b"], map["a" := a, "b" := b], Added, Open, {})], map["r" := 0], Config(true, 1, 0), true)
  }

  function PairEvents(): seq<Event> {
    [Add("r", ["a", "b"], [StepSpec("a", [], 1, true), StepSpec("b", [], 0, true)], 0),
     TimerFires(0, "a", 0), TimerBody(0, "a", 0, 0), Cancel("r"), DispatchCheck(0, "a", 1)]
  }

  function Timed(status: Status, leaseAt: Option<int>, timer: Option<nat>, jobs: seq<Job>): Entry {
    Entry([], 1, status, 1, 1, "", "", leaseAt, timer, jobs, 1, 0, 0, 0, Fresh)
  }

  lemma AddPair()
    ensures var s, ev := Initial(true, 1, 0), PairEvents()[0];
      && Enabled(ev)
      && Step(s, ev) == Pair(Promote(NewEntry([], 1, 1), true, 0), Promote(NewEntry([], 0, 1), true, 0))
  {
    hide Promote;
    var steps := PairEvents()[0].steps;
    var a, b := NewEntry([], 1, 1), NewEntry([], 0, 1);
    assert steps[..1] == [steps[0]] && steps[..1][..0] == [];
    assert BuildTasks(steps[..1], 1) == map["a" := a];
    assert BuildTasks(steps, 1) == map["a" := a, "b" := b];
    var r := RunEntry("r", ["a", "b"], map["a" := a, "b" := b], Added, Open, {});
    assert PromoteReady(r, true, 0).tasks == map["a" := Promote(a, true, 0), "b" := Promote(b, true, 0)];
  }

  lemma SetPair(a: Entry, b: Entry, f: Entry)
    ensures SetEntry(Pair(a, b), 0, "a", f) == Pair(f, b)
  {
    assert map["a" := a, "b" := b]["a" := f] == map["a" := f, "b" := b];
  }

  /** Nothing is skipped: the other step is neither pending nor ready. */
  lemma FailPair(a: Entry, b: Entry)
    requires a.attempts >= a.maxAttempts && !Skippable(Pair(a, b).heap[0].tasks, "b") && !Settled(b.status)
    requires !Terminal(a.status)
    ensures FailOrRetry(Pair(a, b), 0, "a", 0) == Pair(Finish(a, Failed), b)
  {
    hide Finish, SkipSet;
    var g := Finish(a, Failed);
    FinishIs(a, Failed);
    var tasks := map["a" := g, "b" := b];
    assert map["a" := a, "b" := b]["a" := g] == tasks;
    SkipSetUnique(tasks, "a", {});
    assert SkipAll(tasks, {}) == tasks;
    assert Pair(g, b).heap[0].tasks["b"] == b;
    assert !AllTasksSettled(Pair(g, b).heap[0]);
  }

  lemma FinishIs(e: Entry, to: Status)
    requires !Terminal(e.status)
    ensures Finish(e, to).status == to
  {
  }

  lemma CancelPair(a: Entry, b: Entry)
    requires Terminal(a.status) && !Terminal(b.status)
    ensures Step(Pair(a, b), Cancel("r"))
         == State([RunEntry("r", ["a", "b"], map["a" := a, "b" := CancelEntry(b)], Added, CanceledRun, {})], map[], Config(true, 1, 0), true)
  {
    hide CancelEntry;
    assert CancelTasks(map["a" := a, "b" := b]) == map["a" := a, "b" := CancelEntry(b)];
    assert map["r" := 0] - {"r"} == map[];
  }

  lemma PairBooks()
    ensures Promote(NewEntry([], 1, 1), true, 0)
         == Timed(Running, Some(0), Some(0), [Job(Timeout, 1, Waiting), Job(DispatchCall, 1, Waiting)])
    ensures Promote(NewEntry([], 0, 1), true, 0) == Plain(Running, Some(0), OldCall(Waiting))
    ensures Finish(Timed(Running, Some(0), None, [Job(Timeout, 1, Flushing), Job(DispatchCall, 1, Waiting)]), Failed)
         == Timed(Failed, None, None, [Job(Timeout, 1, Flushing), Job(DispatchCall, 1, Waiting)])
    ensures CancelEntry(Plain(Running, Some(0), OldCall(Waiting))) == Plain(Canceled, Some(0), OldCall(Waiting))
  {
  }

  /** The canceled run: `a` had failed, `b` is canceled. */
  function CanceledPair(p: Phase): State {
    State([RunEntry("r", ["a", "b"], map["a" := Timed(Failed, None, None, [Job(Timeout, 1, Flushing), Job(DispatchCall, 1, p)]),
                                         "b" := Plain(Canceled, Some(0), OldCall(Waiting))], Added, CanceledRun, {})],
          map[], Config(true, 1, 0), true)
  }

  lemma TimeoutPair(a: Entry, b: Entry)
    requires a == Timed(Running, Some(0), Some(0), [Job(Timeout, 1, Waiting), Job(DispatchCall, 1, Waiting)])
    requires b == Plain(Running, Some(0), OldCall(Waiting))
    ensures Step(Pair(a, b), TimerFires(0, "a", 0)) == Pair(SetPhase(a, 0, Active), b)
    ensures Step(Pair(SetPhase(a, 0, Active), b), TimerBody(0, "a", 0, 0))
         == Pair(Finish(SetPhase(a, 0, Flushing).(timer := None), Failed), b)
  {
    hide FailOrRetry, Finish;
    var x, f := SetPhase(a, 0, Active), SetPhase(a, 0, Flushing);
    assert SetPhase(x, 0, Flushing) == f;
    SetPair(a, b, x);
    SetPair(x, b, f);
    SetPair(f, b, f.(timer := None));
    FailPair(f.(timer := None), b);
  }

  lemma CheckPair()
    ensures Step(CanceledPair(Waiting), DispatchCheck(0, "a", 1)) == CanceledPair(Active)
  {
    var a := CanceledPair(Waiting).heap[0].tasks["a"];
    assert SetPhase(a, 1, Active) == CanceledPair(Active).heap[0].tasks["a"];
    assert CanceledPair(Waiting).heap[0].tasks["a" := SetPhase(a, 1, Active)] == CanceledPair(Active).heap[0].tasks;
  }

  /** The run is canceled, and the goroutine of its failed step goes on to the backend all the same. */
  lemma CanceledRunCallsBackend()
    ensures Leads(Initial(true, 1, 0), PairEvents()[..4], CanceledPair(Waiting)) && Reachable(CanceledPair(Waiting))
    ensures Leads(Initial(true, 1, 0), PairEvents(), CanceledPair(Active))
  {
    hide Step, Execute, Possible, Leads, Reachable, Pair, Promote, Finish, CancelEntry, CanceledPair;
    var s0, evs := Initial(true, 1, 0), PairEvents();
    AddPair();
    PairBooks();
    var a1 := Timed(Running, Some(0), Some(0), [Job(Timeout, 1, Waiting), Job(DispatchCall, 1, Waiting)]);
    var b := Plain(Running, Some(0), OldCall(Waiting));
    TimeoutPair(a1, b);
    var a3 := Timed(Failed, None, None, [Job(Timeout, 1, Flushing), Job(DispatchCall, 1, Waiting)]);
    assert SetPhase(a1, 0, Flushing).(timer := None)
      == Timed(Running, Some(0), None, [Job(Timeout, 1, Flushing), Job(DispatchCall, 1, Waiting)]);
    Nothing(s0, evs);
    Then(s0, evs, 0, s0, Pair(a1, b));
    Then(s0, evs, 1, Pair(a1, b), Pair(SetPhase(a1, 0, Active), b));
    Then(s0, evs, 2, Pair(SetPhase(a1, 0, Active), b), Pair(a3, b));
    CancelPair(a3, b);
    assert CanceledPair(Waiting) == Step(Pair(a3, b), Cancel("r")) by { CanceledIs(); }
    Then(s0, evs, 3, Pair(a3, b), CanceledPair(Waiting));
    CheckPair();
    Then(s0, evs, 4, CanceledPair(Waiting), CanceledPair(Active));
    assert evs[..5] == evs;
    LeadsReachable(true, 1, 0, evs[..4], CanceledPair(Waiting));
  }

  lemma CanceledIs()
    ensures CanceledPair(Waiting) ==
      State([RunEntry("r", ["a", "b"], map["a" := Timed(Failed, None, None, [Job(Timeout, 1, Flushing), Job(DispatchCall, 1, Waiting)]),
                                           "b" := CancelEntry(Plain(Running, Some(0), OldCall(Waiting)))], Added, CanceledRun, {})],
            map[], Config(true, 1, 0), true)
  {
  }

  /*** A lost deadline skips a step of another run ***/

  function Waiter(status: Status, attempts: int): Entry {
    NewEntry(["a"], 0, 1).(status := status, attempts := attempts)
  }

  function Steps(): seq<StepSpec> {
    [StepSpec("a", [], 0, true), StepSpec("b", ["a"], 0, true)]
  }

  function TwoRun(a: Entry, b: Entry, source: Source, closing: Closing, strays: set<string>): RunEntry {
    RunEntry("r", ["a", "b"], map["a" := a, "b" := b], source, closing, strays)
  }

  /** The reconcile pass has recovered the run whose row StartRun had just written. */
  function Rebuilt(a: Entry, c: Closing): RunEntry {
    TwoRun(a, Waiter(Pending, 0), Source.Recovered, c, {})
  }

  /** Then StartRun added it, and the entry of the pass lost its slot. */
  function Raced(a: Entry, started: RunEntry, runs: map<string, nat>): State {
    State([Rebuilt(a, Overwritten), started], runs, Config(true, 1, 0), true)
  }

  function Started(a: Entry, b: Entry, closing: Closing, strays: set<string>): RunEntry {
    TwoRun(a, b, Added, closing, strays)
  }

  /** In between the recovered step `a` was never heard of again: its grace period ends. */
  function RaceEvents(): seq<Event> {
    [Event.Recover("r", ["a", "b"], Steps(), [RecoveredStep("a", false, Some(0), 1)], 0),
     Add("r", ["a", "b"], Steps(), 0), TimerFires(0, "a", 0), TimerBody(0, "a", 0, 0),
     Complete(Result("r:a", "", true, 1), "", 0)]
  }

  function Graced(p: Phase): Entry {
    Carried(Recovering, 1, "", Some(0), Some(0), [Job(Grace, 1, p)], 0, 0)
  }

  function TimedOut(): Entry {
    Carried(Failed, 1, "", None, None, [Job(Grace, 1, Flushing)], 0, 0)
  }

  function Underway(p: Phase): Entry {
    Plain(Running, Some(0), OldCall(p))
  }

  lemma RaceRecover()
    ensures var s, ev := Initial(true, 1, 0), RaceEvents()[0];
      Enabled(ev) && Step(s, ev) == State([Rebuilt(Graced(Waiting), Open)], map["r" := 0], Config(true, 1, 0), true)
  {
    var steps, rec := Steps(), [RecoveredStep("a", false, Some(0), 1)];
    assert steps[..1] == [steps[0]] && steps[..1][..0] == [] && rec[..0] == [];
    assert ByName(rec) == map["a" := rec[0]];
    assert RecoverEntry(NewEntry([], 0, 1), rec[0], 0) == Graced(Waiting);
    assert RecoverTasks(steps[..1], ByName(rec), 1, 0) == map["a" := Graced(Waiting)];
    assert RecoverTasks(steps, ByName(rec), 1, 0) == map["a" := Graced(Waiting), "b" := Waiter(Pending, 0)];
    RacePromote(Graced(Waiting), Source.Recovered, false);
    hide PromoteReady;
    assert !AllTasksSettled(Rebuilt(Graced(Waiting), Open)) by { assert Rebuilt(Graced(Waiting), Open).tasks["a"].status.Recovering?; }
    OrderIsValid();
  }

  lemma OrderIsValid()
    ensures ValidOrder(["a", "b"], Steps())
  {
  }

  /** Step `b` waits for `a`; `a` is promoted if it is pending. */
  lemma RacePromote(a: Entry, source: Source, pristine: bool)
    requires a == if pristine then NewEntry([], 0, 1) else Graced(Waiting)
    ensures PromoteReady(TwoRun(a, Waiter(Pending, 0), source, Open, {}), true, 0)
         == TwoRun(if pristine then Underway(Waiting) else a, Waiter(Pending, 0), source, Open, {})
  {
    var r := TwoRun(a, Waiter(Pending, 0), source, Open, {});
    assert DoneNames(r.tasks) == {};
    assert "a" in r.tasks["b"].dependsOn;
    PlainStart();
    hide Promote;
    assert PromoteReady(r, true, 0).tasks == map["a" := if pristine then Underway(Waiting) else a, "b" := Waiter(Pending, 0)];
  }

  lemma RaceAdd()
    ensures var s := State([Rebuilt(Graced(Waiting), Open)], map["r" := 0], Config(true, 1, 0), true);
      var ev := RaceEvents()[1];
      && Enabled(ev)
      && Step(s, ev) == Raced(Graced(Waiting), Started(Underway(Waiting), Waiter(Pending, 0), Open, {}), map["r" := 1])
  {
    var s, steps := State([Rebuilt(Graced(Waiting), Open)], map["r" := 0], Config(true, 1, 0), true), Steps();
    assert steps[..1] == [steps[0]] && steps[..1][..0] == [];
    assert BuildTasks(steps[..1], 1) == map["a" := NewEntry([], 0, 1)];
    assert BuildTasks(steps, 1) == map["a" := NewEntry([], 0, 1), "b" := Waiter(Pending, 0)];
    RacePromote(NewEntry([], 0, 1), Added, true);
    hide PromoteReady;
    assert Displace(s, "r") == State([Rebuilt(Graced(Waiting), Overwritten)], map[], Config(true, 1, 0), true) by {
      assert map["r" := 0] - {"r"} == map[];
    }
    OrderIsValid();
  }

  lemma SetRaced(a: Entry, started: RunEntry, runs: map<string, nat>, f: Entry)
    ensures SetEntry(Raced(a, started, runs), 0, "a", f) == Raced(f, started, runs)
  {
    assert map["a" := a, "b" := Waiter(Pending, 0)]["a" := f] == map["a" := f, "b" := Waiter(Pending, 0)];
  }

  /** Of the run that was added, `b` alone is skipped. */
  lemma StrayInStarted(a: Entry)
    requires a.status.Running? && a.dependsOn == []
    ensures StraySkip(Started(a, Waiter(Pending, 0), Open, {}), "a") == Started(a, Waiter(Skipped, 0), Open, {"a"})
  {
    var tasks := map["a" := a, "b" := Waiter(Pending, 0)];
    SkipReachesStep(tasks, "a", "a", "b");
    SkipSetUnique(tasks, "a", {"b"});
    assert SkipAll(tasks, {"b"}) == map["a" := a, "b" := Waiter(Skipped, 0)];
  }

  lemma RaceBooks()
    ensures SetPhase(Graced(Waiting), 0, Active) == Graced(Active) && SetPhase(Graced(Active), 0, Flushing) == Graced(Flushing)
    ensures Finish(Graced(Flushing).(timer := None), Failed) == TimedOut()
  {
  }

  lemma RaceFires(started: RunEntry, runs: map<string, nat>)
    ensures Step(Raced(Graced(Waiting), started, runs), TimerFires(0, "a", 0)) == Raced(Graced(Active), started, runs)
  {
    RaceBooks();
    SetRaced(Graced(Waiting), started, runs, Graced(Active));
  }

  lemma RaceExpires(started: RunEntry)
    requires started == Started(Underway(Waiting), Waiter(Pending, 0), Open, {})
    ensures Step(Raced(Graced(Active), started, map["r" := 1]), TimerBody(0, "a", 0, 0))
         == Raced(TimedOut(), Started(Underway(Waiting), Waiter(Skipped, 0), Open, {"a"}), map["r" := 1])
  {
    RaceBooks();
    hide FailLost;
    var runs := map["r" := 1 as nat];
    var f := Graced(Flushing);
    SetRaced(Graced(Active), started, runs, f);
    SetRaced(f, started, runs, f.(timer := None));
    RaceFails(started);
  }

  lemma RaceFails(started: RunEntry)
    requires started == Started(Underway(Waiting), Waiter(Pending, 0), Open, {})
    ensures FailLost(Raced(Graced(Flushing).(timer := None), started, map["r" := 1]), 1, 0, "a", 0)
         == Raced(TimedOut(), Started(Underway(Waiting), Waiter(Skipped, 0), Open, {"a"}), map["r" := 1])
  {
    RaceBooks();
    hide Finish, StraySkip;
    SetRaced(Graced(Flushing).(timer := None), started, map["r" := 1], TimedOut());
    StrayInStarted(Underway(Waiting));
    var later := Started(Underway(Waiting), Waiter(Skipped, 0), Open, {"a"});
    assert !AllTasksSettled(later) by { assert later.tasks["a"].status.Running?; }
  }

  /** The end of the race: `a` is done, `b` was skipped though nothing it depends on failed, and the run is a success. */
  function RaceEnd(): State {
    Raced(TimedOut(), Started(Plain(Done, None, OldCall(Waiting)), Waiter(Skipped, 0), Completed(true), {"a"}), map[])
  }

  lemma SetStarted(old0: Entry, e: Entry, b: Entry, runs: map<string, nat>, f: Entry)
    ensures SetEntry(Raced(old0, Started(e, b, Open, {"a"}), runs), 1, "a", f) == Raced(old0, Started(f, b, Open, {"a"}), runs)
  {
    assert map["a" := e, "b" := b]["a" := f] == map["a" := f, "b" := b];
  }

  lemma RaceJudged(s: State, res: Result)
    requires s == Raced(TimedOut(), Started(Underway(Waiting), Waiter(Skipped, 0), Open, {"a"}), map["r" := 1])
    requires res == Result("r:a", "", true, 1)
    ensures SplitTaskID(res.taskID) == Some(("r", "a")) && JudgeResult(s, res, "") == Applied
    ensures Adopt(s.heap[1].tasks["a"], res) == s.heap[1].tasks["a"] == Underway(Waiting)
  {
    assert MakeTaskID("r", "a") == "r:a";
    SplitMakeRoundTrip("r", "a");
    hide SplitTaskID;
  }

  lemma RaceCloses(finished: RunEntry)
    requires finished == Started(Plain(Done, None, OldCall(Waiting)), Waiter(Skipped, 0), Open, {"a"})
    ensures PromoteReady(finished, true, 0) == finished
    ensures CloseIfSettled(Raced(TimedOut(), finished, map["r" := 1]), 1) == RaceEnd()
  {
    assert PromoteReady(finished, true, 0).tasks == finished.tasks;
    assert AllTasksSettled(finished) && !AnyFailed(finished);
    assert map["r" := 1] - {"r"} == map[];
  }

  lemma RaceCompletes()
    ensures Step(Raced(TimedOut(), Started(Underway(Waiting), Waiter(Skipped, 0), Open, {"a"}), map["r" := 1]), RaceEvents()[4]) == RaceEnd()
  {
    var b, runs, e, f := Waiter(Skipped, 0), map["r" := 1 as nat], Underway(Waiting), Plain(Done, None, OldCall(Waiting));
    var s, res := Raced(TimedOut(), Started(e, b, Open, {"a"}), runs), Result("r:a", "", true, 1);
    RaceJudged(s, res);
    assert Finish(e, Done) == f;
    SetStarted(TimedOut(), e, b, runs, e);
    SetStarted(TimedOut(), e, b, runs, f);
    RaceCloses(Started(f, b, Open, {"a"}));
    assert s.runs["r"] == 1 && s.cfg.backend && s.heap[1] == Started(e, b, Open, {"a"});
    hide SplitTaskID, JudgeResult, Finish, PromoteReady, CloseIfSettled, Adopt, RaceEnd, Raced;
    RaceDone(s, e, f, b);
  }

  lemma RaceDone(s: State, e: Entry, f: Entry, b: Entry)
    requires s == Raced(TimedOut(), Started(e, b, Open, {"a"}), map["r" := 1]) && Finish(e, Done) == f
    requires PromoteReady(Started(f, b, Open, {"a"}), true, 0) == Started(f, b, Open, {"a"})
    ensures CompleteDone(s, 1, "a", 0) == CloseIfSettled(Raced(TimedOut(), Started(f, b, Open, {"a"}), map["r" := 1]), 1)
  {
    hide Finish, PromoteReady, CloseIfSettled;
    assert map["a" := e, "b" := b]["a" := f] == map["a" := f, "b" := b];
    var r := SetTask(s.heap[1], "a", f);
    assert r == Started(f, b, Open, {"a"});
    assert SetRun(s, 1, r) == Raced(TimedOut(), Started(f, b, Open, {"a"}), map["r" := 1]);
  }

  /**
   StartRun writes its run row; a reconcile pass recovers and tracks the run; Add overwrites it; the
   grace period of the lost entry ends for good and skips `b` in the added run, where nothing has failed.
   */
  lemma RaceSkipsInVain()
    ensures Leads(Initial(true, 1, 0), RaceEvents(), RaceEnd()) && Reachable(RaceEnd())
    ensures var r := RaceEnd().heap[1];
      && r.source.Added? && r.closing == Completed(true) && r.tasks["b"].status.Skipped?
      && !exists a :: a in r.tasks && r.tasks[a].status.Failed?
  {
    hide Step, Execute, Possible, Leads, Reachable, Raced, Rebuilt;
    var s0, evs := Initial(true, 1, 0), RaceEvents();
    var started := Started(Underway(Waiting), Waiter(Pending, 0), Open, {});
    var s1 := State([Rebuilt(Graced(Waiting), Open)], map["r" := 0], Config(true, 1, 0), true);
    RaceRecover();
    RaceAdd();
    RaceFires(started, map["r" := 1]);
    RaceExpires(started);
    RaceCompletes();
    Nothing(s0, evs);
    Then(s0, evs, 0, s0, s1);
    Then(s0, evs, 1, s1, Raced(Graced(Waiting), started, map["r" := 1]));
    Then(s0, evs, 2, Raced(Graced(Waiting), started, map["r" := 1]), Raced(Graced(Active), started, map["r" := 1]));
    var s4 := Raced(TimedOut(), Started(Underway(Waiting), Waiter(Skipped, 0), Open, {"a"}), map["r" := 1]);
    Then(s0, evs, 3, Raced(Graced(Active), started, map["r" := 1]), s4);
    Then(s0, evs, 4, s4, RaceEnd());
    assert evs[..5] == evs;
    LeadsReachable(true, 1, 0, evs, RaceEnd());
    RaceEndIs();
  }

  lemma RaceEndIs()
    ensures |RaceEnd().heap| == 2
    ensures RaceEnd().heap[1] == Started(Plain(Done, None, OldCall(Waiting)), Waiter(Skipped, 0), Completed(true), {"a"})
  {
  }

  /*** A run that never ends ***/

  /** `a` does not encode, and `b` depends on it. */
  function StuckAdd(): Event {
    Add("r", ["a", "b"], [StepSpec("a", [], 0, false), StepSpec("b", ["a"], 0, true)], 0)
  }

  function StuckRun(): State {
    State([RunEntry("r", ["a", "b"], map["b" := Waiter(Pending, 0)], Added, Open, {})], map["r" := 0], Config(true, 1, 0), true)
  }

  lemma StuckRunReached()
    ensures Leads(Initial(true, 1, 0), [StuckAdd()], StuckRun()) && Reachable(StuckRun())
    ensures Stuck(StuckRun().heap[0], "b")
  {
    hide Reachable;
    var s0, ev, b := Initial(true, 1, 0), StuckAdd(), Waiter(Pending, 0);
    var steps := ev.steps;
    assert steps[..1] == [steps[0]] && steps[..1][..0] == [];
    assert BuildTasks(steps[..1], 1) == map[];
    assert BuildTasks(steps, 1) == map["b" := b];
    var r := NewRun("r", ["a", "b"], map["b" := b], Added);
    assert "a" in b.dependsOn && "a" !in DoneNames(r.tasks);
    assert PromoteReady(r, true, 0).tasks == map["b" := b];
    assert ValidOrder(ev.order, steps);
    assert Step(s0, ev) == StuckRun() by { hide PromoteReady; }
    hide Step, PromoteReady, BuildTasks;
    Nothing(s0, [ev]);
    Then(s0, [ev], 0, s0, StuckRun());
    assert [ev][..1] == [ev];
    LeadsReachable(true, 1, 0, [ev], StuckRun());
  }

  /**
   Whatever happens next, its step never starts, and as long as nobody cancels the run, lets its ID be
   taken, or charges it with a failure of another run, the step is pending and the run is not over.
   */
  lemma RunStaysStuck(evs: seq<Event>)
    requires Possible(evs)
    ensures HasTask(Execute(StuckRun(), evs), 0, "b") && Execute(StuckRun(), evs).heap[0].tasks["b"].starts == 0
    ensures var r := Execute(StuckRun(), evs).heap[0];
      r.strays == {} ==> !r.closing.Completed? && (r.closing.Open? ==> r.tasks["b"].status.Pending?)
  {
    hide Reachable, Possible, Execute;
    StuckRunReached();
    StuckForever(StuckRun(), evs, 0, "b");
  }

  /*** A negative attempt ***/

  /** `b` depends on `a`; without a backend `a` is made ready and `b` waits. */
  function Chain(a: Entry, b: Entry): State {
    State([RunEntry("r", ["a", "b"], map["a" := a, "b" := b], Added, Open, {})], map["r" := 0], Config(false, 1, 0), true)
  }

  function ChainAdd(): Event {
    Add("r", ["a", "b"], [StepSpec("a", [], 0, true), StepSpec("b", ["a"], 0, true)], 0)
  }

  function Head(): Entry {
    NewEntry([], 0, 1).(status := Ready)
  }

  lemma ChainReached()
    ensures Reachable(Chain(Head(), Waiter(Pending, 0)))
  {
    hide Reachable;
    var s0, ev := Initial(false, 1, 0), ChainAdd();
    var steps := ev.steps;
    var a, b := NewEntry([], 0, 1), Waiter(Pending, 0);
    assert steps[..1] == [steps[0]] && steps[..1][..0] == [];
    assert BuildTasks(steps[..1], 1) == map["a" := a];
    assert BuildTasks(steps, 1) == map["a" := a, "b" := b];
    var r := RunEntry("r", ["a", "b"], map["a" := a, "b" := b], Added, Open, {});
    PromoteChain(r);
    assert ValidOrder(ev.order, steps);
    assert Step(s0, ev) == Chain(Head(), b) by { hide PromoteReady; }
    hide Step, PromoteReady, BuildTasks;
    Nothing(s0, [ev]);
    Then(s0, [ev], 0, s0, Chain(Head(), b));
    assert [ev][..1] == [ev];
    LeadsReachable(false, 1, 0, [ev], Chain(Head(), b));
  }

  lemma PromoteChain(r: RunEntry)
    requires r.tasks == map["a" := NewEntry([], 0, 1), "b" := Waiter(Pending, 0)]
    ensures PromoteReady(r, false, 0) == r.(tasks := map["a" := Head(), "b" := Waiter(Pending, 0)])
  {
    assert DoneNames(r.tasks) == {};
    assert "a" in r.tasks["b"].dependsOn;
  }

  /**
   In a reachable state a report with attempt -1 is applied to a step that was never started: the
   step becomes done while its ancestor is not, which no sequence of other events brings about.
   */
  lemma NegativeAttemptBreaksAncestors(res: Result)
    requires res == Result(MakeTaskID("r", "b"), "", true, -1)
    ensures Reachable(Chain(Head(), Waiter(Pending, 0)))
    ensures JudgeResult(Chain(Head(), Waiter(Pending, 0)), res, "") == Applied
    ensures var t := CompleteResult(Chain(Head(), Waiter(Pending, 0)), res, "", 0);
      && t == Chain(Head(), Waiter(Done, -1)) && Ancestor(ViewOf(t.heap[0]), "a", "b") && !Core(ViewOf(t.heap[0]))
  {
    hide SplitTaskID, Reachable;
    ChainReached();
    SplitMakeRoundTrip("r", "b");
    var a, b, f := Head(), Waiter(Pending, 0), Waiter(Done, -1);
    assert SplitTaskID(res.taskID) == Some(("r", "b"));
    assert Finish(Adopt(b, res), Done) == f;
    var tasks := map["a" := a, "b" := f];
    assert map["a" := a, "b" := b]["b" := Adopt(b, res)]["b" := f] == tasks;
    assert SetTask(SetTask(Chain(a, b).heap[0], "b", Adopt(b, res)), "b", f) == Chain(a, f).heap[0];
    assert PromoteReady(Chain(a, f).heap[0], false, 0).tasks == tasks;
    assert !AllTasksSettled(Chain(a, f).heap[0]) by { assert Chain(a, f).heap[0].tasks["a"].status.Ready?; }
    assert CompleteResult(Chain(a, b), res, "", 0) == Chain(a, f);
    ChainBroken();
  }

  lemma ChainBroken()
    ensures var v := ViewOf(Chain(Head(), Waiter(Done, -1)).heap[0]);
      Ancestor(v, "a", "b") && v.Is("b", Done) && !v.Is("a", Done) && !Core(v)
  {
    var v := ViewOf(Chain(Head(), Waiter(Done, -1)).heap[0]);
    assert "a" in v.deps["b"] && v.DependsOn("b", "a");
    var p := ["b", "a"];
    assert Ascends(v, p) && p[0] == "b" && p[1] == "a";
  }
}
