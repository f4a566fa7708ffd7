/** How a step that was recorded running comes to be started again. */
module QueueRestarts {
  import opened Options
  import opened Tasks
  import opened Runs
  import opened TaskIDs
  import opened QueueSpec
  import opened QueueInv
  import opened QueueSteps
  import opened QueueHistory

  predicate CallAlive(s: State, k: nat, n: string, j: nat) {
    HasJob(s, k, n, j) && IsDispatch(s, k, n, j) && (JobIn(s, k, n, j, Waiting) || JobIn(s, k, n, j, Active))
  }

  /** A busy answer to a dispatch goroutine of some entry of this step's run ID, while the run is tracked and the step running. */
  predicate BusyFor(s: State, ev: Event, i: nat, n: string) {
    && IsBusy(ev) && ev.step == n
    && JobIn(s, ev.run, n, ev.job, Active) && IsDispatch(s, ev.run, n, ev.job)
    && Tracked(s, i) && HasTask(s, i, n) && s.heap[ev.run].runID == s.heap[i].runID && s.heap[i].tasks[n].status.Running?
  }

  lemma RequeuedAt(s: State, runID: string, m: string, from: nat, i: nat, n: string)
    requires HasTask(s, i, n)
    ensures HasTask(Requeued(s, runID, m, from), i, n)
    ensures Requeued(s, runID, m, from).heap[i].tasks[n] ==
      if runID in s.runs && s.runs[runID] == i && m == n && s.heap[i].tasks[n].status.Running?
      then BusyRequeue(s.heap[i].tasks[n], i != from) else s.heap[i].tasks[n]
  {
    hide BusyRequeue;
  }

  /** What a busy answer does to an entry: it is requeued, or keeps everything but its jobs. */
  lemma BusyStep(s: State, ev: Event, i: nat, n: string)
    requires Inv(s) && IsBusy(ev) && HasTask(s, i, n)
    ensures HasTask(Step(s, ev), i, n) && HasTask(Moved(s, ev), i, n)
    ensures var c := Moved(s, ev).heap[i].tasks[n];
      Step(s, ev).heap[i].tasks[n] == if BusyFor(s, ev, i, n) then BusyRequeue(c, i != ev.run) else c
  {
    hide Inv, Requeued, BusyRequeue, MoveJob, StopTimer;
    var k, j, m := ev.run, ev.job, ev.step;
    MovedStatus(s, ev, i, n);
    if JobIn(s, k, m, j, Active) && IsDispatch(s, k, m, j) {
      var runID := s.heap[k].runID;
      IndexedBy(s, runID);
      MoveJobFrame(s, k, m, j, Flushing);
      RequeuedAt(MoveJob(s, k, m, j, Flushing), runID, m, k, i, n);
    }
  }

  /**
   One event takes a step that was recorded running, and was not put back since, to ready without
   a retry exactly when it is a busy answer that finds it running.  As long as the step was not
   started in this entry, that answer belongs to a goroutine of another entry of its run ID.
   */
  lemma PutBackIff(s: State, ev: Event, i: nat, n: string)
    requires Reachable(s) && Enabled(ev) && HasTask(s, i, n)
    requires var e := s.heap[i].tasks[n]; e.origin.RecordedRunning? && e.retries == 0 && !e.status.Ready?
    ensures HasTask(Step(s, ev), i, n)
    ensures var f := Step(s, ev).heap[i].tasks[n]; f.status.Ready? && f.retries == 0 <==> BusyFor(s, ev, i, n)
    ensures BusyFor(s, ev, i, n) && s.heap[i].tasks[n].starts == 0 ==> ev.run != i
  {
    hide Reachable, Inv, Step, Enabled, Moved, BusyRequeue, HandleOk, JobsRel, CallsStay, CalledIfNew, Pays;
    ReachableInv(s);
    BooksOf(s, i, n);
    MovedStatus(s, ev, i, n);
    StepSplits(s, ev);
    assert RunRel(Moved(s, ev).heap[i], Step(s, ev).heap[i], ModeOf(s, ev));
    assert EntryRel(Moved(s, ev).heap[i].tasks[n], Step(s, ev).heap[i].tasks[n], ModeOf(s, ev));
    if IsBusy(ev) {
      BusyStep(s, ev, i, n);
      if BusyFor(s, ev, i, n) { RequeueBooks(Moved(s, ev).heap[i].tasks[n], i != ev.run); }
    }
  }

  lemma RequeueBooks(e: Entry, foreign: bool)
    requires e.status.Running?
    ensures var f := BusyRequeue(e, foreign); f.status.Ready? && f.retries == e.retries && f.foreign == e.foreign + if foreign then 1 else 0
  {
  }

  /** The step has ended in the entry, and none of its dispatch goroutines is alive. */
  ghost predicate Quiet(s: State, k: nat, n: string) {
    HasTask(s, k, n) ==> Terminal(s.heap[k].tasks[n].status) && forall j: nat :: !CallAlive(s, k, n, j)
  }

  /** The step is quiet in every entry of the run ID but `i`. */
  ghost predicate NoOtherCall(s: State, runID: string, n: string, i: nat) {
    forall k: nat :: k < |s.heap| && k != i && s.heap[k].runID == runID ==> Quiet(s, k, n)
  }

  /** No goroutine of another entry of this run ID has answered for the step, or still can. */
  ghost predicate Alone(s: State, i: nat, n: string) {
    && HasTask(s, i, n) && s.heap[i].tasks[n].foreign == 0
    && (s.heap[i].closing.Open? ==> NoOtherCall(s, s.heap[i].runID, n, i))
  }

  /** An entry that has ended gets no new goroutine, and no goroutine comes back to life. */
  lemma StaysQuiet(s: State, ev: Event, k: nat, n: string)
    requires Inv(s) && Enabled(ev) && k < |s.heap| && Quiet(s, k, n)
    ensures Quiet(Step(s, ev), k, n)
  {
    hide Step, Enabled, Inv;
    StepKeepsHistory(s, ev);
    var m := ModeOf(s, ev).(moves := true);
    assert RunRel(s.heap[k], Step(s, ev).heap[k], m);
    if HasTask(Step(s, ev), k, n) {
      assert EntryRel(s.heap[k].tasks[n], Step(s, ev).heap[k].tasks[n], m);
      forall j: nat ensures !CallAlive(Step(s, ev), k, n, j) {
        assert !CallAlive(s, k, n, j);
      }
    }
  }

  lemma StaysForeign(s: State, ev: Event, i: nat, n: string)
    requires Inv(s) && Enabled(ev) && Alone(s, i, n) && HasTask(Step(s, ev), i, n)
    ensures Step(s, ev).heap[i].tasks[n].foreign == 0
  {
    hide Inv, Step, Enabled, Moved, BusyRequeue;
    MovedStatus(s, ev, i, n);
    if IsBusy(ev) {
      BusyStep(s, ev, i, n);
      if BusyFor(s, ev, i, n) {
        TrackedGood(s, i);
        assert CallAlive(s, ev.run, n, ev.job);
        RequeueBooks(Moved(s, ev).heap[i].tasks[n], false);
      }
    } else {
      StepSplits(s, ev);
      assert RunRel(Moved(s, ev).heap[i], Step(s, ev).heap[i], ModeOf(s, ev));
      assert EntryRel(Moved(s, ev).heap[i].tasks[n], Step(s, ev).heap[i].tasks[n], ModeOf(s, ev));
    }
  }

  lemma StaysAlone(s: State, ev: Event, i: nat, n: string)
    requires Inv(s) && Enabled(ev) && Alone(s, i, n)
    ensures Alone(Step(s, ev), i, n)
  {
    hide Inv, Step, Enabled, Quiet, EntryRel, RunRel, Displace;
    StepKeepsHistory(s, ev);
    RunFrame(s, ev, i);
    StaysForeign(s, ev, i, n);
    HeapGrows(s, ev);
    var t := Step(s, ev);
    if t.heap[i].closing.Open? {
      forall k: nat | k < |t.heap| && k != i && t.heap[k].runID == t.heap[i].runID ensures Quiet(t, k, n) {
        if k >= |s.heap| {
          EnteringOverwrites(s, ev, i);
          assert false;
        } else {
          RunFrame(s, ev, k);
          StaysQuiet(s, ev, k, n);
        }
      }
    }
  }

  lemma RunFrame(s: State, ev: Event, i: nat)
    requires i < |s.heap| && StepRel(s, Step(s, ev), ModeOf(s, ev).(moves := true))
    ensures var t := Step(s, ev);
      && i < |t.heap| && t.heap[i].runID == s.heap[i].runID && t.heap[i].tasks.Keys == s.heap[i].tasks.Keys
      && (t.heap[i].closing.Open? ==> s.heap[i].closing.Open?)
  {
    hide Step, EntryRel;
    assert RunRel(s.heap[i], Step(s, ev).heap[i], ModeOf(s, ev).(moves := true));
  }

  lemma TrackedIfOpen(s: State, i: nat)
    requires Inv(s) && i < |s.heap| && s.heap[i].closing.Open?
    ensures Tracked(s, i)
  {
  }

  /** A run that enters takes the slot of its ID from whoever has it. */
  lemma EnteringOverwrites(s: State, ev: Event, i: nat)
    requires Inv(s) && Enters(ev) && i < |s.heap| && s.heap[i].closing.Open? && EnteringID(ev) == s.heap[i].runID
    ensures i < |Step(s, ev).heap| && Step(s, ev).heap[i].closing.Overwritten?
  {
    hide Step, Inv;
    TrackedIfOpen(s, i);
    EnteredOne(s, ev);
  }

  lemma {:induction false} AloneForever(s: State, evs: seq<Event>, i: nat, n: string)
    requires Inv(s) && Possible(evs) && Alone(s, i, n)
    ensures Alone(Execute(s, evs), i, n)
    decreases |evs|
  {
    hide Inv, Step, Enabled, Alone;
    if evs != [] {
      AloneForever(s, evs[..|evs| - 1], i, n);
      ExecuteKeepsInv(s, evs[..|evs| - 1]);
      StaysAlone(Execute(s, evs[..|evs| - 1]), evs[|evs| - 1], i, n);
    }
  }

  /**
   A run recovered while the step is quiet in every earlier entry of its ID (ended, and no dispatch
   goroutine alive; of an entry dropped in good order every step has ended):
   the step, if recorded running, is started again, or even ready or retrying, only after
   `failOrRetryLocked` put it back, and every start is paid for by a retry or its own busy answer.
   */
  lemma RestartedOnlyByRetry(s: State, ev: Event, evs: seq<Event>, n: string)
    requires Reachable(s) && Enabled(ev) && ev.Recover? && Possible(evs)
    requires NoOtherCall(s, ev.runID, n, |s.heap|)
    requires HasTask(Execute(Step(s, ev), evs), |s.heap|, n)
    requires Execute(Step(s, ev), evs).heap[|s.heap|].tasks[n].origin.RecordedRunning?
    ensures var e := Execute(Step(s, ev), evs).heap[|s.heap|].tasks[n];
      && e.foreign == 0
      && (e.starts > 0 || e.status.Ready? || e.status.Retrying? ==> e.retries > 0)
      && e.starts <= e.retries + e.requeues
  {
    hide Reachable, Inv, Step, Enabled, Possible, Execute, Alone;
    ReachableInv(s);
    StepKeepsInv(s, ev);
    var t, i := Step(s, ev), |s.heap|;
    ExecuteKeepsHistory(t, evs, 0);
    assert Execute(t, evs[..0]) == t by { ExecuteNothing(t, evs); }
    HeapGrows(s, ev);
    assert RunRel(t.heap[i], Execute(t, evs).heap[i], ANYTHING);
    EntersAlone(s, ev, n);
    AloneForever(t, evs, i, n);
    ExecuteKeepsInv(t, evs);
    BooksOf(Execute(t, evs), i, n);
    assert Execute(t, evs).heap[i].tasks[n].foreign == 0 by { AloneForeign(Execute(t, evs), i, n); }
  }

  lemma AloneForeign(s: State, i: nat, n: string)
    requires Alone(s, i, n)
    ensures s.heap[i].tasks[n].foreign == 0
  {
  }

  lemma EntersAlone(s: State, ev: Event, n: string)
    requires Inv(s) && Enabled(ev) && ev.Recover? && HasTask(Step(s, ev), |s.heap|, n)
    requires NoOtherCall(s, ev.runID, n, |s.heap|)
    ensures Alone(Step(s, ev), |s.heap|, n)
  {
    hide Inv, Step, Enabled, Incoming, Quiet, StepRel;
    HeapGrows(s, ev);
    IncomingUntouched(s, ev);
    EnteredRel(s, ev);
    var t, i := Step(s, ev), |s.heap|;
    assert Untouched(Incoming(s, ev).tasks[n]);
    assert EntryRel(Incoming(s, ev).tasks[n], t.heap[i].tasks[n], Locked(s.cfg.backend, TimeOf(ev)));
    forall k: nat | k < |t.heap| && k != i && t.heap[k].runID == t.heap[i].runID ensures Quiet(t, k, n) {
      StepKeepsHistory(s, ev);
      RunFrame(s, ev, k);
      StaysQuiet(s, ev, k, n);
    }
  }
}
