/**
 What one event owes to the outside, run by run and step by step: which rows it writes, and which events and
 callbacks it fires.
 */
module QueueOwed {
  import opened Options
  import opened Tasks
  import opened Runs
  import opened TaskIDs
  import opened QueueSpec
  import opened QueueInv
  import opened QueueSteps
  import opened QueueHistory
  import opened QueueRestarts
  import opened QueueEnds
  import opened QueueLeases
  import opened QueueRows
  import opened Outcomes
  import opened QueueRuns

  /*** Counting what belongs to one run ***/

  lemma {:induction false} WritesCount(ws: seq<Write>, i: nat, w: Write)
    requires WriteOf(w, i)
    ensures multiset(WritesOf(ws, i))[w] == multiset(ws)[w]
    decreases |ws|
  {
    if ws != [] {
      WritesCount(ws[1..], i, w);
      assert ws == [ws[0]] + ws[1..];
      assert multiset(ws) == multiset{ws[0]} + multiset(ws[1..]);
    }
  }

  lemma {:induction false} EffectsCount(fs: seq<Effect>, i: nat, f: Effect)
    requires EffectOf(f, i)
    ensures multiset(EffectsOf(fs, i))[f] == multiset(fs)[f]
    decreases |fs|
  {
    if fs != [] {
      EffectsCount(fs[1..], i, f);
      assert fs == [fs[0]] + fs[1..];
      assert multiset(fs) == multiset{fs[0]} + multiset(fs[1..]);
    }
  }

  lemma CountSplits<T>(s: seq<T>, tail: seq<T>, m: multiset<T>, x: T)
    requires |tail| <= |s| && s[|s| - |tail|..] == tail && multiset(s[..|s| - |tail|]) == m
    ensures multiset(s)[x] == m[x] + multiset(tail)[x]
  {
    assert s == s[..|s| - |tail|] + tail;
  }

  /*** The rows and effects of closing ***/

  /** The outcome a run is recorded with. */
  function OutcomeOf(c: Closing): RunStatus {
    if c == Completed(true) then Success else if c == CanceledRun then Cancelation else Failure
  }

  lemma NoClosingHere(i: nat, r: RunEntry, t: RunEntry, w: Write, f: Effect)
    ensures w.RunRow? ==> StepRows(i, r, t)[w] == 0
    ensures !f.StepEvent? ==> multiset(StepEvents(i, r, t))[f] == 0
  {
    assert w.RunRow? ==> w !in TerminalRows(i, r, t) && w !in StartRows(i, r, t) && w !in RetryRows(i, r, t);
  }

  lemma RunRowCount(i: nat, r: RunEntry, t: RunEntry, ws: seq<Write>, fs: seq<Effect>, onOutcome: bool, onSuccess: bool,
                    id: string, o: RunStatus)
    requires Recorded(i, r, t, ws, fs, onOutcome, onSuccess)
    ensures multiset(ws)[RunRow(i, id, o)] == if Outcomes.Closed(r, t) && id == r.runID && o == OutcomeOf(t.closing) then 1 else 0
  {
    hide StepRows, StepEvents, FinalEffects;
    var w := RunRow(i, id, o);
    var fw := if Outcomes.Closed(r, t) then FinalWrites(i, r.runID, t.closing) else [];
    CountSplits(ws, fw, StepRows(i, r, t), w);
    NoClosingHere(i, r, t, w, SuccessCallback(i, id));
    hide Recorded;
    assert Outcomes.Closed(r, t) ==> multiset(fw) == multiset{RunRow(i, r.runID, OutcomeOf(t.closing))};
  }

  lemma FinalEffectsAre(i: nat, runID: string, cl: Closing, onOutcome: bool, onSuccess: bool)
    ensures FinalEffects(i, runID, cl, onOutcome, onSuccess) ==
      [RunEvent(i, runID, cl)] + (if onOutcome then [OutcomeCallback(i, runID, OutcomeOf(cl))] else [])
      + (if cl == Completed(true) && onSuccess then [SuccessCallback(i, runID)] else [])
  {
  }

  lemma CountThree<T>(a: T, b: seq<T>, d: seq<T>, x: T)
    ensures multiset([a] + b + d)[x] == (if x == a then 1 else 0) + multiset(b)[x] + multiset(d)[x]
  {
    assert multiset([a] + b + d) == multiset([a] + b) + multiset(d);
  }

  lemma FinalEffectsCount(i: nat, runID: string, cl: Closing, onOutcome: bool, onSuccess: bool, id: string, o: RunStatus, c: Closing)
    ensures var ff := multiset(FinalEffects(i, runID, cl, onOutcome, onSuccess));
      && ff[RunEvent(i, id, c)] == (if id == runID && c == cl then 1 else 0)
      && ff[OutcomeCallback(i, id, o)] == (if onOutcome && id == runID && o == OutcomeOf(cl) then 1 else 0)
      && ff[SuccessCallback(i, id)] == (if onSuccess && id == runID && cl == Completed(true) then 1 else 0)
  {
    FinalEffectsAre(i, runID, cl, onOutcome, onSuccess);
    hide FinalEffects, OutcomeOf;
    var b := if onOutcome then [OutcomeCallback(i, runID, OutcomeOf(cl))] else [];
    var d := if cl == Completed(true) && onSuccess then [SuccessCallback(i, runID)] else [];
    CountThree(RunEvent(i, runID, cl), b, d, RunEvent(i, id, c));
    CountThree(RunEvent(i, runID, cl), b, d, OutcomeCallback(i, id, o));
    CountThree(RunEvent(i, runID, cl), b, d, SuccessCallback(i, id));
  }

  lemma RunEffectCount(i: nat, r: RunEntry, t: RunEntry, ws: seq<Write>, fs: seq<Effect>, onOutcome: bool, onSuccess: bool, f: Effect)
    requires Recorded(i, r, t, ws, fs, onOutcome, onSuccess) && !f.StepEvent?
    ensures multiset(fs)[f] ==
      if Outcomes.Closed(r, t) then multiset(FinalEffects(i, r.runID, t.closing, onOutcome, onSuccess))[f] else 0
  {
    hide StepRows, StepEvents, FinalEffects, FinalWrites;
    var ff := if Outcomes.Closed(r, t) then FinalEffects(i, r.runID, t.closing, onOutcome, onSuccess) else [];
    CountSplits(fs, ff, multiset(StepEvents(i, r, t)), f);
    NoClosingHere(i, r, t, RunRow(i, "", Failure), f);
  }

  lemma ClosingEffectCount(i: nat, r: RunEntry, t: RunEntry, ws: seq<Write>, fs: seq<Effect>, onOutcome: bool, onSuccess: bool,
                           id: string, o: RunStatus, c: Closing)
    requires Recorded(i, r, t, ws, fs, onOutcome, onSuccess)
    ensures multiset(fs)[RunEvent(i, id, c)] == if Outcomes.Closed(r, t) && id == r.runID && c == t.closing then 1 else 0
    ensures multiset(fs)[OutcomeCallback(i, id, o)]
         == if Outcomes.Closed(r, t) && onOutcome && id == r.runID && o == OutcomeOf(t.closing) then 1 else 0
    ensures multiset(fs)[SuccessCallback(i, id)]
         == if Outcomes.Closed(r, t) && onSuccess && id == r.runID && t.closing == Completed(true) then 1 else 0
  {
    hide Recorded, FinalEffects;
    RunEffectCount(i, r, t, ws, fs, onOutcome, onSuccess, RunEvent(i, id, c));
    RunEffectCount(i, r, t, ws, fs, onOutcome, onSuccess, OutcomeCallback(i, id, o));
    RunEffectCount(i, r, t, ws, fs, onOutcome, onSuccess, SuccessCallback(i, id));
    FinalEffectsCount(i, r.runID, t.closing, onOutcome, onSuccess, id, o, c);
  }

  /*** The rows and events of steps ***/

  predicate Ended(e: Entry, f: Entry) {
    !Terminal(e.status) && Terminal(f.status)
  }

  /** The row of a step is written once for its end, once for a start and once for a retry. */
  function StepRowCount(e: Entry, f: Entry, status: Status, attempts: int): nat {
    (if Ended(e, f) && status == f.status && attempts == (if f.status.Skipped? then 0 else f.attempts) then 1 else 0)
    + (if f.starts > e.starts && status == Running && attempts == f.attempts then 1 else 0)
    + (if f.retries > e.retries && status == Running && attempts == f.attempts - (if f.starts > e.starts then 1 else 0) then 1 else 0)
  }

  lemma StepRowsCount(i: nat, r: RunEntry, t: RunEntry, n: string, status: Status, attempts: int)
    requires n in r.tasks && n in t.tasks
    ensures StepRows(i, r, t)[StepRow(i, n, status, attempts)] == StepRowCount(r.tasks[n], t.tasks[n], status, attempts)
  {
    var w := StepRow(i, n, status, attempts);
    assert w in TerminalRows(i, r, t) <==> BecameTerminal(r, t, n) && w == TerminalRow(i, n, t.tasks[n]);
    assert w in StartRows(i, r, t) <==> WasStarted(r, t, n) && w == StepRow(i, n, Running, t.tasks[n].attempts);
    var again := if WasStarted(r, t, n) then 1 else 0;
    assert w in RetryRows(i, r, t) <==> WasRetried(r, t, n) && w == StepRow(i, n, Running, t.tasks[n].attempts - again);
  }

  lemma StepEventsCount(i: nat, r: RunEntry, t: RunEntry, n: string, status: Status)
    requires n in r.tasks && n in t.tasks
    ensures multiset(StepEvents(i, r, t))[StepEvent(i, n, status)] ==
      if Ended(r.tasks[n], t.tasks[n]) && status == t.tasks[n].status && !t.closing.CanceledRun? && !t.closing.Expired? then 1 else 0
  {
    var f := StepEvent(i, n, status);
    assert f in StepEvents(i, r, t) <==>
      !t.closing.CanceledRun? && !t.closing.Expired? && BecameTerminal(r, t, n) && status == t.tasks[n].status;
  }

  lemma StepRowCounted(i: nat, r: RunEntry, t: RunEntry, ws: seq<Write>, fs: seq<Effect>, onOutcome: bool, onSuccess: bool, w: Write)
    requires Recorded(i, r, t, ws, fs, onOutcome, onSuccess) && w.StepRow?
    ensures multiset(ws)[w] == StepRows(i, r, t)[w]
  {
    hide StepRows, StepEvents, FinalEffects;
    var fw := if Outcomes.Closed(r, t) then FinalWrites(i, r.runID, t.closing) else [];
    CountSplits(ws, fw, StepRows(i, r, t), w);
  }

  lemma StepEventCounted(i: nat, r: RunEntry, t: RunEntry, ws: seq<Write>, fs: seq<Effect>, onOutcome: bool, onSuccess: bool, f: Effect)
    requires Recorded(i, r, t, ws, fs, onOutcome, onSuccess) && f.StepEvent?
    ensures multiset(fs)[f] == multiset(StepEvents(i, r, t))[f]
  {
    hide StepRows, StepEvents, FinalWrites;
    var ff := if Outcomes.Closed(r, t) then FinalEffects(i, r.runID, t.closing, onOutcome, onSuccess) else [];
    CountSplits(fs, ff, multiset(StepEvents(i, r, t)), f);
    assert f !in ff;
  }

  lemma StepCounts(i: nat, r: RunEntry, t: RunEntry, ws: seq<Write>, fs: seq<Effect>, onOutcome: bool, onSuccess: bool,
                   n: string, status: Status, attempts: int)
    requires Recorded(i, r, t, ws, fs, onOutcome, onSuccess) && n in r.tasks && n in t.tasks
    ensures multiset(ws)[StepRow(i, n, status, attempts)] == StepRowCount(r.tasks[n], t.tasks[n], status, attempts)
    ensures multiset(fs)[StepEvent(i, n, status)] ==
      if Ended(r.tasks[n], t.tasks[n]) && status == t.tasks[n].status && !t.closing.CanceledRun? && !t.closing.Expired? then 1 else 0
  {
    hide Recorded, StepRows, StepEvents, StepRowCount, Ended;
    StepRowCounted(i, r, t, ws, fs, onOutcome, onSuccess, StepRow(i, n, status, attempts));
    StepEventCounted(i, r, t, ws, fs, onOutcome, onSuccess, StepEvent(i, n, status));
    StepRowsCount(i, r, t, n, status, attempts);
    StepEventsCount(i, r, t, n, status);
  }

  /*** Events that defer nothing ***/

  /** Nothing happened that anybody would have to be told. */
  predicate NothingTold(r: RunEntry, t: RunEntry) {
    && t.closing == r.closing && t.runID == r.runID && t.tasks.Keys == r.tasks.Keys
    && forall n :: n in r.tasks ==>
         !Ended(r.tasks[n], t.tasks[n]) && t.tasks[n].starts == r.tasks[n].starts && t.tasks[n].retries == r.tasks[n].retries
  }

  lemma SilentRun(s: State, ev: Event, k: nat)
    requires Reachable(s) && Enabled(ev) && !Flushes(s, ev) && k < |s.heap|
    ensures k < |Step(s, ev).heap| && NothingTold(s.heap[k], Step(s, ev).heap[k])
  {
    hide Reachable, Inv, Step, Enabled, EntryRel, SkipsBlamed;
    ReachableInv(s);
    StepKeepsHistory(s, ev);
    assert RunRel(s.heap[k], Step(s, ev).heap[k], ModeOf(s, ev).(moves := true));
    forall n | n in s.heap[k].tasks ensures !Ended(s.heap[k].tasks[n], Step(s, ev).heap[k].tasks[n])
      ensures Step(s, ev).heap[k].tasks[n].starts == s.heap[k].tasks[n].starts
      ensures Step(s, ev).heap[k].tasks[n].retries == s.heap[k].tasks[n].retries
    {
      SilentStep(s, ev, k, n);
    }
    SilentClosing(s, ev, k);
  }

  lemma SilentStep(s: State, ev: Event, k: nat, n: string)
    requires Reachable(s) && Inv(s) && Enabled(ev) && !Flushes(s, ev) && HasTask(s, k, n)
    ensures HasTask(Step(s, ev), k, n)
    ensures var e, f := s.heap[k].tasks[n], Step(s, ev).heap[k].tasks[n];
      !Ended(e, f) && f.starts == e.starts && f.retries == e.retries
  {
    hide Reachable, Inv, Enabled, MoveJob, RenewAll, Requeued, CompleteResult, BusyRequeue, Callback, Renewed, MayHold, NamedAmong;
    MovedStatus(s, ev, k, n);
    if ev.RenewLeases? {
      RenewalIff(s, ev, k, n);
      RenewedEntry(s.heap[k].tasks[n], Step(s, ev).heap[k].tasks[n], ev);
    } else if IsBusy(ev) {
      BusyStep(s, ev, k, n);
      if BusyFor(s, ev, k, n) {
        RequeuedAs(Moved(s, ev).heap[k].tasks[n], k != ev.run);
        BusyStatus(Moved(s, ev).heap[k].tasks[n], k != ev.run);
      }
    } else {
      SilentMove(s, ev);
    }
  }

  lemma RenewedEntry(e: Entry, f: Entry, ev: Event)
    requires ev.RenewLeases? && (f == e || Renewed(e, f, ev.runtimeID, ev.now))
    ensures !Ended(e, f) && f.starts == e.starts && f.retries == e.retries
  {
  }

  lemma SilentMove(s: State, ev: Event)
    requires !Flushes(s, ev) && !ev.RenewLeases? && !IsBusy(ev)
    ensures Step(s, ev).heap == Moved(s, ev).heap
  {
    hide MoveJob, CompleteResult, Callback;
  }

  lemma SilentClosing(s: State, ev: Event, k: nat)
    requires Reachable(s) && Inv(s) && !Flushes(s, ev) && k < |s.heap| && k < |Step(s, ev).heap|
    ensures Step(s, ev).heap[k].closing == s.heap[k].closing
  {
    hide Reachable, Inv, RenewAll, BusyRequeue, CompleteResult, Callback;
    if ev.RenewLeases? {
      RenewAllClosing(s, ev.runtimeID, ev.taskIDs, ev.now, k);
    } else if !IsBusy(ev) {
      SilentMove(s, ev);
    }
  }

  lemma {:induction false} RenewAllClosing(s: State, runtimeID: string, taskIDs: seq<string>, now: int, k: nat)
    requires k < |s.heap|
    ensures var t := RenewAll(s, runtimeID, taskIDs, now); k < |t.heap| && t.heap[k].closing == s.heap[k].closing
    decreases |taskIDs|
  {
    hide RenewEntry;
    if taskIDs != [] { RenewAllClosing(s, runtimeID, taskIDs[..|taskIDs| - 1], now, k); }
  }

  /*** The theorems ***/

  /** The run as the event finds it, or brings it. */
  function Before(s: State, ev: Event, k: nat): RunEntry
    requires k < |s.heap| || Enters(ev)
  {
    if k < |s.heap| then s.heap[k] else Incoming(s, ev)
  }

  /** Everything that is owed for run `k` is recorded. */
  lemma OwedRecorded(s: State, ev: Event, out: Outcome, onOutcome: bool, onSuccess: bool, k: nat)
    requires Reachable(s) && Enabled(ev) && Owed(s, ev, out, onOutcome, onSuccess) && k < |Step(s, ev).heap|
    ensures k < |s.heap| || (Enters(ev) && k == |s.heap|)
    ensures Recorded(k, Before(s, ev, k), Step(s, ev).heap[k], WritesOf(out.writes, k), EffectsOf(out.effects, k), onOutcome, onSuccess)
  {
    hide Reachable, Inv, Step, Enabled, Recorded, Incoming;
    ReachableInv(s);
    HeapGrows(s, ev);
    var r, t := Before(s, ev, k), Step(s, ev).heap[k];
    if !Flushes(s, ev) {
      SilentRun(s, ev, k);
      NothingToldRecorded(k, r, t, onOutcome, onSuccess);
    } else if ev.Cancel? && ev.runID !in s.runs {
      assert Step(s, ev) == s by { CancelNothing(s, ev); }
      UntrackedIsNobodys(ev.runID, k);
      NothingRecorded(k, r, onOutcome, onSuccess);
    }
  }

  lemma UntrackedIsNobodys(runID: string, k: nat)
    ensures WritesOf([UntrackedRunRow(runID)], k) == [] && EffectsOf([UntrackedCanceledEvent(runID)], k) == []
  {
    var ws, fs := [UntrackedRunRow(runID)], [UntrackedCanceledEvent(runID)];
    assert ws[1..] == [] && fs[1..] == [];
    assert WritesOf(ws[1..], k) == [] && EffectsOf(fs[1..], k) == [];
  }

  lemma CancelNothing(s: State, ev: Event)
    requires ev.Cancel? && ev.runID !in s.runs
    ensures Step(s, ev) == s
  {
  }

  lemma NothingToldRecorded(k: nat, r: RunEntry, t: RunEntry, onOutcome: bool, onSuccess: bool)
    requires NothingTold(r, t)
    ensures Recorded(k, r, t, [], [], onOutcome, onSuccess)
  {
    assert TerminalRows(k, r, t) == {} && StartRows(k, r, t) == {} && RetryRows(k, r, t) == {};
    assert StepEvents(k, r, t) == {};
  }

  /** The event closes the run: it was tracked, or enters by this very event, and has left the table in good order. */
  predicate ClosedNow(s: State, ev: Event, r: RunEntry, k: nat) {
    (k < |s.heap| ==> s.heap[k].closing.Open?) && (r.closing.Completed? || r.closing.CanceledRun? || r.closing.Expired?)
  }

  lemma EnteringOpen(s: State, ev: Event)
    requires Enters(ev)
    ensures Incoming(s, ev).closing.Open? && Incoming(s, ev).runID == EnteringID(ev)
  {
    hide BuildTasks, RecoverTasks, ByName;
  }

  lemma OwedFrame(s: State, ev: Event, k: nat)
    requires Inv(s) && Enabled(ev) && k < |Step(s, ev).heap|
    ensures k < |s.heap| || (Enters(ev) && k == |s.heap|)
    ensures Before(s, ev, k).runID == Step(s, ev).heap[k].runID && Before(s, ev, k).tasks.Keys == Step(s, ev).heap[k].tasks.Keys
    ensures Outcomes.Closed(Before(s, ev, k), Step(s, ev).heap[k]) <==> ClosedNow(s, ev, Step(s, ev).heap[k], k)
  {
    hide Inv, Step, Enabled, EntryRel, SkipsBlamed, Incoming;
    HeapGrows(s, ev);
    if k < |s.heap| {
      StepKeepsHistory(s, ev);
      assert RunRel(s.heap[k], Step(s, ev).heap[k], ModeOf(s, ev).(moves := true));
    } else {
      EnteredRel(s, ev);
      EnteringOpen(s, ev);
    }
  }

  lemma SuccessMeansNoFailure(s: State, k: nat)
    requires Inv(s) && k < |s.heap| && s.heap[k].closing.Completed?
    ensures s.heap[k].closing.success <==> !exists n :: n in s.heap[k].tasks && s.heap[k].tasks[n].status.Failed?
  {
    hide RunInv, EntriesOk, StartedOk;
    assert GoodRun(s.heap[k], s.cfg.backend, s.alive);
  }

  /**
   A run has its row written exactly once, by the event that closes it: as a failure if it completed with a failed
   step or expired, as canceled if it was canceled, as a success otherwise.  OnRunOutcome is called with the same
   outcome, if it is set; OnRunSuccess if it is set, the run completed and no step failed; and the run event is sent once.
   */
  lemma RunOwedIff(s: State, ev: Event, out: Outcome, onOutcome: bool, onSuccess: bool, k: nat, id: string, o: RunStatus, c: Closing)
    requires Reachable(s) && Enabled(ev) && Owed(s, ev, out, onOutcome, onSuccess) && k < |Step(s, ev).heap|
    ensures var r := Step(s, ev).heap[k];
      var failed := exists n :: n in r.tasks && r.tasks[n].status.Failed?;
      var outcome := match r.closing
        case Completed(_) => if failed then Failure else Success
        case CanceledRun => Cancelation
        case _ => Failure;
      var closes := id == r.runID && ClosedNow(s, ev, r, k);
      && multiset(out.writes)[RunRow(k, id, o)] == (if closes && o == outcome then 1 else 0)
      && multiset(out.effects)[RunEvent(k, id, c)] == (if closes && c == r.closing then 1 else 0)
      && multiset(out.effects)[OutcomeCallback(k, id, o)] == (if closes && onOutcome && o == outcome then 1 else 0)
      && multiset(out.effects)[SuccessCallback(k, id)] == (if closes && onSuccess && r.closing.Completed? && !failed then 1 else 0)
  {
    hide Reachable, Inv, Step, Enabled, Owed, Recorded, Before;
    ReachableInv(s);
    StepKeepsInv(s, ev);
    OwedFrame(s, ev, k);
    OwedRecorded(s, ev, out, onOutcome, onSuccess, k);
    var b, r, ws, fs := Before(s, ev, k), Step(s, ev).heap[k], WritesOf(out.writes, k), EffectsOf(out.effects, k);
    RunRowCount(k, b, r, ws, fs, onOutcome, onSuccess, id, o);
    ClosingEffectCount(k, b, r, ws, fs, onOutcome, onSuccess, id, o, c);
    WritesCount(out.writes, k, RunRow(k, id, o));
    EffectsCount(out.effects, k, RunEvent(k, id, c));
    EffectsCount(out.effects, k, OutcomeCallback(k, id, o));
    EffectsCount(out.effects, k, SuccessCallback(k, id));
    if r.closing.Completed? { SuccessMeansNoFailure(Step(s, ev), k); }
  }

  /**
   A step has its row written once when it ends, once when it is started and once when it is put to retry, each time with the
   attempt it was on then, and zero if it was skipped; its end is announced once, unless its run was canceled or expired.
   */
  lemma StepOwedIff(s: State, ev: Event, out: Outcome, onOutcome: bool, onSuccess: bool, k: nat, n: string, status: Status, attempts: int)
    requires Reachable(s) && Enabled(ev) && Owed(s, ev, out, onOutcome, onSuccess)
    requires HasTask(Step(s, ev), k, n)
    ensures k < |s.heap| || Enters(ev)
    ensures n in Before(s, ev, k).tasks
    ensures var e, f, c := Before(s, ev, k).tasks[n], Step(s, ev).heap[k].tasks[n], Step(s, ev).heap[k].closing;
      && multiset(out.writes)[StepRow(k, n, status, attempts)] ==
           (if Ended(e, f) && status == f.status && attempts == (if f.status.Skipped? then 0 else f.attempts) then 1 else 0)
           + (if f.starts > e.starts && status == Running && attempts == f.attempts then 1 else 0)
           + (if f.retries > e.retries && status == Running && attempts == f.attempts - (if f.starts > e.starts then 1 else 0)
              then 1 else 0)
      && multiset(out.effects)[StepEvent(k, n, status)] ==
           (if Ended(e, f) && status == f.status && !c.CanceledRun? && !c.Expired? then 1 else 0)
  {
    hide Reachable, Inv, Step, Enabled, Owed, Recorded, Before;
    ReachableInv(s);
    OwedFrame(s, ev, k);
    OwedRecorded(s, ev, out, onOutcome, onSuccess, k);
    StepCounts(k, Before(s, ev, k), Step(s, ev).heap[k], WritesOf(out.writes, k), EffectsOf(out.effects, k), onOutcome, onSuccess, n, status, attempts);
    WritesCount(out.writes, k, StepRow(k, n, status, attempts));
    EffectsCount(out.effects, k, StepEvent(k, n, status));
  }
}
