/** What every reachable state of the queue keeps. */
module QueueInv {
  import opened Options
  import opened Tasks
  import opened Graph
  import opened Runs
  import opened TaskIDs
  import opened QueueSpec

  /** `q.runs` names live heap entries under their own run ID. */
  predicate Indexed(s: State) {
    forall id :: id in s.runs ==> s.runs[id] < |s.heap| && s.heap[s.runs[id]].runID == id
  }

  /** A run dropped in good order has only terminal entries; one that was overwritten may have any. */
  predicate DroppedIsTerminal(s: State) {
    forall i :: 0 <= i < |s.heap| ==>
      && (Tracked(s, i) <==> s.heap[i].closing.Open?)
      && (!Tracked(s, i) ==> s.heap[i].closing.Overwritten? || AllTerminal(s.heap[i]))
  }

  predicate Struct(s: State) {
    Indexed(s) && DroppedIsTerminal(s) && s.cfg.maxAttempts >= 1
  }

  /** The callbacks that have to act on the entries do so: those of an overwritten run may find nothing to act on. */
  predicate Awake(r: RunEntry, alive: bool) {
    alive && !r.closing.Overwritten?
  }

  ghost predicate GoodRun(r: RunEntry, backend: bool, alive: bool) {
    && EntriesOk(r, backend, Awake(r, alive)) && StartedOk(r)
    && (r.closing.Open? || r.closing.Completed? ==> RunInv(r, backend, alive))
    && (r.closing.Open? && r.tasks != map[] ==> !AllTasksSettled(r))
    && (r.closing.Completed? ==> AllTasksSettled(r) && r.closing.success == !AnyFailed(r))
  }

  ghost predicate AllGood(s: State) {
    forall i :: 0 <= i < |s.heap| ==> GoodRun(s.heap[i], s.cfg.backend, s.alive)
  }

  ghost predicate Inv(s: State) {
    Struct(s) && AllGood(s)
  }

  /*** One run changes ***/

  lemma SetRunStruct(s: State, i: nat, r: RunEntry)
    requires Struct(s) && i < |s.heap|
    requires r.runID == s.heap[i].runID && r.closing == s.heap[i].closing
    requires AllTerminal(s.heap[i]) ==> AllTerminal(r)
    ensures Struct(SetRun(s, i, r))
    ensures forall k :: Tracked(SetRun(s, i, r), k) <==> Tracked(s, k)
  {
    var t := SetRun(s, i, r);
    assert forall k :: 0 <= k < |s.heap| ==> t.heap[k].runID == s.heap[k].runID;
  }

  lemma SetRunInv(s: State, i: nat, r: RunEntry)
    requires Inv(s) && i < |s.heap|
    requires r.runID == s.heap[i].runID && r.closing == s.heap[i].closing
    requires AllTerminal(s.heap[i]) ==> AllTerminal(r)
    requires GoodRun(r, s.cfg.backend, s.alive)
    ensures Inv(SetRun(s, i, r))
  {
    hide GoodRun, Struct;
    SetRunStruct(s, i, r);
  }

  lemma CloseRunStruct(s: State, i: nat, r: RunEntry, c: Closing)
    requires Struct(s) && Tracked(s, i) && r.runID == s.heap[i].runID && !c.Open?
    requires c.Overwritten? || AllTerminal(r)
    ensures Struct(CloseRun(SetRun(s, i, r), i, c))
    ensures forall k :: Tracked(CloseRun(SetRun(s, i, r), i, c), k) <==> Tracked(s, k) && k != i
  {
    var t := CloseRun(SetRun(s, i, r), i, c);
    assert forall k :: 0 <= k < |s.heap| ==> t.heap[k].runID == s.heap[k].runID;
    assert forall k :: 0 <= k < |s.heap| && k != i ==> t.heap[k] == s.heap[k];
  }

  lemma CloseRunInv(s: State, i: nat, r: RunEntry, c: Closing)
    requires Inv(s) && Tracked(s, i) && r.runID == s.heap[i].runID && !c.Open?
    requires (c.Overwritten? || AllTerminal(r)) && GoodRun(r.(closing := c), s.cfg.backend, s.alive)
    ensures Inv(CloseRun(SetRun(s, i, r), i, c))
  {
    hide GoodRun, Struct;
    CloseRunStruct(s, i, r, c);
    var t := CloseRun(SetRun(s, i, r), i, c);
    assert forall k :: 0 <= k < |s.heap| && k != i ==> t.heap[k] == s.heap[k];
  }

  /** A tracked run with new contents `r`: good enough to stay, or to be closed. */
  lemma SettledGood(r: RunEntry, backend: bool, alive: bool)
    requires RunInv(r, backend, alive) && r.closing.Open?
    ensures AllTasksSettled(r) ==> AllTerminal(r) && GoodRun(r.(closing := Completed(!AnyFailed(r))), backend, alive)
    ensures !AllTasksSettled(r) ==> GoodRun(r, backend, alive)
  {
    RunInvClosing(r, Completed(!AnyFailed(r)), backend, alive);
    hide Core, PendingWaits, EntriesOk, StartedOk;
  }

  lemma CloseIfSettledInv(s: State, i: nat, r: RunEntry)
    requires Inv(s) && Tracked(s, i) && r.runID == s.heap[i].runID && r.closing.Open?
    requires RunInv(r, s.cfg.backend, s.alive) && r.tasks.Keys == s.heap[i].tasks.Keys
    ensures Inv(CloseIfSettled(SetRun(s, i, r), i))
  {
    hide RunInv, GoodRun, AllTasksSettled, AnyFailed, AllTerminal;
    assert s.heap[i].closing.Open?;
    SettledGood(r, s.cfg.backend, s.alive);
    hide Inv;
    if AllTasksSettled(r) {
      CloseRunInv(s, i, r, Completed(!AnyFailed(r)));
    } else {
      OpenNotTerminal(s, i);
      StepsOrNothing(s.heap[i], r);
      SetRunInv(s, i, r);
    }
  }

  lemma StepsOrNothing(r: RunEntry, t: RunEntry)
    requires t.tasks.Keys == r.tasks.Keys && !AllTasksSettled(t)
    ensures r.tasks != map[]
  {
    var n :| n in t.tasks && !Settled(t.tasks[n].status);
    assert n in r.tasks;
  }

  lemma RunInvClosing(r: RunEntry, c: Closing, backend: bool, alive: bool)
    requires RunInv(r, backend, alive)
    ensures RunInv(r.(closing := c), backend, alive) && EntriesOk(r, backend, alive)
    ensures EntriesOk(r.(closing := c), backend, alive)
    ensures ViewOf(r.(closing := c)) == ViewOf(r) && StartedOk(r.(closing := c))
  {
  }

  /** The only open run whose entries may all be terminal is one without steps. */
  lemma OpenNotTerminal(s: State, i: nat)
    requires Inv(s) && Tracked(s, i)
    ensures s.heap[i].tasks != map[] ==> !AllTerminal(s.heap[i])
  {
    var r := s.heap[i];
    assert GoodRun(r, s.cfg.backend, s.alive);
    if r.tasks != map[] {
      var n :| n in r.tasks && !Settled(r.tasks[n].status);
      assert !ViewOf(r).Is(n, Canceled);
    }
  }

  /*** One entry changes ***/

  lemma TrackedIfUnfinished(s: State, i: nat, n: string)
    requires Inv(s) && HasTask(s, i, n) && !Terminal(s.heap[i].tasks[n].status)
    ensures s.heap[i].closing.Open? || s.heap[i].closing.Overwritten?
    ensures s.heap[i].closing.Open? <==> Tracked(s, i)
  {
  }

  lemma GentleFlags(r: RunEntry, n: string, f: Entry)
    requires n in r.tasks && Gentle(r.tasks[n], f)
    ensures AllTerminal(r) <==> AllTerminal(SetTask(r, n, f))
    ensures AllTasksSettled(r) <==> AllTasksSettled(SetTask(r, n, f))
    ensures AnyFailed(r) <==> AnyFailed(SetTask(r, n, f))
  {
    var t := SetTask(r, n, f);
    assert forall m :: m in r.tasks && m != n ==> t.tasks[m] == r.tasks[m];
    assert Terminal(f.status) <==> Terminal(r.tasks[n].status);
    if AllTerminal(t) {
      forall m | m in r.tasks ensures Terminal(r.tasks[m].status) { assert Terminal(t.tasks[m].status); }
    }
    if AllTasksSettled(t) {
      forall m | m in r.tasks ensures Settled(r.tasks[m].status) { assert Settled(t.tasks[m].status); }
    }
    if m :| m in r.tasks && r.tasks[m].status.Failed? { assert t.tasks[m].status.Failed?; }
    if m :| m in t.tasks && t.tasks[m].status.Failed? { assert r.tasks[m].status.Failed?; }
  }

  lemma GentleRun(r: RunEntry, n: string, f: Entry, backend: bool, alive: bool)
    requires GoodRun(r, backend, alive) && n in r.tasks && Gentle(r.tasks[n], f) && EntryInv(f, backend, Awake(r, alive))
    ensures GoodRun(SetTask(r, n, f), backend, alive)
    ensures AllTerminal(r) ==> AllTerminal(SetTask(r, n, f))
  {
    hide RunInv, EntryInv, StartedOk, AllTasksSettled, AnyFailed, AllTerminal;
    if r.closing.Open? || r.closing.Completed? {
      ShuffleInv(r, n, f, backend, alive);
    }
    SetTaskStarted(r, n, f);
    GentleFlags(r, n, f);
    assert r.tasks != map[];
    assert forall m :: m in r.tasks && m != n ==> SetTask(r, n, f).tasks[m] == r.tasks[m];
  }

  lemma GentleInv(s: State, i: nat, n: string, f: Entry)
    requires Inv(s) && HasTask(s, i, n) && Gentle(s.heap[i].tasks[n], f)
    requires EntryInv(f, s.cfg.backend, Awake(s.heap[i], s.alive))
    ensures Inv(SetEntry(s, i, n, f))
  {
    hide GoodRun, EntryInv;
    GentleRun(s.heap[i], n, f, s.cfg.backend, s.alive);
    SetRunInv(s, i, SetTask(s.heap[i], n, f));
  }

  /** `f` is the entry in progress, its books in order, on its way out of its present status. */
  predicate Leaving(s: State, i: nat, n: string, f: Entry) {
    && HasTask(s, i, n) && SameStep(s.heap[i].tasks[n], f)
    && InProgress(s.heap[i].tasks[n].status) && InProgress(f.status)
    && HandleOk(f) && Accounted(f)
  }

  lemma SetEntryTwice(s: State, i: nat, n: string, f: Entry, g: Entry)
    requires HasTask(s, i, n)
    ensures SetEntry(SetEntry(s, i, n, f), i, n, g) == SetEntry(s, i, n, g)
  {
    assert SetTask(SetTask(s.heap[i], n, f), n, g) == SetTask(s.heap[i], n, g);
  }

  lemma LeavingFacts(s: State, i: nat, n: string, f: Entry)
    requires Inv(s) && Leaving(s, i, n, f) && Tracked(s, i)
    ensures s.heap[i].closing.Open? && RunInv(s.heap[i], s.cfg.backend, s.alive)
  {
    TrackedIfUnfinished(s, i, n);
  }

  /** The run after `n` finished well and its dependents were promoted. */
  function DoneRun(s: State, i: nat, n: string, f: Entry, now: int): RunEntry
    requires HasTask(s, i, n)
  {
    PromoteReady(SetTask(s.heap[i], n, Finish(f, Done)), s.cfg.backend, now)
  }

  lemma DoneStepIs(s: State, i: nat, n: string, f: Entry, now: int)
    requires HasTask(s, i, n)
    ensures CompleteDone(SetEntry(s, i, n, f), i, n, now) == CloseIfSettled(SetRun(s, i, DoneRun(s, i, n, f, now)), i)
  {
    hide PromoteReady, Finish, CloseIfSettled;
    var r, g := s.heap[i], Finish(f, Done);
    assert SetTask(SetTask(r, n, f), n, g) == SetTask(r, n, g);
    var r' := DoneRun(s, i, n, f, now);
    assert SetRun(SetRun(s, i, SetTask(r, n, f)), i, r') == SetRun(s, i, r');
  }

  lemma DoneRunInv(s: State, i: nat, n: string, f: Entry, now: int)
    requires Leaving(s, i, n, f) && f.attempts > 0 && RunInv(s.heap[i], s.cfg.backend, s.alive)
    ensures RunInv(DoneRun(s, i, n, f, now), s.cfg.backend, s.alive)
  {
    hide RunInv, EntryInv, PromoteReady;
    FinishInv(f, Done, s.cfg.backend, s.alive);
    DoneInv(s.heap[i], n, Finish(f, Done), s.cfg.backend, s.alive, now);
  }

  lemma DoneStepInv(s: State, i: nat, n: string, f: Entry, now: int)
    requires Inv(s) && Leaving(s, i, n, f) && Tracked(s, i) && f.attempts > 0
    ensures Inv(CompleteDone(SetEntry(s, i, n, f), i, n, now))
  {
    hide Inv, RunInv, CloseIfSettled, CompleteDone, Accounted;
    LeavingFacts(s, i, n, f);
    DoneRunInv(s, i, n, f, now);
    DoneStepIs(s, i, n, f, now);
    CloseIfSettledInv(s, i, DoneRun(s, i, n, f, now));
  }

  /** The run after `n` failed for good and its dependents were skipped. */
  ghost function FailedRun(s: State, i: nat, n: string, f: Entry): RunEntry
    requires HasTask(s, i, n)
  {
    SkipDownstream(SetTask(s.heap[i], n, Finish(f, Failed)), n)
  }

  lemma FailStepIs(s: State, i: nat, n: string, f: Entry, now: int)
    requires HasTask(s, i, n)
    ensures FailOrRetry(SetEntry(s, i, n, f), i, n, now) ==
      if f.attempts < f.maxAttempts then SetEntry(s, i, n, RetryLater(f, s.cfg.retryDelay, s.cfg.backend, now))
      else CloseIfSettled(SetRun(s, i, FailedRun(s, i, n, f)), i)
  {
    hide SkipDownstream, Finish, CloseIfSettled, RetryLater;
    var r, g := s.heap[i], Finish(f, Failed);
    SetEntryTwice(s, i, n, f, RetryLater(f, s.cfg.retryDelay, s.cfg.backend, now));
    assert SetTask(SetTask(r, n, f), n, g) == SetTask(r, n, g);
    var r' := FailedRun(s, i, n, f);
    assert SetRun(SetRun(s, i, SetTask(r, n, f)), i, r') == SetRun(s, i, r');
  }

  lemma FailedRunInv(s: State, i: nat, n: string, f: Entry)
    requires Leaving(s, i, n, f) && RunInv(s.heap[i], s.cfg.backend, s.alive)
    ensures RunInv(FailedRun(s, i, n, f), s.cfg.backend, s.alive)
  {
    hide RunInv, EntryInv, SkipDownstream;
    FinishInv(f, Failed, s.cfg.backend, s.alive);
    FailInv(s.heap[i], n, Finish(f, Failed), s.cfg.backend, s.alive);
  }

  lemma RetryStepInv(s: State, i: nat, n: string, f: Entry, now: int)
    requires Inv(s) && Leaving(s, i, n, f) && f.attempts < f.maxAttempts
    ensures Inv(SetEntry(s, i, n, RetryLater(f, s.cfg.retryDelay, s.cfg.backend, now)))
  {
    hide Inv, EntryInv, RetryLater;
    RetryLaterInv(f, s.cfg.retryDelay, s.cfg.backend, Awake(s.heap[i], s.alive), now);
    RetryLaterSameStep(f, s.cfg.retryDelay, s.cfg.backend, now);
    GentleInv(s, i, n, RetryLater(f, s.cfg.retryDelay, s.cfg.backend, now));
  }

  lemma FailStepInv(s: State, i: nat, n: string, f: Entry, now: int)
    requires Inv(s) && Leaving(s, i, n, f) && Tracked(s, i)
    ensures Inv(FailOrRetry(SetEntry(s, i, n, f), i, n, now))
  {
    hide Inv, RunInv, CloseIfSettled, FailOrRetry, RetryLater, SetEntry, Accounted;
    LeavingFacts(s, i, n, f);
    FailStepIs(s, i, n, f, now);
    if f.attempts < f.maxAttempts {
      RetryStepInv(s, i, n, f, now);
    } else {
      FailedRunInv(s, i, n, f);
      CloseIfSettledInv(s, i, FailedRun(s, i, n, f));
    }
  }

  /*** A lost entry's deadline ***/

  /** The entry of the overwritten run fails; nobody in that run is told. */
  lemma LostFails(s: State, i: nat, n: string, f: Entry)
    requires Inv(s) && Leaving(s, i, n, f) && s.heap[i].closing.Overwritten?
    ensures Inv(SetEntry(s, i, n, Finish(f, Failed)))
  {
    hide GoodRun, EntryInv, Finish, StartedOk, RunInv, Accounted, HandleOk;
    var r, g := s.heap[i], Finish(f, Failed);
    assert GoodRun(r, s.cfg.backend, s.alive);
    LostRunGood(r, n, f, s.cfg.backend, s.alive);
    LostNotTerminal(r, n);
    SetRunInv(s, i, SetTask(r, n, g));
  }

  lemma LostNotTerminal(r: RunEntry, n: string)
    requires n in r.tasks && InProgress(r.tasks[n].status)
    ensures !AllTerminal(r)
  {
  }

  lemma LostRunGood(r: RunEntry, n: string, f: Entry, backend: bool, alive: bool)
    requires GoodRun(r, backend, alive) && r.closing.Overwritten? && n in r.tasks && SameStep(r.tasks[n], f)
    requires InProgress(r.tasks[n].status) && InProgress(f.status) && HandleOk(f) && Accounted(f)
    ensures GoodRun(SetTask(r, n, Finish(f, Failed)), backend, alive)
  {
    hide EntryInv, StartedOk, RunInv;
    FinishInv(f, Failed, backend, false);
    SetTaskStarted(r, n, Finish(f, Failed));
    assert forall m :: m in r.tasks && m != n ==> SetTask(r, n, Finish(f, Failed)).tasks[m] == r.tasks[m];
  }

  lemma LostStepIs(s: State, k: nat, i: nat, n: string, f: Entry, now: int)
    requires HasTask(s, i, n) && k < |s.heap| && k != i
    ensures FailLost(SetEntry(s, i, n, f), k, i, n, now) ==
      if f.attempts < f.maxAttempts then SetEntry(s, i, n, RetryLater(f, s.cfg.retryDelay, s.cfg.backend, now))
      else CloseIfSettled(SetRun(SetEntry(s, i, n, Finish(f, Failed)), k, StraySkip(s.heap[k], n)), k)
  {
    hide StraySkip, Finish, CloseIfSettled, RetryLater;
    SetEntryTwice(s, i, n, f, RetryLater(f, s.cfg.retryDelay, s.cfg.backend, now));
    SetEntryTwice(s, i, n, f, Finish(f, Failed));
  }

  lemma LostStepInv(s: State, k: nat, i: nat, n: string, f: Entry, now: int)
    requires Inv(s) && Leaving(s, i, n, f) && Tracked(s, k) && k != i && s.heap[i].closing.Overwritten?
    ensures Inv(FailLost(SetEntry(s, i, n, f), k, i, n, now))
  {
    hide Inv, RunInv, CloseIfSettled, FailLost, RetryLater, Accounted, StraySkip, Finish;
    LostStepIs(s, k, i, n, f, now);
    if f.attempts < f.maxAttempts {
      RetryStepInv(s, i, n, f, now);
    } else {
      LostFails(s, i, n, f);
      var t := SetEntry(s, i, n, Finish(f, Failed));
      TrackedGood(t, k);
      StrayInv(t.heap[k], n, t.cfg.backend, t.alive);
      StrayFrame(t.heap[k], n);
      CloseIfSettledInv(t, k, StraySkip(t.heap[k], n));
    }
  }

  lemma TrackedGood(s: State, k: nat)
    requires Inv(s) && Tracked(s, k)
    ensures s.heap[k].closing.Open? && RunInv(s.heap[k], s.cfg.backend, s.alive)
  {
    hide RunInv, EntriesOk, StartedOk;
    assert GoodRun(s.heap[k], s.cfg.backend, s.alive);
  }

  lemma StrayFrame(r: RunEntry, n: string)
    ensures StraySkip(r, n).runID == r.runID && StraySkip(r, n).closing == r.closing
    ensures StraySkip(r, n).tasks.Keys == r.tasks.Keys
  {
    hide SkipSet;
  }

  lemma RetryLaterSameStep(e: Entry, retryDelay: int, backend: bool, now: int)
    ensures SameStep(e, RetryLater(e, retryDelay, backend, now))
  {
  }

  /*** Runs enter ***/

  /** What a caller of Add and Recover hands over: a topological order of the steps. */
  predicate ValidOrder(order: seq<string>, steps: seq<StepSpec>) {
    forall k, d :: 0 <= k < |steps| && d in steps[k].dependsOn ==> IndexOf(order, d) < IndexOf(order, steps[k].name)
  }

  lemma {:induction false} BuildTasksFrom(steps: seq<StepSpec>, maxAttempts: int, n: string) returns (k: nat)
    requires n in BuildTasks(steps, maxAttempts)
    ensures k < |steps| && steps[k].name == n && steps[k].encodes
    ensures BuildTasks(steps, maxAttempts)[n] == NewEntry(steps[k].dependsOn, steps[k].timeout, maxAttempts)
    decreases |steps|
  {
    var last := |steps| - 1;
    if steps[last].encodes && steps[last].name == n {
      k := last;
    } else {
      k := BuildTasksFrom(steps[..last], maxAttempts, n);
    }
  }

  lemma {:induction false} RecoverTasksFrom(steps: seq<StepSpec>, rec: map<string, RecoveredStep>, maxAttempts: int, now: int, n: string)
    returns (k: nat)
    requires n in RecoverTasks(steps, rec, maxAttempts, now)
    ensures k < |steps| && steps[k].name == n
    ensures var e := NewEntry(steps[k].dependsOn, steps[k].timeout, maxAttempts);
      RecoverTasks(steps, rec, maxAttempts, now)[n] == if n in rec then RecoverEntry(e, rec[n], now) else e
    decreases |steps|
  {
    var last := |steps| - 1;
    if steps[last].name == n {
      k := last;
    } else {
      k := RecoverTasksFrom(steps[..last], rec, maxAttempts, now, n);
    }
  }

  lemma NewEntryInv(dependsOn: seq<string>, timeout: int, maxAttempts: int, backend: bool, alive: bool)
    requires maxAttempts >= 1
    ensures EntryInv(NewEntry(dependsOn, timeout, maxAttempts), backend, alive)
  {
  }

  lemma RecoverEntryInv(dependsOn: seq<string>, timeout: int, maxAttempts: int, rs: RecoveredStep, now: int, backend: bool, alive: bool)
    requires maxAttempts >= 1 && rs.attempts >= 0
    ensures var e := NewEntry(dependsOn, timeout, maxAttempts);
      && EntryInv(RecoverEntry(e, rs, now), backend, alive)
      && RecoverEntry(e, rs, now).dependsOn == dependsOn
      && RecoverEntry(e, rs, now).status == (if rs.done then Done else if rs.startedAt.Some? then Recovering else Pending)
  {
    var e := NewEntry(dependsOn, timeout, maxAttempts);
    if !rs.done && rs.startedAt.Some? {
      var c := Transition(e, Recovering).(attempts := rs.attempts, leaseAt := Some(now), origin := RecordedRunning);
      ArmWakes(StopTimer(c), Grace);
    }
  }

  /** A run none of whose steps has failed or been skipped yet. */
  predicate NothingBroken(r: RunEntry) {
    && Topological(ViewOf(r).deps, r.order)
    && forall n :: n in r.tasks ==>
         var st := r.tasks[n].status;
         st.Pending? || (r.source.Recovered? && (st.Done? || st.Recovering?))
  }

  lemma NothingBrokenCore(r: RunEntry)
    requires NothingBroken(r)
    ensures Core(ViewOf(r))
    ensures AllTasksSettled(r) ==> PendingWaits(ViewOf(r)) && !AnyFailed(r)
  {
  }

  lemma PromoteUnsettled(r: RunEntry, backend: bool, alive: bool, now: int)
    requires EntriesOk(r, backend, alive) && r.tasks != map[] && !AllTasksSettled(r)
    ensures !AllTasksSettled(PromoteReady(r, backend, now))
  {
    hide EntryInv, Promote;
    PromoteEntries(r, backend, alive, now);
    var n :| n in r.tasks && !Settled(r.tasks[n].status);
    assert n in ViewOf(r).st;
  }

  /*** Whoever holds the slot loses it ***/

  lemma DisplaceStruct(s: State, runID: string)
    requires Struct(s)
    ensures Struct(Displace(s, runID)) && Displace(s, runID).runs == s.runs - {runID}
    ensures |Displace(s, runID).heap| == |s.heap|
  {
    if runID in s.runs {
      var i := s.runs[runID];
      CloseRunStruct(s, i, s.heap[i], Overwritten);
      assert SetRun(s, i, s.heap[i]) == s;
    }
  }

  lemma DisplacedGood(r: RunEntry, backend: bool, alive: bool)
    requires GoodRun(r, backend, alive)
    ensures GoodRun(r.(closing := Overwritten), backend, alive)
  {
    hide RunInv;
    forall n | n in r.tasks ensures EntryInv(r.tasks[n], backend, false) {
      assert EntryInv(r.tasks[n], backend, Awake(r, alive));
    }
  }

  lemma DisplaceInv(s: State, runID: string)
    requires Inv(s)
    ensures Inv(Displace(s, runID)) && runID !in Displace(s, runID).runs
    ensures Displace(s, runID).cfg == s.cfg && Displace(s, runID).alive == s.alive
  {
    hide GoodRun, Struct;
    assert Struct(s);
    DisplaceStruct(s, runID);
    if runID in s.runs && s.runs[runID] < |s.heap| {
      DisplacedGood(s.heap[s.runs[runID]], s.cfg.backend, s.alive);
    }
  }

  lemma EnterStruct(s: State, r: RunEntry)
    requires Struct(s) && r.closing.Open?
    ensures Struct(Track(s, r))
  {
    var d, t := Displace(s, r.runID), Track(s, r);
    DisplaceStruct(s, r.runID);
    forall k | 0 <= k < |s.heap| ensures Tracked(t, k) <==> Tracked(d, k) {
      assert t.heap[k] == d.heap[k];
    }
  }

  lemma EnterSettledStruct(s: State, r: RunEntry)
    requires Struct(s) && AllTasksSettled(r)
    ensures Struct(TrackSettled(s, r))
  {
    var d, t := Displace(s, r.runID), TrackSettled(s, r);
    DisplaceStruct(s, r.runID);
    assert t.runs == d.runs;
    forall k | 0 <= k < |s.heap| ensures Tracked(t, k) <==> Tracked(d, k) {
      assert t.heap[k] == d.heap[k];
    }
  }

  /** A fresh run after its first promotion. */
  lemma EnterGood(r: RunEntry, backend: bool, alive: bool, now: int)
    requires NothingBroken(r) && EntriesOk(r, backend, alive) && StartedOk(r) && r.closing.Open?
    requires r.tasks != map[] ==> !AllTasksSettled(r)
    ensures GoodRun(PromoteReady(r, backend, now), backend, alive)
  {
    hide EntryInv, Promote, Core, PendingWaits, StartedOk;
    NothingBrokenCore(r);
    PromoteReadyInv(r, backend, alive, now);
    if r.tasks != map[] {
      PromoteUnsettled(r, backend, alive, now);
    } else {
      assert PromoteReady(r, backend, now).tasks == map[];
    }
  }

  lemma EnterInv(s: State, r: RunEntry)
    requires Inv(s) && r.closing.Open? && GoodRun(r, s.cfg.backend, s.alive)
    ensures Inv(Track(s, r))
  {
    hide GoodRun, Struct, Displace;
    DisplaceInv(s, r.runID);
    assert Struct(s);
    EnterStruct(s, r);
  }

  lemma AddInv(s: State, runID: string, order: seq<string>, steps: seq<StepSpec>, now: int)
    requires Inv(s) && ValidOrder(order, steps)
    ensures Inv(AddRun(s, runID, order, steps, now))
  {
    hide Core, EntryInv, Inv, GoodRun, Track;
    var r := NewRun(runID, order, BuildTasks(steps, s.cfg.maxAttempts), Added);
    StructOf(s);
    forall n | n in r.tasks
      ensures EntryInv(r.tasks[n], s.cfg.backend, s.alive) && r.tasks[n].status.Pending? && r.tasks[n].origin.Fresh?
      ensures r.tasks[n].starts == 0
      ensures forall d :: d in r.tasks[n].dependsOn ==> IndexOf(order, d) < IndexOf(order, n)
    {
      var k := BuildTasksFrom(steps, s.cfg.maxAttempts, n);
      NewEntryInv(steps[k].dependsOn, steps[k].timeout, s.cfg.maxAttempts, s.cfg.backend, s.alive);
    }
    if r.tasks != map[] {
      var n :| n in r.tasks;
      assert !Settled(r.tasks[n].status);
    }
    EnterGood(r, s.cfg.backend, s.alive, now);
    PromoteKeepsFrame(r, s.cfg.backend, now);
    EnterInv(s, PromoteReady(r, s.cfg.backend, now));
  }

  lemma StructOf(s: State)
    requires Inv(s)
    ensures Struct(s) && s.cfg.maxAttempts >= 1
  {
  }

  lemma {:induction false} ByNameFrom(recovered: seq<RecoveredStep>, n: string) returns (k: nat)
    requires n in ByName(recovered)
    ensures k < |recovered| && ByName(recovered)[n] == recovered[k] && recovered[k].name == n
    decreases |recovered|
  {
    var last := |recovered| - 1;
    if recovered[last].name == n {
      k := last;
    } else {
      k := ByNameFrom(recovered[..last], n);
    }
  }

  lemma RecoverStart(r: RunEntry, steps: seq<StepSpec>, recovered: seq<RecoveredStep>, maxAttempts: int, now: int, backend: bool, alive: bool)
    requires maxAttempts >= 1 && ValidOrder(r.order, steps)
    requires forall k :: 0 <= k < |recovered| ==> recovered[k].attempts >= 0
    requires r.tasks == RecoverTasks(steps, ByName(recovered), maxAttempts, now) && r.source.Recovered?
    ensures NothingBroken(r) && EntriesOk(r, backend, alive) && StartedOk(r)
  {
    hide EntryInv, RecoverEntry, RecoverTasks, ByName;
    var rec := ByName(recovered);
    forall n | n in r.tasks
      ensures EntryInv(r.tasks[n], backend, alive)
      ensures r.tasks[n].status.Pending? || r.tasks[n].status.Done? || r.tasks[n].status.Recovering?
      ensures forall d :: d in r.tasks[n].dependsOn ==> IndexOf(r.order, d) < IndexOf(r.order, n)
    {
      var k := RecoverTasksFrom(steps, rec, maxAttempts, now, n);
      if n in rec {
        var m := ByNameFrom(recovered, n);
        RecoverEntryInv(steps[k].dependsOn, steps[k].timeout, maxAttempts, rec[n], now, backend, alive);
      } else {
        NewEntryInv(steps[k].dependsOn, steps[k].timeout, maxAttempts, backend, alive);
      }
    }
  }

  lemma RecoverInv(s: State, runID: string, order: seq<string>, steps: seq<StepSpec>, recovered: seq<RecoveredStep>, now: int)
    requires Inv(s) && ValidOrder(order, steps)
    requires forall k :: 0 <= k < |recovered| ==> recovered[k].attempts >= 0
    ensures Inv(RecoverRun(s, runID, order, steps, recovered, now))
  {
    hide Core, EntryInv, Inv, GoodRun, RecoverTasks, ByName, PromoteReady, Track, TrackSettled;
    StructOf(s);
    var r := NewRun(runID, order, RecoverTasks(steps, ByName(recovered), s.cfg.maxAttempts, now), Source.Recovered);
    RecoverStart(r, steps, recovered, s.cfg.maxAttempts, now, s.cfg.backend, s.alive);
    if AllTasksSettled(r) {
      RecoverSettledInv(s, r);
    } else {
      EnterGood(r, s.cfg.backend, s.alive, now);
      PromoteKeepsFrame(r, s.cfg.backend, now);
      EnterInv(s, PromoteReady(r, s.cfg.backend, now));
    }
  }

  lemma PromoteKeepsFrame(r: RunEntry, backend: bool, now: int)
    ensures var t := PromoteReady(r, backend, now);
      t.runID == r.runID && t.closing == r.closing && t.source == r.source && t.strays == r.strays
  {
  }

  lemma RecoverSettledInv(s: State, r: RunEntry)
    requires Inv(s) && AllTasksSettled(r) && r.closing.Open?
    requires NothingBroken(r) && EntriesOk(r, s.cfg.backend, s.alive) && StartedOk(r)
    ensures Inv(TrackSettled(s, r))
  {
    hide EntryInv, Core, PendingWaits, Struct, Displace;
    NothingBrokenCore(r);
    RunInvClosing(r, Completed(!AnyFailed(r)), s.cfg.backend, s.alive);
    DisplaceInv(s, r.runID);
    assert Struct(s);
    EnterSettledStruct(s, r);
  }
}
