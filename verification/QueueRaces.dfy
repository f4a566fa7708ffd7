/**
 What a run that enters under a tracked ID does to the run that held it, and the other way round:
 StartRun creates the row of a run before it calls Add, and a reconcile pass tests IsTracking before
 it calls Recover, so either can find the slot of its ID taken.
 */
module QueueRaces {
  import opened Options
  import opened Tasks
  import opened Graph
  import opened Runs
  import opened TaskIDs
  import opened QueueSpec
  import opened QueueInv
  import opened QueueSteps
  import opened QueueHistory
  import opened QueueTheorems

  /*** Overwritten runs ***/

  /** The event takes the slot of run `i`. */
  predicate Overwrites(s: State, ev: Event, i: nat) {
    Enters(ev) && Tracked(s, i) && s.heap[i].runID == EnteringID(ev)
  }

  /** One event overwrites exactly the run whose ID it enters under. */
  lemma OverwrittenByStep(s: State, ev: Event, i: nat)
    requires Inv(s) && Enabled(ev) && i < |s.heap|
    ensures i < |Step(s, ev).heap|
    ensures Step(s, ev).heap[i].closing.Overwritten? <==> s.heap[i].closing.Overwritten? || Overwrites(s, ev, i)
  {
    hide Inv, Step, Enabled, EntryRel, SkipsBlamed;
    StepKeepsHistory(s, ev);
    assert RunRel(s.heap[i], Step(s, ev).heap[i], ModeOf(s, ev).(moves := true));
    if Enters(ev) {
      HeapGrows(s, ev);
      IndexedBy(s, EnteringID(ev));
      assert Step(s, ev).heap[i] == Displace(s, EnteringID(ev)).heap[i];
    }
  }

  lemma EnteredIsClean(s: State, ev: Event)
    requires Inv(s) && Enabled(ev) && Enters(ev)
    ensures |s.heap| < |Step(s, ev).heap|
    ensures Step(s, ev).heap[|s.heap|].strays == {} && !Step(s, ev).heap[|s.heap|].closing.Overwritten?
  {
    hide Inv, Step, Enabled, EntryRel, SkipsBlamed;
    EnteredRel(s, ev);
  }

  /** In every execution, a run is overwritten exactly if some run entered under its ID while it was tracked. */
  lemma {:induction false} OverwrittenIff(s0: State, evs: seq<Event>, i: nat)
    requires Inv(s0) && s0.heap == [] && Possible(evs) && i < |Execute(s0, evs).heap|
    ensures Execute(s0, evs).heap[i].closing.Overwritten? <==>
      exists h :: 0 <= h < |evs| && Overwrites(Execute(s0, evs[..h]), evs[h], i)
    decreases |evs|
  {
    hide Inv, Step, Enabled, Overwrites;
    if evs != [] {
      var init, last := evs[..|evs| - 1], |evs| - 1;
      var s, ev := Execute(s0, init), evs[last];
      ExecuteKeepsInv(s0, init);
      HeapGrows(s, ev);
      if i < |s.heap| {
        OverwrittenByStep(s, ev, i);
        OverwrittenIff(s0, init, i);
        if h :| 0 <= h < |init| && Overwrites(Execute(s0, init[..h]), init[h], i) { assert init[..h] == evs[..h]; }
        if h :| 0 <= h < |evs| && Overwrites(Execute(s0, evs[..h]), evs[h], i) && h != last { assert init[..h] == evs[..h]; }
      } else {
        EnteredIsClean(s, ev);
        forall h | 0 <= h < |evs| ensures !Overwrites(Execute(s0, evs[..h]), evs[h], i) {
          HeapNeverShrinks(s0, evs, h);
        }
      }
    }
  }

  /** A run that has not entered yet cannot be overwritten. */
  lemma HeapNeverShrinks(s0: State, evs: seq<Event>, h: nat)
    requires Inv(s0) && Possible(evs) && h < |evs|
    ensures |Execute(s0, evs[..h]).heap| <= |Execute(s0, evs[..|evs| - 1]).heap|
    ensures forall i: nat :: Overwrites(Execute(s0, evs[..h]), evs[h], i) ==> i < |Execute(s0, evs[..h]).heap|
  {
    hide Inv, Step, Enabled, RunRel;
    var init := evs[..|evs| - 1];
    assert init[..h] == evs[..h];
    ExecuteKeepsHistory(s0, init, h);
  }

  /*** Stray failures ***/

  /**
   The event ends a deadline for good whose entry belongs to an overwritten run, while its run ID leads
   to run `k`: a timeout or grace callback of a step still running or recovering, out of attempts.
   */
  predicate StrayEnds(s: State, ev: Event, k: nat): (b: bool)
    ensures b ==> ev.TimerBody?
  {
    IsStray(s, ev) && k < |s.heap| && s.runs[s.heap[ev.run].runID] == k
  }

  /** Only of overwritten runs, and only told to a tracked one. */
  lemma StrayIsOverwritten(s: State, ev: Event)
    requires Inv(s) && IsStray(s, ev)
    ensures s.heap[ev.run].closing.Overwritten? && Tracked(s, s.runs[s.heap[ev.run].runID])
    ensures s.runs[s.heap[ev.run].runID] != ev.run
  {
    TrackedIfUnfinished(s, ev.run, ev.step);
    IndexedBy(s, s.heap[ev.run].runID);
  }

  /** What such an event does to all runs. */
  lemma StrayStep(s: State, ev: Event)
    requires Inv(s) && IsStray(s, ev)
    ensures var k, t := s.runs[s.heap[ev.run].runID], Step(s, ev);
      && k < |s.heap| == |t.heap| && k != ev.run
      && t.heap[k].tasks == StraySkip(s.heap[k], ev.step).tasks && t.heap[k].strays == s.heap[k].strays + {ev.step}
      && t.heap[k].order == s.heap[k].order && t.heap[k].source == s.heap[k].source
      && t.heap[ev.run].strays == s.heap[ev.run].strays
      && forall h :: 0 <= h < |s.heap| && h != k && h != ev.run ==> t.heap[h] == s.heap[h]
  {
    hide Inv, SkipSet, Finish, AllTasksSettled, AnyFailed;
    StrayIsOverwritten(s, ev);
    var i, n, k := ev.run, ev.step, s.runs[s.heap[ev.run].runID];
    var u := MoveJob(s, i, n, ev.job, Flushing);
    IndexedBy(s, s.heap[i].runID);
    StrayIsLost(s, ev);
    assert u.heap[k] == s.heap[k];
  }

  lemma StrayIsLost(s: State, ev: Event)
    requires Inv(s) && IsStray(s, ev)
    ensures var i, n, k := ev.run, ev.step, s.runs[s.heap[ev.run].runID];
      var u := MoveJob(s, i, n, ev.job, Flushing);
      k < |s.heap| && k != i
      && Step(s, ev) == FailLost(SetEntry(u, i, n, u.heap[i].tasks[n].(timer := None)), k, i, n, ev.now)
  {
    hide FailLost, FailOrRetry;
    StrayIsOverwritten(s, ev);
  }

  /** Run `k` is charged with exactly these. */
  lemma StraysGrowBy(s: State, ev: Event, k: nat)
    requires Inv(s) && Enabled(ev) && k < |s.heap|
    ensures k < |Step(s, ev).heap|
    ensures Step(s, ev).heap[k].strays == s.heap[k].strays + if StrayEnds(s, ev, k) then {ev.step} else {}
  {
    hide Inv, Step, Enabled, EntryRel, SkipsBlamed, IsStray, StraySkip;
    StepKeepsHistory(s, ev);
    assert RunRel(s.heap[k], Step(s, ev).heap[k], ModeOf(s, ev).(moves := true));
    if IsStray(s, ev) { StrayStep(s, ev); }
  }

  /** In every execution, the strays of a run are the steps whose lost deadlines ended for good while their ID led to it. */
  lemma {:induction false} StraysIff(s0: State, evs: seq<Event>, k: nat, n: string)
    requires Inv(s0) && s0.heap == [] && Possible(evs) && k < |Execute(s0, evs).heap|
    ensures n in Execute(s0, evs).heap[k].strays <==>
      exists h :: 0 <= h < |evs| && StrayEnds(Execute(s0, evs[..h]), evs[h], k) && evs[h].step == n
    decreases |evs|
  {
    hide Inv, Step, Enabled, StrayEnds;
    if evs != [] {
      var init, last := evs[..|evs| - 1], |evs| - 1;
      var s, ev := Execute(s0, init), evs[last];
      ExecuteKeepsInv(s0, init);
      HeapGrows(s, ev);
      if k < |s.heap| {
        StraysGrowBy(s, ev, k);
        StraysIff(s0, init, k, n);
        if h :| 0 <= h < |init| && StrayEnds(Execute(s0, init[..h]), init[h], k) && init[h].step == n { assert init[..h] == evs[..h]; }
        if h :| 0 <= h < |evs| && StrayEnds(Execute(s0, evs[..h]), evs[h], k) && evs[h].step == n && h != last {
          assert init[..h] == evs[..h];
        }
      } else {
        EnteredIsClean(s, ev);
        forall h | 0 <= h < |evs| ensures !StrayEnds(Execute(s0, evs[..h]), evs[h], k) {
          NotYetThere(s0, evs, h, k);
        }
      }
    }
  }

  lemma NotYetThere(s0: State, evs: seq<Event>, h: nat, k: nat)
    requires Inv(s0) && Possible(evs) && h < |evs| && k >= |Execute(s0, evs[..|evs| - 1]).heap|
    ensures !StrayEnds(Execute(s0, evs[..h]), evs[h], k)
  {
    hide Inv, Step, Enabled, RunRel, IsStray;
    var init := evs[..|evs| - 1];
    assert init[..h] == evs[..h];
    ExecuteKeepsHistory(s0, init, h);
  }

  /*** Steps skipped for no failure of their run ***/

  /** The event skips step `m` of run `k` although none of its ancestors there has failed. */
  ghost predicate SkipsInVain(s: State, ev: Event, k: nat, m: string) {
    && HasTask(s, k, m) && HasTask(Step(s, ev), k, m)
    && NewlySkipped(s.heap[k], Step(s, ev).heap[k], m) && !HasFailedAncestor(Step(s, ev).heap[k], m)
  }

  /** What a tracked added run skips after a stray failure has no failed ancestor. */
  lemma StrayIsVain(r: RunEntry, t: RunEntry, from: string, m: string)
    requires Core(ViewOf(r)) && r.source.Added? && m in SkipSet(r.tasks, from)
    requires t.tasks == StraySkip(r, from).tasks && t.source == r.source
    ensures NewlySkipped(r, t, m) && !HasFailedAncestor(t, m)
  {
    var d := SkipSetCause(r.tasks, from, m);
    hide SkipSet, Core;
    assert NewlySkipped(r, t, m);
    if HasFailedAncestor(t, m) {
      StrayUndone(r, t, from);
      BlameStays(t, r, m);
      var a :| ViewOf(r).Is(a, Failed) && Ancestor(ViewOf(r), a, m);
      SkippedBelowFailed(ViewOf(r), a, m);
      assert false;
    }
  }

  lemma StrayUndone(r: RunEntry, t: RunEntry, from: string)
    requires t.tasks == StraySkip(r, from).tasks
    ensures ViewOf(r).deps == ViewOf(t).deps
    ensures forall a :: ViewOf(t).Is(a, Failed) ==> ViewOf(r).Is(a, Failed)
  {
    hide SkipSet;
    assert ViewOf(r).deps == ViewOf(t).deps;
  }

  /**
   Step by step: an event skips a step of a tracked added run without a failed ancestor exactly when it
   ends a lost deadline for good under the ID of this run, and the step is among the pending and ready
   steps below the step of that deadline.
   */
  lemma SkipsInVainIff(s: State, ev: Event, k: nat, m: string)
    requires Reachable(s) && Enabled(ev) && Tracked(s, k) && s.heap[k].source.Added?
    ensures SkipsInVain(s, ev, k, m) <==> StrayEnds(s, ev, k) && m in SkipSet(s.heap[k].tasks, ev.step)
  {
    hide Reachable, Inv, Step, Enabled, EntryRel, HasFailedAncestor, SkipSet, IsStray;
    ReachableInv(s);
    TrackedGood(s, k);
    hide Core, PendingWaits, EntriesOk, StartedOk;
    StepKeepsHistory(s, ev);
    assert RunRel(s.heap[k], Step(s, ev).heap[k], ModeOf(s, ev).(moves := true));
    if IsStray(s, ev) {
      StrayStep(s, ev);
      StrayIsOverwritten(s, ev);
      TrackedOpen(s);
      if StrayEnds(s, ev, k) && m in SkipSet(s.heap[k].tasks, ev.step) {
        StrayIsVain(s.heap[k], Step(s, ev).heap[k], ev.step, m);
      }
    }
  }

  /** Some pending or ready step of run `k` depends on the step whose deadline has ended. */
  predicate StrayHits(s: State, ev: Event, k: nat) {
    StrayEnds(s, ev, k) && exists m :: m in s.heap[k].tasks && SkipEdge(s.heap[k].tasks, ev.step, m)
  }

  lemma SomethingBelow(tasks: map<string, Entry>, from: string)
    ensures (exists m :: m in SkipSet(tasks, from)) <==> exists m :: m in tasks && SkipEdge(tasks, from, m)
  {
    hide SkipReaches;
    if m :| m in tasks && SkipEdge(tasks, from, m) {
      SkipReachesStep(tasks, from, from, m);
      assert m in SkipSet(tasks, from);
    }
    if m :| m in SkipSet(tasks, from) {
      var p := FirstHop(tasks, from, m);
    }
  }

  /** A chain of dependents begins with a direct one. */
  lemma FirstHop(tasks: map<string, Entry>, from: string, m: string) returns (d: string)
    requires SkipReaches(tasks, from, m)
    ensures d in tasks && SkipEdge(tasks, from, d)
  {
    var p :| SkipPath(tasks, p) && p[0] == from && p[|p| - 1] == m;
    assert SkipHop(tasks, p, 0);
    d := p[1];
  }

  /** So an event skips anything at all in vain exactly when its callback's own test would have shown it. */
  lemma SkipsSomethingInVainIff(s: State, ev: Event, k: nat)
    requires Reachable(s) && Enabled(ev) && Tracked(s, k) && s.heap[k].source.Added?
    ensures (exists m :: SkipsInVain(s, ev, k, m)) <==> StrayHits(s, ev, k)
  {
    hide Reachable, SkipsInVain, SkipSet, IsStray;
    if m :| SkipsInVain(s, ev, k, m) {
      SkipsInVainIff(s, ev, k, m);
      SomethingBelow(s.heap[k].tasks, ev.step);
    }
    if StrayHits(s, ev, k) {
      assert StrayEnds(s, ev, k);
      SomethingBelow(s.heap[k].tasks, ev.step);
      var m :| m in SkipSet(s.heap[k].tasks, ev.step);
      SkipsInVainIff(s, ev, k, m);
    }
  }

  /*** When the queue does what it promises ***/

  /** Every run entered under an ID that was free. */
  ghost predicate FreeIDs(s0: State, evs: seq<Event>) {
    forall h :: 0 <= h < |evs| && Enters(evs[h]) ==> EnteringID(evs[h]) !in Execute(s0, evs[..h]).runs
  }

  /** No lost deadline ended for good under the ID of run `k`. */
  ghost predicate NoStrays(s0: State, evs: seq<Event>, k: nat) {
    forall h :: 0 <= h < |evs| ==> !StrayEnds(Execute(s0, evs[..h]), evs[h], k)
  }

  lemma NoStraysClean(s0: State, evs: seq<Event>, k: nat)
    requires Inv(s0) && s0.heap == [] && Possible(evs) && k < |Execute(s0, evs).heap| && NoStrays(s0, evs, k)
    ensures Execute(s0, evs).heap[k].strays == {}
  {
    hide Inv, Step, Execute, StrayEnds, Possible;
    forall n ensures n !in Execute(s0, evs).heap[k].strays { StraysIff(s0, evs, k, n); }
  }

  /** With free IDs nothing is ever overwritten, and so nothing strays. */
  lemma FreeIDsAreClean(s0: State, evs: seq<Event>)
    requires Inv(s0) && s0.heap == [] && Possible(evs) && FreeIDs(s0, evs)
    ensures forall i :: 0 <= i < |Execute(s0, evs).heap| ==> !Execute(s0, evs).heap[i].closing.Overwritten?
    ensures forall k: nat :: NoStrays(s0, evs, k)
  {
    hide Inv, Step, Execute, Possible, IsStray;
    forall i | 0 <= i < |Execute(s0, evs).heap| ensures !Execute(s0, evs).heap[i].closing.Overwritten? {
      OverwrittenIff(s0, evs, i);
    }
    forall k: nat, h: nat | h < |evs| ensures !StrayEnds(Execute(s0, evs[..h]), evs[h], k) {
      if StrayEnds(Execute(s0, evs[..h]), evs[h], k) { FreeIDsNoStray(s0, evs, h); }
    }
  }

  lemma FreeIDsNoStray(s0: State, evs: seq<Event>, h: nat)
    requires Inv(s0) && s0.heap == [] && Possible(evs) && FreeIDs(s0, evs) && h < |evs|
    ensures !IsStray(Execute(s0, evs[..h]), evs[h])
  {
    hide Inv, Step, Execute;
    var init := evs[..h];
    ExecuteKeepsInv(s0, init);
    forall g, i: nat | 0 <= g < |init| ensures !Overwrites(Execute(s0, init[..g]), init[g], i) {
      assert init[..g] == evs[..g];
    }
    if IsStray(Execute(s0, init), evs[h]) {
      StrayIsOverwritten(Execute(s0, init), evs[h]);
      OverwrittenIff(s0, init, evs[h].run);
      assert false;
    }
  }

  /**
   As long as no lost deadline ends for good under the ID of an added run, and in particular if every
   run entered under a free ID, its steps are skipped exactly below failed ones and it is a success
   exactly when every step is done.
   */
  lemma ExactWithoutStrays(backend: bool, maxAttempts: int, retryDelay: int, evs: seq<Event>, k: nat)
    requires Possible(evs) && k < |Execute(Initial(backend, maxAttempts, retryDelay), evs).heap|
    requires FreeIDs(Initial(backend, maxAttempts, retryDelay), evs) || NoStrays(Initial(backend, maxAttempts, retryDelay), evs, k)
    ensures var r := Execute(Initial(backend, maxAttempts, retryDelay), evs).heap[k];
      && (r.source.Added? && RanItsCourse(r) ==> forall n ::
            (ViewOf(r).Is(n, Skipped) <==> exists a :: ViewOf(r).Is(a, Failed) && Ancestor(ViewOf(r), a, n)))
      && (r.closing.Completed? ==>
            (r.closing.success <==> forall n :: n in r.tasks ==> r.tasks[n].status.Done?))
  {
    hide Inv, Step, Execute, FreeIDs, NoStrays, Reachable;
    var s0 := Initial(backend, maxAttempts, retryDelay);
    InitialKeepsInv(backend, maxAttempts, retryDelay);
    if FreeIDs(s0, evs) { FreeIDsAreClean(s0, evs); }
    NoStraysClean(s0, evs, k);
    assert Reachable(Execute(s0, evs)) by { ExecutedIsReachable(backend, maxAttempts, retryDelay, evs); }
    var r := Execute(s0, evs).heap[k];
    if r.source.Added? && RanItsCourse(r) {
      forall n ensures ViewOf(r).Is(n, Skipped) <==> exists a :: ViewOf(r).Is(a, Failed) && Ancestor(ViewOf(r), a, n) {
        SkippedExactlyBelowFailure(Execute(s0, evs), k, n);
      }
    }
    if r.closing.Completed? { SuccessIffAllDone(Execute(s0, evs), k); }
  }

  lemma ExecutedIsReachable(backend: bool, maxAttempts: int, retryDelay: int, evs: seq<Event>)
    requires Possible(evs)
    ensures Reachable(Execute(Initial(backend, maxAttempts, retryDelay), evs))
  {
  }
}
