/** How a restarted server turns the rows of its last session into recovered runs. */
module Recovery {
  import opened Options
  import opened Tasks
  import opened Runs
  import opened QueueSpec
  import opened QueueInv
  import opened QueueLoops
  import opened QueueStruct
  import opened Outcomes
  import opened TaskQueue
  import opened QueueSteps
  import opened QueueHistory
  import opened QueueRuns
  import opened Dag
  import Flush

  datatype StepRecord = StepRecord(name: string, status: string, startedAt: Option<int>, attempts: int)

  /**
   A step as the stored pipeline has it.  The flags stand for checks on its text alone: the name is a
   path component, no command is empty, all paths stay inside the workspace, inputs and outputs are
   well formed, the driver has what its runtime needs.  `inputs` are the steps its inputs come from.
   */
  datatype StoredStep = StoredStep(spec: StepSpec, nameOk: bool, commandOk: bool, pathsOk: bool, inputsOk: bool,
                                   inputs: seq<string>, outputsOk: bool, driverOk: bool)

  /** The flags: type and version of the header, the notifications asked for. */
  datatype StoredPipeline = StoredPipeline(headerOk: bool, name: string, steps: seq<StoredStep>, actionsOk: bool)

  /** `pipeline` is None when the stored pipeline is empty or does not decode. */
  datatype RunRecord = RunRecord(runID: string, pipeline: Option<StoredPipeline>, steps: seq<StepRecord>, envResolves: bool)

  function Specs(steps: seq<StoredStep>): (specs: seq<StepSpec>)
    ensures |specs| == |steps| && forall k :: 0 <= k < |steps| ==> specs[k] == steps[k].spec
  {
    seq(|steps|, k requires 0 <= k < |steps| => steps[k].spec)
  }

  /*** What parsing refuses ***/

  predicate NamedWell(s: StoredStep) {
    s.spec.name != "" && s.nameOk
  }

  /** Every step the step refers to is one of `names`, and its own text is in order. */
  predicate WellFormed(s: StoredStep, names: set<string>) {
    && (forall d :: d in s.spec.dependsOn ==> d in names)
    && s.commandOk && s.pathsOk && s.inputsOk && (forall d :: d in s.inputs ==> d in names) && s.outputsOk
  }

  /** What a pipeline has to be: validation accepts nothing else. */
  ghost predicate ValidPipeline(p: StoredPipeline) {
    && p.headerOk && p.name != "" && p.steps != []
    && (forall k :: 0 <= k < |p.steps| ==> NamedWell(p.steps[k]))
    && DistinctNames(Specs(p.steps))
    && (forall k :: 0 <= k < |p.steps| ==> WellFormed(p.steps[k], Names(Specs(p.steps))) && p.steps[k].driverOk)
    && p.actionsOk
  }

  lemma ValidSpelledOut(p: StoredPipeline)
    ensures ValidPipeline(p) <==>
      && p.headerOk && p.name != "" && |p.steps| > 0 && p.actionsOk
      && (forall s :: s in p.steps ==>
            && s.spec.name != "" && s.nameOk && s.commandOk && s.pathsOk && s.inputsOk && s.outputsOk && s.driverOk
            && forall d :: d in s.spec.dependsOn || d in s.inputs ==> exists k :: 0 <= k < |p.steps| && p.steps[k].spec.name == d)
      && (forall j, k :: 0 <= j < k < |p.steps| ==> p.steps[j].spec.name != p.steps[k].spec.name)
  {
    var specs := Specs(p.steps);
    forall d ensures d in Names(specs) <==> exists k :: 0 <= k < |p.steps| && p.steps[k].spec.name == d {
      if k :| 0 <= k < |p.steps| && p.steps[k].spec.name == d { assert specs[k].name == d; }
      if k :| 0 <= k < |specs| && specs[k].name == d { assert p.steps[k].spec.name == d; }
    }
    assert DistinctNames(specs) <==> forall j, k :: 0 <= j < k < |p.steps| ==> p.steps[j].spec.name != p.steps[k].spec.name by {
      assert forall k :: 0 <= k < |specs| ==> specs[k].name == p.steps[k].spec.name;
    }
    assert forall k :: 0 <= k < |p.steps| ==> p.steps[k] in p.steps;
  }

  method ValidateNames(steps: seq<StoredStep>) returns (ok: bool, names: set<string>)
    ensures ok <==> (forall k :: 0 <= k < |steps| ==> NamedWell(steps[k])) && DistinctNames(Specs(steps))
    ensures ok ==> names == Names(Specs(steps))
  {
    names := {};
    for k := 0 to |steps|
      invariant forall n :: n in names <==> exists j :: 0 <= j < k && steps[j].spec.name == n
      invariant forall i :: 0 <= i < k ==> NamedWell(steps[i])
      invariant forall i, j :: 0 <= i < j < k ==> steps[i].spec.name != steps[j].spec.name
    {
      if steps[k].spec.name == "" || !steps[k].nameOk {
        return false, {};
      }
      if steps[k].spec.name in names {
        assert Specs(steps)[k] == steps[k].spec;
        return false, {};
      }
      names := names + {steps[k].spec.name};
    }
    assert forall k :: 0 <= k < |steps| ==> Specs(steps)[k].name == steps[k].spec.name;
    return true, names;
  }

  method AllIn(refs: seq<string>, names: set<string>) returns (ok: bool)
    ensures ok <==> forall d :: d in refs ==> d in names
  {
    for j := 0 to |refs|
      invariant forall h :: 0 <= h < j ==> refs[h] in names
    {
      if refs[j] !in names {
        return false;
      }
    }
    return true;
  }

  /** Names first, then what each step refers to and contains, then drivers, then actions. */
  method Validate(p: StoredPipeline) returns (ok: bool)
    ensures ok <==> ValidPipeline(p)
    ensures ok <==>
      && p.headerOk && p.name != "" && |p.steps| > 0 && p.actionsOk
      && (forall s :: s in p.steps ==>
            && s.spec.name != "" && s.nameOk && s.commandOk && s.pathsOk && s.inputsOk && s.outputsOk && s.driverOk
            && forall d :: d in s.spec.dependsOn || d in s.inputs ==> exists k :: 0 <= k < |p.steps| && p.steps[k].spec.name == d)
      && (forall j, k :: 0 <= j < k < |p.steps| ==> p.steps[j].spec.name != p.steps[k].spec.name)
  {
    ValidSpelledOut(p);
    hide DistinctNames;
    if !p.headerOk || p.name == "" || |p.steps| == 0 {
      return false;
    }
    var named, names := ValidateNames(p.steps);
    if !named {
      return false;
    }
    for k := 0 to |p.steps|
      invariant forall i :: 0 <= i < k ==> WellFormed(p.steps[i], names)
    {
      var known := AllIn(p.steps[k].spec.dependsOn, names);
      var fed := AllIn(p.steps[k].inputs, names);
      if !known || !p.steps[k].commandOk || !p.steps[k].pathsOk || !p.steps[k].inputsOk || !fed || !p.steps[k].outputsOk {
        return false;
      }
    }
    for k := 0 to |p.steps|
      invariant forall i :: 0 <= i < k ==> p.steps[i].driverOk
    {
      if !p.steps[k].driverOk {
        return false;
      }
    }
    return p.actionsOk;
  }

  /** The stored pipeline passes validation and its steps can be put in order. */
  ghost predicate Runnable(pipeline: Option<StoredPipeline>) {
    pipeline.Some? && ValidPipeline(pipeline.value)
    && exists o :: Elements(o) == Names(Specs(pipeline.value.steps)) && ValidOrder(o, Specs(pipeline.value.steps))
  }

  method Plan(pipeline: Option<StoredPipeline>) returns (order: Option<seq<string>>)
    ensures order.Some? <==> Runnable(pipeline)
    ensures order.Some? ==> pipeline.Some? && ValidPipeline(pipeline.value)
    ensures order.None? && pipeline.Some? && ValidPipeline(pipeline.value) ==>
      !exists o :: Elements(o) == Names(Specs(pipeline.value.steps)) && ValidOrder(o, Specs(pipeline.value.steps))
    ensures order.Some? ==>
      && pipeline.Some? && DistinctNames(Specs(pipeline.value.steps))
      && Elements(order.value) == Names(Specs(pipeline.value.steps)) && ValidOrder(order.value, Specs(pipeline.value.steps))
  {
    hide DistinctNames, WellFormed, NamedWell, ValidOrder;
    if pipeline.None? {
      return None;
    }
    var ok := Validate(pipeline.value);
    if !ok {
      return None;
    }
    order := TopoSort(Specs(pipeline.value.steps));
  }

  /*** What the rows say ***/

  predicate RecordedDone(s: StepRecord) {
    s.status == "done" || s.status == "skipped"
  }

  function Carried(s: StepRecord, now: int): seq<RecoveredStep> {
    if RecordedDone(s) then [RecoveredStep(s.name, true, None, 0)]
    else if s.status == "running" then
      [RecoveredStep(s.name, false, Some(if s.startedAt.Some? then s.startedAt.value else now), s.attempts)]
    else []
  }

  function AllCarried(steps: seq<StepRecord>, now: int): seq<RecoveredStep> {
    if steps == [] then [] else AllCarried(steps[..|steps| - 1], now) + Carried(steps[|steps| - 1], now)
  }

  method CarryOver(steps: seq<StepRecord>, now: int) returns (recovered: seq<RecoveredStep>)
    ensures recovered == AllCarried(steps, now)
  {
    recovered := [];
    for k := 0 to |steps|
      invariant recovered == AllCarried(steps[..k], now)
    {
      assert steps[..k + 1][..k] == steps[..k];
      var s := steps[k];
      if s.status == "done" || s.status == "skipped" {
        recovered := recovered + [RecoveredStep(s.name, true, None, 0)];
      } else if s.status == "running" {
        var startedAt := now;
        if s.startedAt.Some? {
          startedAt := s.startedAt.value;
        }
        recovered := recovered + [RecoveredStep(s.name, false, Some(startedAt), s.attempts)];
      }
    }
    assert steps[..|steps|] == steps;
  }

  /** One row per step name, as the table's key has it. */
  predicate OneRowEach(steps: seq<StepRecord>) {
    forall j, k :: 0 <= j < k < |steps| ==> steps[j].name != steps[k].name
  }

  /** One row more tells the queue at most one step more. */
  lemma CarriedMore(steps: seq<StepRecord>, now: int)
    requires steps != []
    ensures var m, c := ByName(AllCarried(steps[..|steps| - 1], now)), Carried(steps[|steps| - 1], now);
      ByName(AllCarried(steps, now)) == if c == [] then m else m[steps[|steps| - 1].name := c[0]]
  {
    var init, c := AllCarried(steps[..|steps| - 1], now), Carried(steps[|steps| - 1], now);
    if c != [] { assert (init + c)[..|init + c| - 1] == init; } else { assert init + c == init; }
  }

  lemma {:induction false} CarriedNames(steps: seq<StepRecord>, now: int, n: string)
    requires forall k :: 0 <= k < |steps| ==> steps[k].name != n
    ensures n !in ByName(AllCarried(steps, now))
    decreases |steps|
  {
    hide Carried;
    if steps != [] {
      CarriedNames(steps[..|steps| - 1], now, n);
      CarriedMore(steps, now);
      hide ByName, AllCarried;
    }
  }

  /** What the queue is told about a step is what its row says. */
  lemma {:induction false} CarriedAs(steps: seq<StepRecord>, now: int, k: nat)
    requires OneRowEach(steps) && k < |steps|
    ensures var m, s := ByName(AllCarried(steps, now)), steps[k];
      && (s.name in m <==> Carried(s, now) != [])
      && (s.name in m ==> [m[s.name]] == Carried(s, now))
      && (s.name in m <==> s.status == "done" || s.status == "skipped" || s.status == "running")
      && (s.status == "done" || s.status == "skipped" ==> m[s.name].done)
      && (s.status == "running" ==>
            && !m[s.name].done && m[s.name].attempts == s.attempts
            && m[s.name].startedAt == Some(if s.startedAt.Some? then s.startedAt.value else now))
    decreases |steps|
  {
    hide ByName, AllCarried, Carried;
    var last := |steps| - 1;
    CarriedMore(steps, now);
    CarriedOne(steps[last], now);
    if k < last {
      CarriedAs(steps[..last], now, k);
    } else {
      CarriedNames(steps[..last], now, steps[last].name);
    }
  }

  lemma CarriedOne(s: StepRecord, now: int)
    ensures |Carried(s, now)| <= 1
    ensures Carried(s, now) != [] <==> s.status == "done" || s.status == "skipped" || s.status == "running"
    ensures s.status == "done" || s.status == "skipped" ==> Carried(s, now)[0].done
    ensures s.status == "running" ==>
      var c := Carried(s, now)[0];
      !c.done && c.attempts == s.attempts && c.startedAt == Some(if s.startedAt.Some? then s.startedAt.value else now)
  {
  }

  /**
   The status a recovered step starts from is the one recorded: done for done and skipped,
   recovering for running with its attempt count, and pending for everything else, failed included.
   */
  lemma RecoveredStatus(steps: seq<StepSpec>, rows: seq<StepRecord>, maxAttempts: int, now: int, k: nat)
    requires OneRowEach(rows) && k < |rows|
    requires rows[k].name in RecoverTasks(steps, ByName(AllCarried(rows, now)), maxAttempts, now)
    ensures var e := RecoverTasks(steps, ByName(AllCarried(rows, now)), maxAttempts, now)[rows[k].name];
      && (e.status.Done? <==> rows[k].status == "done" || rows[k].status == "skipped")
      && (e.status.Recovering? <==> rows[k].status == "running")
      && (e.status.Recovering? ==> e.attempts == rows[k].attempts && e.starts == 0)
      && (e.status.Pending? <==> rows[k].status != "done" && rows[k].status != "skipped" && rows[k].status != "running")
  {
    hide RecoverTasks, ByName, AllCarried;
    CarriedAs(rows, now, k);
    var m := ByName(AllCarried(rows, now));
    var j := RecoverTasksFrom(steps, m, maxAttempts, now, rows[k].name);
    RecoverEntryStatus(NewEntry(steps[j].dependsOn, steps[j].timeout, maxAttempts), rows[k], now);
  }

  lemma RecoverEntryStatus(e: Entry, row: StepRecord, now: int)
    requires e.status.Pending? && e.starts == 0
    ensures Carried(row, now) != [] ==>
      var f := RecoverEntry(e, Carried(row, now)[0], now);
      && (f.status.Done? <==> row.status == "done" || row.status == "skipped") && (f.status.Recovering? <==> row.status == "running")
      && (f.status.Recovering? ==> f.attempts == row.attempts) && f.starts == 0 && !f.status.Pending?
  {
  }

  /*** The scan ***/

  lemma {:induction false} ExecuteConcat(s: State, a: seq<Event>, b: seq<Event>)
    ensures Execute(s, a + b) == Execute(Execute(s, a), b)
    decreases |b|
  {
    hide Step;
    if b == [] {
      assert a + b == a;
    } else {
      var init := b[..|b| - 1];
      ExecuteConcat(s, a, init);
      assert (a + b)[..|a + b| - 1] == a + init;
    }
  }

  /** What happens to the queue otherwise: scopes the environment may ask for, of validated pipelines. */
  predicate Ordinary(evs: seq<Event>) {
    Possible(evs) && forall k :: 0 <= k < |evs| ==> Validated(evs[k])
  }

  /** What other goroutines do to the queue while the scan is busy elsewhere. */
  method Meanwhile(q: Queue, evs: seq<Event>) returns (outs: seq<Outcome>)
    requires q.Valid() && Ordinary(evs)
    modifies q
    ensures q.Valid() && q.St() == Execute(old(q.St()), evs)
  {
    hide q.Valid, Step, Execute, Validated, Owed, Flush.Proper;
    ghost var s0 := q.St();
    outs := [];
    ExecuteNothing(s0, evs);
    for k := 0 to |evs|
      invariant q.Valid() && q.St() == Execute(s0, evs[..k])
    {
      OneMoreEvent(s0, evs, k);
      var out := Perform(q, evs[k]);
      outs := outs + [out];
    }
    assert evs[..|evs|] == evs;
  }

  /** Rows with the attempt counts the environment promises. */
  predicate SaneRows(r: RunRecord) {
    forall k :: 0 <= k < |r.steps| ==> r.steps[k].attempts >= 0
  }

  lemma {:induction false} CarriedAttempts(steps: seq<StepRecord>, now: int)
    requires forall k :: 0 <= k < |steps| ==> steps[k].attempts >= 0
    ensures forall k :: 0 <= k < |AllCarried(steps, now)| ==> AllCarried(steps, now)[k].attempts >= 0
    decreases |steps|
  {
    if steps != [] { CarriedAttempts(steps[..|steps| - 1], now); }
  }

  /** The recovery of the run of this row, with some order of its steps. */
  ghost predicate RecoversRow(ev: Event, r: RunRecord, now: int) {
    && ev.Recover? && ev.runID == r.runID && r.pipeline.Some? && ev.steps == Specs(r.pipeline.value.steps)
    && ev.recovered == AllCarried(r.steps, now) && ev.now == now && ValidOrder(ev.order, ev.steps)
  }

  lemma RecoveryEnabled(r: RunRecord, order: seq<string>, now: int)
    requires SaneRows(r) && Runnable(r.pipeline) && ValidOrder(order, Specs(r.pipeline.value.steps))
    ensures var ev := Event.Recover(r.runID, order, Specs(r.pipeline.value.steps), AllCarried(r.steps, now), now);
      Enabled(ev) && RecoversRow(ev, r, now)
  {
    CarriedAttempts(r.steps, now);
  }

  /**
   One row.  The test whether the run is tracked and its recovery are two lock scopes of the queue, and
   `meanwhile` is what happens to the queue between them.  A tracked run is left alone, a run that cannot
   be rebuilt is marked failed, any other is recovered, whatever its ID leads to by then.
   */
  method RecoverOne(q: Queue, r: RunRecord, meanwhile: seq<Event>, now: int) returns (failed: bool, outs: seq<Outcome>, ghost evs: seq<Event>)
    requires q.Valid() && Inv(q.St()) && SaneRows(r) && Ordinary(meanwhile)
    modifies q
    ensures q.Valid() && Inv(q.St()) && Possible(evs) && q.St() == Execute(old(q.St()), evs)
    ensures failed <==> r.runID !in old(q.runs) && !(Runnable(r.pipeline) && r.envResolves)
    ensures r.runID in old(q.runs) || failed ==> evs == []
    ensures r.runID !in old(q.runs) && !failed ==>
      |evs| == |meanwhile| + 1 && evs[..|meanwhile|] == meanwhile && RecoversRow(evs[|meanwhile|], r, now)
  {
    hide q.Valid, Inv, Step, Execute, AllCarried, DistinctNames, ValidOrder, Validated, RecoverRun, Enabled, SaneRows, Runnable, RecoversRow;
    ghost var s0 := q.St();
    failed, outs, evs := false, [], [];
    ExecuteNothing(s0, []);
    var tracking := q.IsTracking(r.runID);
    Listed(q, r.runID);
    if tracking {
      return;
    }
    var plan := Plan(r.pipeline);
    if plan.None? || !r.envResolves {
      failed := true;
      return;
    }
    var recovered := CarryOver(r.steps, now);
    outs := Meanwhile(q, meanwhile);
    var steps := Specs(r.pipeline.value.steps);
    var out := q.Recover(r.runID, plan.value, steps, recovered, now);
    outs := outs + [out];
    evs := meanwhile + [Event.Recover(r.runID, plan.value, steps, recovered, now)];
    RecoveryEnabled(r, plan.value, now);
    Performed(s0, meanwhile, evs[|meanwhile|]);
    ExecuteKeepsInv(s0, evs);
  }

  lemma Performed(s0: State, meanwhile: seq<Event>, ev: Event)
    requires Possible(meanwhile) && Enabled(ev) && ev.Recover?
    ensures Possible(meanwhile + [ev])
    ensures Execute(s0, meanwhile + [ev])
         == RecoverRun(Execute(s0, meanwhile), ev.runID, ev.order, ev.steps, ev.recovered, ev.now)
  {
    hide Enabled, RecoverRun;
    assert (meanwhile + [ev])[..|meanwhile|] == meanwhile;
  }

  /** The run was tracked when its row came up, or was marked failed, or has been recovered. */
  ghost predicate Handled(s0: State, evs: seq<Event>, r: RunRecord, failed: set<string>, now: int) {
    || r.runID in failed
    || exists h :: 0 <= h <= |evs| && (r.runID in Execute(s0, evs[..h]).runs || (h < |evs| && RecoversRow(evs[h], r, now)))
  }

  lemma StillHandled(s0: State, evs: seq<Event>, more: seq<Event>, r: RunRecord, failed: set<string>, further: set<string>, now: int)
    requires Handled(s0, evs, r, failed, now) && failed <= further
    ensures Handled(s0, evs + more, r, further, now)
  {
    hide Execute, RecoversRow;
    if r.runID !in failed {
      var h :| 0 <= h <= |evs| && (r.runID in Execute(s0, evs[..h]).runs || (h < |evs| && RecoversRow(evs[h], r, now)));
      assert (evs + more)[..h] == evs[..h];
      if h < |evs| { assert (evs + more)[h] == evs[h]; }
    }
  }

  /** Marked failed, because it cannot be rebuilt. */
  ghost predicate Unrunnable(records: seq<RunRecord>, id: string) {
    exists k :: 0 <= k < |records| && records[k].runID == id && !(Runnable(records[k].pipeline) && records[k].envResolves)
  }

  ghost predicate AllHandled(s0: State, evs: seq<Event>, records: seq<RunRecord>, failed: set<string>, now: int) {
    forall k :: 0 <= k < |records| ==> Handled(s0, evs, records[k], failed, now)
  }

  /** Only runs that cannot be rebuilt. */
  ghost predicate OnlyUnrunnable(records: seq<RunRecord>, failed: set<string>) {
    forall id :: id in failed ==> Unrunnable(records, id)
  }

  /**
   RecoverInterruptedRuns over a list of rows whose status is running, with anything going on in the
   queue at the same time: every run is handled, only runs that cannot be rebuilt are marked failed, and
   the queue goes through an execution of its machine, so everything proved of those still holds.
   */
  method RecoverInterruptedRuns(q: Queue, records: seq<RunRecord>, meanwhile: seq<seq<Event>>, now: int)
    returns (failed: set<string>, outs: seq<Outcome>, ghost evs: seq<Event>)
    requires q.Valid() && Inv(q.St()) && |meanwhile| == |records|
    requires forall k :: 0 <= k < |records| ==> SaneRows(records[k]) && Ordinary(meanwhile[k])
    modifies q
    ensures q.Valid() && Inv(q.St()) && Possible(evs) && q.St() == Execute(old(q.St()), evs)
    ensures OnlyUnrunnable(records, failed) && AllHandled(old(q.St()), evs, records, failed, now)
  {
    ghost var s0 := q.St();
    hide q.Valid, Inv, Step, Execute, Handled, AllHandled, Runnable, SaneRows, Ordinary, Possible, RecoversRow, OnlyUnrunnable;
    NothingHandled(s0, records, now);
    PossibleConcat([], []);
    failed, outs, evs := {}, [], [];
    ExecuteNothing(s0, []);
    for n := 0 to |records|
      invariant q.Valid() && Inv(q.St()) && Possible(evs) && q.St() == Execute(s0, evs)
      invariant OnlyUnrunnable(records, failed) && AllHandled(s0, evs, records[..n], failed, now)
    {
      ghost var evs1, f1 := evs, failed;
      var bad, more, went := RecoverOne(q, records[n], meanwhile[n], now);
      if bad {
        failed := failed + {records[n].runID};
        FailedUnrunnable(records, f1, n);
      }
      outs := outs + more;
      evs := evs + went;
      ExecuteConcat(s0, evs1, went);
      PossibleConcat(evs1, went);
      AllStillHandled(s0, evs1, went, records[..n], f1, failed, now);
      NowHandled(s0, evs1, went, meanwhile[n], records[n], failed, now);
      OneMoreHandled(s0, evs, records, n, failed, now);
    }
    assert records[..|records|] == records;
  }

  lemma NothingHandled(s0: State, records: seq<RunRecord>, now: int)
    ensures OnlyUnrunnable(records, {}) && AllHandled(s0, [], records[..0], {}, now)
  {
  }

  lemma OneMoreHandled(s0: State, evs: seq<Event>, records: seq<RunRecord>, n: nat, failed: set<string>, now: int)
    requires n < |records| && AllHandled(s0, evs, records[..n], failed, now) && Handled(s0, evs, records[n], failed, now)
    ensures AllHandled(s0, evs, records[..n + 1], failed, now)
  {
    hide Handled;
    var rows := records[..n + 1];
    forall k | 0 <= k < |rows| ensures Handled(s0, evs, rows[k], failed, now) {
      if k < n { assert rows[k] == records[..n][k]; }
    }
  }

  lemma PossibleConcat(a: seq<Event>, b: seq<Event>)
    ensures Possible([]) && (Possible(a) && Possible(b) ==> Possible(a + b))
  {
  }

  lemma FailedUnrunnable(records: seq<RunRecord>, failed: set<string>, n: nat)
    requires n < |records| && !(Runnable(records[n].pipeline) && records[n].envResolves) && OnlyUnrunnable(records, failed)
    ensures OnlyUnrunnable(records, failed + {records[n].runID})
  {
    hide Runnable;
  }

  lemma AllStillHandled(s0: State, evs: seq<Event>, more: seq<Event>, records: seq<RunRecord>,
                        failed: set<string>, further: set<string>, now: int)
    requires failed <= further && AllHandled(s0, evs, records, failed, now)
    ensures AllHandled(s0, evs + more, records, further, now)
  {
    hide Handled;
    forall k | 0 <= k < |records| ensures Handled(s0, evs + more, records[k], further, now) {
      StillHandled(s0, evs, more, records[k], failed, further, now);
    }
  }

  lemma NowHandled(s0: State, evs: seq<Event>, went: seq<Event>, meanwhile: seq<Event>, r: RunRecord, failed: set<string>, now: int)
    requires r.runID in Execute(s0, evs).runs || r.runID in failed
          || (|went| == |meanwhile| + 1 && RecoversRow(went[|meanwhile|], r, now))
    ensures Handled(s0, evs + went, r, failed, now)
  {
    hide Execute, RecoversRow;
    assert (evs + went)[..|evs|] == evs;
    if r.runID !in Execute(s0, evs).runs && r.runID !in failed {
      assert (evs + went)[|evs| + |meanwhile|] == went[|meanwhile|];
    }
  }

  lemma Listed(q: Queue, runID: string)
    requires q.Valid()
    ensures (exists i: nat :: Tracked(q.St(), i) && q.heap[i].runID == runID && q.heap[i].closing.Open?) <==> runID in q.runs
  {
    if runID in q.runs { IndexedAt(q.St(), runID); }
  }
}
