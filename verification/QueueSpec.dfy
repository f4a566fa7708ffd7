/**
 The queue as a state machine.  One event is one `q.mu` scope, one step of a dispatch
 goroutine, or the Go runtime firing a timer.  `heap` keeps every run entry ever
 created, so that a callback can still hold one the queue has dropped; `runs` is
 `q.runs` and maps a run ID to its entry.
 */
module QueueSpec {
  import opened Options
  import opened Tasks
  import opened Graph
  import opened Runs
  import opened TaskIDs

  datatype Config = Config(backend: bool, maxAttempts: int, retryDelay: int)

  datatype State = State(heap: seq<RunEntry>, runs: map<string, nat>, cfg: Config, alive: bool)

  /** `encodes`: json.Marshal accepts the step. */
  datatype StepSpec = StepSpec(name: string, dependsOn: seq<string>, timeout: int, encodes: bool)

  /** `startedAt` is None for Go's zero time. */
  datatype RecoveredStep = RecoveredStep(name: string, done: bool, startedAt: Option<int>, attempts: int)

  datatype Reply = Accepted | Busy | Refused(runtimeID: string)

  datatype Event =
    | Add(runID: string, order: seq<string>, steps: seq<StepSpec>, now: int)
    | Recover(runID: string, order: seq<string>, steps: seq<StepSpec>, recovered: seq<RecoveredStep>, now: int)
    | Complete(result: Result, routerOwner: string, now: int)
    | Cancel(runID: string)
    | RenewLeases(runtimeID: string, taskIDs: seq<string>, now: int)
    | Cleanup(cutoff: int)
    | SetRetryPolicy(maxAttempts: int, retryDelay: int)
    | Shutdown
    | TimerFires(run: nat, step: string, job: nat)
    | TimerBody(run: nat, step: string, job: nat, now: int)
    | DispatchCheck(run: nat, step: string, job: nat)
    | DispatchReturns(run: nat, step: string, job: nat, reply: Reply, routerOwner: string, now: int)
    | JobEnds(run: nat, step: string, job: nat)

  /*** Small state edits ***/

  function SetRun(s: State, i: nat, r: RunEntry): State
    requires i < |s.heap|
  {
    s.(heap := s.heap[i := r])
  }

  predicate HasTask(s: State, i: nat, n: string) {
    i < |s.heap| && n in s.heap[i].tasks
  }

  function SetEntry(s: State, i: nat, n: string, e: Entry): State
    requires i < |s.heap|
  {
    SetRun(s, i, SetTask(s.heap[i], n, e))
  }

  predicate Tracked(s: State, i: nat) {
    i < |s.heap| && s.heap[i].runID in s.runs && s.runs[s.heap[i].runID] == i
  }

  /*** Entering the queue ***/

  function BuildTasks(steps: seq<StepSpec>, maxAttempts: int): map<string, Entry> {
    if steps == [] then map[]
    else
      var tasks, s := BuildTasks(steps[..|steps| - 1], maxAttempts), steps[|steps| - 1];
      if s.encodes then tasks[s.name := NewEntry(s.dependsOn, s.timeout, maxAttempts)] else tasks
  }

  /** A run that enters takes the table's slot of its ID: the entry that held it stays as it is, but nobody finds it any more. */
  function Displace(s: State, runID: string): State {
    if runID in s.runs && s.runs[runID] < |s.heap| then CloseRun(s, s.runs[runID], Overwritten) else s
  }

  function Track(s: State, r: RunEntry): State {
    var t := Displace(s, r.runID);
    t.(heap := t.heap + [r], runs := t.runs[r.runID := |t.heap|])
  }

  function AddRun(s: State, runID: string, order: seq<string>, steps: seq<StepSpec>, now: int): State {
    Track(s, PromoteReady(NewRun(runID, order, BuildTasks(steps, s.cfg.maxAttempts), Added), s.cfg.backend, now))
  }

  function ByName(recovered: seq<RecoveredStep>): map<string, RecoveredStep> {
    if recovered == [] then map[]
    else
      var last := recovered[|recovered| - 1];
      ByName(recovered[..|recovered| - 1])[last.name := last]
  }

  function RecoverEntry(e: Entry, rs: RecoveredStep, now: int): Entry {
    if rs.done then Transition(e, Done).(origin := RecordedDone)
    else if rs.startedAt.Some? then
      Rearm(Transition(e, Recovering).(attempts := rs.attempts, leaseAt := Some(now), origin := RecordedRunning), Grace)
    else e
  }

  function RecoverTasks(steps: seq<StepSpec>, recovered: map<string, RecoveredStep>, maxAttempts: int, now: int): map<string, Entry> {
    if steps == [] then map[]
    else
      var tasks, s := RecoverTasks(steps[..|steps| - 1], recovered, maxAttempts, now), steps[|steps| - 1];
      var e := NewEntry(s.dependsOn, s.timeout, maxAttempts);
      tasks[s.name := if s.name in recovered then RecoverEntry(e, recovered[s.name], now) else e]
  }

  /** A run with nothing left to do is finalized at once, which also clears the slot of its ID. */
  function TrackSettled(s: State, r: RunEntry): State {
    var t := Displace(s, r.runID);
    t.(heap := t.heap + [r.(closing := Completed(!AnyFailed(r)))], runs := t.runs - {r.runID})
  }

  function RecoverRun(s: State, runID: string, order: seq<string>, steps: seq<StepSpec>,
                      recovered: seq<RecoveredStep>, now: int): State {
    var r := NewRun(runID, order, RecoverTasks(steps, ByName(recovered), s.cfg.maxAttempts, now), Source.Recovered);
    if AllTasksSettled(r) then TrackSettled(s, r) else Track(s, PromoteReady(r, s.cfg.backend, now))
  }

  /*** Leaving it ***/

  function CloseRun(s: State, i: nat, c: Closing): State
    requires i < |s.heap|
  {
    s.(heap := s.heap[i := s.heap[i].(closing := c)], runs := s.runs - {s.heap[i].runID})
  }

  function CloseIfSettled(s: State, i: nat): State
    requires i < |s.heap|
  {
    if AllTasksSettled(s.heap[i]) then CloseRun(s, i, Completed(!AnyFailed(s.heap[i]))) else s
  }

  /*** A step ends ***/

  function CompleteDone(s: State, i: nat, n: string, now: int): State
    requires HasTask(s, i, n)
  {
    var r := SetTask(s.heap[i], n, Finish(s.heap[i].tasks[n], Done));
    CloseIfSettled(SetRun(s, i, PromoteReady(r, s.cfg.backend, now)), i)
  }

  ghost function FailOrRetry(s: State, i: nat, n: string, now: int): State
    requires HasTask(s, i, n)
  {
    var e := s.heap[i].tasks[n];
    if e.attempts < e.maxAttempts then
      SetEntry(s, i, n, RetryLater(e, s.cfg.retryDelay, s.cfg.backend, now))
    else
      CloseIfSettled(SetRun(s, i, SkipDownstream(SetTask(s.heap[i], n, Finish(e, Failed)), n)), i)
  }

  /** The same for an entry of an overwritten run: its run ID leads to another run `k`, whose steps are skipped. */
  ghost function FailLost(s: State, k: nat, i: nat, n: string, now: int): State
    requires HasTask(s, i, n) && k < |s.heap| && k != i
  {
    var e := s.heap[i].tasks[n];
    if e.attempts < e.maxAttempts then
      SetEntry(s, i, n, RetryLater(e, s.cfg.retryDelay, s.cfg.backend, now))
    else
      CloseIfSettled(SetRun(SetEntry(s, i, n, Finish(e, Failed)), k, StraySkip(s.heap[k], n)), k)
  }

  /** A deadline has passed: the entry comes with the callback, the run is looked up by its ID. */
  ghost function DeadlinePassed(s: State, i: nat, n: string, now: int): State
    requires HasTask(s, i, n)
  {
    if s.heap[i].runID !in s.runs || s.runs[s.heap[i].runID] >= |s.heap| then s
    else
      var k, t := s.runs[s.heap[i].runID], SetEntry(s, i, n, s.heap[i].tasks[n].(timer := None));
      if k == i then FailOrRetry(t, i, n, now) else FailLost(t, k, i, n, now)
  }

  /** How `Complete` judges a report, and what it leaves behind. */
  function JudgeResult(s: State, res: Result, routerOwner: string): Verdict {
    match SplitTaskID(res.taskID)
    case None => BadTaskID
    case Some((runID, n)) =>
      if runID !in s.runs then RunNotTracked
      else if !HasTask(s, s.runs[runID], n) then StepNotFound
      else Judge(s.heap[s.runs[runID]].tasks[n], res, routerOwner)
  }

  ghost function CompleteResult(s: State, res: Result, routerOwner: string, now: int): State {
    if JudgeResult(s, res, routerOwner) != Applied then s
    else
      var (runID, n) := SplitTaskID(res.taskID).value;
      var i := s.runs[runID];
      var t := SetEntry(s, i, n, Adopt(s.heap[i].tasks[n], res));
      if res.done then CompleteDone(t, i, n, now) else FailOrRetry(t, i, n, now)
  }

  /*** Cancel, leases, cleanup ***/

  function CancelTasks(tasks: map<string, Entry>): map<string, Entry> {
    map n | n in tasks :: if Terminal(tasks[n].status) then tasks[n] else CancelEntry(tasks[n])
  }

  function CancelState(s: State, runID: string): State {
    if runID !in s.runs || s.runs[runID] >= |s.heap| then s
    else
      var i := s.runs[runID];
      CloseRun(SetRun(s, i, s.heap[i].(tasks := CancelTasks(s.heap[i].tasks))), i, CanceledRun)
  }

  predicate Renewable(e: Entry, runtimeID: string) {
    && (e.status.Running? || e.status.Recovering?)
    && (if e.assignedRuntimeID == "" then e.taskRuntimeID == "" || e.taskRuntimeID == runtimeID
        else e.assignedRuntimeID == runtimeID)
  }

  function RenewEntry(e: Entry, runtimeID: string, now: int): Entry {
    if !Renewable(e, runtimeID) then e
    else
      var o := e.(assignedRuntimeID := runtimeID);
      (if o.status.Recovering? then Transition(StopTimer(o), Running) else o).(leaseAt := Some(now))
  }

  function RenewOne(s: State, runtimeID: string, taskID: string, now: int): State {
    match SplitTaskID(taskID)
    case None => s
    case Some((runID, n)) =>
      if runID !in s.runs || !HasTask(s, s.runs[runID], n) then s
      else
        var i := s.runs[runID];
        SetEntry(s, i, n, RenewEntry(s.heap[i].tasks[n], runtimeID, now))
  }

  function RenewAll(s: State, runtimeID: string, taskIDs: seq<string>, now: int): State {
    if taskIDs == [] then s
    else RenewOne(RenewAll(s, runtimeID, taskIDs[..|taskIDs| - 1], now), runtimeID, taskIDs[|taskIDs| - 1], now)
  }

  predicate LeaseExpired(e: Entry, cutoff: int) {
    (e.status.Running? || e.status.Recovering?) && e.leaseAt.Some? && e.leaseAt.value < cutoff
  }

  predicate RunExpired(r: RunEntry, cutoff: int) {
    exists n :: n in r.tasks && LeaseExpired(r.tasks[n], cutoff)
  }

  function ExpireTasks(tasks: map<string, Entry>): map<string, Entry> {
    map n | n in tasks :: if Terminal(tasks[n].status) then tasks[n] else Finish(tasks[n], Failed)
  }

  function ExpireRun(s: State, i: nat): State
    requires i < |s.heap|
  {
    CloseRun(SetRun(s, i, s.heap[i].(tasks := ExpireTasks(s.heap[i].tasks))), i, Expired)
  }

  predicate Expires(s: State, i: nat, cutoff: int) {
    Tracked(s, i) && RunExpired(s.heap[i], cutoff)
  }

  function CleanupState(s: State, cutoff: int): State {
    s.(heap := seq(|s.heap|, i requires 0 <= i < |s.heap| =>
                 if Expires(s, i, cutoff) then s.heap[i].(tasks := ExpireTasks(s.heap[i].tasks), closing := Expired)
                 else s.heap[i]),
       runs := map id | id in s.runs && !(s.runs[id] < |s.heap| && RunExpired(s.heap[s.runs[id]], cutoff)) :: s.runs[id])
  }

  /*** Goroutines and timers ***/

  predicate HasJob(s: State, i: nat, n: string, j: nat) {
    HasTask(s, i, n) && j < |s.heap[i].tasks[n].jobs|
  }

  predicate JobIn(s: State, i: nat, n: string, j: nat, p: Phase) {
    HasJob(s, i, n, j) && s.heap[i].tasks[n].jobs[j].phase == p
  }

  predicate IsDispatch(s: State, i: nat, n: string, j: nat)
    requires HasJob(s, i, n, j)
  {
    s.heap[i].tasks[n].jobs[j].kind.DispatchCall?
  }

  function MoveJob(s: State, i: nat, n: string, j: nat, p: Phase): State
    requires HasJob(s, i, n, j)
  {
    SetEntry(s, i, n, SetPhase(s.heap[i].tasks[n], j, p))
  }

  /** The locked part of a timer callback; its job already counts as flushing. */
  ghost function Callback(s: State, i: nat, n: string, kind: JobKind, now: int): State
    requires HasTask(s, i, n)
  {
    var e := s.heap[i].tasks[n];
    match kind
    case Timeout => if s.alive && e.status.Running? then DeadlinePassed(s, i, n, now) else s
    case Grace => if s.alive && e.status.Recovering? then DeadlinePassed(s, i, n, now) else s
    case Requeue =>
      if s.alive && e.status.Ready?
      then SetEntry(s, i, n, Dispatch(e.(timer := None), s.cfg.backend, now))
      else SetEntry(s, i, n, e.(timer := None))
    case Retry =>
      if e.status.Retrying?
      then SetEntry(s, i, n, Dispatch(Transition(e.(timer := None), Ready), s.cfg.backend, now)) else s
    case DispatchCall => s
  }

  function Requeued(s: State, runID: string, n: string, from: nat): State {
    if runID !in s.runs || !HasTask(s, s.runs[runID], n) then s
    else
      var i := s.runs[runID];
      if !s.heap[i].tasks[n].status.Running? then s
      else SetEntry(s, i, n, BusyRequeue(s.heap[i].tasks[n], i != from))
  }

  /** What the backend's answer makes the dispatch goroutine do. */
  ghost function DispatchDone(s: State, i: nat, n: string, attempt: int, reply: Reply, routerOwner: string, now: int): State
    requires i < |s.heap|
  {
    match reply
    case Accepted => s
    case Busy => Requeued(s, s.heap[i].runID, n, i)
    case Refused(runtimeID) =>
      CompleteResult(s, Result(MakeTaskID(s.heap[i].runID, n), runtimeID, false, attempt), routerOwner, now)
  }

  /*** The step function ***/

  ghost function Step(s: State, ev: Event): State {
    match ev
    case Add(runID, order, steps, now) => AddRun(s, runID, order, steps, now)
    case Recover(runID, order, steps, recovered, now) => RecoverRun(s, runID, order, steps, recovered, now)
    case Complete(res, owner, now) => CompleteResult(s, res, owner, now)
    case Cancel(runID) => CancelState(s, runID)
    case RenewLeases(runtimeID, taskIDs, now) => if runtimeID == "" then s else RenewAll(s, runtimeID, taskIDs, now)
    case Cleanup(cutoff) => CleanupState(s, cutoff)
    case SetRetryPolicy(m, d) => s.(cfg := s.cfg.(maxAttempts := if m < 1 then 1 else m, retryDelay := d))
    case Shutdown => s.(alive := false)
    case TimerFires(i, n, j) =>
      if JobIn(s, i, n, j, Waiting) && !IsDispatch(s, i, n, j) then MoveJob(s, i, n, j, Active) else s
    case TimerBody(i, n, j, now) =>
      if JobIn(s, i, n, j, Active) && !IsDispatch(s, i, n, j)
      then Callback(MoveJob(s, i, n, j, Flushing), i, n, s.heap[i].tasks[n].jobs[j].kind, now) else s
    case DispatchCheck(i, n, j) =>
      if JobIn(s, i, n, j, Waiting) && IsDispatch(s, i, n, j)
      then MoveJob(s, i, n, j, if s.heap[i].tasks[n].status.Canceled? then Flushing else Active) else s
    case DispatchReturns(i, n, j, reply, owner, now) =>
      if JobIn(s, i, n, j, Active) && IsDispatch(s, i, n, j)
      then DispatchDone(MoveJob(s, i, n, j, Flushing), i, n, s.heap[i].tasks[n].jobs[j].attempt, reply, owner, now) else s
    case JobEnds(i, n, j) =>
      if JobIn(s, i, n, j, Flushing) then MoveJob(s, i, n, j, Finished) else s
  }
}
