/**
 One run of the queue (`runEntry`).  The run-wide helpers of the queue are stated as
 functions that do not depend on the order in which a Go map is iterated.
 */
module Runs {
  import opened Options
  import opened Tasks
  import opened Graph

  datatype Source = Added | Recovered

  /**
   How a run left the queue's table, if it did.  `Overwritten`: another entry took its ID while it
   was still there; nobody closes such a run.
   */
  datatype Closing = Open | Completed(success: bool) | CanceledRun | Expired | Overwritten

  /**
   `strays` are the steps of overwritten runs of the same ID whose deadline ended for good while this
   run was tracked: their dependents here were skipped.  Like `source` and `closing` it is on record
   only, no operation reads it.
   */
  datatype RunEntry = RunEntry(
    runID: string,
    order: seq<string>,
    tasks: map<string, Entry>,
    source: Source,
    closing: Closing,
    strays: set<string>)

  function NewRun(runID: string, order: seq<string>, tasks: map<string, Entry>, source: Source): RunEntry {
    RunEntry(runID, order, tasks, source, Open, {})
  }

  function ViewOf(r: RunEntry): View {
    View(map n | n in r.tasks :: r.tasks[n].dependsOn, map n | n in r.tasks :: r.tasks[n].status,
         r.order, r.source.Added?, r.strays)
  }

  predicate AllTerminal(r: RunEntry) {
    forall n :: n in r.tasks ==> Terminal(r.tasks[n].status)
  }

  predicate AllTasksSettled(r: RunEntry) {
    forall n :: n in r.tasks ==> Settled(r.tasks[n].status)
  }

  predicate AnyFailed(r: RunEntry) {
    exists n :: n in r.tasks && r.tasks[n].status.Failed?
  }

  function SetTask(r: RunEntry, n: string, e: Entry): RunEntry {
    r.(tasks := r.tasks[n := e])
  }

  /*** promoteReady ***/

  function DoneNames(tasks: map<string, Entry>): set<string> {
    set n | n in tasks && (tasks[n].status.Done? || tasks[n].status.Skipped?)
  }

  predicate DepsAllDone(deps: seq<string>, done: set<string>) {
    forall d :: d in deps ==> d in done
  }

  function PromoteOne(e: Entry, done: set<string>, backend: bool, now: int): Entry {
    if e.status.Pending? && DepsAllDone(e.dependsOn, done) then Promote(e, backend, now) else e
  }

  function PromoteReady(r: RunEntry, backend: bool, now: int): RunEntry {
    r.(tasks := map n | n in r.tasks :: PromoteOne(r.tasks[n], DoneNames(r.tasks), backend, now))
  }

  /*** skipDownstream ***/

  predicate Skippable(tasks: map<string, Entry>, n: string) {
    n in tasks && (tasks[n].status.Pending? || tasks[n].status.Ready?)
  }

  predicate SkipEdge(tasks: map<string, Entry>, d: string, n: string) {
    Skippable(tasks, n) && d in tasks[n].dependsOn
  }

  predicate SkipHop(tasks: map<string, Entry>, p: seq<string>, i: nat)
    requires i + 1 < |p|
  {
    SkipEdge(tasks, p[i], p[i + 1])
  }

  /** A chain of direct dependents, each but the first still pending or ready. */
  predicate SkipPath(tasks: map<string, Entry>, p: seq<string>) {
    |p| >= 2 && forall i: nat :: i + 1 < |p| ==> SkipHop(tasks, p, i)
  }

  ghost predicate SkipReaches(tasks: map<string, Entry>, from: string, n: string) {
    exists p :: SkipPath(tasks, p) && p[0] == from && p[|p| - 1] == n
  }

  ghost function SkipSet(tasks: map<string, Entry>, from: string): set<string> {
    set n | n in tasks && SkipReaches(tasks, from, n)
  }

  function SkipAll(tasks: map<string, Entry>, skipped: set<string>): map<string, Entry> {
    map n | n in tasks :: if n in skipped then Transition(tasks[n], Skipped) else tasks[n]
  }

  ghost function SkipDownstream(r: RunEntry, from: string): RunEntry {
    r.(tasks := SkipAll(r.tasks, SkipSet(r.tasks, from)))
  }

  /** The same after a failure of `from` in another entry of the run ID. */
  ghost function StraySkip(r: RunEntry, from: string): RunEntry {
    SkipDownstream(r, from).(strays := r.strays + {from})
  }

  /** `k` contains every pending or ready entry that depends on `from` or on a member of `k`. */
  ghost predicate SkipClosed(tasks: map<string, Entry>, from: string, k: set<string>) {
    forall n, d :: SkipEdge(tasks, d, n) && (d == from || d in k) ==> n in k
  }

  lemma PrefixPath(tasks: map<string, Entry>, p: seq<string>)
    requires SkipPath(tasks, p) && |p| > 2
    ensures SkipPath(tasks, p[..|p| - 1])
  {
    var q := p[..|p| - 1];
    forall i: nat | i + 1 < |q| ensures SkipHop(tasks, q, i) {
      assert SkipHop(tasks, p, i);
    }
  }

  lemma {:induction false} ClosedCoversPath(tasks: map<string, Entry>, from: string, k: set<string>, p: seq<string>)
    requires SkipClosed(tasks, from, k) && SkipPath(tasks, p) && p[0] == from
    ensures p[|p| - 1] in k
    decreases |p|
  {
    var last := |p| - 1;
    if last > 1 {
      PrefixPath(tasks, p);
      ClosedCoversPath(tasks, from, k, p[..last]);
    }
    assert SkipHop(tasks, p, last - 1);
  }

  /** The skip set is the only closed set each of whose members is reachable. */
  lemma SkipSetUnique(tasks: map<string, Entry>, from: string, k: set<string>)
    requires SkipClosed(tasks, from, k)
    requires forall n :: n in k ==> n in tasks && SkipReaches(tasks, from, n)
    ensures k == SkipSet(tasks, from)
  {
    forall n | n in SkipSet(tasks, from) ensures n in k {
      var p :| SkipPath(tasks, p) && p[0] == from && p[|p| - 1] == n;
      ClosedCoversPath(tasks, from, k, p);
    }
  }

  lemma SkipReachesStep(tasks: map<string, Entry>, from: string, d: string, n: string)
    requires d == from || SkipReaches(tasks, from, d)
    requires SkipEdge(tasks, d, n)
    ensures SkipReaches(tasks, from, n)
  {
    if d == from {
      var p := [from, n];
      assert SkipHop(tasks, p, 0);
      assert SkipPath(tasks, p);
    } else {
      var p :| SkipPath(tasks, p) && p[0] == from && p[|p| - 1] == d;
      var q := p + [n];
      forall i: nat | i + 1 < |q| ensures SkipHop(tasks, q, i) {
        if i + 1 < |p| { assert SkipHop(tasks, p, i); }
      }
      assert SkipPath(tasks, q) && q[0] == from && q[|q| - 1] == n;
    }
  }

  lemma SkipSetClosed(tasks: map<string, Entry>, from: string)
    ensures SkipClosed(tasks, from, SkipSet(tasks, from))
  {
    forall n, d | SkipEdge(tasks, d, n) && (d == from || d in SkipSet(tasks, from))
      ensures n in SkipSet(tasks, from)
    {
      SkipReachesStep(tasks, from, d, n);
    }
  }

  /** Each member of the skip set is pending or ready, and depends on `from` or on a member. */
  lemma SkipSetCause(tasks: map<string, Entry>, from: string, n: string) returns (d: string)
    requires n in SkipSet(tasks, from)
    ensures SkipEdge(tasks, d, n) && (d == from || d in SkipSet(tasks, from))
  {
    var p :| SkipPath(tasks, p) && p[0] == from && p[|p| - 1] == n;
    d := p[|p| - 2];
    assert SkipHop(tasks, p, |p| - 2);
    if |p| > 2 {
      var q := p[..|p| - 1];
      PrefixPath(tasks, p);
      assert SkipPath(tasks, q) && q[0] == from && q[|q| - 1] == d;
      assert SkipHop(tasks, p, |p| - 3);
      assert d in SkipSet(tasks, from);
    }
  }

  /*** The invariant of a tracked run ***/

  ghost predicate EntriesOk(r: RunEntry, backend: bool, alive: bool) {
    forall n :: n in r.tasks ==> EntryInv(r.tasks[n], backend, alive)
  }

  predicate DepsDone(tasks: map<string, Entry>, deps: seq<string>) {
    forall d :: d in deps ==> d in tasks && tasks[d].status.Done? && tasks[d].starts > 0
  }

  /** In a run that entered through Add nothing is carried over, and whatever is in progress or was started has every direct dependency done. */
  predicate StartedOk(r: RunEntry) {
    r.source.Added? ==> forall n :: n in r.tasks ==>
      r.tasks[n].origin.Fresh?
      && (r.tasks[n].starts > 0 || InProgress(r.tasks[n].status) ==> DepsDone(r.tasks, r.tasks[n].dependsOn))
  }

  ghost predicate RunInv(r: RunEntry, backend: bool, alive: bool) {
    && Core(ViewOf(r)) && PendingWaits(ViewOf(r))
    && EntriesOk(r, backend, alive) && StartedOk(r)
  }

  /** What every change to one entry leaves alone. */
  predicate SameStep(e: Entry, f: Entry) {
    f.dependsOn == e.dependsOn && f.origin == e.origin
  }

  /** Done entries stay as they are, and nothing starts but what is in progress afterwards. */
  predicate StartsFrom(r: RunEntry, t: RunEntry) {
    && t.source == r.source && t.tasks.Keys == r.tasks.Keys
    && forall n :: n in r.tasks ==>
         && SameStep(r.tasks[n], t.tasks[n])
         && (r.tasks[n].status.Done? ==> t.tasks[n] == r.tasks[n])
         && (t.tasks[n].starts > 0 ==> r.tasks[n].starts > 0 || InProgress(t.tasks[n].status))
  }

  lemma DoneWasStarted(r: RunEntry, n: string, backend: bool, alive: bool)
    requires EntriesOk(r, backend, alive) && n in r.tasks && r.tasks[n].status.Done? && r.tasks[n].origin.Fresh?
    ensures r.tasks[n].starts > 0
  {
    assert EntryInv(r.tasks[n], backend, alive);
  }

  lemma StartedFrom(r: RunEntry, t: RunEntry, backend: bool, alive: bool)
    requires StartedOk(r) && StartsFrom(r, t) && Core(ViewOf(t)) && EntriesOk(t, backend, alive)
    ensures StartedOk(t)
  {
    hide EntriesOk;
    if t.source.Added? {
      forall n, d | n in t.tasks && (t.tasks[n].starts > 0 || InProgress(t.tasks[n].status)) && d in t.tasks[n].dependsOn
        ensures d in t.tasks && t.tasks[d].status.Done? && t.tasks[d].starts > 0
      {
        if InProgress(t.tasks[n].status) {
          var v := ViewOf(t);
          assert v.DependsOn(n, d) && v.Is(d, Done);
          DoneWasStarted(t, d, backend, alive);
        } else {
          assert DepsDone(r.tasks, r.tasks[n].dependsOn);
        }
      }
    }
  }

  lemma PromoteOneInv(r: RunEntry, n: string, backend: bool, alive: bool, now: int)
    requires n in r.tasks && EntryInv(r.tasks[n], backend, alive)
    ensures var e, f := r.tasks[n], PromoteOne(r.tasks[n], DoneNames(r.tasks), backend, now);
      && EntryInv(f, backend, alive) && SameStep(e, f)
      && if e.status.Pending? && AllCleared(ViewOf(r), n) then InProgress(f.status) else f == e
  {
    var e, done, v := r.tasks[n], DoneNames(r.tasks), ViewOf(r);
    assert forall d :: d in done <==> v.Cleared(d);
    assert DepsAllDone(e.dependsOn, done) <==> AllCleared(v, n) by {
      assert forall d :: v.DependsOn(n, d) <==> d in e.dependsOn;
    }
    if e.status.Pending? && DepsAllDone(e.dependsOn, done) {
      PromoteInv(e, backend, alive, now);
    }
  }

  lemma PromoteEntries(r: RunEntry, backend: bool, alive: bool, now: int)
    requires EntriesOk(r, backend, alive)
    ensures EntriesOk(PromoteReady(r, backend, now), backend, alive)
    ensures Promoted(ViewOf(r), ViewOf(PromoteReady(r, backend, now)))
    ensures StartsFrom(r, PromoteReady(r, backend, now))
  {
    hide EntryInv, PromoteOne;
    var r' := PromoteReady(r, backend, now);
    forall n | n in r.tasks
      ensures EntryInv(r'.tasks[n], backend, alive) && SameStep(r.tasks[n], r'.tasks[n])
      ensures if ViewOf(r).Is(n, Pending) && AllCleared(ViewOf(r), n) then InProgress(r'.tasks[n].status) else r'.tasks[n] == r.tasks[n]
    {
      assert EntryInv(r.tasks[n], backend, alive);
      PromoteOneInv(r, n, backend, alive, now);
    }
    hide PromoteReady, AllCleared;
    PromotedView(r, r');
  }

  lemma PromotedView(r: RunEntry, t: RunEntry)
    requires t == r.(tasks := t.tasks) && t.tasks.Keys == r.tasks.Keys
    requires forall n :: n in r.tasks ==>
      && SameStep(r.tasks[n], t.tasks[n])
      && if ViewOf(r).Is(n, Pending) && AllCleared(ViewOf(r), n) then InProgress(t.tasks[n].status) else t.tasks[n] == r.tasks[n]
    ensures Promoted(ViewOf(r), ViewOf(t)) && StartsFrom(r, t)
  {
    hide AllCleared;
    assert ViewOf(t).deps == ViewOf(r).deps;
  }

  lemma PromoteReadyInv(r: RunEntry, backend: bool, alive: bool, now: int)
    requires Core(ViewOf(r)) && EntriesOk(r, backend, alive) && StartedOk(r)
    ensures RunInv(PromoteReady(r, backend, now), backend, alive)
  {
    hide EntriesOk, StartedOk, StartsFrom, Core, PendingWaits;
    PromoteEntries(r, backend, alive, now);
    PromoteKeeps(ViewOf(r), ViewOf(PromoteReady(r, backend, now)));
    StartedFrom(r, PromoteReady(r, backend, now), backend, alive);
  }

  lemma SetTaskView(r: RunEntry, n: string, e: Entry)
    requires n in r.tasks && SameStep(r.tasks[n], e)
    ensures SameGraph(ViewOf(r), ViewOf(SetTask(r, n, e)))
  {
    assert ViewOf(SetTask(r, n, e)).deps == ViewOf(r).deps;
  }

  /** The entry keeps its status, or moves among the in-progress ones. */
  predicate Gentle(e: Entry, f: Entry) {
    && SameStep(e, f)
    && ((f.status == e.status && f.starts == e.starts) || (InProgress(e.status) && InProgress(f.status)))
  }

  /** Whatever depended on done steps still does. */
  lemma SetTaskStarted(r: RunEntry, n: string, f: Entry)
    requires StartedOk(r) && n in r.tasks && SameStep(r.tasks[n], f)
    requires Gentle(r.tasks[n], f) || InProgress(r.tasks[n].status)
    ensures StartedOk(SetTask(r, n, f))
  {
    var t := SetTask(r, n, f);
    forall m, d | r.source.Added? && m in t.tasks && (t.tasks[m].starts > 0 || InProgress(t.tasks[m].status)) && d in t.tasks[m].dependsOn
      ensures d in t.tasks && t.tasks[d].status.Done? && t.tasks[d].starts > 0
    {
      assert DepsDone(r.tasks, r.tasks[m].dependsOn);
    }
  }

  lemma SetTaskEntries(r: RunEntry, n: string, e: Entry, backend: bool, alive: bool)
    requires EntriesOk(r, backend, alive) && n in r.tasks && EntryInv(e, backend, alive)
    ensures EntriesOk(SetTask(r, n, e), backend, alive)
  {
    hide EntryInv;
  }

  lemma SetTaskStatuses(r: RunEntry, n: string, e: Entry)
    requires n in r.tasks && SameStep(r.tasks[n], e)
    ensures OnlyMoves(ViewOf(r), ViewOf(SetTask(r, n, e)), n) && ViewOf(SetTask(r, n, e)).st[n] == e.status
    ensures e.status == r.tasks[n].status ==> ViewOf(SetTask(r, n, e)) == ViewOf(r)
  {
    SetTaskView(r, n, e);
    if e.status == r.tasks[n].status {
      assert ViewOf(SetTask(r, n, e)).st == ViewOf(r).st;
    }
  }

  lemma ShuffleInv(r: RunEntry, n: string, e: Entry, backend: bool, alive: bool)
    requires RunInv(r, backend, alive) && n in r.tasks && Gentle(r.tasks[n], e)
    requires EntryInv(e, backend, alive)
    ensures RunInv(SetTask(r, n, e), backend, alive)
  {
    hide StartedOk, EntriesOk, Core, PendingWaits, EntryInv, OnlyMoves;
    SetTaskStatuses(r, n, e);
    SetTaskStarted(r, n, e);
    SetTaskEntries(r, n, e, backend, alive);
    if e.status != r.tasks[n].status {
      ShuffleKeeps(ViewOf(r), ViewOf(SetTask(r, n, e)), n);
    }
  }

  lemma DoneInv(r: RunEntry, n: string, e: Entry, backend: bool, alive: bool, now: int)
    requires RunInv(r, backend, alive) && n in r.tasks && SameStep(r.tasks[n], e)
    requires InProgress(r.tasks[n].status) && e.status.Done?
    requires EntryInv(e, backend, alive)
    ensures RunInv(PromoteReady(SetTask(r, n, e), backend, now), backend, alive)
  {
    hide StartedOk, EntriesOk, Core, PendingWaits, EntryInv, OnlyMoves, PromoteReady;
    SetTaskStatuses(r, n, e);
    SetTaskStarted(r, n, e);
    SetTaskEntries(r, n, e, backend, alive);
    DoneKeepsCore(ViewOf(r), ViewOf(SetTask(r, n, e)), n);
    PromoteReadyInv(SetTask(r, n, e), backend, alive, now);
  }

  /** What the skip set is in terms of the run before the failure. */
  lemma SkipSetView(r: RunEntry, n: string, e: Entry)
    requires n in r.tasks && SameStep(r.tasks[n], e) && e.status.Failed?
    ensures var k, v := SkipSet(r.tasks[n := e], n), ViewOf(r);
      && n !in k
      && (forall m :: m in k ==> Skippable(r.tasks, m) && exists d :: v.DependsOn(m, d) && (d == n || d in k))
      && (forall m, d :: (v.DependsOn(m, d) && (d == n || d in k) && m != n && Skippable(r.tasks, m)) ==> m in k)
  {
    var tasks, v := r.tasks[n := e], ViewOf(r);
    var k := SkipSet(tasks, n);
    forall m | m in k
      ensures Skippable(tasks, m) && exists d :: v.DependsOn(m, d) && (d == n || d in k)
    {
      var d := SkipSetCause(tasks, n, m);
      assert v.DependsOn(m, d);
    }
    SkipSetClosed(tasks, n);
    forall m, d | v.DependsOn(m, d) && (d == n || d in k) && m != n && Skippable(r.tasks, m)
      ensures m in k
    {
      assert SkipEdge(tasks, d, m);
    }
  }

  lemma SkippableView(r: RunEntry)
    ensures forall m :: (ViewOf(r).Is(m, Pending) || ViewOf(r).Is(m, Ready)) <==> Skippable(r.tasks, m)
  {
  }

  lemma FailedView(r: RunEntry, n: string, e: Entry)
    requires n in r.tasks && SameStep(r.tasks[n], e) && InProgress(r.tasks[n].status) && e.status.Failed?
    ensures FailedWith(ViewOf(r), ViewOf(SkipDownstream(SetTask(r, n, e), n)), n, SkipSet(r.tasks[n := e], n))
  {
    hide SkipSet, SkipReaches;
    SkipSetView(r, n, e);
    SkippableView(r);
    assert ViewOf(SkipDownstream(SetTask(r, n, e), n)).deps == ViewOf(r).deps;
  }

  lemma FailInv(r: RunEntry, n: string, e: Entry, backend: bool, alive: bool)
    requires RunInv(r, backend, alive) && n in r.tasks && SameStep(r.tasks[n], e)
    requires InProgress(r.tasks[n].status) && e.status.Failed?
    requires EntryInv(e, backend, alive)
    ensures RunInv(SkipDownstream(SetTask(r, n, e), n), backend, alive)
  {
    hide SkipSet, SkipReaches, Core, PendingWaits, EntryInv, FailedWith, StartedOk;
    var r2, k := SkipDownstream(SetTask(r, n, e), n), SkipSet(r.tasks[n := e], n);
    FailedView(r, n, e);
    FailKeeps(ViewOf(r), ViewOf(r2), n, k);
    SkipSetView(r, n, e);
    SetTaskStarted(r, n, e);
    SkippedInv(SetTask(r, n, e), k, backend, alive);
  }

  /** Skipping pending and ready entries. */
  lemma SkippedInv(r: RunEntry, k: set<string>, backend: bool, alive: bool)
    requires EntriesOk(r, backend, alive) && StartedOk(r)
    requires forall m :: m in k ==> Skippable(r.tasks, m)
    ensures var t := r.(tasks := SkipAll(r.tasks, k)); EntriesOk(t, backend, alive) && StartedOk(t)
  {
    hide EntryInv;
    var t := r.(tasks := SkipAll(r.tasks, k));
    forall m | m in r.tasks ensures EntryInv(t.tasks[m], backend, alive) {
      assert EntryInv(r.tasks[m], backend, alive);
      if m in k { SkipBooks(r, m, backend, alive); }
    }
    forall m | r.source.Added? && m in t.tasks && (t.tasks[m].starts > 0 || InProgress(t.tasks[m].status))
      ensures DepsDone(t.tasks, t.tasks[m].dependsOn)
    {
      assert DepsDone(r.tasks, r.tasks[m].dependsOn);
    }
  }

  lemma SkipBooks(r: RunEntry, m: string, backend: bool, alive: bool)
    requires EntriesOk(r, backend, alive) && Skippable(r.tasks, m)
    ensures EntryInv(Transition(r.tasks[m], Skipped), backend, alive)
  {
    assert EntryInv(r.tasks[m], backend, alive);
    SkipInv(r.tasks[m], backend, alive);
  }

  lemma StraySetView(r: RunEntry, from: string)
    ensures var k, v := SkipSet(r.tasks, from), ViewOf(r);
      && (forall m :: m in k ==> Skippable(r.tasks, m) && exists d :: v.DependsOn(m, d) && (d == from || d in k))
      && (forall m, d :: (v.DependsOn(m, d) && (d == from || d in k) && Skippable(r.tasks, m)) ==> m in k)
  {
    hide SkipReaches;
    var k, v := SkipSet(r.tasks, from), ViewOf(r);
    forall m | m in k
      ensures Skippable(r.tasks, m) && exists d :: v.DependsOn(m, d) && (d == from || d in k)
    {
      var d := SkipSetCause(r.tasks, from, m);
      assert v.DependsOn(m, d);
    }
    SkipSetClosed(r.tasks, from);
    forall m, d | v.DependsOn(m, d) && (d == from || d in k) && Skippable(r.tasks, m) ensures m in k {
      assert SkipEdge(r.tasks, d, m);
    }
  }

  lemma StrayView(r: RunEntry, from: string)
    ensures StrayedWith(ViewOf(r), ViewOf(StraySkip(r, from)), from, SkipSet(r.tasks, from))
  {
    hide SkipSet, SkipReaches;
    StraySetView(r, from);
    SkippableView(r);
    assert ViewOf(StraySkip(r, from)).deps == ViewOf(r).deps;
  }

  lemma StrayInv(r: RunEntry, from: string, backend: bool, alive: bool)
    requires RunInv(r, backend, alive)
    ensures RunInv(StraySkip(r, from), backend, alive)
  {
    hide SkipSet, SkipReaches, Core, PendingWaits, EntryInv, StrayedWith, StartedOk;
    var k := SkipSet(r.tasks, from);
    StrayView(r, from);
    StrayKeeps(ViewOf(r), ViewOf(StraySkip(r, from)), from, k);
    forall m | m in k ensures Skippable(r.tasks, m) { var d := SkipSetCause(r.tasks, from, m); }
    SkippedInv(r, k, backend, alive);
    StrayStarted(r, from);
  }

  lemma StrayStarted(r: RunEntry, from: string)
    requires StartedOk(SkipDownstream(r, from))
    ensures StartedOk(StraySkip(r, from))
  {
    hide SkipSet;
  }

  /*** Facts the recursive skipping rests on ***/

  lemma SkipAllTwice(tasks: map<string, Entry>, a: set<string>, b: set<string>)
    ensures SkipAll(SkipAll(tasks, a), b) == SkipAll(tasks, a + b)
  {
  }

  lemma SkipPathWeaken(tasks: map<string, Entry>, k: set<string>, p: seq<string>)
    requires SkipPath(SkipAll(tasks, k), p)
    ensures SkipPath(tasks, p)
  {
    forall i: nat | i + 1 < |p| ensures SkipHop(tasks, p, i) {
      assert SkipHop(SkipAll(tasks, k), p, i);
    }
  }

  lemma SkipReachesTrans(tasks: map<string, Entry>, from: string, n: string, m: string)
    requires SkipReaches(tasks, from, n) && SkipReaches(tasks, n, m)
    ensures SkipReaches(tasks, from, m)
  {
    var p :| SkipPath(tasks, p) && p[0] == from && p[|p| - 1] == n;
    var q :| SkipPath(tasks, q) && q[0] == n && q[|q| - 1] == m;
    var w := p + q[1..];
    forall i: nat | i + 1 < |w| ensures SkipHop(tasks, w, i) {
      if i + 1 < |p| {
        assert SkipHop(tasks, p, i);
      } else {
        assert SkipHop(tasks, q, i + 1 - |p|);
        assert w[i] == q[i + 1 - |p|] && w[i + 1] == q[i + 2 - |p|];
      }
    }
    assert SkipPath(tasks, w) && w[0] == from && w[|w| - 1] == m;
  }

  /** The names skipped so far: reachable, and closed under dependents that can still be skipped. */
  ghost predicate SkippedSoFar(tasks: map<string, Entry>, from: string, k: set<string>) {
    && (forall n :: n in k ==> Skippable(tasks, n) && SkipReaches(tasks, from, n))
    && (forall n, d :: SkipEdge(tasks, d, n) && d in k ==> n in k)
  }

  /** Skipping `n`, a direct dependent of `from`, and then recursively everything below it. */
  lemma SkipOneMore(tasks: map<string, Entry>, from: string, k: set<string>, n: string)
    requires SkippedSoFar(tasks, from, k) && n !in k && SkipEdge(tasks, from, n)
    ensures var below := SkipSet(SkipAll(tasks, k + {n}), n);
      && below !! k + {n}
      && SkippedSoFar(tasks, from, k + {n} + below)
  {
    hide SkipReaches, SkipSet;
    var t := SkipAll(tasks, k + {n});
    var below := SkipSet(t, n);
    SkipReachesStep(tasks, from, from, n);
    forall m | m in below
      ensures m !in k + {n} && Skippable(tasks, m) && SkipReaches(tasks, from, m)
    {
      var d := SkipSetCause(t, n, m);
      SkipSetReaches(tasks, k + {n}, n, m);
      SkipReachesTrans(tasks, from, n, m);
    }
    SkipSetClosed(t, n);
    forall m, d | SkipEdge(tasks, d, m) && d in k + {n} + below
      ensures m in k + {n} + below
    {
      if m !in k + {n} {
        assert SkipEdge(t, d, m);
      }
    }
  }

  lemma SkipSetReaches(tasks: map<string, Entry>, k: set<string>, n: string, m: string)
    requires m in SkipSet(SkipAll(tasks, k), n)
    ensures SkipReaches(tasks, n, m)
  {
    var p :| SkipPath(SkipAll(tasks, k), p) && p[0] == n && p[|p| - 1] == m;
    SkipPathWeaken(tasks, k, p);
  }

  /** Once every name has been looked at, the names skipped so far are the skip set. */
  lemma SkipFinished(tasks: map<string, Entry>, from: string, k: set<string>)
    requires SkippedSoFar(tasks, from, k)
    requires forall n :: SkipEdge(tasks, from, n) ==> n in k
    ensures k == SkipSet(tasks, from)
  {
    SkipSetUnique(tasks, from, k);
  }
}
