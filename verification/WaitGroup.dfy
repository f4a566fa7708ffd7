/** How many goroutines and armed timers the queue's entries account for in all. */
module WaitGroup {
  import opened Tasks
  import opened Runs

  ghost function TasksLive(tasks: map<string, Entry>): nat
    decreases |tasks|
  {
    if tasks == map[] then 0
    else
      var n :| n in tasks;
      assert (tasks - {n}).Keys == tasks.Keys - {n};
      Live(tasks[n]) + TasksLive(tasks - {n})
  }

  /** The sum does not depend on the order in which entries are picked. */
  lemma {:induction false} TasksLivePick(tasks: map<string, Entry>, n: string)
    requires n in tasks
    ensures TasksLive(tasks) == Live(tasks[n]) + TasksLive(tasks - {n})
    decreases |tasks|
  {
    var m :| m in tasks && TasksLive(tasks) == Live(tasks[m]) + TasksLive(tasks - {m});
    if m != n {
      assert (tasks - {m}).Keys == tasks.Keys - {m};
      assert (tasks - {n}).Keys == tasks.Keys - {n};
      TasksLivePick(tasks - {m}, n);
      TasksLivePick(tasks - {n}, m);
      assert tasks - {m} - {n} == tasks - {n} - {m};
    }
  }

  lemma TasksLiveUpdate(tasks: map<string, Entry>, n: string, e: Entry)
    requires n in tasks
    ensures TasksLive(tasks[n := e]) + Live(tasks[n]) == TasksLive(tasks) + Live(e)
  {
    TasksLivePick(tasks, n);
    TasksLivePick(tasks[n := e], n);
    assert tasks[n := e] - {n} == tasks - {n};
  }

  lemma TasksLiveInsert(tasks: map<string, Entry>, n: string, e: Entry)
    requires n !in tasks
    ensures TasksLive(tasks[n := e]) == TasksLive(tasks) + Live(e)
  {
    TasksLivePick(tasks[n := e], n);
    assert tasks[n := e] - {n} == tasks;
  }

  ghost function HeapLive(heap: seq<RunEntry>): nat {
    if heap == [] then 0 else TasksLive(heap[0].tasks) + HeapLive(heap[1..])
  }

  lemma {:induction false} HeapLiveConcat(a: seq<RunEntry>, b: seq<RunEntry>)
    ensures HeapLive(a + b) == HeapLive(a) + HeapLive(b)
    decreases |a|
  {
    if a == [] {
      assert a + b == b;
    } else {
      HeapLiveConcat(a[1..], b);
      assert (a + b)[1..] == a[1..] + b;
    }
  }

  lemma HeapLiveUpdate(heap: seq<RunEntry>, i: nat, r: RunEntry)
    requires i < |heap|
    ensures HeapLive(heap[i := r]) + TasksLive(heap[i].tasks) == HeapLive(heap) + TasksLive(r.tasks)
  {
    assert heap == heap[..i] + ([heap[i]] + heap[i + 1..]);
    assert heap[i := r] == heap[..i] + ([r] + heap[i + 1..]);
    HeapLiveConcat(heap[..i], [heap[i]] + heap[i + 1..]);
    HeapLiveConcat(heap[..i], [r] + heap[i + 1..]);
    HeapLiveConcat([heap[i]], heap[i + 1..]);
    HeapLiveConcat([r], heap[i + 1..]);
  }

  lemma HeapLiveAppend(heap: seq<RunEntry>, r: RunEntry)
    ensures HeapLive(heap + [r]) == HeapLive(heap) + TasksLive(r.tasks)
  {
    HeapLiveConcat(heap, [r]);
  }

  /** Replacing one entry shifts the total by the difference of the two weights. */
  lemma HeapLiveEntry(heap: seq<RunEntry>, i: nat, n: string, e: Entry)
    requires i < |heap| && n in heap[i].tasks
    ensures HeapLive(heap[i := SetTask(heap[i], n, e)]) + Live(heap[i].tasks[n]) == HeapLive(heap) + Live(e)
    ensures HeapLive(heap) >= Live(heap[i].tasks[n])
  {
    TasksLiveUpdate(heap[i].tasks, n, e);
    HeapLiveUpdate(heap, i, SetTask(heap[i], n, e));
    TasksLivePick(heap[i].tasks, n);
    HeapLiveUpdate(heap, i, heap[i].(tasks := map[]));
  }

  lemma LiveStop(e: Entry)
    ensures Live(StopTimer(e)) + (if Stoppable(e) then 1 else 0) == Live(e)
  {
    if Stoppable(e) {
      LiveJobsUpdate(e.jobs, e.timer.value, e.jobs[e.timer.value].(phase := Stopped));
    }
  }

  lemma LiveArm(e: Entry, kind: JobKind)
    ensures Live(Arm(e, kind)) == Live(e) + 1
  {
    LiveJobsAppend(e.jobs, Job(kind, e.attempts, Waiting));
  }

  lemma LiveSetPhase(e: Entry, j: nat, p: Phase)
    requires j < |e.jobs|
    ensures Live(SetPhase(e, j, p)) + (if LivePhase(e.jobs[j].phase) then 1 else 0)
         == Live(e) + (if LivePhase(p) then 1 else 0)
  {
    LiveJobsUpdate(e.jobs, j, e.jobs[j].(phase := p));
  }
}
