/** The queue's dispatch goroutines in the cancel protocol: when a canceled run loses no task. */
module CanceledRuns {
  import opened Options
  import opened Tasks
  import opened Runs
  import opened QueueSpec
  import opened QueueInv
  import opened QueueSteps
  import C = CancelProtocol
  import R = Runtime
  import K = RuntimeKeys

  /** As long as no busy refusal was applied to a step, its dispatch goroutines carry distinct attempts. */
  lemma CallsHaveOwnAttempts(s: State, i: nat, n: string, j: nat, l: nat)
    requires Reachable(s) && HasJob(s, i, n, j) && IsDispatch(s, i, n, j) && HasJob(s, i, n, l) && IsDispatch(s, i, n, l)
    requires s.heap[i].tasks[n].requeues == 0 && j < l
    ensures 1 <= s.heap[i].tasks[n].jobs[j].attempt < s.heap[i].tasks[n].jobs[l].attempt <= s.heap[i].tasks[n].attempts
  {
    hide Reachable, Inv, EntryInv, HandleOk;
    ReachableInv(s);
    BooksOf(s, i, n);
    assert IsCall(s.heap[i].tasks[n], j) && IsCall(s.heap[i].tasks[n], l);
  }

  /** How the runtime names its tasks. */
  datatype Naming = Naming(runtimeID: string, lower: char -> char, hash: string -> string)

  /** A dispatch goroutine of the run. */
  datatype Call = Call(step: string, job: nat)

  function AttemptOf(s: State, i: nat, c: Call): int
    requires HasJob(s, i, c.step, c.job)
  {
    s.heap[i].tasks[c.step].jobs[c.job].attempt
  }

  /** Names that keep the steps of a run apart, short enough not to be cut. */
  ghost predicate NamesApart(s: State, i: nat, nm: Naming) {
    && i < |s.heap| && K.KeepsKeyChars(nm.lower) && K.Named(nm.runtimeID, s.heap[i].runID, nm.lower)
    && (forall n, m :: n in s.heap[i].tasks && m in s.heap[i].tasks && n != m ==> K.Fold(n, nm.lower) != K.Fold(m, nm.lower))
    && (forall c: Call :: HasJob(s, i, c.step, c.job) ==>
          |K.Sanitized(nm.runtimeID, s.heap[i].runID, c.step, AttemptOf(s, i, c), nm.lower)| <= 63)
  }

  function KeyOf(s: State, i: nat, c: Call, nm: Naming): string
    requires HasJob(s, i, c.step, c.job)
  {
    K.RuntimeKey(nm.runtimeID, s.heap[i].runID, c.step, AttemptOf(s, i, c), nm.lower, nm.hash)
  }

  /** Each goroutine of the run in the protocol is another dispatch goroutine of entry `i`, under the key of its task. */
  ghost predicate Carries(s: State, i: nat, gos: seq<C.Go>, calls: seq<Call>, nm: Naming) {
    && i < |s.heap| && |calls| == |gos|
    && (forall g :: 0 <= g < |gos| && gos[g].runID == s.heap[i].runID ==>
          && HasJob(s, i, calls[g].step, calls[g].job) && IsDispatch(s, i, calls[g].step, calls[g].job)
          && gos[g].key == KeyOf(s, i, calls[g], nm))
    && (forall g, h :: 0 <= g < h < |gos| && gos[g].runID == gos[h].runID == s.heap[i].runID ==> calls[g] != calls[h])
  }

  /** No goroutine of another run is under a key of this one. */
  ghost predicate OthersApart(gos: seq<C.Go>, runID: string) {
    forall g, h :: 0 <= g < |gos| && 0 <= h < |gos| && gos[g].runID == runID && gos[h].runID != runID ==> gos[h].key != gos[g].key
  }

  lemma CallsHaveOwnKeys(s: State, i: nat, c: Call, d: Call, nm: Naming)
    requires Reachable(s) && NamesApart(s, i, nm) && c != d
    requires HasJob(s, i, c.step, c.job) && IsDispatch(s, i, c.step, c.job) && HasJob(s, i, d.step, d.job) && IsDispatch(s, i, d.step, d.job)
    requires forall n :: n in s.heap[i].tasks ==> s.heap[i].tasks[n].requeues == 0
    ensures KeyOf(s, i, c, nm) != KeyOf(s, i, d, nm)
  {
    hide Reachable, K.RuntimeKey, K.Fold, K.Sanitized, K.Named, K.KeepsKeyChars;
    FirstAttempt(s, i, c);
    FirstAttempt(s, i, d);
    K.SameKeyIff(nm.runtimeID, s.heap[i].runID, c.step, AttemptOf(s, i, c), d.step, AttemptOf(s, i, d), nm.lower, nm.hash);
    if c.step == d.step {
      if c.job < d.job { CallsHaveOwnAttempts(s, i, c.step, c.job, d.job); } else { CallsHaveOwnAttempts(s, i, c.step, d.job, c.job); }
    }
  }

  lemma FirstAttempt(s: State, i: nat, c: Call)
    requires Reachable(s) && HasJob(s, i, c.step, c.job) && IsDispatch(s, i, c.step, c.job)
    ensures AttemptOf(s, i, c) >= 1
  {
    hide Reachable, Inv, EntryInv, HandleOk;
    ReachableInv(s);
    BooksOf(s, i, c.step);
    assert IsCall(s.heap[i].tasks[c.step], c.job);
  }

  /**
   From the queue to the runtime: of a run none of whose steps met a busy refusal, and whose step names
   keep its keys apart, no other entry of its ID has a goroutine in the protocol.  Then no goroutine
   shares a key of the run, and while the tombstone of a cancel stands every live task dispatched for
   the run is up and has been asked to stop.
   */
  lemma RunWithoutRequeuesIsStopped(s: State, i: nat, nm: Naming, concurrency: int, evs: seq<C.Event>, calls: seq<Call>, k: nat)
    requires Reachable(s) && NamesApart(s, i, nm) && forall n :: n in s.heap[i].tasks ==> s.heap[i].tasks[n].requeues == 0
    requires var gos, runID := C.Execute(C.Initial(concurrency), evs).gos, s.heap[i].runID;
      Carries(s, i, gos, calls, nm) && OthersApart(gos, runID) && C.RecoversApart(evs, gos, runID)
    requires var t, runID := C.Execute(C.Initial(concurrency), evs), s.heap[i].runID;
      && runID in t.canceled && k < |t.rt.tasks| && t.rt.tasks[k].runID == runID && !t.rt.tasks[k].recovered && R.Live(t.rt.tasks[k])
    ensures var t := C.Execute(C.Initial(concurrency), evs); t.rt.tasks[k].phase.Observed? && t.rt.tasks[k].stopAsked
  {
    hide Reachable, NamesApart, C.Execute, KeyOf, C.RecoversApart, C.RunKeysFree;
    var gos, runID := C.Execute(C.Initial(concurrency), evs).gos, s.heap[i].runID;
    assert C.DistinctKeys(gos, runID) by {
      forall g, h | 0 <= g < |gos| && 0 <= h < |gos| && g != h && gos[g].runID == runID ensures gos[h].key != gos[g].key {
        if gos[h].runID == runID {
          assert calls[g] != calls[h];
          CallsHaveOwnKeys(s, i, calls[g], calls[h], nm);
        }
      }
    }
    C.DistinctKeysAreFree(concurrency, evs, |evs|, runID);
    assert evs[..|evs|] == evs;
    C.CanceledRunIsStopped(concurrency, evs, runID, k);
  }
}
