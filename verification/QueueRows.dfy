/** What each operation on one run must record, spelled out row by row. */
module QueueRows {
  import opened Options
  import opened Tasks
  import opened Runs
  import opened Outcomes
  import opened QueueSpec

  lemma OneEntryTerminal(i: nat, r: RunEntry, n: string, f: Entry)
    requires n in r.tasks
    ensures TerminalRows(i, r, SetTask(r, n, f))
         == if !Terminal(r.tasks[n].status) && Terminal(f.status) then {TerminalRow(i, n, f)} else {}
  {
  }

  lemma OneEntryStart(i: nat, r: RunEntry, n: string, f: Entry)
    requires n in r.tasks
    ensures StartRows(i, r, SetTask(r, n, f)) == if r.tasks[n].starts < f.starts then {StepRow(i, n, Running, f.attempts)} else {}
  {
  }

  lemma OneEntryRetry(i: nat, r: RunEntry, n: string, f: Entry)
    requires n in r.tasks
    ensures RetryRows(i, r, SetTask(r, n, f))
         == if r.tasks[n].retries < f.retries
            then {StepRow(i, n, Running, f.attempts - if r.tasks[n].starts < f.starts then 1 else 0)} else {}
  {
  }

  /** The rows of a run in which only `n` changed. */
  lemma OneEntryRows(i: nat, r: RunEntry, n: string, f: Entry)
    requires n in r.tasks
    ensures var e, t := r.tasks[n], SetTask(r, n, f);
      StepRows(i, r, t)
      == (if !Terminal(e.status) && Terminal(f.status) then multiset{TerminalRow(i, n, f)} else multiset{})
       + (if e.starts < f.starts then multiset{StepRow(i, n, Running, f.attempts)} else multiset{})
       + (if e.retries < f.retries then multiset{StepRow(i, n, Running, f.attempts - if e.starts < f.starts then 1 else 0)} else multiset{})
  {
    hide TerminalRows, StartRows, RetryRows, SetTask, TerminalRow;
    OneEntryTerminal(i, r, n, f);
    OneEntryStart(i, r, n, f);
    OneEntryRetry(i, r, n, f);
  }

  lemma OneEntryEvents(i: nat, r: RunEntry, n: string, f: Entry)
    requires n in r.tasks && !Terminal(f.status)
    ensures StepEvents(i, r, SetTask(r, n, f)) == {}
  {
  }

  /** An entry that neither ends nor starts nor retries needs no row. */
  lemma QuietRecorded(i: nat, r: RunEntry, n: string, f: Entry, onOutcome: bool, onSuccess: bool)
    requires n in r.tasks && (f.status == r.tasks[n].status || !Terminal(f.status))
    requires f.starts == r.tasks[n].starts && f.retries == r.tasks[n].retries
    ensures Recorded(i, r, SetTask(r, n, f), [], [], onOutcome, onSuccess)
  {
    OneEntryRows(i, r, n, f);
    assert StepEvents(i, r, SetTask(r, n, f)) == {};
  }

  /** An entry handed to the backend needs its running row. */
  lemma StartRecorded(i: nat, r: RunEntry, n: string, f: Entry, ws: seq<Write>, onOutcome: bool, onSuccess: bool)
    requires n in r.tasks && !Terminal(f.status) && f.retries == r.tasks[n].retries
    requires f.starts == r.tasks[n].starts + 1 && ws == [StepRow(i, n, Running, f.attempts)]
    ensures Recorded(i, r, SetTask(r, n, f), ws, [], onOutcome, onSuccess)
  {
    hide StepRows, StepEvents;
    OneEntryRows(i, r, n, f);
    OneEntryEvents(i, r, n, f);
  }

  /** A retried entry needs its row, and a second one if it is started at once. */
  lemma RetryRecorded(i: nat, r: RunEntry, n: string, f: Entry, ws: seq<Write>, onOutcome: bool, onSuccess: bool)
    requires n in r.tasks && !Terminal(f.status) && f.retries == r.tasks[n].retries + 1
    requires r.tasks[n].starts <= f.starts <= r.tasks[n].starts + 1
    requires ws == if f.starts == r.tasks[n].starts then [StepRow(i, n, Running, f.attempts)]
                   else [StepRow(i, n, Running, f.attempts - 1)] + [StepRow(i, n, Running, f.attempts)]
    ensures Recorded(i, r, SetTask(r, n, f), ws, [], onOutcome, onSuccess)
  {
    hide StepRows, StepEvents;
    OneEntryRows(i, r, n, f);
    OneEntryEvents(i, r, n, f);
    assert ws[..|ws| - 0] == ws;
  }

  /*** A step is done ***/

  lemma PromoteOneBooks(e: Entry, done: set<string>, backend: bool, now: int)
    ensures var f := PromoteOne(e, done, backend, now);
      && f.retries == e.retries && (Terminal(f.status) <==> Terminal(e.status)) && (Terminal(e.status) ==> f == e)
      && (backend && Promotes(e, done) ==> f.starts == e.starts + 1 && f.attempts == e.attempts + 1)
      && (!(backend && Promotes(e, done)) ==> f.starts == e.starts && f.attempts == e.attempts)
  {
  }

  lemma PromotedBooks(r: RunEntry, backend: bool, now: int)
    ensures var done, t := DoneNames(r.tasks), PromoteReady(r, backend, now);
      && t.tasks.Keys == r.tasks.Keys
      && forall n :: n in r.tasks ==>
         && t.tasks[n].retries == r.tasks[n].retries
         && (Terminal(t.tasks[n].status) <==> Terminal(r.tasks[n].status))
         && (Terminal(r.tasks[n].status) ==> t.tasks[n] == r.tasks[n])
         && (backend && Promotes(r.tasks[n], done) ==>
               t.tasks[n].starts == r.tasks[n].starts + 1 && t.tasks[n].attempts == r.tasks[n].attempts + 1)
         && (!(backend && Promotes(r.tasks[n], done)) ==>
               t.tasks[n].starts == r.tasks[n].starts && t.tasks[n].attempts == r.tasks[n].attempts)
  {
    hide PromoteOne, Promotes;
    forall n | n in r.tasks {
      PromoteOneBooks(r.tasks[n], DoneNames(r.tasks), backend, now);
    }
  }

  /** Promotion alone records the starts. */
  lemma PromoteRows(i: nat, r: RunEntry, backend: bool, now: int)
    ensures var t := PromoteReady(r, backend, now);
      && StepRows(i, r, t) == multiset(PromotionRows(i, r.tasks, r.tasks.Keys, DoneNames(r.tasks), backend))
      && StepEvents(i, r, t) == {}
  {
    hide PromoteReady, DoneNames, Promotes;
    PromotedBooks(r, backend, now);
    var t := PromoteReady(r, backend, now);
    assert TerminalRows(i, r, t) == {};
    assert RetryRows(i, r, t) == {};
    assert StartRows(i, r, t) == PromotionRows(i, r.tasks, r.tasks.Keys, DoneNames(r.tasks), backend);
  }

  /** Step `n` ends as `f`, and then steps other than `n` start. */
  lemma DoneRows(i: nat, r: RunEntry, n: string, f: Entry, backend: bool, now: int)
    requires n in r.tasks && !Terminal(r.tasks[n].status) && f.status.Done?
    requires f.starts == r.tasks[n].starts && f.retries == r.tasks[n].retries
    ensures var r1 := SetTask(r, n, f);
      var t := PromoteReady(r1, backend, now);
      && StepRows(i, r, t) == multiset{StepRow(i, n, Done, f.attempts)}
                              + multiset(PromotionRows(i, r1.tasks, r1.tasks.Keys, DoneNames(r1.tasks), backend))
      && (r.closing.Open? || r.closing.Completed? ==> StepEvents(i, r, t) == {StepEvent(i, n, Done)})
  {
    hide PromoteReady, DoneNames, Promotes;
    var r1 := SetTask(r, n, f);
    var t := PromoteReady(r1, backend, now);
    PromotedBooks(r1, backend, now);
    assert t.closing == r.closing by { PromoteFrame(r1, backend, now); }
    assert TerminalRows(i, r, t) == {StepRow(i, n, Done, f.attempts)};
    assert RetryRows(i, r, t) == {};
    DoneStarts(i, r, n, f, backend, now);
    assert r.closing.Open? || r.closing.Completed? ==> StepEvents(i, r, t) == {StepEvent(i, n, Done)};
  }

  lemma PromoteFrame(r: RunEntry, backend: bool, now: int)
    ensures PromoteReady(r, backend, now).closing == r.closing
    ensures PromoteReady(r, backend, now).runID == r.runID
  {
  }

  lemma DoneStarts(i: nat, r: RunEntry, n: string, f: Entry, backend: bool, now: int)
    requires n in r.tasks && f.status.Done? && f.starts == r.tasks[n].starts
    ensures var r1 := SetTask(r, n, f);
      StartRows(i, r, PromoteReady(r1, backend, now))
      == PromotionRows(i, r1.tasks, r1.tasks.Keys, DoneNames(r1.tasks), backend)
  {
    hide PromoteReady, DoneNames, DepsAllDone;
    PromotedBooks(SetTask(r, n, f), backend, now);
  }

  /*** A step fails ***/

  lemma FailRows(i: nat, r: RunEntry, n: string, f: Entry)
    requires n in r.tasks && !Terminal(r.tasks[n].status) && f.status.Failed?
    requires f.starts == r.tasks[n].starts && f.retries == r.tasks[n].retries
    ensures var k := SkipSet(r.tasks[n := f], n);
      var t := SkipDownstream(SetTask(r, n, f), n);
      && StepRows(i, r, t) == multiset{StepRow(i, n, Failed, f.attempts)} + multiset(SkipRows(i, k))
      && (r.closing.Open? || r.closing.Completed? ==> StepEvents(i, r, t) == {StepEvent(i, n, Failed)} + SkipEvents(i, k))
      && n !in k
  {
    hide SkipSet, SkipReaches;
    var k := SkipSet(r.tasks[n := f], n);
    var t := SkipDownstream(SetTask(r, n, f), n);
    forall m | m in k ensures m != n && Skippable(r.tasks, m) {
      var d := SkipSetCause(r.tasks[n := f], n, m);
    }
    FailTerminalRows(i, r, n, f, t, k);
  }

  lemma FailTerminalRows(i: nat, r: RunEntry, n: string, f: Entry, t: RunEntry, k: set<string>)
    requires n in r.tasks && !Terminal(r.tasks[n].status) && f.status.Failed?
    requires f.starts == r.tasks[n].starts && f.retries == r.tasks[n].retries
    requires t == r.(tasks := SkipAll(r.tasks[n := f], k)) && n !in k
    requires forall m :: m in k ==> Skippable(r.tasks, m)
    ensures StepRows(i, r, t) == multiset{StepRow(i, n, Failed, f.attempts)} + multiset(SkipRows(i, k))
    ensures r.closing.Open? || r.closing.Completed? ==> StepEvents(i, r, t) == {StepEvent(i, n, Failed)} + SkipEvents(i, k)
  {
    FailChanges(r, n, f, t, k);
    hide SkipAll, SkipRows, SkipEvents;
    FailNewTerminal(i, r, n, f, t, k);
    MultisetOfUnion({StepRow(i, n, Failed, f.attempts)}, SkipRows(i, k));
    assert StartRows(i, r, t) == {};
    assert RetryRows(i, r, t) == {};
  }

  lemma FailNewTerminal(i: nat, r: RunEntry, n: string, f: Entry, t: RunEntry, k: set<string>)
    requires n in t.tasks && t.tasks[n] == f && f.status.Failed? && t.closing == r.closing
    requires forall m :: m in k ==> m in t.tasks && t.tasks[m].status.Skipped?
    requires forall m :: BecameTerminal(r, t, m) <==> m == n || m in k
    ensures TerminalRows(i, r, t) == {StepRow(i, n, Failed, f.attempts)} + SkipRows(i, k)
    ensures {StepRow(i, n, Failed, f.attempts)} !! SkipRows(i, k)
    ensures r.closing.Open? || r.closing.Completed? ==> StepEvents(i, r, t) == {StepEvent(i, n, Failed)} + SkipEvents(i, k)
  {
    hide BecameTerminal;
    assert forall m :: BecameTerminal(r, t, m) ==> m in r.tasks by { BecameTerminalTracked(r, t); }
  }

  lemma BecameTerminalTracked(r: RunEntry, t: RunEntry)
    ensures forall m :: BecameTerminal(r, t, m) ==> m in r.tasks && m in t.tasks
  {
  }

  lemma FailChanges(r: RunEntry, n: string, f: Entry, t: RunEntry, k: set<string>)
    requires n in r.tasks && !Terminal(r.tasks[n].status) && f.status.Failed?
    requires f.starts == r.tasks[n].starts && f.retries == r.tasks[n].retries
    requires t == r.(tasks := SkipAll(r.tasks[n := f], k)) && n !in k
    requires forall m :: m in k ==> Skippable(r.tasks, m)
    ensures t.tasks.Keys == r.tasks.Keys && t.tasks[n] == f
    ensures forall m :: m in k ==> BecameTerminal(r, t, m) && t.tasks[m].status.Skipped?
    ensures forall m :: BecameTerminal(r, t, m) <==> m == n || m in k
    ensures forall m :: !WasStarted(r, t, m) && !WasRetried(r, t, m)
  {
  }

  /*** Whole scopes ***/

  function CloseIfDone(r: RunEntry): RunEntry {
    if AllTasksSettled(r) then r.(closing := Completed(!AnyFailed(r))) else r
  }

  lemma ClosingRows(i: nat, r: RunEntry, t: RunEntry, c: Closing)
    requires t.closing.Open? && c.Completed?
    ensures StepRows(i, r, t.(closing := c)) == StepRows(i, r, t)
    ensures StepEvents(i, r, t.(closing := c)) == StepEvents(i, r, t)
  {
    var u := t.(closing := c);
    assert TerminalRows(i, r, u) == TerminalRows(i, r, t);
    assert StartRows(i, r, u) == StartRows(i, r, t);
    assert RetryRows(i, r, u) == RetryRows(i, r, t);
  }

  /** Rows and events for going from `r` to `t`, then the closing part if `t` is settled. */
  lemma SettleRecorded(i: nat, r: RunEntry, t: RunEntry, ws: seq<Write>, fs: seq<Effect>, onOutcome: bool, onSuccess: bool)
    requires r.closing.Open? && t.closing.Open? && r.runID == t.runID
    requires multiset(ws) == StepRows(i, r, t) && multiset(fs) == multiset(StepEvents(i, r, t))
    ensures var u := CloseIfDone(t);
      Recorded(i, r, u,
        ws + (if AllTasksSettled(t) then FinalWrites(i, t.runID, u.closing) else []),
        fs + (if AllTasksSettled(t) then FinalEffects(i, t.runID, u.closing, onOutcome, onSuccess) else []),
        onOutcome, onSuccess)
  {
    hide StepRows, StepEvents, AllTasksSettled, AnyFailed, FinalEffects;
    ClosingRows(i, r, t, Completed(!AnyFailed(t)));
    var u := CloseIfDone(t);
    var fw := if AllTasksSettled(t) then FinalWrites(i, t.runID, u.closing) else [];
    var ff := if AllTasksSettled(t) then FinalEffects(i, t.runID, u.closing, onOutcome, onSuccess) else [];
    assert (ws + fw)[..|ws + fw| - |fw|] == ws && (ws + fw)[|ws + fw| - |fw|..] == fw;
    assert (fs + ff)[..|fs + ff| - |ff|] == fs && (fs + ff)[|fs + ff| - |ff|..] == ff;
  }

  lemma DoneRecorded(i: nat, r: RunEntry, n: string, f: Entry, backend: bool, now: int,
                     promoted: seq<Write>, onOutcome: bool, onSuccess: bool)
    requires n in r.tasks && !Terminal(r.tasks[n].status) && f.status.Done? && r.closing.Open?
    requires f.starts == r.tasks[n].starts && f.retries == r.tasks[n].retries
    requires multiset(promoted) == multiset(PromotionRows(i, SetTask(r, n, f).tasks, SetTask(r, n, f).tasks.Keys,
                                                          DoneNames(SetTask(r, n, f).tasks), backend))
    ensures var t := PromoteReady(SetTask(r, n, f), backend, now);
      var u := CloseIfDone(t);
      Recorded(i, r, u,
        [StepRow(i, n, Done, f.attempts)] + promoted
          + (if AllTasksSettled(t) then FinalWrites(i, t.runID, u.closing) else []),
        [StepEvent(i, n, Done)]
          + (if AllTasksSettled(t) then FinalEffects(i, t.runID, u.closing, onOutcome, onSuccess) else []),
        onOutcome, onSuccess)
  {
    hide StepRows, StepEvents, Recorded, PromotionRows, AllTasksSettled, FinalEffects, PromoteReady;
    var t := PromoteReady(SetTask(r, n, f), backend, now);
    DoneRows(i, r, n, f, backend, now);
    PromoteFrame(SetTask(r, n, f), backend, now);
    SettleRecorded(i, r, t, [StepRow(i, n, Done, f.attempts)] + promoted, [StepEvent(i, n, Done)], onOutcome, onSuccess);
  }

  lemma FailRecorded(i: nat, r: RunEntry, n: string, f: Entry, skipped: seq<Write>, events: seq<Effect>,
                     onOutcome: bool, onSuccess: bool)
    requires n in r.tasks && !Terminal(r.tasks[n].status) && f.status.Failed? && r.closing.Open?
    requires f.starts == r.tasks[n].starts && f.retries == r.tasks[n].retries
    requires multiset(skipped) == multiset(SkipRows(i, SkipSet(r.tasks[n := f], n)))
    requires multiset(events) == multiset(SkipEvents(i, SkipSet(r.tasks[n := f], n)))
    ensures var t := SkipDownstream(SetTask(r, n, f), n);
      var u := CloseIfDone(t);
      Recorded(i, r, u,
        [StepRow(i, n, Failed, f.attempts)] + skipped
          + (if AllTasksSettled(t) then FinalWrites(i, t.runID, u.closing) else []),
        [StepEvent(i, n, Failed)] + events
          + (if AllTasksSettled(t) then FinalEffects(i, t.runID, u.closing, onOutcome, onSuccess) else []),
        onOutcome, onSuccess)
  {
    hide StepRows, StepEvents, Recorded, SkipRows, SkipEvents, AllTasksSettled, FinalEffects, SkipSet, SkipReaches;
    var t, k := SkipDownstream(SetTask(r, n, f), n), SkipSet(r.tasks[n := f], n);
    FailRows(i, r, n, f);
    OwnEventApart(i, n, k);
    MultisetOfUnion({StepEvent(i, n, Failed)}, SkipEvents(i, k));
    SettleRecorded(i, r, t, [StepRow(i, n, Failed, f.attempts)] + skipped, [StepEvent(i, n, Failed)] + events, onOutcome, onSuccess);
  }

  /*** A lost entry fails ***/

  /** Its own row and event; its own run is told of nothing else. */
  lemma LostRecorded(i: nat, r: RunEntry, n: string, f: Entry, onOutcome: bool, onSuccess: bool)
    requires n in r.tasks && !Terminal(r.tasks[n].status) && f.status.Failed? && r.closing.Overwritten?
    requires f.starts == r.tasks[n].starts && f.retries == r.tasks[n].retries
    ensures Recorded(i, r, SetTask(r, n, f), [StepRow(i, n, Failed, f.attempts)], [StepEvent(i, n, Failed)], onOutcome, onSuccess)
  {
    OneEntryRows(i, r, n, f);
    assert StepEvents(i, r, SetTask(r, n, f)) == {StepEvent(i, n, Failed)};
    hide StepRows, StepEvents;
  }

  /** In the run that is found under its ID, one row and event per skipped step. */
  lemma StrayRows(i: nat, r: RunEntry, n: string)
    requires r.closing.Open?
    ensures StepRows(i, r, StraySkip(r, n)) == multiset(SkipRows(i, SkipSet(r.tasks, n)))
    ensures StepEvents(i, r, StraySkip(r, n)) == SkipEvents(i, SkipSet(r.tasks, n))
  {
    var k, t := SkipSet(r.tasks, n), StraySkip(r, n);
    hide SkipSet, SkipReaches;
    forall m | m in k ensures Skippable(r.tasks, m) { var d := SkipSetCause(r.tasks, n, m); }
    assert forall m :: BecameTerminal(r, t, m) <==> m in k;
    assert forall m :: m in k ==> t.tasks[m].status.Skipped?;
    assert TerminalRows(i, r, t) == SkipRows(i, k);
    assert StepEvents(i, r, t) == SkipEvents(i, k);
    assert StartRows(i, r, t) == {} && RetryRows(i, r, t) == {};
  }

  lemma StrayRecorded(i: nat, r: RunEntry, n: string, skipped: seq<Write>, events: seq<Effect>, onOutcome: bool, onSuccess: bool)
    requires r.closing.Open?
    requires multiset(skipped) == multiset(SkipRows(i, SkipSet(r.tasks, n)))
    requires multiset(events) == multiset(SkipEvents(i, SkipSet(r.tasks, n)))
    ensures var t := StraySkip(r, n);
      var u := CloseIfDone(t);
      Recorded(i, r, u,
        skipped + (if AllTasksSettled(t) then FinalWrites(i, t.runID, u.closing) else []),
        events + (if AllTasksSettled(t) then FinalEffects(i, t.runID, u.closing, onOutcome, onSuccess) else []),
        onOutcome, onSuccess)
  {
    hide StepRows, StepEvents, Recorded, SkipRows, SkipEvents, AllTasksSettled, FinalEffects, SkipSet, SkipReaches;
    StrayRows(i, r, n);
    SettleRecorded(i, r, StraySkip(r, n), skipped, events, onOutcome, onSuccess);
  }

  lemma OwnEventApart(i: nat, n: string, k: set<string>)
    ensures {StepEvent(i, n, Failed)} !! SkipEvents(i, k)
  {
  }

  /*** Every open step of the run is forced to an end ***/

  function ForcedRow(i: nat, n: string, e: Entry, to: Status): Write {
    StepRow(i, n, to, e.attempts)
  }

  /** The rows of the open entries among `names`. */
  function ForcedRows(i: nat, tasks: map<string, Entry>, names: set<string>, to: Status): set<Write> {
    set n | n in names && n in tasks && !Terminal(tasks[n].status) :: ForcedRow(i, n, tasks[n], to)
  }

  function ForceEntry(e: Entry, to: Status): Entry {
    if Terminal(e.status) then e
    else if to.Canceled? then CancelEntry(e) else Finish(e, to)
  }

  function ForceTasks(tasks: map<string, Entry>, names: set<string>, to: Status): map<string, Entry> {
    map n | n in tasks :: if n in names then ForceEntry(tasks[n], to) else tasks[n]
  }

  lemma ForceBooks(e: Entry, to: Status)
    requires to.Canceled? || to.Failed?
    ensures var f := ForceEntry(e, to);
      && f.starts == e.starts && f.retries == e.retries && f.attempts == e.attempts
      && f.status == if Terminal(e.status) then e.status else to
  {
  }

  lemma ForceRows(i: nat, r: RunEntry, to: Status, c: Closing)
    requires to.Canceled? || to.Failed?
    ensures StepRows(i, r, r.(tasks := ForceTasks(r.tasks, r.tasks.Keys, to), closing := c))
         == multiset(ForcedRows(i, r.tasks, r.tasks.Keys, to))
  {
    var t := r.(tasks := ForceTasks(r.tasks, r.tasks.Keys, to), closing := c);
    forall n | n in r.tasks {
      ForceBooks(r.tasks[n], to);
    }
    hide ForceEntry;
    assert TerminalRows(i, r, t) == ForcedRows(i, r.tasks, r.tasks.Keys, to);
    assert StartRows(i, r, t) == {};
    assert RetryRows(i, r, t) == {};
  }

  lemma ForcedRowsStep(i: nat, tasks: map<string, Entry>, names: set<string>, n: string, to: Status)
    requires n !in names && n in tasks
    ensures ForcedRow(i, n, tasks[n], to) !in ForcedRows(i, tasks, names, to)
    ensures ForcedRows(i, tasks, names + {n}, to)
         == ForcedRows(i, tasks, names, to) + if Terminal(tasks[n].status) then {} else {ForcedRow(i, n, tasks[n], to)}
  {
  }

  /*** All runs at once ***/

  /** Nothing is deferred for anything but the first `n` runs. */
  predicate AllNamed(out: Outcome, n: nat) {
    && (forall w :: w in out.writes ==> !w.UntrackedRunRow? && w.run < n)
    && (forall f :: f in out.effects ==> !f.UntrackedCanceledEvent? && f.run < n)
  }

  ghost predicate DeferredFor(s: State, t: State, out: Outcome, onOutcome: bool, onSuccess: bool) {
    && |s.heap| <= |t.heap| && AllNamed(out, |t.heap|)
    && forall k :: 0 <= k < |s.heap| ==> Deferred(k, s.heap[k], t.heap[k], out, onOutcome, onSuccess)
  }

  /** A scope that touches one run. */
  lemma OneRunDeferred(s: State, t: State, i: nat, out: Outcome, onOutcome: bool, onSuccess: bool)
    requires |s.heap| == |t.heap| && i < |s.heap|
    requires forall k :: 0 <= k < |s.heap| && k != i ==> t.heap[k] == s.heap[k]
    requires Recorded(i, s.heap[i], t.heap[i], out.writes, out.effects, onOutcome, onSuccess)
    ensures DeferredFor(s, t, out, onOutcome, onSuccess)
  {
    hide Recorded, Deferred;
    RecordedNames(i, s.heap[i], t.heap[i], out.writes, out.effects, onOutcome, onSuccess);
    forall k | 0 <= k < |s.heap|
      ensures Deferred(k, s.heap[k], t.heap[k], out, onOutcome, onSuccess)
    {
      RecordedDeferred(i, s.heap[i], t.heap[i], out, onOutcome, onSuccess, k, s.heap[k]);
    }
  }

  /** A scope that touches none. */
  lemma NoRunDeferred(s: State, onOutcome: bool, onSuccess: bool)
    ensures DeferredFor(s, s, Outcome([], []), onOutcome, onSuccess)
  {
    hide Recorded;
    forall k | 0 <= k < |s.heap|
      ensures Deferred(k, s.heap[k], s.heap[k], Outcome([], []), onOutcome, onSuccess)
    {
      NothingRecorded(k, s.heap[k], onOutcome, onSuccess);
    }
  }

  predicate SameRuns(s: State, t: State) {
    |s.heap| == |t.heap| && forall k :: 0 <= k < |s.heap| ==> SameBooks(s.heap[k], t.heap[k])
  }

  /** Bookkeeping done before the scope proper needs no record. */
  lemma DeferredFrom(s: State, s1: State, t: State, out: Outcome, onOutcome: bool, onSuccess: bool)
    requires SameRuns(s, s1) && DeferredFor(s1, t, out, onOutcome, onSuccess)
    ensures DeferredFor(s, t, out, onOutcome, onSuccess)
  {
    hide Recorded, SameBooks;
    forall k | 0 <= k < |s.heap|
      ensures Deferred(k, s.heap[k], t.heap[k], out, onOutcome, onSuccess)
    {
      assert SameBooks(s.heap[k], s1.heap[k]);
      RecordedFrom(k, s.heap[k], s1.heap[k], t.heap[k], WritesOf(out.writes, k), EffectsOf(out.effects, k), onOutcome, onSuccess);
    }
  }

  lemma SameRunsEntry(s: State, i: nat, n: string, f: Entry)
    requires HasTask(s, i, n)
    requires f.status == s.heap[i].tasks[n].status && f.starts == s.heap[i].tasks[n].starts && f.retries == s.heap[i].tasks[n].retries
    ensures SameRuns(s, SetEntry(s, i, n, f))
  {
  }

  lemma MoveJobSame(s: State, i: nat, n: string, j: nat, p: Phase)
    requires HasJob(s, i, n, j)
    ensures SameRuns(s, MoveJob(s, i, n, j, p))
  {
    SameRunsEntry(s, i, n, SetPhase(s.heap[i].tasks[n], j, p));
  }

  /*** A step fails for good ***/

  /** Entry `n` of run `i` fails, and run `k`, its own or the one found under its ID, is told. */
  ghost function FailedState(s: State, k: nat, i: nat, n: string): State
    requires HasTask(s, i, n) && k < |s.heap|
  {
    var t := SetEntry(s, i, n, Finish(s.heap[i].tasks[n], Failed));
    CloseIfSettled(SetRun(t, k, if k == i then SkipDownstream(t.heap[k], n) else StraySkip(t.heap[k], n)), k)
  }

  /** The run that is told, before it may be closed. */
  ghost function ToldRun(s: State, k: nat, i: nat, n: string): RunEntry
    requires HasTask(s, i, n) && k < |s.heap|
  {
    if k == i then SkipDownstream(SetTask(s.heap[i], n, Finish(s.heap[i].tasks[n], Failed)), n) else StraySkip(s.heap[k], n)
  }

  lemma FailedStateRuns(s: State, k: nat, i: nat, n: string)
    requires HasTask(s, i, n) && k < |s.heap|
    ensures var t, u := SetEntry(s, i, n, Finish(s.heap[i].tasks[n], Failed)), FailedState(s, k, i, n);
      && |u.heap| == |t.heap| == |s.heap| && u.heap[k] == CloseIfDone(ToldRun(s, k, i, n))
      && (forall h :: 0 <= h < |s.heap| && h != i ==> t.heap[h] == s.heap[h])
      && (forall h :: 0 <= h < |s.heap| && h != k ==> u.heap[h] == t.heap[h])
  {
    hide Finish, StraySkip, SkipDownstream, AllTasksSettled, AnyFailed;
  }

  /** The rows and events of a failure, in the order they are recorded. */
  function FailWrites(i: nat, n: string, e: Entry, skipped: seq<Write>, k: nat, t: RunEntry): seq<Write> {
    [StepRow(i, n, Failed, e.attempts)] + skipped + if AllTasksSettled(t) then FinalWrites(k, t.runID, CloseIfDone(t).closing) else []
  }

  function FailEffects(i: nat, n: string, events: seq<Effect>, k: nat, t: RunEntry, onOutcome: bool, onSuccess: bool): seq<Effect> {
    [StepEvent(i, n, Failed)] + events
    + if AllTasksSettled(t) then FinalEffects(k, t.runID, CloseIfDone(t).closing, onOutcome, onSuccess) else []
  }

  lemma FinishFrame(e: Entry, to: Status)
    requires !Terminal(e.status)
    ensures var f := Finish(e, to); f.attempts == e.attempts && f.starts == e.starts && f.retries == e.retries && f.status == to
  {
  }

  lemma OwnFailDeferred(s: State, i: nat, n: string, skipped: seq<Write>, events: seq<Effect>, onOutcome: bool, onSuccess: bool)
    requires HasTask(s, i, n) && s.heap[i].closing.Open? && !Terminal(s.heap[i].tasks[n].status)
    requires var k := SkipSet(s.heap[i].tasks[n := Finish(s.heap[i].tasks[n], Failed)], n);
      multiset(skipped) == multiset(SkipRows(i, k)) && multiset(events) == multiset(SkipEvents(i, k))
    ensures var e, t := s.heap[i].tasks[n], ToldRun(s, i, i, n);
      DeferredFor(s, FailedState(s, i, i, n),
                  Outcome(FailWrites(i, n, e, skipped, i, t), FailEffects(i, n, events, i, t, onOutcome, onSuccess)),
                  onOutcome, onSuccess)
  {
    FinishFrame(s.heap[i].tasks[n], Failed);
    hide Finish, SkipSet, SkipRows, SkipEvents, Recorded, DeferredFor, FinalWrites, FinalEffects, AllTasksSettled, AnyFailed, FailedState;
    var e, t := s.heap[i].tasks[n], ToldRun(s, i, i, n);
    FailRecorded(i, s.heap[i], n, Finish(e, Failed), skipped, events, onOutcome, onSuccess);
    FailedStateRuns(s, i, i, n);
    OneRunDeferred(s, FailedState(s, i, i, n), i,
                   Outcome(FailWrites(i, n, e, skipped, i, t), FailEffects(i, n, events, i, t, onOutcome, onSuccess)), onOutcome, onSuccess);
  }

  /** Its own part. */
  lemma LostFirst(s: State, i: nat, n: string, onOutcome: bool, onSuccess: bool)
    requires HasTask(s, i, n) && s.heap[i].closing.Overwritten? && !Terminal(s.heap[i].tasks[n].status)
    ensures var e := s.heap[i].tasks[n];
      DeferredFor(s, SetEntry(s, i, n, Finish(e, Failed)),
                  Outcome([StepRow(i, n, Failed, e.attempts)], [StepEvent(i, n, Failed)]), onOutcome, onSuccess)
  {
    FinishFrame(s.heap[i].tasks[n], Failed);
    hide Finish, Recorded, DeferredFor;
    var e, f := s.heap[i].tasks[n], Finish(s.heap[i].tasks[n], Failed);
    LostRecorded(i, s.heap[i], n, f, onOutcome, onSuccess);
    OneRunDeferred(s, SetEntry(s, i, n, f), i, Outcome([StepRow(i, n, Failed, e.attempts)], [StepEvent(i, n, Failed)]), onOutcome, onSuccess);
  }

  /** The part of the run that is told. */
  lemma LostThen(s: State, t: State, u: State, k: nat, n: string, first: Outcome, skipped: seq<Write>, events: seq<Effect>,
                 onOutcome: bool, onSuccess: bool)
    requires DeferredFor(s, t, first, onOutcome, onSuccess)
    requires k < |s.heap| == |t.heap| == |u.heap| && t.heap[k] == s.heap[k] && s.heap[k].closing.Open?
    requires forall h :: 0 <= h < |s.heap| && h != k ==> u.heap[h] == t.heap[h]
    requires u.heap[k] == CloseIfDone(StraySkip(s.heap[k], n))
    requires multiset(skipped) == multiset(SkipRows(k, SkipSet(s.heap[k].tasks, n)))
    requires multiset(events) == multiset(SkipEvents(k, SkipSet(s.heap[k].tasks, n)))
    ensures var told := StraySkip(s.heap[k], n);
      DeferredFor(s, u,
        Outcome(first.writes + (skipped + if AllTasksSettled(told) then FinalWrites(k, told.runID, CloseIfDone(told).closing) else []),
                first.effects + (events + if AllTasksSettled(told) then FinalEffects(k, told.runID, CloseIfDone(told).closing, onOutcome, onSuccess) else [])),
        onOutcome, onSuccess)
  {
    hide SkipSet, SkipRows, SkipEvents, Recorded, DeferredFor, FinalWrites, FinalEffects, AllTasksSettled, StraySkip, CloseIfDone;
    var told := StraySkip(s.heap[k], n);
    StrayRecorded(k, s.heap[k], n, skipped, events, onOutcome, onSuccess);
    AppendDeferred(s, t, u, k, first,
                   skipped + (if AllTasksSettled(told) then FinalWrites(k, told.runID, CloseIfDone(told).closing) else []),
                   events + (if AllTasksSettled(told) then FinalEffects(k, told.runID, CloseIfDone(told).closing, onOutcome, onSuccess) else []),
                   onOutcome, onSuccess);
  }

  lemma LostFailDeferred(s: State, k: nat, i: nat, n: string, skipped: seq<Write>, events: seq<Effect>, onOutcome: bool, onSuccess: bool)
    requires HasTask(s, i, n) && s.heap[i].closing.Overwritten? && !Terminal(s.heap[i].tasks[n].status)
    requires k < |s.heap| && k != i && s.heap[k].closing.Open?
    requires multiset(skipped) == multiset(SkipRows(k, SkipSet(s.heap[k].tasks, n)))
    requires multiset(events) == multiset(SkipEvents(k, SkipSet(s.heap[k].tasks, n)))
    ensures var e, t := s.heap[i].tasks[n], ToldRun(s, k, i, n);
      DeferredFor(s, FailedState(s, k, i, n),
                  Outcome(FailWrites(i, n, e, skipped, k, t), FailEffects(i, n, events, k, t, onOutcome, onSuccess)),
                  onOutcome, onSuccess)
  {
    hide Finish, SkipSet, SkipRows, SkipEvents, DeferredFor, FinalWrites, FinalEffects, AllTasksSettled, FailedState, StraySkip, SetEntry, CloseIfDone;
    var e, told := s.heap[i].tasks[n], StraySkip(s.heap[k], n);
    var first := Outcome([StepRow(i, n, Failed, e.attempts)], [StepEvent(i, n, Failed)]);
    LostFirst(s, i, n, onOutcome, onSuccess);
    FailedStateRuns(s, k, i, n);
    LostThen(s, SetEntry(s, i, n, Finish(e, Failed)), FailedState(s, k, i, n), k, n, first, skipped, events, onOutcome, onSuccess);
    Regroup(first.writes, skipped, if AllTasksSettled(told) then FinalWrites(k, told.runID, CloseIfDone(told).closing) else []);
    Regroup(first.effects, events, if AllTasksSettled(told) then FinalEffects(k, told.runID, CloseIfDone(told).closing, onOutcome, onSuccess) else []);
  }

  /** Either way, with the rows and events that skipping in run `k` leaves. */
  lemma FailDeferred(s: State, k: nat, i: nat, n: string, skipped: seq<Write>, events: seq<Effect>, onOutcome: bool, onSuccess: bool)
    requires HasTask(s, i, n) && !Terminal(s.heap[i].tasks[n].status)
    requires k < |s.heap| && s.heap[k].closing.Open? && (k != i ==> s.heap[i].closing.Overwritten?)
    requires var t := SetEntry(s, i, n, Finish(s.heap[i].tasks[n], Failed));
      && multiset(skipped) == multiset(SkipRows(k, SkipSet(t.heap[k].tasks, n)))
      && multiset(events) == multiset(SkipEvents(k, SkipSet(t.heap[k].tasks, n)))
    ensures var e, t := s.heap[i].tasks[n], ToldRun(s, k, i, n);
      DeferredFor(s, FailedState(s, k, i, n),
                  Outcome(FailWrites(i, n, e, skipped, k, t), FailEffects(i, n, events, k, t, onOutcome, onSuccess)),
                  onOutcome, onSuccess)
  {
    hide Finish, SkipSet, SkipRows, SkipEvents, DeferredFor, FailedState, FailWrites, FailEffects;
    if k == i {
      OwnFailDeferred(s, i, n, skipped, events, onOutcome, onSuccess);
    } else {
      LostFailDeferred(s, k, i, n, skipped, events, onOutcome, onSuccess);
    }
  }

  lemma SetEntryAt(s: State, i: nat, n: string, f: Entry)
    requires HasTask(s, i, n)
    ensures HasTask(SetEntry(s, i, n, f), i, n) && SetEntry(s, i, n, f).heap[i].tasks[n] == f
    ensures |SetEntry(s, i, n, f).heap| == |s.heap|
  {
  }

  lemma Regroup<T>(a: seq<T>, b: seq<T>, c: seq<T>)
    ensures a + (b + c) == a + b + c
  {
  }

  /** One entry is handed to the backend, or nothing happens to it. */
  lemma DispatchDeferred(s: State, i: nat, n: string, e: Entry, now: int, out: Outcome, onOutcome: bool, onSuccess: bool)
    requires HasTask(s, i, n) && e.status.Ready?
    requires e.starts == s.heap[i].tasks[n].starts && e.retries == s.heap[i].tasks[n].retries
    requires out == Outcome(if s.cfg.backend then [StepRow(i, n, Running, e.attempts + 1)] else [], [])
    ensures DeferredFor(s, SetEntry(s, i, n, Dispatch(e, s.cfg.backend, now)), out, onOutcome, onSuccess)
  {
    hide Recorded, DeferredFor;
    var r, f := s.heap[i], Dispatch(e, s.cfg.backend, now);
    if s.cfg.backend {
      StartRecorded(i, r, n, f, out.writes, onOutcome, onSuccess);
    } else {
      QuietRecorded(i, r, n, f, onOutcome, onSuccess);
    }
    OneRunDeferred(s, SetEntry(s, i, n, f), i, out, onOutcome, onSuccess);
  }

  /** Every entry of a run is forced to an end and the run is closed. */
  lemma ForceRecorded(i: nat, r: RunEntry, to: Status, c: Closing, rows: seq<Write>, onOutcome: bool, onSuccess: bool)
    requires r.closing.Open? && ((to.Canceled? && c.CanceledRun?) || (to.Failed? && c.Expired?))
    requires multiset(rows) == multiset(ForcedRows(i, r.tasks, r.tasks.Keys, to))
    ensures Recorded(i, r, r.(tasks := ForceTasks(r.tasks, r.tasks.Keys, to), closing := c),
                     rows + FinalWrites(i, r.runID, c), FinalEffects(i, r.runID, c, onOutcome, onSuccess), onOutcome, onSuccess)
  {
    hide StepRows, FinalEffects;
    ForceRows(i, r, to, c);
    var ws, fs := rows + FinalWrites(i, r.runID, c), FinalEffects(i, r.runID, c, onOutcome, onSuccess);
    assert ws[..|ws| - 1] == rows;
    assert fs[..|fs| - |fs|] == [];
  }

  /** `ForceTasks` over all names is what Cancel and Cleanup do. */
  lemma ForceIs(tasks: map<string, Entry>)
    ensures ForceTasks(tasks, tasks.Keys, Canceled) == CancelTasks(tasks)
    ensures ForceTasks(tasks, tasks.Keys, Failed) == ExpireTasks(tasks)
    ensures ForceTasks(tasks, {}, Canceled) == ForceTasks(tasks, {}, Failed) == tasks
  {
  }

  lemma ForceStep(s: State, i: nat, names: set<string>, n: string, to: Status)
    requires i < |s.heap| && n in s.heap[i].tasks && n !in names
    ensures var r := s.heap[i];
      var tasks := ForceTasks(r.tasks, names, to);
      && n in tasks && tasks[n] == r.tasks[n]
      && SetEntry(SetRun(s, i, r.(tasks := tasks)), i, n, ForceEntry(r.tasks[n], to))
         == SetRun(s, i, r.(tasks := ForceTasks(r.tasks, names + {n}, to)))
  {
    hide ForceEntry;
    var r := s.heap[i];
    assert ForceTasks(r.tasks, names, to)[n := ForceEntry(r.tasks[n], to)] == ForceTasks(r.tasks, names + {n}, to);
  }

  lemma ForceNone(s: State, i: nat, to: Status)
    requires i < |s.heap|
    ensures SetRun(s, i, s.heap[i].(tasks := ForceTasks(s.heap[i].tasks, {}, to))) == s
    ensures ForcedRows(i, s.heap[i].tasks, {}, to) == {}
  {
    assert ForceTasks(s.heap[i].tasks, {}, to) == s.heap[i].tasks;
  }

  /** Work for one more run, so far untouched, joins what is already deferred. */
  lemma AppendDeferred(s: State, t: State, u: State, i: nat, out: Outcome, ws: seq<Write>, fs: seq<Effect>,
                       onOutcome: bool, onSuccess: bool)
    requires DeferredFor(s, t, out, onOutcome, onSuccess)
    requires i < |s.heap| == |t.heap| == |u.heap| && t.heap[i] == s.heap[i]
    requires forall k :: 0 <= k < |s.heap| && k != i ==> u.heap[k] == t.heap[k]
    requires Recorded(i, s.heap[i], u.heap[i], ws, fs, onOutcome, onSuccess)
    ensures DeferredFor(s, u, Outcome(out.writes + ws, out.effects + fs), onOutcome, onSuccess)
  {
    hide Recorded;
    RecordedNames(i, s.heap[i], u.heap[i], ws, fs, onOutcome, onSuccess);
    forall k | 0 <= k < |s.heap|
      ensures Deferred(k, s.heap[k], u.heap[k], Outcome(out.writes + ws, out.effects + fs), onOutcome, onSuccess)
    {
      WritesOfConcat(out.writes, ws, k);
      EffectsOfConcat(out.effects, fs, k);
      WritesOfOne(ws, i, k);
      EffectsOfOne(fs, i, k);
      assert Deferred(k, s.heap[k], t.heap[k], out, onOutcome, onSuccess);
      if k == i {
        OnlyNothing(i, s.heap[i], WritesOf(out.writes, i), EffectsOf(out.effects, i), onOutcome, onSuccess);
        assert [] + ws == ws && [] + fs == fs;
      } else {
        assert WritesOf(out.writes, k) + [] == WritesOf(out.writes, k);
        assert EffectsOf(out.effects, k) + [] == EffectsOf(out.effects, k);
      }
    }
  }

  lemma OnlyNothing(i: nat, r: RunEntry, ws: seq<Write>, fs: seq<Effect>, onOutcome: bool, onSuccess: bool)
    requires Recorded(i, r, r, ws, fs, onOutcome, onSuccess)
    ensures ws == [] && fs == []
  {
    hide StepRows, StepEvents;
    NothingRows(i, r);
    assert ws[..|ws| - 0] == ws && fs[..|fs| - 0] == fs;
    assert |multiset(ws)| == |ws| && |multiset(fs)| == |fs|;
  }

  lemma NothingRows(i: nat, r: RunEntry)
    ensures StepRows(i, r, r) == multiset{} && StepEvents(i, r, r) == {}
  {
    assert TerminalRows(i, r, r) == {} && StartRows(i, r, r) == {} && RetryRows(i, r, r) == {};
  }

  /** A new run: promotion alone, or closed at once; nothing for the run whose slot it takes. */
  lemma EnterDeferred(s: State, r: RunEntry, t: RunEntry, out: Outcome, onOutcome: bool, onSuccess: bool)
    requires Recorded(|s.heap|, r, t, out.writes, out.effects, onOutcome, onSuccess)
    ensures Deferred(|s.heap|, r, t, out, onOutcome, onSuccess)
    ensures forall k :: 0 <= k < |s.heap| ==> Deferred(k, s.heap[k], Displace(s, r.runID).heap[k], out, onOutcome, onSuccess)
    ensures AllNamed(out, |s.heap| + 1)
  {
    hide Recorded;
    RecordedNames(|s.heap|, r, t, out.writes, out.effects, onOutcome, onSuccess);
    RecordedDeferred(|s.heap|, r, t, out, onOutcome, onSuccess, |s.heap|, r);
    forall k | 0 <= k < |s.heap|
      ensures Deferred(k, s.heap[k], Displace(s, r.runID).heap[k], out, onOutcome, onSuccess)
    {
      WritesOfOne(out.writes, |s.heap|, k);
      EffectsOfOne(out.effects, |s.heap|, k);
      NothingRecorded(k, s.heap[k], onOutcome, onSuccess);
      OverwrittenRecorded(k, s.heap[k], onOutcome, onSuccess);
    }
  }

  lemma PromoteRecorded(i: nat, r: RunEntry, backend: bool, now: int, ws: seq<Write>, onOutcome: bool, onSuccess: bool)
    requires multiset(ws) == multiset(PromotionRows(i, r.tasks, r.tasks.Keys, DoneNames(r.tasks), backend))
    ensures Recorded(i, r, PromoteReady(r, backend, now), ws, [], onOutcome, onSuccess)
  {
    hide StepRows, StepEvents, PromoteReady, PromotionRows, DoneNames, FinalEffects, FinalWrites;
    PromoteRows(i, r, backend, now);
    PromoteFrame(r, backend, now);
    assert ws[..|ws|] == ws;
    assert !Closed(r, PromoteReady(r, backend, now));
  }

  lemma ClosedRecorded(i: nat, r: RunEntry, onOutcome: bool, onSuccess: bool)
    requires r.closing.Open? && AllTasksSettled(r)
    ensures var c := Completed(!AnyFailed(r));
      Recorded(i, r, r.(closing := c), FinalWrites(i, r.runID, c), FinalEffects(i, r.runID, c, onOutcome, onSuccess), onOutcome, onSuccess)
  {
    hide StepRows, StepEvents;
    NothingRows(i, r);
    SettleRecorded(i, r, r, [], [], onOutcome, onSuccess);
    var c := Completed(!AnyFailed(r));
    assert [] + FinalWrites(i, r.runID, c) == FinalWrites(i, r.runID, c);
    assert [] + FinalEffects(i, r.runID, c, onOutcome, onSuccess) == FinalEffects(i, r.runID, c, onOutcome, onSuccess);
  }
}
