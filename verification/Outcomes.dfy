/**
 The deferred work of one lock scope: repository writes and side effects, and what a
 scope that turns run `r` into `t` must have deferred for it.
 */
module Outcomes {
  import opened Tasks
  import opened Runs

  datatype RunStatus = Success | Failure | Cancelation

  /**
   `StepRow` upserts a step row; a row of a step put to retry is written as running.
   `RunRow` is the compare-and-set of the run row by the finalizer of heap entry `run`.
   */
  datatype Write =
    | StepRow(run: nat, step: string, status: Status, attempts: int)
    | RunRow(run: nat, runID: string, outcome: RunStatus)
    | UntrackedRunRow(runID: string)

  /** The last three kinds read the `applied` flag of the finalizer of heap entry `run`. */
  datatype Effect =
    | StepEvent(run: nat, step: string, status: Status)
    | UntrackedCanceledEvent(runID: string)
    | RunEvent(run: nat, runID: string, closing: Closing)
    | OutcomeCallback(run: nat, runID: string, outcome: RunStatus)
    | SuccessCallback(run: nat, runID: string)

  datatype Outcome = Outcome(writes: seq<Write>, effects: seq<Effect>)

  function StatusOf(c: Closing): RunStatus {
    match c
    case Completed(true) => Success
    case CanceledRun => Cancelation
    case _ => Failure
  }

  /** What `finalizeRunLocked` defers. */
  function FinalWrites(i: nat, runID: string, c: Closing): seq<Write> {
    [RunRow(i, runID, StatusOf(c))]
  }

  function FinalEffects(i: nat, runID: string, c: Closing, onOutcome: bool, onSuccess: bool): seq<Effect> {
    [RunEvent(i, runID, c)]
    + (if onOutcome then [OutcomeCallback(i, runID, StatusOf(c))] else [])
    + (if StatusOf(c).Success? && onSuccess then [SuccessCallback(i, runID)] else [])
  }

  /*** Reading an outcome back ***/

  predicate WriteOf(w: Write, i: nat) {
    !w.UntrackedRunRow? && w.run == i
  }

  function WritesOf(ws: seq<Write>, i: nat): seq<Write> {
    if ws == [] then []
    else (if WriteOf(ws[0], i) then [ws[0]] else []) + WritesOf(ws[1..], i)
  }

  predicate EffectOf(f: Effect, i: nat) {
    !f.UntrackedCanceledEvent? && f.run == i
  }

  function EffectsOf(fs: seq<Effect>, i: nat): seq<Effect> {
    if fs == [] then []
    else (if EffectOf(fs[0], i) then [fs[0]] else []) + EffectsOf(fs[1..], i)
  }

  lemma {:induction false} WritesOfConcat(a: seq<Write>, b: seq<Write>, i: nat)
    ensures WritesOf(a + b, i) == WritesOf(a, i) + WritesOf(b, i)
    decreases |a|
  {
    if a == [] {
      assert a + b == b;
    } else {
      WritesOfConcat(a[1..], b, i);
      assert (a + b)[1..] == a[1..] + b;
    }
  }

  lemma {:induction false} EffectsOfConcat(a: seq<Effect>, b: seq<Effect>, i: nat)
    ensures EffectsOf(a + b, i) == EffectsOf(a, i) + EffectsOf(b, i)
    decreases |a|
  {
    if a == [] {
      assert a + b == b;
    } else {
      EffectsOfConcat(a[1..], b, i);
      assert (a + b)[1..] == a[1..] + b;
    }
  }

  lemma {:induction false} WritesOfOne(ws: seq<Write>, i: nat, k: nat)
    requires forall w :: w in ws ==> WriteOf(w, i)
    ensures WritesOf(ws, k) == if k == i then ws else []
    decreases |ws|
  {
    if ws != [] {
      assert ws[0] in ws;
      WritesOfOne(ws[1..], i, k);
    }
  }

  lemma {:induction false} EffectsOfOne(fs: seq<Effect>, i: nat, k: nat)
    requires forall f :: f in fs ==> EffectOf(f, i)
    ensures EffectsOf(fs, k) == if k == i then fs else []
    decreases |fs|
  {
    if fs != [] {
      assert fs[0] in fs;
      EffectsOfOne(fs[1..], i, k);
    }
  }

  /*** What must have been deferred ***/

  /** The row a terminal transition writes; skipping leaves the attempt column at zero. */
  function TerminalRow(i: nat, n: string, e: Entry): Write {
    StepRow(i, n, e.status, if e.status.Skipped? then 0 else e.attempts)
  }

  predicate BecameTerminal(r: RunEntry, t: RunEntry, n: string) {
    n in r.tasks && n in t.tasks && !Terminal(r.tasks[n].status) && Terminal(t.tasks[n].status)
  }

  predicate WasStarted(r: RunEntry, t: RunEntry, n: string) {
    n in r.tasks && n in t.tasks && r.tasks[n].starts < t.tasks[n].starts
  }

  predicate WasRetried(r: RunEntry, t: RunEntry, n: string) {
    n in r.tasks && n in t.tasks && r.tasks[n].retries < t.tasks[n].retries
  }

  function TerminalRows(i: nat, r: RunEntry, t: RunEntry): set<Write> {
    set n | n in r.tasks && BecameTerminal(r, t, n) :: TerminalRow(i, n, t.tasks[n])
  }

  function StartRows(i: nat, r: RunEntry, t: RunEntry): set<Write> {
    set n | n in r.tasks && WasStarted(r, t, n) :: StepRow(i, n, Running, t.tasks[n].attempts)
  }

  /** A retried step that is started again in the same scope has one attempt more by its end. */
  function RetryRows(i: nat, r: RunEntry, t: RunEntry): set<Write> {
    set n | n in r.tasks && WasRetried(r, t, n) ::
      StepRow(i, n, Running, t.tasks[n].attempts - if WasStarted(r, t, n) then 1 else 0)
  }

  function StepRows(i: nat, r: RunEntry, t: RunEntry): multiset<Write> {
    multiset(TerminalRows(i, r, t)) + multiset(StartRows(i, r, t)) + multiset(RetryRows(i, r, t))
  }

  /** Canceled and expired steps have no event of their own. */
  function StepEvents(i: nat, r: RunEntry, t: RunEntry): set<Effect> {
    if t.closing.CanceledRun? || t.closing.Expired? then {}
    else set n | n in r.tasks && BecameTerminal(r, t, n) :: StepEvent(i, n, t.tasks[n].status)
  }

  /** Losing the table's slot to another entry closes nothing. */
  predicate Closed(r: RunEntry, t: RunEntry) {
    r.closing.Open? && !t.closing.Open? && !t.closing.Overwritten?
  }

  /**
   `ws` and `fs` are what a scope must defer for run `i` when it takes it from `r` to `t`:
   the step rows are exactly one per step that became terminal, was started or was retried;
   if the run was closed its row comes once and after all of them, and the effects of closing
   come once and after every step event.
   */
  ghost predicate Recorded(i: nat, r: RunEntry, t: RunEntry, ws: seq<Write>, fs: seq<Effect>, onOutcome: bool, onSuccess: bool) {
    var fw := if Closed(r, t) then FinalWrites(i, r.runID, t.closing) else [];
    var ff := if Closed(r, t) then FinalEffects(i, r.runID, t.closing, onOutcome, onSuccess) else [];
    && |fw| <= |ws| && ws[|ws| - |fw|..] == fw && multiset(ws[..|ws| - |fw|]) == StepRows(i, r, t)
    && |ff| <= |fs| && fs[|fs| - |ff|..] == ff && multiset(fs[..|fs| - |ff|]) == multiset(StepEvents(i, r, t))
  }

  ghost predicate Deferred(i: nat, r: RunEntry, t: RunEntry, out: Outcome, onOutcome: bool, onSuccess: bool) {
    Recorded(i, r, t, WritesOf(out.writes, i), EffectsOf(out.effects, i), onOutcome, onSuccess)
  }

  lemma NothingRecorded(i: nat, r: RunEntry, onOutcome: bool, onSuccess: bool)
    ensures Recorded(i, r, r, [], [], onOutcome, onSuccess)
  {
    assert TerminalRows(i, r, r) == {} && StartRows(i, r, r) == {} && RetryRows(i, r, r) == {};
    assert StepEvents(i, r, r) == {};
  }

  lemma OverwrittenRecorded(i: nat, r: RunEntry, onOutcome: bool, onSuccess: bool)
    ensures Recorded(i, r, r.(closing := Overwritten), [], [], onOutcome, onSuccess)
  {
    var t := r.(closing := Overwritten);
    assert TerminalRows(i, r, t) == {} && StartRows(i, r, t) == {} && RetryRows(i, r, t) == {};
    assert StepEvents(i, r, t) == {};
  }

  lemma StepRowsName(i: nat, r: RunEntry, t: RunEntry)
    ensures forall w :: w in StepRows(i, r, t) ==> WriteOf(w, i)
    ensures forall f :: f in StepEvents(i, r, t) ==> EffectOf(f, i)
  {
    assert forall w :: w in TerminalRows(i, r, t) ==> WriteOf(w, i);
    assert forall w :: w in StartRows(i, r, t) ==> WriteOf(w, i);
    assert forall w :: w in RetryRows(i, r, t) ==> WriteOf(w, i);
  }

  lemma HeadAndTail<T>(s: seq<T>, tail: seq<T>, m: multiset<T>, x: T)
    requires |tail| <= |s| && s[|s| - |tail|..] == tail && multiset(s[..|s| - |tail|]) == m && x in s
    ensures x in m || x in tail
  {
    var head := s[..|s| - |tail|];
    assert s == head + tail;
    if x in head { assert x in multiset(head); }
  }

  /** Whatever is recorded for run `i` names run `i`. */
  lemma RecordedNames(i: nat, r: RunEntry, t: RunEntry, ws: seq<Write>, fs: seq<Effect>, onOutcome: bool, onSuccess: bool)
    requires Recorded(i, r, t, ws, fs, onOutcome, onSuccess)
    ensures forall w :: w in ws ==> WriteOf(w, i)
    ensures forall f :: f in fs ==> EffectOf(f, i)
  {
    hide StepRows, StepEvents;
    var fw := if Closed(r, t) then FinalWrites(i, r.runID, t.closing) else [];
    var ff := if Closed(r, t) then FinalEffects(i, r.runID, t.closing, onOutcome, onSuccess) else [];
    StepRowsName(i, r, t);
    forall w | w in ws ensures WriteOf(w, i) {
      HeadAndTail(ws, fw, StepRows(i, r, t), w);
    }
    forall f | f in fs ensures EffectOf(f, i) {
      HeadAndTail(fs, ff, multiset(StepEvents(i, r, t)), f);
    }
  }

  /** A scope that only touches run `i` defers nothing for any other run. */
  lemma RecordedDeferred(i: nat, r: RunEntry, t: RunEntry, out: Outcome, onOutcome: bool, onSuccess: bool, k: nat, o: RunEntry)
    requires Recorded(i, r, t, out.writes, out.effects, onOutcome, onSuccess)
    ensures Deferred(i, r, t, out, onOutcome, onSuccess)
    ensures k != i ==> Deferred(k, o, o, out, onOutcome, onSuccess)
  {
    hide Recorded;
    RecordedNames(i, r, t, out.writes, out.effects, onOutcome, onSuccess);
    WritesOfOne(out.writes, i, i);
    EffectsOfOne(out.effects, i, i);
    WritesOfOne(out.writes, i, k);
    EffectsOfOne(out.effects, i, k);
    NothingRecorded(k, o, onOutcome, onSuccess);
  }

  /** What must be recorded depends on these parts of the earlier run only. */
  predicate SameBooks(r: RunEntry, s: RunEntry) {
    && r.tasks.Keys == s.tasks.Keys && r.runID == s.runID && r.closing == s.closing
    && forall n :: n in r.tasks ==>
         && r.tasks[n].status == s.tasks[n].status && r.tasks[n].starts == s.tasks[n].starts
         && r.tasks[n].retries == s.tasks[n].retries
  }

  lemma SameBooksRows(i: nat, r: RunEntry, s: RunEntry, t: RunEntry)
    requires SameBooks(r, s)
    ensures StepRows(i, r, t) == StepRows(i, s, t)
    ensures StepEvents(i, r, t) == StepEvents(i, s, t)
  {
    assert TerminalRows(i, r, t) == TerminalRows(i, s, t);
    assert StartRows(i, r, t) == StartRows(i, s, t);
    assert RetryRows(i, r, t) == RetryRows(i, s, t);
  }

  lemma RecordedFrom(i: nat, r: RunEntry, s: RunEntry, t: RunEntry, ws: seq<Write>, fs: seq<Effect>, onOutcome: bool, onSuccess: bool)
    requires SameBooks(r, s) && Recorded(i, s, t, ws, fs, onOutcome, onSuccess)
    ensures Recorded(i, r, t, ws, fs, onOutcome, onSuccess)
  {
    hide StepRows, StepEvents;
    SameBooksRows(i, r, s, t);
  }

  /*** Rows written by the run-wide loops ***/

  predicate Promotes(e: Entry, done: set<string>) {
    e.status.Pending? && DepsAllDone(e.dependsOn, done)
  }

  /** One running row per step among `names` that promotion hands to the backend. */
  function PromotionRows(i: nat, tasks: map<string, Entry>, names: set<string>, done: set<string>, backend: bool): set<Write> {
    set n | n in names && n in tasks && backend && Promotes(tasks[n], done) :: StepRow(i, n, Running, tasks[n].attempts + 1)
  }

  function SkipRows(i: nat, names: set<string>): set<Write> {
    set n | n in names :: StepRow(i, n, Skipped, 0)
  }

  function SkipEvents(i: nat, names: set<string>): set<Effect> {
    set n | n in names :: StepEvent(i, n, Skipped)
  }

  lemma PromotionRowsStep(i: nat, tasks: map<string, Entry>, names: set<string>, n: string, done: set<string>, backend: bool)
    requires n !in names && n in tasks
    ensures var row := StepRow(i, n, Running, tasks[n].attempts + 1);
      && row !in PromotionRows(i, tasks, names, done, backend)
      && PromotionRows(i, tasks, names + {n}, done, backend)
         == PromotionRows(i, tasks, names, done, backend) + if backend && Promotes(tasks[n], done) then {row} else {}
  {
  }

  lemma SkipRowsUnion(i: nat, a: set<string>, b: set<string>)
    ensures SkipRows(i, a + b) == SkipRows(i, a) + SkipRows(i, b)
    ensures SkipEvents(i, a + b) == SkipEvents(i, a) + SkipEvents(i, b)
    ensures a !! b ==> SkipRows(i, a) !! SkipRows(i, b) && SkipEvents(i, a) !! SkipEvents(i, b)
  {
  }

  lemma MultisetOfUnion<T>(a: set<T>, b: set<T>)
    requires a !! b
    ensures multiset(a + b) == multiset(a) + multiset(b)
  {
  }
}
