/**
 What happens to deferred work once the lock is released.  Any number of goroutines flush
 their own outcome at the same time, in any interleaving, against one table of run rows
 whose only transition is the compare-and-set from running to terminal.
 */
module Flush {
  import opened Options
  import opened Runs
  import opened QueueSpec
  import opened QueueRows
  import opened Outcomes

  const MAX_TRIES := 5

  /**
   What one repository call reports.  A failed call may have committed all the same, and
   `flag` is the value it returned beside its error.
   */
  datatype Reply = Ok | Failed(committed: bool, flag: bool)

  /** `persistWithRetry` leaves its loop after try number `n`. */
  predicate Stops(reply: Reply, n: nat, ctxDone: bool) {
    reply.Ok? || n >= MAX_TRIES || ctxDone
  }

  method PersistWithRetry(replies: seq<Reply>, ctxDone: seq<bool>) returns (tries: nat)
    requires |replies| >= MAX_TRIES && |ctxDone| >= MAX_TRIES
    ensures 1 <= tries <= MAX_TRIES && Stops(replies[tries - 1], tries, ctxDone[tries - 1])
    ensures forall k: nat :: k + 1 < tries ==> !Stops(replies[k], k + 1, ctxDone[k])
    ensures tries <= 5 && (replies[tries - 1].Ok? || tries == 5 || ctxDone[tries - 1])
    ensures forall k: nat :: k + 1 < tries ==> !replies[k].Ok? && !ctxDone[k]
  {
    tries := 1;
    while tries <= MAX_TRIES
      invariant 1 <= tries <= MAX_TRIES
      invariant forall k: nat :: k + 1 < tries ==> !Stops(replies[k], k + 1, ctxDone[k])
      decreases MAX_TRIES - tries
    {
      if replies[tries - 1].Ok? {
        return;
      }
      if tries == MAX_TRIES {
        return;
      }
      if ctxDone[tries - 1] {
        return;
      }
      tries := tries + 1;
    }
  }

  /**
   One `flushPending` in progress: the write it is at, the tries that write has had, the
   finalizing writes whose `applied` variable is true, and the effect it is at.
   */
  datatype Flusher = Flusher(out: Outcome, wpos: nat, tries: nat, won: set<nat>, epos: nat)

  /** What an observer sees: write `w` of flusher `f` being tried, its effect `e` being run. */
  datatype Act = Try(f: nat, w: nat) | Run(f: nat, e: nat)

  /** `winner` remembers which flusher's which write moved a run row; no code reads it. */
  datatype Db = Db(terminal: set<string>, winner: map<string, (nat, nat)>, flushers: seq<Flusher>, log: seq<Act>)

  datatype Event =
    | Begin(out: Outcome)
    | TryWrite(f: nat, reply: Reply, ctxDone: bool)
    | RunEffect(f: nat)
    | FinalizedElsewhere(runID: string)

  predicate IsCas(w: Write) {
    w.RunRow? || w.UntrackedRunRow?
  }

  /** The call's compare-and-set reached the row. */
  predicate Reached(reply: Reply) {
    reply.Ok? || reply.committed
  }

  function TryNext(d: Db, f: nat, reply: Reply, ctxDone: bool): Db
    requires f < |d.flushers| && d.flushers[f].wpos < |d.flushers[f].out.writes|
  {
    var g := d.flushers[f];
    var w := g.out.writes[g.wpos];
    var wins := w.RunRow? && Reached(reply) && w.runID !in d.terminal;
    var flag := wins && (reply.Ok? || reply.flag);
    var h := g.(won := if flag then g.won + {g.wpos} else g.won - {g.wpos});
    var n := if Stops(reply, g.tries + 1, ctxDone) then h.(wpos := g.wpos + 1, tries := 0) else h.(tries := g.tries + 1);
    Db(if IsCas(w) && Reached(reply) then d.terminal + {w.runID} else d.terminal,
       if wins then d.winner[w.runID := (f, g.wpos)] else d.winner,
       d.flushers[f := n],
       d.log + [Try(f, g.wpos)])
  }

  predicate RunLevel(e: Effect) {
    e.RunEvent? || e.OutcomeCallback? || e.SuccessCallback?
  }

  /** The `applied` variable of the finalizer of heap entry `run`. */
  predicate AppliedFor(g: Flusher, run: nat) {
    exists w :: w in g.won && w < |g.out.writes| && g.out.writes[w].RunRow? && g.out.writes[w].run == run
  }

  predicate Fires(g: Flusher, e: Effect) {
    RunLevel(e) ==> AppliedFor(g, e.run)
  }

  function RunNext(d: Db, f: nat): Db
    requires f < |d.flushers| && d.flushers[f].epos < |d.flushers[f].out.effects|
  {
    var g := d.flushers[f];
    d.(flushers := d.flushers[f := g.(epos := g.epos + 1)],
       log := if Fires(g, g.out.effects[g.epos]) then d.log + [Run(f, g.epos)] else d.log)
  }

  function Step(d: Db, ev: Event): Db {
    match ev
    case Begin(out) => d.(flushers := d.flushers + [Flusher(out, 0, 0, {}, 0)])
    case TryWrite(f, reply, ctxDone) =>
      if f < |d.flushers| && d.flushers[f].wpos < |d.flushers[f].out.writes| then TryNext(d, f, reply, ctxDone) else d
    case RunEffect(f) =>
      if f < |d.flushers| && d.flushers[f].wpos >= |d.flushers[f].out.writes| && d.flushers[f].epos < |d.flushers[f].out.effects|
      then RunNext(d, f) else d
    case FinalizedElsewhere(runID) => d.(terminal := d.terminal + {runID})
  }

  function Execute(evs: seq<Event>): Db {
    if evs == [] then Db({}, map[], [], [])
    else Step(Execute(evs[..|evs| - 1]), evs[|evs| - 1])
  }

  /*** What the queue hands over ***/

  predicate SameKind(a: Effect, b: Effect) {
    (a.RunEvent? <==> b.RunEvent?) && (a.OutcomeCallback? <==> b.OutcomeCallback?) && (a.SuccessCallback? <==> b.SuccessCallback?)
  }

  /** Every finalizer's effects name its run, and come at most once each. */
  predicate Proper(out: Outcome) {
    && (forall w, e ::
          (0 <= w < |out.writes| && 0 <= e < |out.effects| && out.writes[w].RunRow? && RunLevel(out.effects[e])
           && out.writes[w].run == out.effects[e].run)
          ==> out.writes[w].runID == out.effects[e].runID)
    && (forall a, b ::
          (0 <= a < b < |out.effects| && RunLevel(out.effects[a]) && RunLevel(out.effects[b])
           && SameKind(out.effects[a], out.effects[b]))
          ==> out.effects[a].run != out.effects[b].run)
  }

  predicate AllProper(evs: seq<Event>) {
    forall k :: 0 <= k < |evs| && evs[k].Begin? ==> Proper(evs[k].out)
  }

  /*** What every reachable state keeps ***/

  ghost predicate FlusherOk(d: Db, f: nat)
    requires f < |d.flushers|
  {
    var g := d.flushers[f];
    && g.wpos <= |g.out.writes| && g.epos <= |g.out.effects| && g.tries < MAX_TRIES
    && (g.epos > 0 ==> g.wpos == |g.out.writes|)
    && (forall w :: w in g.won ==> w < |g.out.writes| && g.out.writes[w].RunRow?
                                   && g.out.writes[w].runID in d.winner && d.winner[g.out.writes[w].runID] == (f, w))
    && (forall w: nat :: w < g.wpos ==> Try(f, w) in d.log)
  }

  /** The earlier writes of its flusher, for a run effect all of them, were tried before act `k`. */
  ghost predicate InOrder(d: Db, k: nat)
    requires k < |d.log|
  {
    var a := d.log[k];
    a.f < |d.flushers|
    && match a
       case Try(f, w) => w < |d.flushers[f].out.writes| && forall v: nat :: v < w ==> Try(f, v) in d.log[..k]
       case Run(f, e) => e < d.flushers[f].epos && e < |d.flushers[f].out.effects|
                         && forall v: nat :: v < |d.flushers[f].out.writes| ==> Try(f, v) in d.log[..k]
  }

  /** A run effect that ran belongs to the finalizer whose compare-and-set won. */
  ghost predicate Backed(d: Db, k: nat)
    requires k < |d.log|
  {
    var a := d.log[k];
    a.Run? && a.f < |d.flushers| && a.e < |d.flushers[a.f].out.effects| && RunLevel(d.flushers[a.f].out.effects[a.e]) ==>
      exists w: nat :: Won(d, a.f, w) && d.flushers[a.f].out.writes[w].run == d.flushers[a.f].out.effects[a.e].run
  }

  predicate Won(d: Db, f: nat, w: nat) {
    && f < |d.flushers| && w < |d.flushers[f].out.writes| && d.flushers[f].out.writes[w].RunRow?
    && var runID := d.flushers[f].out.writes[w].runID; runID in d.winner && d.winner[runID] == (f, w)
  }

  predicate Increasing(d: Db) {
    forall k, l :: 0 <= k < l < |d.log| && d.log[k].Run? && d.log[l].Run? && d.log[k].f == d.log[l].f ==> d.log[k].e < d.log[l].e
  }

  ghost predicate Inv(d: Db) {
    && (forall f :: 0 <= f < |d.flushers| ==> FlusherOk(d, f) && Proper(d.flushers[f].out))
    && (forall k :: 0 <= k < |d.log| ==> InOrder(d, k) && Backed(d, k))
    && Increasing(d)
    && d.winner.Keys <= d.terminal
  }

  lemma BeginInv(d: Db, out: Outcome)
    requires Inv(d) && Proper(out)
    ensures Inv(Step(d, Begin(out)))
  {
    var t := Step(d, Begin(out));
    forall f | 0 <= f < |t.flushers| ensures FlusherOk(t, f) && Proper(t.flushers[f].out) {
      if f < |d.flushers| { assert FlusherOk(d, f) && t.flushers[f] == d.flushers[f]; }
    }
    forall k | 0 <= k < |t.log| ensures InOrder(t, k) && Backed(t, k) {
      assert InOrder(d, k) && Backed(d, k);
      BackedStays(d, t, k);
    }
  }

  /** Winners are never replaced, and the outcomes of running flushers do not change. */
  predicate Extends(d: Db, t: Db) {
    && |d.flushers| <= |t.flushers| && d.log <= t.log
    && (forall f :: 0 <= f < |d.flushers| ==> t.flushers[f].out == d.flushers[f].out && d.flushers[f].epos <= t.flushers[f].epos)
    && (forall id :: id in d.winner ==> id in t.winner && t.winner[id] == d.winner[id])
  }

  lemma BackedStays(d: Db, t: Db, k: nat)
    requires Extends(d, t) && k < |d.log| && InOrder(d, k) && Backed(d, k)
    ensures InOrder(t, k) && Backed(t, k)
  {
    var a := d.log[k];
    assert t.log[..k] == d.log[..k];
    if a.Run? && RunLevel(d.flushers[a.f].out.effects[a.e]) {
      var w: nat :| Won(d, a.f, w) && d.flushers[a.f].out.writes[w].run == d.flushers[a.f].out.effects[a.e].run;
      assert Won(t, a.f, w);
    }
  }

  lemma TryExtends(d: Db, f: nat, reply: Reply, ctxDone: bool)
    requires Inv(d) && f < |d.flushers| && d.flushers[f].wpos < |d.flushers[f].out.writes|
    ensures Extends(d, TryNext(d, f, reply, ctxDone))
  {
  }

  lemma TryFlusher(d: Db, f: nat, reply: Reply, ctxDone: bool, h: nat)
    requires Inv(d) && f < |d.flushers| && d.flushers[f].wpos < |d.flushers[f].out.writes| && h < |d.flushers|
    ensures FlusherOk(TryNext(d, f, reply, ctxDone), h)
  {
    var t := TryNext(d, f, reply, ctxDone);
    assert FlusherOk(d, f) && FlusherOk(d, h);
    assert forall v: nat :: Try(h, v) in d.log ==> Try(h, v) in t.log;
    assert t.log[|d.log|] == Try(f, d.flushers[f].wpos);
  }

  lemma TryInv(d: Db, f: nat, reply: Reply, ctxDone: bool)
    requires Inv(d) && f < |d.flushers| && d.flushers[f].wpos < |d.flushers[f].out.writes|
    ensures Inv(TryNext(d, f, reply, ctxDone))
  {
    hide FlusherOk, Proper;
    var t := TryNext(d, f, reply, ctxDone);
    TryExtends(d, f, reply, ctxDone);
    forall h | 0 <= h < |t.flushers| ensures FlusherOk(t, h) && Proper(t.flushers[h].out) {
      TryFlusher(d, f, reply, ctxDone, h);
    }
    forall k | 0 <= k < |t.log| ensures InOrder(t, k) && Backed(t, k) {
      if k < |d.log| {
        BackedStays(d, t, k);
      } else {
        assert t.log[..k] == d.log;
        TriedBefore(d, f);
      }
    }
  }

  lemma TriedBefore(d: Db, f: nat)
    requires f < |d.flushers| && FlusherOk(d, f)
    ensures forall w: nat :: w < d.flushers[f].wpos ==> Try(f, w) in d.log
  {
  }

  lemma RunExtends(d: Db, f: nat)
    requires f < |d.flushers| && d.flushers[f].epos < |d.flushers[f].out.effects|
    ensures Extends(d, RunNext(d, f))
  {
  }

  lemma RunFlusher(d: Db, f: nat, h: nat)
    requires Inv(d) && f < |d.flushers| && d.flushers[f].epos < |d.flushers[f].out.effects| && h < |d.flushers|
    requires d.flushers[f].wpos >= |d.flushers[f].out.writes|
    ensures FlusherOk(RunNext(d, f), h)
  {
    assert FlusherOk(d, f) && FlusherOk(d, h);
    assert forall v: nat :: Try(h, v) in d.log ==> Try(h, v) in RunNext(d, f).log;
  }

  /** The new act: its flusher has tried every write, and a run effect fires only for the winner. */
  lemma RunAct(d: Db, f: nat)
    requires Inv(d) && f < |d.flushers| && d.flushers[f].epos < |d.flushers[f].out.effects|
    requires d.flushers[f].wpos >= |d.flushers[f].out.writes| && Fires(d.flushers[f], d.flushers[f].out.effects[d.flushers[f].epos])
    ensures InOrder(RunNext(d, f), |d.log|) && Backed(RunNext(d, f), |d.log|)
  {
    hide Proper;
    var t, g := RunNext(d, f), d.flushers[f];
    assert FlusherOk(d, f);
    assert t.log[..|d.log|] == d.log;
    if RunLevel(g.out.effects[g.epos]) {
      var w :| w in g.won && w < |g.out.writes| && g.out.writes[w].RunRow? && g.out.writes[w].run == g.out.effects[g.epos].run;
      assert Won(t, f, w);
    }
  }

  lemma RunInv(d: Db, f: nat)
    requires Inv(d) && f < |d.flushers| && d.flushers[f].epos < |d.flushers[f].out.effects|
    requires d.flushers[f].wpos >= |d.flushers[f].out.writes|
    ensures Inv(RunNext(d, f))
  {
    hide FlusherOk, Proper, Fires;
    var t := RunNext(d, f);
    RunExtends(d, f);
    forall h | 0 <= h < |t.flushers| ensures FlusherOk(t, h) && Proper(t.flushers[h].out) {
      RunFlusher(d, f, h);
    }
    forall k | 0 <= k < |t.log| ensures InOrder(t, k) && Backed(t, k) {
      if k < |d.log| { BackedStays(d, t, k); } else { RunAct(d, f); }
    }
    forall k, l | 0 <= k < l < |t.log| && t.log[k].Run? && t.log[l].Run? && t.log[k].f == t.log[l].f
      ensures t.log[k].e < t.log[l].e
    {
      assert InOrder(d, k);
    }
  }

  lemma StepInv(d: Db, ev: Event)
    requires Inv(d) && (ev.Begin? ==> Proper(ev.out))
    ensures Inv(Step(d, ev))
  {
    hide TryNext, RunNext, Proper;
    match ev
    case Begin(out) => BeginInv(d, out);
    case TryWrite(f, reply, ctxDone) =>
      if f < |d.flushers| && d.flushers[f].wpos < |d.flushers[f].out.writes| { TryInv(d, f, reply, ctxDone); }
    case RunEffect(f) =>
      if f < |d.flushers| && d.flushers[f].wpos >= |d.flushers[f].out.writes| && d.flushers[f].epos < |d.flushers[f].out.effects| {
        RunInv(d, f);
      }
    case FinalizedElsewhere(runID) => ElsewhereInv(d, runID);
  }

  lemma ElsewhereInv(d: Db, runID: string)
    requires Inv(d)
    ensures Inv(d.(terminal := d.terminal + {runID}))
  {
    hide Proper;
    var t := d.(terminal := d.terminal + {runID});
    forall f | 0 <= f < |t.flushers| ensures FlusherOk(t, f) && Proper(t.flushers[f].out) {
      assert FlusherOk(d, f);
    }
    forall k | 0 <= k < |t.log| ensures InOrder(t, k) && Backed(t, k) {
      BackedStays(d, t, k);
    }
  }

  lemma {:induction false} ExecuteInv(evs: seq<Event>)
    requires AllProper(evs)
    ensures Inv(Execute(evs))
    decreases |evs|
  {
    hide Inv, Step, Proper;
    if evs != [] {
      ExecuteInv(evs[..|evs| - 1]);
      StepInv(Execute(evs[..|evs| - 1]), evs[|evs| - 1]);
    } else {
      EmptyInv();
    }
  }

  lemma EmptyInv()
    ensures Inv(Db({}, map[], [], []))
  {
  }

  /*** Main results, for every interleaving of every set of flushes ***/

  /** The event finalizes the row of the run: elsewhere, or by a try of a finalizing write that reaches the database. */
  predicate Finalizes(d: Db, ev: Event, runID: string) {
    match ev
    case FinalizedElsewhere(id) => id == runID
    case TryWrite(f, reply, _) =>
      && f < |d.flushers| && d.flushers[f].wpos < |d.flushers[f].out.writes|
      && var w := d.flushers[f].out.writes[d.flushers[f].wpos];
      && (w.RunRow? || w.UntrackedRunRow?) && w.runID == runID && (reply.Ok? || reply.committed)
    case _ => false
  }

  lemma TerminalStep(d: Db, ev: Event, runID: string)
    ensures runID in Step(d, ev).terminal <==> runID in d.terminal || Finalizes(d, ev, runID)
  {
    hide Stops;
  }

  /** A run row is final exactly once some event has finalized it, whoever it was. */
  lemma {:induction false} TerminalIff(evs: seq<Event>, runID: string)
    ensures runID in Execute(evs).terminal <==> exists k :: 0 <= k < |evs| && Finalizes(Execute(evs[..k]), evs[k], runID)
    decreases |evs|
  {
    hide Step, Finalizes;
    if evs != [] {
      var init, last := evs[..|evs| - 1], |evs| - 1;
      TerminalIff(init, runID);
      TerminalStep(Execute(init), evs[last], runID);
      assert Execute(evs) == Step(Execute(init), evs[last]);
      hide Execute;
      if k :| 0 <= k < |init| && Finalizes(Execute(init[..k]), init[k], runID) { assert init[..k] == evs[..k]; }
      if k :| 0 <= k < |evs| && Finalizes(Execute(evs[..k]), evs[k], runID) && k != last { assert init[..k] == evs[..k]; }
    }
  }

  /** How often a write has been tried, by the log. */
  function Tries(log: seq<Act>, f: nat, w: nat): nat {
    multiset(log)[Try(f, w)]
  }

  lemma OneMoreAct(d: Db, ev: Event, f: nat, w: nat)
    ensures Tries(Step(d, ev).log, f, w) == Tries(d.log, f, w) +
      if ev.TryWrite? && ev.f == f && f < |d.flushers| && d.flushers[f].wpos < |d.flushers[f].out.writes| && d.flushers[f].wpos == w then 1 else 0
    ensures f < |d.flushers| ==> f < |Step(d, ev).flushers| && Step(d, ev).flushers[f].out == d.flushers[f].out
  {
    if |Step(d, ev).log| > |d.log| {
      assert Step(d, ev).log == d.log + [Step(d, ev).log[|d.log|]];
    }
  }

  /** Where a flusher is: every write it has left was tried one to five times, the one it is at up to four times so far, the others not yet. */
  predicate TriesOk(d: Db, f: nat, w: nat) {
    if f >= |d.flushers| then Tries(d.log, f, w) == 0
    else
      var g := d.flushers[f];
      && g.tries <= 4 && (w < g.wpos ==> 1 <= Tries(d.log, f, w) <= 5)
      && (w == g.wpos ==> Tries(d.log, f, w) == g.tries) && (w > g.wpos ==> Tries(d.log, f, w) == 0)
  }

  lemma TriesStep(d: Db, ev: Event, f: nat, w: nat)
    requires TriesOk(d, f, w)
    ensures TriesOk(Step(d, ev), f, w)
  {
    hide Tries;
    OneMoreAct(d, ev, f, w);
  }

  /** Every write is tried at most five times, and one that has been left at least once. */
  lemma {:induction false} WritesTried(evs: seq<Event>, f: nat, w: nat)
    ensures TriesOk(Execute(evs), f, w)
    decreases |evs|
  {
    hide Step, TriesOk;
    if evs != [] {
      WritesTried(evs[..|evs| - 1], f, w);
      TriesStep(Execute(evs[..|evs| - 1]), evs[|evs| - 1], f, w);
    } else {
      NothingTried(f, w);
    }
  }

  lemma NothingTried(f: nat, w: nat)
    ensures TriesOk(Db({}, map[], [], []), f, w)
  {
  }

  /** A write is left exactly when its try succeeds, is the fifth, or fails with the context done. */
  lemma WriteLeftIff(evs: seq<Event>, ev: Event)
    requires ev.TryWrite? && ev.f < |Execute(evs).flushers|
    requires Execute(evs).flushers[ev.f].wpos < |Execute(evs).flushers[ev.f].out.writes|
    ensures var d := Execute(evs);
      var w := d.flushers[ev.f].wpos;
      Step(d, ev).flushers[ev.f].wpos == w + if ev.reply.Ok? || Tries(d.log, ev.f, w) == 4 || ev.ctxDone then 1 else 0
  {
    hide Execute, Tries;
    var d := Execute(evs);
    var w := d.flushers[ev.f].wpos;
    WritesTried(evs, ev.f, w);
  }

  /** Effects run only after every write of the same outcome was tried; writes are tried in order. */
  lemma EffectsFollowWrites(evs: seq<Event>, k: nat)
    requires AllProper(evs) && k < |Execute(evs).log|
    ensures var d := Execute(evs);
      var a := d.log[k];
      && a.f < |d.flushers|
      && forall v: nat :: v < (if a.Run? then |d.flushers[a.f].out.writes| else a.w) ==> Try(a.f, v) in d.log[..k]
  {
    hide AllProper, Execute, FlusherOk, Backed;
    ExecuteInv(evs);
    assert InOrder(Execute(evs), k);
  }

  /**
   For one run ID, the run event, OnRunOutcome and OnRunSuccess run at most once each, however
   many finalizers race for its row and however often their calls fail.
   */
  lemma RunEffectsAtMostOnce(evs: seq<Event>, k: nat, l: nat)
    requires AllProper(evs) && k < |Execute(evs).log| && l < |Execute(evs).log|
    requires var d := Execute(evs);
      && d.log[k].Run? && RanFor(d, k).Some? && d.log[l].Run? && RanFor(d, l).Some?
      && SameKind(RanFor(d, k).value, RanFor(d, l).value)
      && RanFor(d, k).value.runID == RanFor(d, l).value.runID
    ensures k == l
  {
    hide AllProper, Execute, FlusherOk;
    ExecuteInv(evs);
    var d := Execute(evs);
    WinnerOf(d, k);
    WinnerOf(d, l);
    var (f, w) := d.winner[RanFor(d, k).value.runID];
    assert d.log[k].f == f && d.log[l].f == f;
    assert Proper(d.flushers[f].out);
    assert RanFor(d, k).value.run == RanFor(d, l).value.run;
  }

  /** A run-level effect runs only if this very flusher's write moved the row of that run ID. */
  lemma RunEffectMeansWon(evs: seq<Event>, k: nat)
    requires AllProper(evs) && k < |Execute(evs).log|
    requires Execute(evs).log[k].Run? && RanFor(Execute(evs), k).Some?
    ensures var d := Execute(evs);
      var e := RanFor(d, k).value;
      && e.runID in d.winner && e.runID in d.terminal && d.winner[e.runID].0 == d.log[k].f
      && Won(d, d.log[k].f, d.winner[e.runID].1) && d.flushers[d.log[k].f].out.writes[d.winner[e.runID].1].run == e.run
  {
    hide AllProper, Execute, FlusherOk;
    ExecuteInv(evs);
    WinnerOf(Execute(evs), k);
  }

  /** The run-level effect that act `k` ran, if it is one. */
  function RanFor(d: Db, k: nat): (r: Option<Effect>)
    requires k < |d.log|
    ensures r.Some? ==> RunLevel(r.value)
  {
    var a := d.log[k];
    if a.Run? && a.f < |d.flushers| && a.e < |d.flushers[a.f].out.effects| && RunLevel(d.flushers[a.f].out.effects[a.e])
    then Some(d.flushers[a.f].out.effects[a.e]) else None
  }

  lemma WinnerOf(d: Db, k: nat)
    requires Inv(d) && k < |d.log| && RanFor(d, k).Some?
    ensures var e := RanFor(d, k).value;
      && e.runID in d.winner && d.winner[e.runID].0 == d.log[k].f && Won(d, d.log[k].f, d.winner[e.runID].1)
      && d.flushers[d.log[k].f].out.writes[d.winner[e.runID].1].run == e.run
  {
    hide FlusherOk, Increasing;
    assert Backed(d, k);
    var a := d.log[k];
    var w: nat :| Won(d, a.f, w) && d.flushers[a.f].out.writes[w].run == d.flushers[a.f].out.effects[a.e].run;
    assert Proper(d.flushers[a.f].out);
  }

  /*** When the effects run at all ***/

  /** Once its flusher has left a write behind, nothing changes what its finalizer knows of it. */
  lemma AppliedStays(d: Db, ev: Event, f: nat, w: nat)
    requires f < |d.flushers| && w < d.flushers[f].wpos
    ensures var t := Step(d, ev);
      && f < |t.flushers| && w < t.flushers[f].wpos && t.flushers[f].out == d.flushers[f].out
      && (w in t.flushers[f].won <==> w in d.flushers[f].won)
  {
  }

  lemma {:induction false} AppliedForever(evs: seq<Event>, j: nat, f: nat, w: nat)
    requires j <= |evs| && f < |Execute(evs[..j]).flushers| && w < Execute(evs[..j]).flushers[f].wpos
    ensures var d, t := Execute(evs[..j]), Execute(evs);
      && f < |t.flushers| && t.flushers[f].out == d.flushers[f].out && (w in t.flushers[f].won <==> w in d.flushers[f].won)
      && w < t.flushers[f].wpos
    decreases |evs|
  {
    hide Step;
    if j == |evs| {
      assert evs[..j] == evs;
    } else {
      var init := evs[..|evs| - 1];
      assert init[..j] == evs[..j];
      AppliedForever(init, j, f, w);
      AppliedStays(Execute(init), evs[|evs| - 1], f, w);
    }
  }

  /** An effect that was reached is in the log exactly when it fired. */
  lemma {:induction false} RanIffFires(evs: seq<Event>, f: nat, e: nat)
    requires AllProper(evs) && f < |Execute(evs).flushers| && e < Execute(evs).flushers[f].epos
    ensures var g := Execute(evs).flushers[f];
      e < |g.out.effects| && (Run(f, e) in Execute(evs).log <==> Fires(g, g.out.effects[e]))
    decreases |evs|
  {
    hide Step, Fires, Proper;
    var init, ev := evs[..|evs| - 1], evs[|evs| - 1];
    var d := Execute(init);
    assert AllProper(init);
    ExecuteInv(init);
    if f < |d.flushers| && e < d.flushers[f].epos {
      RanIffFires(init, f, e);
      ReachedEarlier(d, ev, f, e);
    } else {
      ReachedNow(d, ev, f, e);
    }
  }

  /** What is not an effect of a run row, such as the event of a step, runs in any case. */
  lemma StepEffectsRun(evs: seq<Event>, f: nat, e: nat)
    requires AllProper(evs) && f < |Execute(evs).flushers| && e < Execute(evs).flushers[f].epos
    ensures var g := Execute(evs).flushers[f];
      e < |g.out.effects| && (g.out.effects[e].StepEvent? || g.out.effects[e].UntrackedCanceledEvent? ==> Run(f, e) in Execute(evs).log)
  {
    hide Execute, AllProper;
    RanIffFires(evs, f, e);
  }

  lemma ReachedEarlier(d: Db, ev: Event, f: nat, e: nat)
    requires Inv(d) && f < |d.flushers| && e < d.flushers[f].epos
    ensures var t := Step(d, ev);
      && f < |t.flushers| && t.flushers[f].out == d.flushers[f].out && e < |d.flushers[f].out.effects|
      && (Run(f, e) in t.log <==> Run(f, e) in d.log)
      && (Fires(t.flushers[f], d.flushers[f].out.effects[e]) <==> Fires(d.flushers[f], d.flushers[f].out.effects[e]))
  {
    hide Proper, InOrder, Backed;
    assert FlusherOk(d, f);
  }

  lemma ReachedNow(d: Db, ev: Event, f: nat, e: nat)
    requires Inv(d) && f < |Step(d, ev).flushers| && e < Step(d, ev).flushers[f].epos
    requires f < |d.flushers| ==> e >= d.flushers[f].epos
    ensures var g := Step(d, ev).flushers[f];
      e < |g.out.effects| && (Run(f, e) in Step(d, ev).log <==> Fires(g, g.out.effects[e]))
  {
    hide Proper, Backed, FlusherOk;
    forall k | 0 <= k < |d.log| ensures d.log[k] != Run(f, e) {
      assert InOrder(d, k);
    }
  }

  /**
   Exactly when the run event and callbacks of a finalizer run: the last try of its row write is the
   one that moved the row, and the reply of that very try said so.
   */
  lemma RunEffectRunsIff(evs: seq<Event>, j: nat, f: nat, e: nat)
    requires AllProper(evs) && j < |evs| && evs[j].TryWrite? && evs[j].f == f && f < |Execute(evs[..j]).flushers|
    requires var g := Execute(evs[..j]).flushers[f];
      && g.wpos < |g.out.writes| && g.out.writes[g.wpos].RunRow? && Stops(evs[j].reply, g.tries + 1, evs[j].ctxDone)
      && (forall v :: 0 <= v < |g.out.writes| && v != g.wpos && g.out.writes[v].RunRow? ==> g.out.writes[v].run != g.out.writes[g.wpos].run)
      && e < |g.out.effects| && RunLevel(g.out.effects[e]) && g.out.effects[e].run == g.out.writes[g.wpos].run
    requires f < |Execute(evs).flushers| && e < Execute(evs).flushers[f].epos
    ensures var d := Execute(evs[..j]);
      Run(f, e) in Execute(evs).log <==>
        && d.flushers[f].out.writes[d.flushers[f].wpos].runID !in d.terminal
        && (evs[j].reply.Ok? || (evs[j].reply.committed && evs[j].reply.flag))
  {
    hide Proper, Execute, Step;
    var d, w := Execute(evs[..j]), Execute(evs[..j]).flushers[f].wpos;
    LastTry(d, evs[j], f);
    assert Execute(evs[..j + 1]) == Step(d, evs[j]) by { NextState(evs, j); }
    AppliedForever(evs, j + 1, f, w);
    RanIffFires(evs, f, e);
    var g := Execute(evs).flushers[f];
    if w in g.won { assert AppliedFor(g, g.out.writes[w].run); }
  }

  lemma NextState(evs: seq<Event>, j: nat)
    requires j < |evs|
    ensures Execute(evs[..j + 1]) == Step(Execute(evs[..j]), evs[j])
  {
    assert evs[..j + 1][..j] == evs[..j];
  }

  lemma LastTry(d: Db, ev: Event, f: nat)
    requires ev.TryWrite? && ev.f == f && f < |d.flushers| && d.flushers[f].wpos < |d.flushers[f].out.writes|
    requires Stops(ev.reply, d.flushers[f].tries + 1, ev.ctxDone) && d.flushers[f].out.writes[d.flushers[f].wpos].RunRow?
    ensures var t, w := Step(d, ev), d.flushers[f].wpos;
      && f < |t.flushers| && w < t.flushers[f].wpos && t.flushers[f].out == d.flushers[f].out
      && (w in t.flushers[f].won <==>
            d.flushers[f].out.writes[w].runID !in d.terminal && (ev.reply.Ok? || (ev.reply.committed && ev.reply.flag)))
  {
  }

  /** A committed compare-and-set whose reply is lost: the row is final, and its event never runs. */
  lemma LostReplyRunsNothing(w: Write, e: Effect)
    requires w.RunRow? && e.RunEvent? && e.run == w.run && e.runID == w.runID
    ensures var out := Outcome([w], [e]);
      var d := Execute([Begin(out), TryWrite(0, Failed(true, false), false), TryWrite(0, Ok, false), RunEffect(0)]);
      && Proper(out) && w.runID in d.terminal && d.winner == map[w.runID := (0, 0)]
      && d.flushers == [Flusher(out, 1, 0, {}, 1)] && d.log == [Try(0, 0), Try(0, 0)]
  {
    var out := Outcome([w], [e]);
    var evs := [Begin(out), TryWrite(0, Failed(true, false), false), TryWrite(0, Ok, false), RunEffect(0)];
    assert evs[..3][..2] == evs[..2] && evs[..2][..1] == evs[..1] && evs[..1][..0] == [];
    assert Execute(evs[..1]) == Db({}, map[], [Flusher(out, 0, 0, {}, 0)], []);
    var none: set<nat> := {};
    assert none - {0} == none;
    assert Execute(evs[..2]) == Db({w.runID}, map[w.runID := (0, 0)], [Flusher(out, 0, 1, {}, 0)], [Try(0, 0)]);
    assert Execute(evs[..3]) == Db({w.runID}, map[w.runID := (0, 0)], [Flusher(out, 1, 0, {}, 0)], [Try(0, 0), Try(0, 0)]);
  }

  /*** Every outcome the queue detaches is proper ***/

  predicate ProperFor(out: Outcome, k: nat) {
    && (forall w, e ::
          (0 <= w < |out.writes| && 0 <= e < |out.effects| && out.writes[w].RunRow? && RunLevel(out.effects[e])
           && out.writes[w].run == k && out.effects[e].run == k)
          ==> out.writes[w].runID == out.effects[e].runID)
    && (forall a, b ::
          (0 <= a < b < |out.effects| && RunLevel(out.effects[a]) && RunLevel(out.effects[b])
           && SameKind(out.effects[a], out.effects[b]) && out.effects[a].run == k)
          ==> out.effects[b].run != k)
  }

  lemma {:induction false} WritesOfHas(ws: seq<Write>, k: nat, a: nat)
    requires a < |ws| && WriteOf(ws[a], k)
    ensures ws[a] in WritesOf(ws, k)
    decreases |ws|
  {
    if a > 0 { WritesOfHas(ws[1..], k, a - 1); }
  }

  lemma {:induction false} EffectsOfAt(fs: seq<Effect>, k: nat, a: nat) returns (p: nat)
    requires a < |fs| && EffectOf(fs[a], k)
    ensures p < |EffectsOf(fs, k)| && EffectsOf(fs, k)[p] == fs[a]
    decreases |fs|
  {
    if a == 0 {
      p := 0;
    } else {
      p := EffectsOfAt(fs[1..], k, a - 1);
      p := p + if EffectOf(fs[0], k) then 1 else 0;
    }
  }

  /** Two effects of one run keep their order in its part of the list. */
  lemma {:induction false} EffectsOfPair(fs: seq<Effect>, k: nat, a: nat, b: nat) returns (p: nat, q: nat)
    requires a < b < |fs| && EffectOf(fs[a], k) && EffectOf(fs[b], k)
    ensures p < q < |EffectsOf(fs, k)| && EffectsOf(fs, k)[p] == fs[a] && EffectsOf(fs, k)[q] == fs[b]
    decreases |fs|
  {
    if a == 0 {
      q := EffectsOfAt(fs[1..], k, b - 1);
      p, q := 0, q + 1;
    } else {
      p, q := EffectsOfPair(fs[1..], k, a - 1, b - 1);
      var n := if EffectOf(fs[0], k) then 1 else 0;
      p, q := p + n, q + n;
    }
  }

  lemma RecordedRunRow(k: nat, r: RunEntry, t: RunEntry, ws: seq<Write>, fs: seq<Effect>, onOutcome: bool, onSuccess: bool, w: Write)
    requires Recorded(k, r, t, ws, fs, onOutcome, onSuccess) && w in ws && w.RunRow?
    ensures w == RunRow(k, r.runID, StatusOf(t.closing))
  {
    hide StepRows, StepEvents;
    var fw := if Closed(r, t) then FinalWrites(k, r.runID, t.closing) else [];
    HeadAndTail(ws, fw, StepRows(k, r, t), w);
    StepRowsAreSteps(k, r, t);
  }

  lemma StepRowsAreSteps(k: nat, r: RunEntry, t: RunEntry)
    ensures forall w :: w in StepRows(k, r, t) ==> w.StepRow?
    ensures forall f :: f in StepEvents(k, r, t) ==> f.StepEvent?
  {
    assert forall w :: w in TerminalRows(k, r, t) ==> w.StepRow?;
    assert forall w :: w in StartRows(k, r, t) ==> w.StepRow?;
    assert forall w :: w in RetryRows(k, r, t) ==> w.StepRow?;
  }

  lemma HeadMembers<T>(s: seq<T>, n: nat)
    requires n <= |s|
    ensures forall p :: 0 <= p < n ==> s[p] in multiset(s[..n])
  {
    forall p | 0 <= p < n ensures s[p] in multiset(s[..n]) {
      assert s[..n][p] in s[..n];
    }
  }

  /** The run-level effects of one run are those of its closing, each of another kind. */
  lemma RecordedRunEffect(k: nat, r: RunEntry, t: RunEntry, ws: seq<Write>, fs: seq<Effect>, onOutcome: bool, onSuccess: bool, p: nat)
    requires Recorded(k, r, t, ws, fs, onOutcome, onSuccess) && p < |fs| && RunLevel(fs[p])
    ensures fs[p].runID == r.runID
    ensures forall q :: p < q < |fs| ==> !SameKind(fs[p], fs[q])
  {
    hide Recorded, FinalEffects;
    var n := RunEffectsLast(k, r, t, ws, fs, onOutcome, onSuccess);
    FinalEffectKinds(k, r.runID, t.closing, onOutcome, onSuccess);
    assert fs[p] == fs[n..][p - n];
    forall q | p < q < |fs| ensures !SameKind(fs[p], fs[q]) {
      assert fs[q] == fs[n..][q - n];
    }
  }

  /** The run-level effects come last, and only when the run was closed. */
  lemma RunEffectsLast(k: nat, r: RunEntry, t: RunEntry, ws: seq<Write>, fs: seq<Effect>, onOutcome: bool, onSuccess: bool) returns (n: nat)
    requires Recorded(k, r, t, ws, fs, onOutcome, onSuccess)
    ensures n <= |fs| && forall p :: 0 <= p < |fs| && RunLevel(fs[p]) ==> p >= n
    ensures fs[n..] == [] || fs[n..] == FinalEffects(k, r.runID, t.closing, onOutcome, onSuccess)
  {
    hide StepRows, StepEvents, FinalEffects;
    var ff := if Closed(r, t) then FinalEffects(k, r.runID, t.closing, onOutcome, onSuccess) else [];
    StepRowsAreSteps(k, r, t);
    n := |fs| - |ff|;
    HeadMembers(fs, n);
  }

  lemma FinalEffectKinds(k: nat, runID: string, c: Closing, onOutcome: bool, onSuccess: bool)
    ensures var ff := FinalEffects(k, runID, c, onOutcome, onSuccess);
      && (forall p :: 0 <= p < |ff| ==> RunLevel(ff[p]) && ff[p].runID == runID)
      && (forall p, q :: 0 <= p < q < |ff| ==> !SameKind(ff[p], ff[q]))
  {
  }

  lemma DeferredIsProperFor(k: nat, r: RunEntry, t: RunEntry, out: Outcome, onOutcome: bool, onSuccess: bool)
    requires Deferred(k, r, t, out, onOutcome, onSuccess)
    ensures ProperFor(out, k)
  {
    hide Recorded;
    var ws, fs := WritesOf(out.writes, k), EffectsOf(out.effects, k);
    forall w, e | 0 <= w < |out.writes| && 0 <= e < |out.effects| && out.writes[w].RunRow? && RunLevel(out.effects[e])
                  && out.writes[w].run == k && out.effects[e].run == k
      ensures out.writes[w].runID == out.effects[e].runID
    {
      WritesOfHas(out.writes, k, w);
      RecordedRunRow(k, r, t, ws, fs, onOutcome, onSuccess, out.writes[w]);
      var p := EffectsOfAt(out.effects, k, e);
      RecordedRunEffect(k, r, t, ws, fs, onOutcome, onSuccess, p);
    }
    forall a, b | 0 <= a < b < |out.effects| && RunLevel(out.effects[a]) && RunLevel(out.effects[b])
                  && SameKind(out.effects[a], out.effects[b]) && out.effects[a].run == k
      ensures out.effects[b].run != k
    {
      if out.effects[b].run == k {
        var p, q := EffectsOfPair(out.effects, k, a, b);
        RecordedRunEffect(k, r, t, ws, fs, onOutcome, onSuccess, p);
        assert false;
      }
    }
  }

  lemma ProperByRun(out: Outcome, n: nat)
    requires AllNamed(out, n) && forall k: nat :: k < n ==> ProperFor(out, k)
    ensures Proper(out)
  {
    forall w, e | 0 <= w < |out.writes| && 0 <= e < |out.effects| && out.writes[w].RunRow? && RunLevel(out.effects[e])
                  && out.writes[w].run == out.effects[e].run
      ensures out.writes[w].runID == out.effects[e].runID
    {
      assert out.writes[w] in out.writes;
      assert ProperFor(out, out.writes[w].run);
    }
    forall a, b | 0 <= a < b < |out.effects| && RunLevel(out.effects[a]) && RunLevel(out.effects[b])
                  && SameKind(out.effects[a], out.effects[b])
      ensures out.effects[a].run != out.effects[b].run
    {
      assert out.effects[a] in out.effects;
      assert ProperFor(out, out.effects[a].run);
    }
  }

  /** Whatever a scope over tracked runs detaches is proper. */
  lemma DeferredIsProper(s: State, t: State, out: Outcome, onOutcome: bool, onSuccess: bool)
    requires DeferredFor(s, t, out, onOutcome, onSuccess)
    requires |t.heap| == |s.heap|
          || (|t.heap| == |s.heap| + 1 && exists r :: Deferred(|s.heap|, r, t.heap[|s.heap|], out, onOutcome, onSuccess))
    ensures Proper(out)
  {
    hide Deferred, ProperFor, Proper;
    forall k: nat | k < |t.heap| ensures ProperFor(out, k) {
      if k < |s.heap| {
        DeferredIsProperFor(k, s.heap[k], t.heap[k], out, onOutcome, onSuccess);
      } else {
        var r :| Deferred(|s.heap|, r, t.heap[|s.heap|], out, onOutcome, onSuccess);
        DeferredIsProperFor(k, r, t.heap[k], out, onOutcome, onSuccess);
      }
    }
    ProperByRun(out, |t.heap|);
  }

  lemma UntrackedCancelIsProper(runID: string)
    ensures Proper(Outcome([UntrackedRunRow(runID)], [UntrackedCanceledEvent(runID)]))
  {
  }
}
