/** How often the steps of a run can change before it is over. */
module QueueProgress {
  import opened Options
  import opened Tasks
  import opened Graph
  import opened Runs
  import opened QueueSpec
  import opened QueueInv
  import opened QueueSteps
  import opened QueueHistory
  import opened QueueTheorems

  function CreditOf(r: RunEntry): string -> int {
    n => if n in r.tasks then Credit(r.tasks[n]) else 0
  }

  function RequeuesOf(r: RunEntry): string -> int {
    n => if n in r.tasks then r.tasks[n].requeues else 0
  }

  function FuelOf(r: RunEntry): string -> int {
    n => if n in r.tasks then Fuel(r.tasks[n]) else 0
  }

  /** Some step has another status or another attempt. */
  predicate Changed(r: RunEntry, t: RunEntry)
    requires t.tasks.Keys == r.tasks.Keys
  {
    exists n :: n in r.tasks && !SameStanding(r.tasks[n], t.tasks[n])
  }

  lemma {:induction false} TotalMonotone(names: set<string>, v: string -> int, w: string -> int)
    requires forall n :: n in names ==> v(n) <= w(n)
    ensures Total(names, v) <= Total(names, w)
    ensures (exists n :: n in names && v(n) < w(n)) ==> Total(names, v) < Total(names, w)
    decreases |names|
  {
    if names != {} {
      var n :| n in names && Total(names, v) == v(n) + Total(names - {n}, v) && Total(names, w) == w(n) + Total(names - {n}, w);
      TotalMonotone(names - {n}, v, w);
      if m :| m in names && v(m) < w(m) {
        assert m == n || m in names - {n};
      }
    }
  }

  lemma {:induction false} TotalSplit(names: set<string>, u: string -> int, v: string -> int, w: string -> int)
    requires forall n :: n in names ==> u(n) == v(n) - 3 * w(n)
    ensures Total(names, u) == Total(names, v) - 3 * Total(names, w)
    decreases |names|
  {
    if names != {} {
      var n :| n in names && Total(names, u) == u(n) + Total(names - {n}, u) && Total(names, v) == v(n) + Total(names - {n}, v)
               && Total(names, w) == w(n) + Total(names - {n}, w);
      TotalSplit(names - {n}, u, v, w);
    }
  }

  function Names(r: RunEntry): set<string> {
    r.tasks.Keys
  }

  /** One event: any change is paid for. */
  lemma RunPays(r: RunEntry, t: RunEntry, m: Mode)
    requires RunRel(r, t, m) && !m.idle
    ensures Total(Names(t), CreditOf(t)) <= Total(Names(r), CreditOf(r)) - if Changed(r, t) then 1 else 0
  {
    hide Credit, SameStep, JobsRel, NotRequeued, SameStanding, SkipsBlamed;
    forall n | n in r.tasks
      ensures CreditOf(t)(n) <= CreditOf(r)(n)
      ensures !SameStanding(r.tasks[n], t.tasks[n]) ==> CreditOf(t)(n) < CreditOf(r)(n)
    {
      assert EntryRel(r.tasks[n], t.tasks[n], m);
    }
    TotalMonotone(Names(r), CreditOf(t), CreditOf(r));
    if Changed(r, t) {
      var n :| n in r.tasks && !SameStanding(r.tasks[n], t.tasks[n]);
      assert CreditOf(t)(n) < CreditOf(r)(n);
    }
  }

  /** The events of an execution that change a status or an attempt in run `i`. */
  ghost function Changes(s: State, evs: seq<Event>, i: nat): nat {
    if evs == [] then 0
    else
      var u, t := Execute(s, evs[..|evs| - 1]), Execute(s, evs);
      Changes(s, evs[..|evs| - 1], i) +
      if i < |u.heap| && i < |t.heap| && t.heap[i].tasks.Keys == u.heap[i].tasks.Keys && !Changed(u.heap[i], t.heap[i]) then 0 else 1
  }

  lemma {:induction false} ChangesCost(s: State, evs: seq<Event>, i: nat)
    requires Inv(s) && s.cfg.backend && i < |s.heap| && Possible(evs)
    ensures var t := Execute(s, evs);
      && t.cfg.backend && i < |t.heap| && Names(t.heap[i]) == Names(s.heap[i])
      && Changes(s, evs, i) <= Total(Names(s.heap[i]), CreditOf(s.heap[i])) - Total(Names(s.heap[i]), CreditOf(t.heap[i]))
    decreases |evs|
  {
    hide Inv, Step, Enabled, Credit, EntryRel, Changed;
    if evs != [] {
      var init, ev := evs[..|evs| - 1], evs[|evs| - 1];
      ChangesCost(s, init, i);
      ExecuteKeepsInv(s, init);
      var u, t := Execute(s, init), Execute(s, evs);
      StepKeepsHistory(u, ev);
      HeapGrows(u, ev);
      assert RunRel(u.heap[i], t.heap[i], ModeOf(u, ev).(moves := true));
      RunPays(u.heap[i], t.heap[i], ModeOf(u, ev).(moves := true));
    }
  }

  lemma FuelBounds(s: State, i: nat, n: string)
    requires Inv(s) && HasTask(s, i, n)
    ensures var e := s.heap[i].tasks[n];
      0 <= Fuel(e) <= 2 * e.maxAttempts + 3 && (Fuel(e) == 0 <==> Terminal(e.status))
  {
    hide HandleOk;
    BooksOf(s, i, n);
  }

  lemma FuelLimits(s: State, i: nat, m: nat)
    requires Inv(s) && i < |s.heap|
    requires forall n :: n in s.heap[i].tasks ==> s.heap[i].tasks[n].maxAttempts <= m
    ensures 0 <= Total(Names(s.heap[i]), FuelOf(s.heap[i])) <= |s.heap[i].tasks| * (2 * m + 3)
  {
    hide Inv, Fuel;
    var r := s.heap[i];
    forall n | n in Names(r) ensures 0 <= FuelOf(r)(n) <= 2 * m + 3 {
      FuelBounds(s, i, n);
      assert r.tasks[n].maxAttempts <= m;
    }
    TotalBound(Names(r), FuelOf(r), 2 * m + 3);
    TotalMonotone(Names(r), (n: string) => 0, FuelOf(r));
    TotalZero(Names(r));
  }

  lemma CreditSplit(names: set<string>, r: RunEntry)
    ensures Total(names, CreditOf(r)) == Total(names, FuelOf(r)) - 3 * Total(names, RequeuesOf(r))
  {
    hide Fuel;
    TotalSplit(names, CreditOf(r), FuelOf(r), RequeuesOf(r));
  }

  lemma MaxAttemptsStay(s: State, evs: seq<Event>, i: nat, m: nat)
    requires Inv(s) && Possible(evs) && i < |s.heap|
    requires forall n :: n in s.heap[i].tasks ==> s.heap[i].tasks[n].maxAttempts <= m
    ensures i < |Execute(s, evs).heap|
    ensures forall n :: n in Execute(s, evs).heap[i].tasks ==> Execute(s, evs).heap[i].tasks[n].maxAttempts <= m
  {
    hide Inv, Possible, Execute;
    ExecuteKeepsHistory(s, evs, 0);
    ExecuteNothing(s, evs);
    assert RunRel(s.heap[i], Execute(s, evs).heap[i], ANYTHING);
    forall n | n in Execute(s, evs).heap[i].tasks ensures Execute(s, evs).heap[i].tasks[n].maxAttempts <= m {
      assert EntryRel(s.heap[i].tasks[n], Execute(s, evs).heap[i].tasks[n], ANYTHING);
    }
  }

  /**
   Termination, with a backend: in any stretch of an execution the steps of a run, added or recovered,
   change status or attempt at most as often as the fuel they use up, plus three times per busy
   refusal applied to one of them.  Fuel never gets negative and is at most 2 x maxAttempts + 3
   a step, so a run that meets no busy refusal changes finitely often in all.
   */
  lemma ChangesBounded(s: State, evs: seq<Event>, i: nat, m: nat)
    requires Reachable(s) && s.cfg.backend && i < |s.heap| && Possible(evs)
    requires forall n :: n in s.heap[i].tasks ==> s.heap[i].tasks[n].maxAttempts <= m
    ensures i < |Execute(s, evs).heap| && Names(Execute(s, evs).heap[i]) == Names(s.heap[i])
    ensures var r, t := s.heap[i], Execute(s, evs).heap[i];
      && Changes(s, evs, i) <= Total(Names(r), FuelOf(r)) - Total(Names(r), FuelOf(t))
                             + 3 * (Total(Names(r), RequeuesOf(t)) - Total(Names(r), RequeuesOf(r)))
      && 0 <= Total(Names(r), FuelOf(t)) && Total(Names(r), FuelOf(r)) <= |r.tasks| * (2 * m + 3)
  {
    hide Reachable, Inv, Possible, Execute, Changes, FuelOf, CreditOf, RequeuesOf;
    ReachableInv(s);
    ChangesCost(s, evs, i);
    ExecuteKeepsInv(s, evs);
    MaxAttemptsStay(s, evs, i, m);
    CreditSplit(Names(s.heap[i]), s.heap[i]);
    CreditSplit(Names(s.heap[i]), Execute(s, evs).heap[i]);
    FuelLimits(s, i, m);
    FuelLimits(Execute(s, evs), i, m);
  }

  /** The fuel a step enters with, from what is recorded of it: nothing if done, the attempts left and a grace period if running. */
  function RecordedFuel(names: set<string>, recovered: map<string, RecoveredStep>, maxAttempts: int): string -> int {
    n =>
      if n !in names then 0
      else if n in recovered && recovered[n].done then 0
      else if n in recovered && recovered[n].startedAt.Some? then
        2 * (if recovered[n].attempts < maxAttempts then maxAttempts - recovered[n].attempts else 0) + 3
      else 2 * maxAttempts + 2
  }

  lemma IncomingFuel(s: State, ev: Event, n: string)
    requires Inv(s) && Enabled(ev) && ev.Recover? && n in Incoming(s, ev).tasks
    ensures Credit(Incoming(s, ev).tasks[n]) == RecordedFuel(Names(Incoming(s, ev)), ByName(ev.recovered), s.cfg.maxAttempts)(n)
  {
    hide ByName;
    StructOf(s);
    hide Inv;
    var k := RecoverTasksFrom(ev.steps, ByName(ev.recovered), s.cfg.maxAttempts, ev.now, n);
  }

  /** What a recovered run can still go through is bounded from its rows. */
  lemma RecoveredChangesBounded(s: State, ev: Event, evs: seq<Event>)
    requires Reachable(s) && s.cfg.backend && Enabled(ev) && ev.Recover? && Possible(evs)
    ensures |s.heap| < |Execute(Step(s, ev), evs).heap|
    ensures var t := Execute(Step(s, ev), evs).heap[|s.heap|];
      Changes(Step(s, ev), evs, |s.heap|) + Total(Names(t), FuelOf(t))
      <= Total(Names(t), RecordedFuel(Names(t), ByName(ev.recovered), s.cfg.maxAttempts)) + 3 * Total(Names(t), RequeuesOf(t))
  {
    hide Reachable, Inv, Step, Enabled, Possible, Execute, Changes, FuelOf, RequeuesOf, Credit, Incoming, RecordedFuel, ByName, RunRel;
    ReachableInv(s);
    StepKeepsInv(s, ev);
    HeapGrows(s, ev);
    EnteredRel(s, ev);
    var i, r, c := |s.heap|, Incoming(s, ev), Step(s, ev).heap[|s.heap|];
    var recorded := RecordedFuel(Names(r), ByName(ev.recovered), s.cfg.maxAttempts);
    assert Names(c) == Names(r) by { EnteredNames(r, c, Locked(s.cfg.backend, TimeOf(ev))); }
    ChangesCost(Step(s, ev), evs, i);
    RunPays(r, c, Locked(s.cfg.backend, TimeOf(ev)));
    forall n | n in Names(r) ensures CreditOf(r)(n) <= recorded(n) { IncomingFuel(s, ev, n); }
    TotalMonotone(Names(r), CreditOf(r), recorded);
    CreditSplit(Names(r), Execute(Step(s, ev), evs).heap[i]);
  }

  lemma EnteredNames(r: RunEntry, t: RunEntry, m: Mode)
    requires RunRel(r, t, m)
    ensures Names(t) == Names(r)
  {
  }

  lemma {:induction false} TotalZero(names: set<string>)
    ensures Total(names, (n: string) => 0) == 0
    decreases |names|
  {
    if names != {} {
      var n :| n in names && Total(names, (n: string) => 0) == 0 + Total(names - {n}, (n: string) => 0);
      TotalZero(names - {n});
    }
  }

  /**
   And it does not stop early: a tracked run all of whose dependencies are tracked has fuel left,
   in a step that is in progress; its fuel is gone exactly when every step is terminal.
   */
  lemma FuelUntilOver(s: State, i: nat)
    requires Reachable(s) && i < |s.heap|
    ensures Total(Names(s.heap[i]), FuelOf(s.heap[i])) == 0 <==> AllTerminal(s.heap[i])
    ensures s.heap[i].closing.Open? && Closed(ViewOf(s.heap[i])) && s.heap[i].tasks != map[] ==>
      exists n :: n in s.heap[i].tasks && InProgress(s.heap[i].tasks[n].status) && Fuel(s.heap[i].tasks[n]) > 0
  {
    hide Reachable, Inv, Fuel, Closed;
    ReachableInv(s);
    var r := s.heap[i];
    forall n | n in r.tasks ensures 0 <= Fuel(r.tasks[n]) && (Fuel(r.tasks[n]) == 0 <==> Terminal(r.tasks[n].status)) {
      FuelBounds(s, i, n);
    }
    var zero := (n: string) => 0;
    TotalZero(Names(r));
    TotalMonotone(Names(r), zero, FuelOf(r));
    TotalMonotone(Names(r), FuelOf(r), FuelOf(r));
    if AllTerminal(r) {
      TotalMonotone(Names(r), FuelOf(r), zero);
    } else {
      var n :| n in r.tasks && !Terminal(r.tasks[n].status);
      assert zero(n) < FuelOf(r)(n);
    }
    if r.closing.Open? && Closed(ViewOf(r)) && r.tasks != map[] {
      var m := TrackedRunHasStepInProgress(s, i);
    }
  }
}
