/**
 The dependency structure of one run with nothing but the status of each step:
 what a tracked run keeps, and what follows from it for every acyclic pipeline.
 */
module Graph {
  import opened Tasks

  /**
   `added`: the run entered through Add, so no status was carried over from an earlier session.
   `strays`: names of steps whose failure in another run of the same ID was charged to this run.
   */
  datatype View = View(deps: map<string, seq<string>>, st: map<string, Status>, order: seq<string>, added: bool, strays: set<string>) {
    predicate Is(n: string, s: Status) {
      n in st && st[n] == s
    }

    /** What `doneNames` accepts as satisfied. */
    predicate Cleared(n: string) {
      Is(n, Done) || Is(n, Skipped)
    }

    predicate Broken(n: string) {
      Is(n, Failed) || Is(n, Skipped)
    }

    /** A failure the run was told of: its own, or a stray one. */
    predicate Blamed(n: string) {
      Is(n, Failed) || n in strays
    }

    predicate DependsOn(n: string, d: string) {
      n in deps && d in deps[n]
    }
  }

  function IndexOf(order: seq<string>, n: string): nat {
    if order == [] || order[0] == n then 0 else 1 + IndexOf(order[1..], n)
  }

  /** `order` lists every dependency strictly before its dependents. */
  predicate Topological(deps: map<string, seq<string>>, order: seq<string>) {
    forall n, d :: n in deps && d in deps[n] ==> IndexOf(order, d) < IndexOf(order, n)
  }

  /** Every dependency names a step of the run. */
  ghost predicate Closed(v: View) {
    forall n, d :: v.DependsOn(n, d) ==> d in v.st
  }

  /** Only of runs that entered through Add. */
  ghost predicate Faithful(v: View) {
    && (forall n, d :: v.DependsOn(n, d) && v.Broken(d) ==> v.Is(n, Skipped))
    && (forall n, d :: v.DependsOn(n, d) && !v.Is(n, Pending) && !v.Is(n, Skipped) ==> v.Is(d, Done))
  }

  /** No pending step depends on a step that failed or was skipped. */
  ghost predicate PendingClean(v: View) {
    forall n, d :: v.DependsOn(n, d) && v.Is(n, Pending) ==> !v.Broken(d)
  }

  ghost predicate SkipsCaused(v: View) {
    forall n :: v.Is(n, Skipped) ==> exists d :: v.DependsOn(n, d) && (v.Broken(d) || d in v.strays)
  }

  ghost predicate Core(v: View) {
    && v.deps.Keys == v.st.Keys
    && Topological(v.deps, v.order)
    && (forall n :: !v.Is(n, Canceled))
    && PendingClean(v)
    && SkipsCaused(v)
    && (v.added ==> Faithful(v))
  }

  /** A pending step waits for a dependency that is not satisfied yet. */
  ghost predicate PendingWaits(v: View) {
    forall n :: v.Is(n, Pending) ==> exists d :: v.DependsOn(n, d) && !v.Cleared(d)
  }

  predicate AllSettled(v: View) {
    forall n :: n in v.st ==> Settled(v.st[n])
  }

  /*** Every kind of status change keeps them ***/

  /** `w` differs from `v` in statuses only. */
  predicate SameGraph(v: View, w: View) {
    w.deps == v.deps && w.st.Keys == v.st.Keys && w.order == v.order && w.added == v.added && w.strays == v.strays
  }

  ghost predicate AllCleared(v: View, n: string) {
    forall d :: v.DependsOn(n, d) ==> v.Cleared(d)
  }

  lemma SkipsStayCaused(v: View, w: View)
    requires SameGraph(v, w) && SkipsCaused(v)
    requires forall m :: w.Is(m, Skipped) ==> v.Is(m, Skipped)
    requires forall m :: v.Broken(m) ==> w.Broken(m)
    ensures SkipsCaused(w)
  {
    forall m | w.Is(m, Skipped)
      ensures exists d :: w.DependsOn(m, d) && (w.Broken(d) || d in w.strays)
    {
      var d :| v.DependsOn(m, d) && (v.Broken(d) || d in v.strays);
      assert w.DependsOn(m, d) && (w.Broken(d) || d in w.strays);
    }
  }

  lemma PendingStillWaits(v: View, w: View)
    requires SameGraph(v, w) && PendingWaits(v)
    requires forall m :: w.Is(m, Pending) ==> v.Is(m, Pending)
    requires forall m, d :: v.DependsOn(m, d) && w.Is(m, Pending) && w.Cleared(d) ==> v.Cleared(d)
    ensures PendingWaits(w)
  {
    forall m | w.Is(m, Pending)
      ensures exists d :: w.DependsOn(m, d) && !w.Cleared(d)
    {
      var d :| v.DependsOn(m, d) && !v.Cleared(d);
      assert w.DependsOn(m, d) && !w.Cleared(d);
    }
  }

  /** `w` has the same broken and skipped steps as `v`, and at least its done ones. */
  lemma CoreStays(v: View, w: View)
    requires SameGraph(v, w) && Core(v)
    requires forall m :: w.Is(m, Canceled) ==> v.Is(m, Canceled)
    requires forall m :: w.Is(m, Pending) ==> v.Is(m, Pending)
    requires forall m :: w.Is(m, Skipped) <==> v.Is(m, Skipped)
    requires forall m :: v.Is(m, Done) ==> w.Is(m, Done)
    requires forall m :: w.Broken(m) <==> v.Broken(m)
    requires v.added ==> forall m, d :: v.DependsOn(m, d) && v.Is(m, Pending) && !w.Is(m, Pending) ==> w.Is(d, Done)
    ensures Core(w)
  {
    SkipsStayCaused(v, w);
    assert PendingClean(w) by {
      forall n, d | w.DependsOn(n, d) && w.Is(n, Pending) ensures !w.Broken(d) {
        assert v.DependsOn(n, d);
      }
    }
    if v.added {
      forall n, d | w.DependsOn(n, d)
        ensures w.Broken(d) ==> w.Is(n, Skipped)
        ensures !w.Is(n, Pending) && !w.Is(n, Skipped) ==> w.Is(d, Done)
      {
        assert v.DependsOn(n, d);
      }
    }
  }

  /** `promoteReady`: exactly the pending steps with satisfied dependencies leave `pending`. */
  ghost predicate Promoted(v: View, w: View) {
    && SameGraph(v, w)
    && forall n :: n in v.st ==>
         if v.Is(n, Pending) && AllCleared(v, n) then InProgress(w.st[n]) else w.st[n] == v.st[n]
  }

  lemma PromotedStatuses(v: View, w: View)
    requires Promoted(v, w)
    ensures forall n, s :: w.Is(n, s) && !InProgress(s) ==> v.Is(n, s)
    ensures forall n, s :: v.Is(n, s) && Terminal(s) ==> w.Is(n, s)
    ensures forall n :: w.Broken(n) <==> v.Broken(n)
    ensures forall n :: w.Is(n, Pending) ==> !AllCleared(v, n)
    ensures forall n :: v.Is(n, Pending) && !w.Is(n, Pending) ==> AllCleared(v, n)
  {
    assert forall n, s :: w.Is(n, s) && !InProgress(s) ==> v.Is(n, s);
    assert forall n, s :: v.Is(n, s) && Terminal(s) ==> w.Is(n, s);
  }

  lemma PromoteKeeps(v: View, w: View)
    requires Core(v) && Promoted(v, w)
    ensures Core(w) && PendingWaits(w)
  {
    PromotedStatuses(v, w);
    CoreStays(v, w);
    forall n | w.Is(n, Pending)
      ensures exists d :: w.DependsOn(n, d) && !w.Cleared(d)
    {
      var d :| v.DependsOn(n, d) && !v.Cleared(d);
      assert w.DependsOn(n, d) && !w.Cleared(d);
    }
  }

  /** Every step but `n` keeps its status. */
  predicate OnlyMoves(v: View, w: View, n: string) {
    && SameGraph(v, w) && n in v.st
    && forall m :: m in v.st && m != n ==> w.st[m] == v.st[m]
  }

  lemma OnlyMovesStatuses(v: View, w: View, n: string)
    requires OnlyMoves(v, w, n)
    ensures forall m, s :: m != n ==> (w.Is(m, s) <==> v.Is(m, s))
    ensures forall s :: (w.Is(n, s) <==> s == w.st[n]) && (v.Is(n, s) <==> s == v.st[n])
  {
  }

  /** A step in progress stays in progress, and nobody else moves. */
  lemma ShuffleKeeps(v: View, w: View, n: string)
    requires Core(v) && PendingWaits(v) && OnlyMoves(v, w, n)
    requires InProgress(v.st[n]) && InProgress(w.st[n])
    ensures Core(w) && PendingWaits(w)
  {
    OnlyMovesStatuses(v, w, n);
    CoreStays(v, w);
    PendingStillWaits(v, w);
  }

  /** A step in progress becomes done; promotion is still to come. */
  lemma DoneKeepsCore(v: View, w: View, n: string)
    requires Core(v) && OnlyMoves(v, w, n)
    requires InProgress(v.st[n]) && w.st[n].Done?
    ensures Core(w)
  {
    OnlyMovesStatuses(v, w, n);
    CoreStays(v, w);
  }

  /**
   `n` fails and exactly the least closed set `k` of its pending or ready dependents is
   skipped.
   */
  ghost predicate FailedWith(v: View, w: View, n: string, k: set<string>) {
    && SameGraph(v, w) && n in v.st && n !in k && InProgress(v.st[n]) && w.st[n].Failed?
    && (forall m :: m in v.st && m != n ==> w.st[m] == if m in k then Skipped else v.st[m])
    && (forall m :: m in k ==> (v.Is(m, Pending) || v.Is(m, Ready)) && exists d :: v.DependsOn(m, d) && (d == n || d in k))
    && (forall m, d :: (v.DependsOn(m, d) && (d == n || d in k) && m != n && (v.Is(m, Pending) || v.Is(m, Ready))) ==> m in k)
  }

  lemma FailedStatuses(v: View, w: View, n: string, k: set<string>)
    requires FailedWith(v, w, n, k)
    ensures forall m :: w.Broken(m) <==> v.Broken(m) || m == n || m in k
    ensures forall m :: w.Is(m, Pending) <==> v.Is(m, Pending) && m !in k
    ensures forall m :: w.Is(m, Skipped) <==> v.Is(m, Skipped) || m in k
    ensures forall m :: v.Is(m, Done) ==> w.Is(m, Done)
    ensures forall m :: w.Is(m, Canceled) ==> v.Is(m, Canceled)
    ensures forall m :: w.Cleared(m) <==> v.Cleared(m) || m in k
    ensures forall m :: m == n || m in k ==> !v.Is(m, Done)
  {
  }

  lemma FailKeeps(v: View, w: View, n: string, k: set<string>)
    requires Core(v) && PendingWaits(v) && FailedWith(v, w, n, k)
    ensures Core(w) && PendingWaits(w)
    ensures v.added ==> forall m :: m in k ==> v.Is(m, Pending)
  {
    FailedStatuses(v, w, n, k);
    FailSkipsCaused(v, w, n, k);
    assert PendingClean(w) by {
      forall m, d | w.DependsOn(m, d) && w.Is(m, Pending) ensures !w.Broken(d) {
        assert v.DependsOn(m, d);
      }
    }
    PendingStillWaits(v, w) by {
      forall m, d | v.DependsOn(m, d) && w.Is(m, Pending) && w.Cleared(d) ensures v.Cleared(d) {
      }
    }
    if v.added {
      FailKeepsFaithful(v, w, n, k);
    }
  }

  lemma FailSkipsCaused(v: View, w: View, n: string, k: set<string>)
    requires SkipsCaused(v) && FailedWith(v, w, n, k)
    ensures SkipsCaused(w)
  {
    FailedStatuses(v, w, n, k);
    forall m | w.Is(m, Skipped)
      ensures exists d :: w.DependsOn(m, d) && (w.Broken(d) || d in w.strays)
    {
      if m in k {
        var d :| v.DependsOn(m, d) && (d == n || d in k);
        assert w.DependsOn(m, d) && w.Broken(d);
      } else {
        var d :| v.DependsOn(m, d) && (v.Broken(d) || d in v.strays);
        assert w.DependsOn(m, d) && (w.Broken(d) || d in w.strays);
      }
    }
  }

  lemma FailKeepsFaithful(v: View, w: View, n: string, k: set<string>)
    requires Faithful(v) && FailedWith(v, w, n, k)
    ensures Faithful(w)
    ensures forall m :: m in k ==> v.Is(m, Pending)
  {
    FailedStatuses(v, w, n, k);
    forall m, d | w.DependsOn(m, d)
      ensures w.Broken(d) ==> w.Is(m, Skipped)
      ensures !w.Is(m, Pending) && !w.Is(m, Skipped) ==> w.Is(d, Done)
    {
      assert v.DependsOn(m, d);
      assert m == n ==> !v.Is(m, Pending) && !v.Is(m, Skipped);
    }
    forall m | m in k
      ensures v.Is(m, Pending)
    {
      var d :| v.DependsOn(m, d) && (d == n || d in k);
    }
  }

  /**
   A failure of `n` in another run: only the least closed set `k` of the pending or ready
   dependents of that name moves, to skipped, and `n` is on record as a stray.
   */
  ghost predicate StrayedWith(v: View, w: View, n: string, k: set<string>) {
    && w.deps == v.deps && w.st.Keys == v.st.Keys && w.order == v.order && w.added == v.added
    && w.strays == v.strays + {n}
    && (forall m :: m in v.st ==> w.st[m] == if m in k then Skipped else v.st[m])
    && (forall m :: m in k ==> (v.Is(m, Pending) || v.Is(m, Ready)) && exists d :: v.DependsOn(m, d) && (d == n || d in k))
    && (forall m, d :: (v.DependsOn(m, d) && (d == n || d in k) && (v.Is(m, Pending) || v.Is(m, Ready))) ==> m in k)
  }

  lemma StrayedStatuses(v: View, w: View, n: string, k: set<string>)
    requires StrayedWith(v, w, n, k)
    ensures forall m :: w.Broken(m) <==> v.Broken(m) || m in k
    ensures forall m :: w.Is(m, Pending) <==> v.Is(m, Pending) && m !in k
    ensures forall m :: w.Is(m, Skipped) <==> v.Is(m, Skipped) || m in k
    ensures forall m :: v.Is(m, Done) <==> w.Is(m, Done)
    ensures forall m :: v.Is(m, Failed) <==> w.Is(m, Failed)
    ensures forall m :: w.Is(m, Canceled) ==> v.Is(m, Canceled)
    ensures forall m :: w.Cleared(m) <==> v.Cleared(m) || m in k
    ensures forall m :: m in k ==> !v.Is(m, Done)
  {
  }

  /** Everything but the cause of a skip survives it: the set skipped is closed. */
  lemma StrayKeeps(v: View, w: View, n: string, k: set<string>)
    requires Core(v) && PendingWaits(v) && StrayedWith(v, w, n, k)
    ensures Core(w) && PendingWaits(w)
  {
    StrayedStatuses(v, w, n, k);
    forall m | w.Is(m, Skipped)
      ensures exists d :: w.DependsOn(m, d) && (w.Broken(d) || d in w.strays)
    {
      if m in k {
        var d :| v.DependsOn(m, d) && (d == n || d in k);
        assert w.DependsOn(m, d) && (w.Broken(d) || d in w.strays);
      } else {
        var d :| v.DependsOn(m, d) && (v.Broken(d) || d in v.strays);
        assert w.DependsOn(m, d) && (w.Broken(d) || d in w.strays);
      }
    }
    forall m, d | w.DependsOn(m, d) && w.Is(m, Pending) ensures !w.Broken(d) {
      assert v.DependsOn(m, d);
    }
    forall m | w.Is(m, Pending) ensures exists d :: w.DependsOn(m, d) && !w.Cleared(d) {
      var d :| v.DependsOn(m, d) && !v.Cleared(d);
      assert w.DependsOn(m, d) && !w.Cleared(d);
    }
    if v.added {
      StrayKeepsFaithful(v, w, n, k);
    }
  }

  lemma StrayKeepsFaithful(v: View, w: View, n: string, k: set<string>)
    requires Faithful(v) && StrayedWith(v, w, n, k)
    ensures Faithful(w)
  {
    StrayedStatuses(v, w, n, k);
    forall m, d | w.DependsOn(m, d)
      ensures w.Broken(d) ==> w.Is(m, Skipped)
      ensures !w.Is(m, Pending) && !w.Is(m, Skipped) ==> w.Is(d, Done)
    {
      assert v.DependsOn(m, d);
    }
  }

  /*** Ancestors ***/

  /** `p` follows dependencies upwards: each element is a direct dependency of the one before it. */
  predicate Ascends(v: View, p: seq<string>) {
    |p| >= 2 && forall i: nat :: i + 1 < |p| ==> Hop(v, p, i)
  }

  predicate Hop(v: View, p: seq<string>, i: nat)
    requires i + 1 < |p|
  {
    v.DependsOn(p[i], p[i + 1])
  }

  lemma AscendsTail(v: View, p: seq<string>)
    requires Ascends(v, p)
    ensures v.DependsOn(p[0], p[1])
    ensures |p| > 2 ==> Ascends(v, p[1..])
  {
    assert Hop(v, p, 0);
    if |p| > 2 {
      var q := p[1..];
      forall i: nat | i + 1 < |q| ensures Hop(v, q, i) {
        assert Hop(v, p, i + 1);
      }
    }
  }

  /** `a` is a direct or transitive dependency of `n`. */
  ghost predicate Ancestor(v: View, a: string, n: string) {
    exists p :: Ascends(v, p) && p[0] == n && p[|p| - 1] == a
  }

  lemma DirectAncestor(v: View, n: string, d: string)
    requires v.DependsOn(n, d)
    ensures Ancestor(v, d, n)
  {
    var p := [n, d];
    assert Hop(v, p, 0);
    assert Ascends(v, p);
  }

  lemma ExtendAncestor(v: View, n: string, d: string, a: string)
    requires v.DependsOn(n, d) && Ancestor(v, a, d)
    ensures Ancestor(v, a, n)
  {
    var p :| Ascends(v, p) && p[0] == d && p[|p| - 1] == a;
    var q := [n] + p;
    forall i: nat | i + 1 < |q| ensures Hop(v, q, i) {
      if i > 0 { assert Hop(v, p, i - 1); }
    }
    assert Ascends(v, q) && q[0] == n && q[|q| - 1] == a;
  }

  lemma {:induction false} SkippedFromPath(v: View, p: seq<string>)
    requires Core(v) && v.added && Ascends(v, p) && v.Is(p[|p| - 1], Failed)
    ensures v.Is(p[0], Skipped)
    decreases |p|
  {
    AscendsTail(v, p);
    if |p| > 2 {
      SkippedFromPath(v, p[1..]);
      assert v.Broken(p[1]);
    }
  }

  lemma {:induction false} SkippedHasBlamedAncestor(v: View, n: string) returns (a: string)
    requires Core(v) && v.Is(n, Skipped)
    ensures v.Blamed(a) && Ancestor(v, a, n)
    decreases IndexOf(v.order, n)
  {
    var d :| v.DependsOn(n, d) && (v.Broken(d) || d in v.strays);
    DirectAncestor(v, n, d);
    if v.Blamed(d) {
      a := d;
    } else {
      assert d in v.deps[n];
      a := SkippedHasBlamedAncestor(v, d);
      ExtendAncestor(v, n, d, a);
    }
  }

  lemma SkippedBelowFailed(v: View, a: string, n: string)
    requires Core(v) && v.added && v.Is(a, Failed) && Ancestor(v, a, n)
    ensures v.Is(n, Skipped)
  {
    var p :| Ascends(v, p) && p[0] == n && p[|p| - 1] == a;
    SkippedFromPath(v, p);
  }

  /** A step of an added run none of whose ancestors is a stray is skipped exactly when some transitive ancestor failed. */
  lemma SkippedIffAncestorFailed(v: View, n: string)
    requires Core(v) && v.added
    ensures (exists a :: v.Is(a, Failed) && Ancestor(v, a, n)) ==> v.Is(n, Skipped)
    ensures v.Is(n, Skipped) ==> exists a :: v.Blamed(a) && Ancestor(v, a, n)
    ensures (forall a :: a in v.strays ==> !Ancestor(v, a, n)) ==>
      (v.Is(n, Skipped) <==> exists a :: v.Is(a, Failed) && Ancestor(v, a, n))
  {
    if v.Is(n, Skipped) {
      var a := SkippedHasBlamedAncestor(v, n);
    }
    if a :| v.Is(a, Failed) && Ancestor(v, a, n) {
      SkippedBelowFailed(v, a, n);
    }
  }

  lemma {:induction false} AncestorsDonePath(v: View, p: seq<string>)
    requires Core(v) && v.added && Ascends(v, p)
    requires !v.Is(p[0], Pending) && !v.Is(p[0], Skipped)
    ensures v.Is(p[|p| - 1], Done)
    decreases |p|
  {
    AscendsTail(v, p);
    assert v.Is(p[1], Done);
    if |p| > 2 {
      AncestorsDonePath(v, p[1..]);
    }
  }

  /**
   A step of an added run that was promoted has every transitive ancestor done,
   although promotion itself also accepts skipped dependencies.
   */
  lemma PromotedAncestorsDone(v: View, n: string)
    requires Core(v) && v.added && n in v.st && !v.Is(n, Pending) && !v.Is(n, Skipped)
    ensures forall a :: Ancestor(v, a, n) ==> v.Is(a, Done)
  {
    forall a | Ancestor(v, a, n) ensures v.Is(a, Done) {
      var p :| Ascends(v, p) && p[0] == n && p[|p| - 1] == a;
      AncestorsDonePath(v, p);
    }
  }

  /** With every step settled and no strays: no step failed exactly when every step is done. */
  lemma NoFailureIffAllDone(v: View)
    requires Core(v) && AllSettled(v) && v.strays == {}
    ensures (forall n :: !v.Is(n, Failed)) <==> (forall n :: n in v.st ==> v.Is(n, Done))
  {
    if (forall n :: !v.Is(n, Failed)) {
      forall n | n in v.st ensures v.Is(n, Done) {
        assert Settled(v.st[n]) && !v.Is(n, Failed);
        if v.Is(n, Skipped) {
          var a := SkippedHasBlamedAncestor(v, n);
          assert false;
        }
      }
    }
  }

  /*** No stuck run ***/

  /** A pending step has a direct dependency that is tracked and not terminal. */
  lemma PendingHasOpenDependency(v: View, n: string) returns (d: string)
    requires Core(v) && PendingWaits(v) && Closed(v) && v.Is(n, Pending)
    ensures v.DependsOn(n, d) && d in v.st && !Terminal(v.st[d])
  {
    d :| v.DependsOn(n, d) && !v.Cleared(d);
    assert !v.Broken(d) && !v.Is(d, Canceled);
  }

  /** Whenever some step is not settled, some step is ready, running, retrying or recovering. */
  lemma {:induction false} SomeStepInProgress(v: View, n: string) returns (m: string)
    requires Core(v) && PendingWaits(v) && Closed(v)
    requires n in v.st && !Settled(v.st[n])
    ensures m in v.st && InProgress(v.st[m])
    decreases IndexOf(v.order, n)
  {
    assert !v.Is(n, Canceled);
    if v.Is(n, Pending) {
      var d := PendingHasOpenDependency(v, n);
      assert d in v.deps[n];
      m := SomeStepInProgress(v, d);
    } else {
      m := n;
    }
  }

  /*** The outcome is a function of the pipeline and of how each started step ended ***/

  /** `fate` says of each step whether its last attempt succeeds. */
  predicate Obeys(v: View, fate: map<string, bool>) {
    forall n :: n in v.st ==>
      && (v.Is(n, Done) ==> n in fate && fate[n])
      && (v.Is(n, Failed) ==> n in fate && !fate[n])
  }

  lemma SameStatusStep(v: View, w: View, fate: map<string, bool>, n: string)
    requires Core(v) && Core(w) && Faithful(v) && Faithful(w) && v.deps == w.deps && v.strays == w.strays == {}
    requires n in v.st && Settled(v.st[n]) && Settled(w.st[n])
    requires Obeys(v, fate) && Obeys(w, fate)
    requires forall d :: v.DependsOn(n, d) ==> (v.Broken(d) <==> w.Broken(d))
    ensures w.st[n] == v.st[n]
  {
    assert forall d :: v.DependsOn(n, d) <==> w.DependsOn(n, d);
    assert v.Is(n, Skipped) <==> exists d :: v.DependsOn(n, d) && v.Broken(d);
    assert w.Is(n, Skipped) <==> exists d :: w.DependsOn(n, d) && w.Broken(d);
  }

  lemma {:induction false} SameStatus(v: View, w: View, fate: map<string, bool>, n: string)
    requires Core(v) && Core(w) && v.added && w.added && AllSettled(v) && AllSettled(w)
    requires v.deps == w.deps && v.strays == w.strays == {}
    requires Obeys(v, fate) && Obeys(w, fate) && n in v.st
    ensures w.st[n] == v.st[n]
    decreases IndexOf(v.order, n)
  {
    forall d | v.DependsOn(n, d) ensures v.Broken(d) <==> w.Broken(d) {
      assert d in v.deps[n];
      if d in v.st {
        SameStatus(v, w, fate, d);
      }
    }
    SameStatusStep(v, w, fate, n);
  }

  /** Two complete executions in which each step meets the same fate end with the same statuses. */
  lemma OutcomeIsOrderIndependent(v: View, w: View, fate: map<string, bool>)
    requires Core(v) && Core(w) && v.added && w.added && AllSettled(v) && AllSettled(w)
    requires v.deps == w.deps && v.strays == w.strays == {}
    requires Obeys(v, fate) && Obeys(w, fate)
    ensures v.st == w.st
  {
    forall n | n in v.st ensures w.st[n] == v.st[n] {
      SameStatus(v, w, fate, n);
    }
  }
}
