/** The topological sort behind every run: Kahn's algorithm over the pipeline's steps. */
module Dag {
  import opened Options
  import opened Graph
  import opened QueueSpec
  import opened QueueInv
  import opened QueueLoops

  function Names(steps: seq<StepSpec>): set<string> {
    set k | 0 <= k < |steps| :: steps[k].name
  }

  /** The dependencies of the step of that name; names are distinct. */
  function DepsOf(steps: seq<StepSpec>, n: string): seq<string> {
    if steps == [] then []
    else if steps[|steps| - 1].name == n then steps[|steps| - 1].dependsOn
    else DepsOf(steps[..|steps| - 1], n)
  }

  lemma {:induction false} DepsOfAt(steps: seq<StepSpec>, k: nat)
    requires DistinctNames(steps) && k < |steps|
    ensures DepsOf(steps, steps[k].name) == steps[k].dependsOn
    decreases |steps|
  {
    if k < |steps| - 1 { DepsOfAt(steps[..|steps| - 1], k); }
  }

  /** How often `n` is listed as waiting for `d`. */
  function Edges(adj: map<string, seq<string>>, d: string, n: string): nat {
    if d in adj then multiset(adj[d])[n] else 0
  }

  /** How many of the dependencies are not in `done`. */
  function Waiting(deps: seq<string>, done: set<string>): nat {
    if deps == [] then 0 else Waiting(deps[..|deps| - 1], done) + if deps[|deps| - 1] in done then 0 else 1
  }

  lemma {:induction false} WaitingDrops(deps: seq<string>, done: set<string>, cur: string)
    requires cur !in done
    ensures Waiting(deps, done + {cur}) + multiset(deps)[cur] == Waiting(deps, done)
    decreases |deps|
  {
    if deps != [] {
      WaitingDrops(deps[..|deps| - 1], done, cur);
      assert deps == deps[..|deps| - 1] + [deps[|deps| - 1]];
    }
  }

  lemma {:induction false} WaitingZero(deps: seq<string>, done: set<string>)
    ensures Waiting(deps, done) == 0 <==> forall d :: d in deps ==> d in done
    decreases |deps|
  {
    if deps != [] {
      WaitingZero(deps[..|deps| - 1], done);
      assert deps == deps[..|deps| - 1] + [deps[|deps| - 1]];
    }
  }

  lemma {:induction false} WaitingAll(deps: seq<string>)
    ensures Waiting(deps, {}) == |deps|
    decreases |deps|
  {
    if deps != [] { WaitingAll(deps[..|deps| - 1]); }
  }

  /*** Counting in-degrees ***/

  /** The in-degrees and the adjacency lists of the first steps. */
  ghost predicate Counts(steps: seq<StepSpec>, inDegree: map<string, int>, adj: map<string, seq<string>>) {
    && inDegree.Keys == Names(steps)
    && (forall n :: n in inDegree ==> inDegree[n] == |DepsOf(steps, n)|)
    && (forall d, n :: Edges(adj, d, n) == if n in Names(steps) then multiset(DepsOf(steps, n))[d] else 0)
  }

  method CountStep(adj0: map<string, seq<string>>, s: StepSpec) returns (adj: map<string, seq<string>>, degree: nat)
    ensures degree == |s.dependsOn|
    ensures forall d, n :: Edges(adj, d, n) == Edges(adj0, d, n) + if n == s.name then multiset(s.dependsOn)[d] else 0
  {
    adj, degree := adj0, 0;
    for j := 0 to |s.dependsOn|
      invariant degree == j
      invariant forall d, n :: Edges(adj, d, n) == Edges(adj0, d, n) + if n == s.name then multiset(s.dependsOn[..j])[d] else 0
    {
      var dep := s.dependsOn[j];
      assert s.dependsOn[..j + 1] == s.dependsOn[..j] + [dep];
      adj := adj[dep := (if dep in adj then adj[dep] else []) + [s.name]];
      degree := degree + 1;
    }
    assert s.dependsOn[..|s.dependsOn|] == s.dependsOn;
  }

  method CountAll(steps: seq<StepSpec>) returns (inDegree: map<string, int>, adj: map<string, seq<string>>)
    ensures inDegree.Keys == Names(steps) && Known(adj, inDegree)
    ensures DistinctNames(steps) ==> Counts(steps, inDegree, adj)
  {
    hide Edges, Counts, DistinctNames;
    inDegree, adj := map[], map[];
    NoEdges();
    for i := 0 to |steps|
      invariant inDegree.Keys == Names(steps[..i]) && Known(adj, inDegree)
      invariant DistinctNames(steps) ==> Counts(steps[..i], inDegree, adj)
    {
      ghost var inDegree0, adj0 := inDegree, adj;
      var degree;
      adj, degree := CountStep(adj, steps[i]);
      inDegree := inDegree[steps[i].name := (if steps[i].name in inDegree then inDegree[steps[i].name] else 0) + degree];
      NamesMore(steps, i);
      KnownMore(adj0, adj, steps[i], inDegree0, inDegree);
      if DistinctNames(steps) {
        CountsMore(steps, i);
        CountsKeep(steps, i, inDegree0, adj0, adj);
      }
    }
    assert steps[..|steps|] == steps;
  }

  /** Whatever waits for something has an in-degree. */
  predicate Known(adj: map<string, seq<string>>, inDegree: map<string, int>) {
    forall d, n :: d in adj && n in adj[d] ==> n in inDegree
  }

  lemma KnownMore(adj0: map<string, seq<string>>, adj: map<string, seq<string>>, s: StepSpec,
                  inDegree0: map<string, int>, inDegree: map<string, int>)
    requires Known(adj0, inDegree0) && inDegree.Keys == inDegree0.Keys + {s.name}
    requires forall d, n :: Edges(adj, d, n) == Edges(adj0, d, n) + if n == s.name then multiset(s.dependsOn)[d] else 0
    ensures Known(adj, inDegree)
  {
    forall d, n | d in adj && n in adj[d] ensures n in inDegree {
      assert Edges(adj, d, n) > 0;
      if n != s.name { assert Edges(adj0, d, n) > 0; }
    }
  }

  lemma NamesMore(steps: seq<StepSpec>, i: nat)
    requires i < |steps|
    ensures Names(steps[..i + 1]) == Names(steps[..i]) + {steps[i].name}
  {
    forall n | n in Names(steps[..i]) + {steps[i].name} ensures n in Names(steps[..i + 1]) {
      if n == steps[i].name {
        assert steps[..i + 1][i].name == n;
      } else {
        var k :| 0 <= k < i && steps[..i][k].name == n;
        assert steps[..i + 1][k].name == n;
      }
    }
  }

  lemma NoEdges()
    ensures Counts([], map[], map[])
  {
  }

  lemma CountsKeep(steps: seq<StepSpec>, i: nat, inDegree: map<string, int>, adj0: map<string, seq<string>>, adj: map<string, seq<string>>)
    requires DistinctNames(steps) && i < |steps| && Counts(steps[..i], inDegree, adj0)
    requires forall d, n :: Edges(adj, d, n) == Edges(adj0, d, n) + if n == steps[i].name then multiset(steps[i].dependsOn)[d] else 0
    ensures Counts(steps[..i + 1], inDegree[steps[i].name := |steps[i].dependsOn|], adj)
  {
    hide Edges, DepsOf, Names;
    CountsMore(steps, i);
    var t, degrees := steps[..i + 1], inDegree[steps[i].name := |steps[i].dependsOn|];
    forall n | n in degrees ensures degrees[n] == |DepsOf(t, n)| {
      assert DepsGrow(steps, i, n);
    }
    forall d, n ensures Edges(adj, d, n) == if n in Names(t) then multiset(DepsOf(t, n))[d] else 0 {
      assert DepsGrow(steps, i, n);
      assert Edges(adj0, d, n) == if n in Names(steps[..i]) then multiset(DepsOf(steps[..i], n))[d] else 0;
    }
  }

  predicate DepsGrow(steps: seq<StepSpec>, i: nat, n: string)
    requires i < |steps|
  {
    DepsOf(steps[..i + 1], n) == if n == steps[i].name then steps[i].dependsOn else DepsOf(steps[..i], n)
  }

  lemma DepsMore(steps: seq<StepSpec>, i: nat, n: string)
    requires i < |steps|
    ensures DepsGrow(steps, i, n)
  {
    assert steps[..i + 1][..i] == steps[..i];
  }

  lemma CountsMore(steps: seq<StepSpec>, i: nat)
    requires DistinctNames(steps) && i < |steps|
    ensures steps[i].name !in Names(steps[..i])
    ensures Names(steps[..i + 1]) == Names(steps[..i]) + {steps[i].name}
    ensures forall n :: DepsGrow(steps, i, n)
  {
    forall n ensures DepsGrow(steps, i, n) {
      DepsMore(steps, i, n);
    }
    NamesMore(steps, i);
  }

  /*** The main loop ***/

  predicate NoDuplicates(s: seq<string>) {
    forall j, k :: 0 <= j < k < |s| ==> s[j] != s[k]
  }

  function Elements(s: seq<string>): set<string> {
    set x | x in s
  }

  /**
   `done` steps are counted off; what has no open dependency is in the order or the queue, once;
   every step in the order comes after its dependencies.
   */
  ghost predicate Sorting(steps: seq<StepSpec>, inDegree: map<string, int>, queue: seq<string>, order: seq<string>) {
    && inDegree.Keys == Names(steps)
    && NoDuplicates(order + queue)
    && (forall n :: n in order + queue ==> n in inDegree)
    && (forall n :: n in inDegree ==> inDegree[n] == Waiting(DepsOf(steps, n), Elements(order)))
    && (forall n :: n in inDegree ==> (n in order + queue <==> inDegree[n] == 0))
    && (forall k, d :: 0 <= k < |order| && d in DepsOf(steps, order[k]) ==> d in order[..k])
  }

  /** One popped step is being counted off: `seen` is the part of its adjacency list already handled. */
  ghost predicate Popping(steps: seq<StepSpec>, inDegree: map<string, int>, queue: seq<string>, order: seq<string>,
                          cur: string, seen: seq<string>) {
    && inDegree.Keys == Names(steps)
    && NoDuplicates(order + [cur] + queue)
    && (forall n :: n in order + [cur] + queue ==> n in inDegree)
    && (forall n :: n in inDegree ==> inDegree[n] == Waiting(DepsOf(steps, n), Elements(order)) - multiset(seen)[n])
    && (forall n :: n in inDegree ==> (n in order + [cur] + queue <==> inDegree[n] == 0))
  }

  /** How many steps still have open dependencies. */
  function Open(inDegree: map<string, int>): nat {
    |set n | n in inDegree && inDegree[n] > 0|
  }

  /** Counting one dependency off opens nothing, and closes a step exactly when it drops to zero. */
  lemma OpenDrops(inDegree: map<string, int>, n: string)
    requires n in inDegree
    ensures Open(inDegree[n := inDegree[n] - 1]) == Open(inDegree) - if inDegree[n] == 1 then 1 else 0
  {
    var before := set m | m in inDegree && inDegree[m] > 0;
    var t := inDegree[n := inDegree[n] - 1];
    var after := set m | m in t && t[m] > 0;
    assert after == if inDegree[n] == 1 then before - {n} else before;
  }

  method CountOff(steps: seq<StepSpec>, inDegree0: map<string, int>, queue0: seq<string>, ghost order: seq<string>,
                  cur: string, list: seq<string>)
    returns (inDegree: map<string, int>, queue: seq<string>)
    requires forall n :: n in list ==> n in inDegree0
    requires DistinctNames(steps) ==>
      && Popping(steps, inDegree0, queue0, order, cur, [])
      && forall n :: n in list ==> n in Names(steps) && multiset(list)[n] <= Waiting(DepsOf(steps, n), Elements(order))
    ensures inDegree.Keys == inDegree0.Keys && |queue| + Open(inDegree) == |queue0| + Open(inDegree0)
    ensures forall n :: n in queue ==> n in queue0 || n in list
    ensures DistinctNames(steps) ==> Popping(steps, inDegree, queue, order, cur, list)
  {
    hide Popping, Waiting, DepsOf, Elements, DistinctNames, Open;
    inDegree, queue := inDegree0, queue0;
    for j := 0 to |list|
      invariant inDegree.Keys == inDegree0.Keys && |queue| + Open(inDegree) == |queue0| + Open(inDegree0)
      invariant forall n :: n in queue ==> n in queue0 || n in list
      invariant DistinctNames(steps) ==> Popping(steps, inDegree, queue, order, cur, list[..j])
    {
      var next := list[j];
      if DistinctNames(steps) { CountOne(steps, inDegree, queue, order, cur, list, j); }
      OpenDrops(inDegree, next);
      inDegree := inDegree[next := inDegree[next] - 1];
      if inDegree[next] == 0 {
        queue := queue + [next];
      }
    }
    assert list[..|list|] == list;
  }

  lemma CountOne(steps: seq<StepSpec>, inDegree: map<string, int>, queue: seq<string>, order: seq<string>, cur: string,
                 list: seq<string>, j: nat)
    requires j < |list| && Popping(steps, inDegree, queue, order, cur, list[..j])
    requires list[j] in Names(steps) && multiset(list)[list[j]] <= Waiting(DepsOf(steps, list[j]), Elements(order))
    ensures list[j] in inDegree
    ensures var degrees := inDegree[list[j] := inDegree[list[j]] - 1];
      Popping(steps, degrees, if degrees[list[j]] == 0 then queue + [list[j]] else queue, order, cur, list[..j + 1])
  {
    hide Waiting, DepsOf, Elements, NoDuplicates;
    var next, all := list[j], order + [cur] + queue;
    PartCount(list, j);
    MultisetMore(list, j);
    assert next !in all;
    QueueOne(all, next);
    assert order + [cur] + (queue + [next]) == all + [next];
  }

  lemma MultisetMore(list: seq<string>, j: nat)
    requires j < |list|
    ensures multiset(list[..j + 1]) == multiset(list[..j]) + multiset{list[j]}
  {
    assert list[..j + 1] == list[..j] + [list[j]];
  }

  lemma QueueOne(s: seq<string>, x: string)
    requires NoDuplicates(s) && x !in s
    ensures NoDuplicates(s + [x]) && forall y :: y in s + [x] <==> y in s || y == x
  {
  }

  lemma NotBefore(before: seq<string>, x: string, after: seq<string>)
    requires NoDuplicates(before + [x] + after)
    ensures x !in before
  {
    var s := before + [x] + after;
    assert s[|before|] == x && forall k :: 0 <= k < |before| ==> s[k] == before[k];
  }

  lemma PartCount(list: seq<string>, j: nat)
    requires j < |list|
    ensures multiset(list[..j + 1])[list[j]] <= multiset(list)[list[j]]
    ensures list[j] in list
  {
    assert list == list[..j + 1] + list[j + 1..];
  }

  /**
   For distinct names: an order of all steps in which every dependency comes first, or none if there
   is no such order.  For any names the sort ends, with as many names as steps or with a refusal.
   */
  method TopoSort(steps: seq<StepSpec>) returns (result: Option<seq<string>>)
    ensures result.Some? ==> |result.value| == |steps| && Elements(result.value) <= Names(steps)
    ensures DistinctNames(steps) && result.Some? ==> Elements(result.value) == Names(steps) && ValidOrder(result.value, steps)
    ensures DistinctNames(steps) && result.None? ==> forall o :: Elements(o) == Names(steps) ==> !ValidOrder(o, steps)
  {
    hide Waiting, Edges, DepsOf, DistinctNames, Open, ValidOrder;
    var inDegree, adj := CountAll(steps);
    var queue := FirstQueue(steps, inDegree);
    var order: seq<string> := [];
    if DistinctNames(steps) { StartSorting(steps, inDegree, adj, queue); }
    while queue != []
      invariant inDegree.Keys == Names(steps) && (forall n :: n in queue ==> n in inDegree) && Elements(order) <= Names(steps)
      invariant DistinctNames(steps) ==> Sorting(steps, inDegree, queue, order)
      decreases |queue| + Open(inDegree)
    {
      var cur := queue[0];
      var list := if cur in adj then adj[cur] else [];
      if DistinctNames(steps) { PopOne(steps, inDegree, queue, order, adj); }
      inDegree, queue := CountOff(steps, inDegree, queue[1..], order, cur, list);
      if DistinctNames(steps) { PopDone(steps, inDegree, queue, order, cur, list, adj); }
      order := order + [cur];
    }
    if |order| != |steps| {
      if DistinctNames(steps) { StuckMeansNoOrder(steps, inDegree, order); }
      return None;
    }
    if DistinctNames(steps) { SortedIsValid(steps, inDegree, order); }
    return Some(order);
  }

  method FirstQueue(steps: seq<StepSpec>, inDegree: map<string, int>) returns (queue: seq<string>)
    requires inDegree.Keys == Names(steps)
    ensures forall n :: n in queue <==> n in inDegree && inDegree[n] == 0
    ensures DistinctNames(steps) ==> NoDuplicates(queue)
  {
    hide DistinctNames;
    queue := [];
    for i := 0 to |steps|
      invariant DistinctNames(steps) ==> NoDuplicates(queue)
      invariant forall n :: n in queue <==> n in Names(steps[..i]) && n in inDegree && inDegree[n] == 0
    {
      NamesMore(steps, i);
      assert steps[i].name in Names(steps);
      if inDegree[steps[i].name] == 0 {
        if DistinctNames(steps) {
          CountsMore(steps, i);
          QueueOne(queue, steps[i].name);
        }
        queue := queue + [steps[i].name];
      }
    }
    assert steps[..|steps|] == steps;
  }

  lemma StartSorting(steps: seq<StepSpec>, inDegree: map<string, int>, adj: map<string, seq<string>>, queue: seq<string>)
    requires Counts(steps, inDegree, adj) && NoDuplicates(queue)
    requires forall n :: n in queue <==> n in inDegree && inDegree[n] == 0
    ensures Sorting(steps, inDegree, queue, [])
  {
    assert [] + queue == queue && Elements([]) == {};
    forall n | n in inDegree ensures inDegree[n] == Waiting(DepsOf(steps, n), {}) {
      WaitingAll(DepsOf(steps, n));
    }
  }

  lemma PopOne(steps: seq<StepSpec>, inDegree: map<string, int>, queue: seq<string>, order: seq<string>, adj: map<string, seq<string>>)
    requires Sorting(steps, inDegree, queue, order) && queue != []
    requires exists degrees :: Counts(steps, degrees, adj)
    ensures var cur := queue[0];
      var list := if cur in adj then adj[cur] else [];
      && Popping(steps, inDegree, queue[1..], order, cur, [])
      && (forall n :: n in list ==> n in Names(steps) && multiset(list)[n] <= Waiting(DepsOf(steps, n), Elements(order)))
  {
    hide Waiting, DepsOf;
    var cur := queue[0];
    var list := if cur in adj then adj[cur] else [];
    assert order + [cur] + queue[1..] == order + queue;
    NotBefore(order, cur, queue[1..]);
    var degrees :| Counts(steps, degrees, adj);
    forall n | n in list
      ensures n in Names(steps) && multiset(list)[n] <= Waiting(DepsOf(steps, n), Elements(order))
    {
      assert Edges(adj, cur, n) == multiset(list)[n] > 0;
      WaitingDrops(DepsOf(steps, n), Elements(order), cur);
    }
  }

  lemma PopDone(steps: seq<StepSpec>, inDegree: map<string, int>, queue: seq<string>, order: seq<string>, cur: string,
                list: seq<string>, adj: map<string, seq<string>>)
    requires Popping(steps, inDegree, queue, order, cur, list)
    requires exists degrees :: Counts(steps, degrees, adj)
    requires list == if cur in adj then adj[cur] else []
    requires Waiting(DepsOf(steps, cur), Elements(order)) == 0
    requires forall k, d :: 0 <= k < |order| && d in DepsOf(steps, order[k]) ==> d in order[..k]
    ensures Sorting(steps, inDegree, queue, order + [cur])
  {
    hide Waiting, DepsOf, NoDuplicates, Elements, Counts;
    NotBefore(order, cur, queue);
    forall n | n in inDegree
      ensures inDegree[n] == Waiting(DepsOf(steps, n), Elements(order + [cur]))
    {
      PopDegree(steps, order, cur, n, list, adj);
    }
    forall k, d | 0 <= k < |order + [cur]| && d in DepsOf(steps, (order + [cur])[k]) ensures d in (order + [cur])[..k] {
      assert (order + [cur])[..k] == order[..k];
      if k == |order| {
        WaitingZero(DepsOf(steps, cur), Elements(order));
        InElements(order, d);
        assert order[..k] == order;
      }
    }
  }

  lemma InElements(s: seq<string>, x: string)
    ensures x in Elements(s) <==> x in s
  {
  }

  lemma PopDegree(steps: seq<StepSpec>, order: seq<string>, cur: string, n: string, list: seq<string>, adj: map<string, seq<string>>)
    requires cur !in order && n in Names(steps) && exists degrees :: Counts(steps, degrees, adj)
    requires list == if cur in adj then adj[cur] else []
    ensures Waiting(DepsOf(steps, n), Elements(order + [cur])) == Waiting(DepsOf(steps, n), Elements(order)) - multiset(list)[n]
  {
    hide Waiting, DepsOf;
    assert Elements(order + [cur]) == Elements(order) + {cur};
    WaitingDrops(DepsOf(steps, n), Elements(order), cur);
    var degrees :| Counts(steps, degrees, adj);
    assert Edges(adj, cur, n) == multiset(list)[n];
  }

  lemma OrderBounded(steps: seq<StepSpec>, order: seq<string>, inDegree: map<string, int>, queue: seq<string>)
    requires Sorting(steps, inDegree, queue, order)
    ensures |order| <= |steps|
  {
    forall j, k | 0 <= j < k < |order| ensures order[j] != order[k] {
      assert (order + queue)[j] == order[j] && (order + queue)[k] == order[k];
    }
    forall n | n in Elements(order) ensures n in Names(steps) {
      assert n in order + queue;
    }
    DistinctSize(order);
    NamesSize(steps);
    CardinalityBelow(Elements(order), Names(steps));
  }

  lemma {:induction false} DistinctSize(s: seq<string>)
    requires NoDuplicates(s)
    ensures |Elements(s)| == |s|
    decreases |s|
  {
    if s != [] {
      var init, last := s[..|s| - 1], s[|s| - 1];
      DistinctSize(init);
      assert s == init + [last];
      assert Elements(s) == Elements(init) + {last};
    }
  }

  lemma {:induction false} NamesSize(steps: seq<StepSpec>)
    ensures |Names(steps)| <= |steps|
    decreases |steps|
  {
    if steps != [] {
      var init, last := steps[..|steps| - 1], |steps| - 1;
      NamesSize(init);
      forall n | n in Names(steps) ensures n in Names(init) + {steps[last].name} {
        var k :| 0 <= k < |steps| && steps[k].name == n;
        if k < last { assert init[k].name == n; }
      }
      CardinalityBelow(Names(steps), Names(init) + {steps[last].name});
    }
  }

  /** A finished sort that left a step out proves that no order exists at all. */
  lemma StuckMeansNoOrder(steps: seq<StepSpec>, inDegree: map<string, int>, order: seq<string>)
    requires DistinctNames(steps) && Sorting(steps, inDegree, [], order) && |order| != |steps|
    ensures forall o :: Elements(o) == Names(steps) ==> !ValidOrder(o, steps)
  {
    hide Waiting;
    assert order + [] == order;
    forall o | Elements(o) == Names(steps) && ValidOrder(o, steps) ensures false {
      var n := LeftOut(steps, inDegree, order);
      NoFirstLeftOut(steps, inDegree, order, o, n);
    }
  }

  lemma LeftOut(steps: seq<StepSpec>, inDegree: map<string, int>, order: seq<string>) returns (n: string)
    requires DistinctNames(steps) && Sorting(steps, inDegree, [], order) && |order| != |steps|
    ensures n in Names(steps) && n !in order
  {
    assert order + [] == order;
    if Names(steps) <= Elements(order) {
      OrderBounded(steps, order, inDegree, []);
      DistinctSize(order);
      CardinalityBelow(Names(steps), Elements(order));
      NamesCount(steps);
      assert false;
    }
    n :| n in Names(steps) && n !in Elements(order);
  }

  lemma {:induction false} NamesCount(steps: seq<StepSpec>)
    requires DistinctNames(steps)
    ensures |Names(steps)| == |steps|
    decreases |steps|
  {
    if steps != [] {
      var last := |steps| - 1;
      NamesCount(steps[..last]);
      CountsMore(steps, last);
      assert steps[..last + 1] == steps;
    }
  }

  /** Every left-out step has a dependency that is left out too, and an order would have to put that one first. */
  lemma {:induction false} NoFirstLeftOut(steps: seq<StepSpec>, inDegree: map<string, int>, order: seq<string>, o: seq<string>, n: string)
    requires DistinctNames(steps) && Sorting(steps, inDegree, [], order)
    requires Elements(o) == Names(steps) && ValidOrder(o, steps) && n in Names(steps) && n !in order
    ensures false
    decreases IndexOf(o, n)
  {
    assert order + [] == order;
    WaitingZero(DepsOf(steps, n), Elements(order));
    var d :| d in DepsOf(steps, n) && d !in order;
    var k :| 0 <= k < |steps| && steps[k].name == n;
    DepsOfAt(steps, k);
    assert IndexOf(o, d) < IndexOf(o, n);
    IndexInside(o, n);
    assert d in o by { IndexInside(o, d); }
    NoFirstLeftOut(steps, inDegree, order, o, d);
  }

  lemma {:induction false} IndexInside(o: seq<string>, n: string)
    ensures IndexOf(o, n) <= |o| && (IndexOf(o, n) < |o| <==> n in o)
    ensures IndexOf(o, n) < |o| ==> o[IndexOf(o, n)] == n
    ensures forall k :: 0 <= k < IndexOf(o, n) ==> o[k] != n
    decreases |o|
  {
    if o != [] && o[0] != n { IndexInside(o[1..], n); }
  }

  lemma SortedIsValid(steps: seq<StepSpec>, inDegree: map<string, int>, order: seq<string>)
    requires DistinctNames(steps) && Sorting(steps, inDegree, [], order) && |order| == |steps|
    ensures Elements(order) == Names(steps) && ValidOrder(order, steps)
  {
    assert order + [] == order;
    DistinctSize(order);
    NamesCount(steps);
    SameSize(Elements(order), Names(steps));
    forall k, d | 0 <= k < |steps| && d in steps[k].dependsOn
      ensures IndexOf(order, d) < IndexOf(order, steps[k].name)
    {
      DepsOfAt(steps, k);
      assert steps[k].name in Elements(order);
      IndexInside(order, steps[k].name);
      IndexInside(order, d);
      var m := IndexOf(order, steps[k].name);
      assert d in order[..m];
      var j :| 0 <= j < m && order[j] == d;
    }
  }

  lemma SameSize(a: set<string>, b: set<string>)
    requires a <= b && |a| == |b|
    ensures a == b
  {
    if x :| x in b && x !in a {
      CardinalityBelow(a, b - {x});
      assert false;
    }
  }
}
