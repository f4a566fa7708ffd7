/**
 The rewriter that drops `worker` and `label` from every `driver.placement` of a parsed
 manifest.  `Node` is the mutable tree the YAML parser hands out; `Tree` is its value.
 */
module Stripper {
  datatype Kind = Document | Sequence | Mapping | Scalar | Alias

  datatype Tree = Tree(kind: Kind, value: string, content: seq<Tree>)

  /*** The reference: one walk that knows what it is inside of ***/

  /** Where a mapping stands: under a `driver` key, under the placement of one, or anywhere else. */
  datatype Place = Elsewhere | InDriver | InPlacement

  predicate Dropped(key: string) {
    key == "worker" || key == "label"
  }

  /** What the value of `key` stands for, inside a mapping that stands at `place`. */
  function PlaceOf(place: Place, key: string, value: Tree): Place {
    if !value.kind.Mapping? then Elsewhere
    else if key == "driver" then InDriver
    else if place.InDriver? && key == "placement" then InPlacement
    else Elsewhere
  }

  /** Only the first mapping-valued placement of a driver counts. */
  function Following(place: Place, inner: Place): Place {
    if inner.InPlacement? then Elsewhere else place
  }

  function Prune(t: Tree, place: Place): Tree
    decreases t, 0
  {
    match t.kind
    case Document => t.(content := PruneAll(t.content))
    case Sequence => t.(content := PruneAll(t.content))
    case Mapping => t.(content := PrunePairs(t.content, place))
    case _ => t
  }

  function PruneAll(content: seq<Tree>): seq<Tree>
    decreases content
  {
    if content == [] then [] else [Prune(content[0], Elsewhere)] + PruneAll(content[1..])
  }

  function PrunePairs(content: seq<Tree>, place: Place): seq<Tree>
    decreases content
  {
    if |content| < 2 then (if place.InPlacement? then [] else content)
    else if place.InPlacement? && Dropped(content[0].value) then PrunePairs(content[2..], place)
    else
      var inner := PlaceOf(place, content[0].value, content[1]);
      [content[0], Prune(content[1], inner)] + PrunePairs(content[2..], Following(place, inner))
  }

  /** A pair is dropped somewhere below. */
  predicate Touched(t: Tree, place: Place)
    decreases t, 0
  {
    match t.kind
    case Document => TouchedAll(t.content)
    case Sequence => TouchedAll(t.content)
    case Mapping => TouchedPairs(t.content, place)
    case _ => false
  }

  predicate TouchedAll(content: seq<Tree>)
    decreases content
  {
    content != [] && (Touched(content[0], Elsewhere) || TouchedAll(content[1..]))
  }

  predicate TouchedPairs(content: seq<Tree>, place: Place)
    decreases content
  {
    |content| >= 2 &&
    ((place.InPlacement? && Dropped(content[0].value))
     || var inner := PlaceOf(place, content[0].value, content[1]);
        Touched(content[1], inner) || TouchedPairs(content[2..], Following(place, inner)))
  }

  /*** What the code does, step by step ***/

  function Kept(content: seq<Tree>): seq<Tree> {
    if |content| < 2 then []
    else (if Dropped(content[0].value) then [] else content[..2]) + Kept(content[2..])
  }

  predicate AnyDropped(content: seq<Tree>) {
    |content| >= 2 && (Dropped(content[0].value) || AnyDropped(content[2..]))
  }

  predicate IsPlacement(key: Tree, value: Tree) {
    key.value == "placement" && value.kind.Mapping?
  }

  /** A driver mapping whose first placement has been cleaned. */
  function Placed(content: seq<Tree>): seq<Tree> {
    if |content| < 2 then content
    else if IsPlacement(content[0], content[1]) then
      [content[0], content[1].(content := Kept(content[1].content))] + content[2..]
    else content[..2] + Placed(content[2..])
  }

  predicate PlacementDirty(content: seq<Tree>) {
    |content| >= 2 &&
    if IsPlacement(content[0], content[1]) then AnyDropped(content[1].content) else PlacementDirty(content[2..])
  }

  /** Cleaning a placement first and walking it afterwards is one walk that knows it is in a placement. */
  lemma {:induction false} KeptThenPruned(content: seq<Tree>)
    ensures PrunePairs(Kept(content), Elsewhere) == PrunePairs(content, InPlacement)
    ensures AnyDropped(content) || TouchedPairs(Kept(content), Elsewhere) <==> TouchedPairs(content, InPlacement)
    decreases |content|
  {
    if |content| >= 2 {
      KeptThenPruned(content[2..]);
      if !Dropped(content[0].value) {
        var k := Kept(content);
        assert k[0] == content[0] && k[1] == content[1] && k[2..] == Kept(content[2..]);
        var inner := PlaceOf(Elsewhere, content[0].value, content[1]);
        assert PlaceOf(InPlacement, content[0].value, content[1]) == inner;
        assert PrunePairs(content, InPlacement) == [content[0], Prune(content[1], inner)] + PrunePairs(content[2..], InPlacement);
        assert PrunePairs(k, Elsewhere) == [k[0], Prune(k[1], inner)] + PrunePairs(k[2..], Elsewhere);
      } else {
        assert Kept(content) == Kept(content[2..]);
      }
    }
  }

  lemma {:induction false} PlacedThenPruned(content: seq<Tree>)
    ensures |Placed(content)| == |content|
    ensures PrunePairs(Placed(content), Elsewhere) == PrunePairs(content, InDriver)
    ensures PlacementDirty(content) || TouchedPairs(Placed(content), Elsewhere) <==> TouchedPairs(content, InDriver)
    decreases |content|
  {
    if |content| >= 2 {
      var p := Placed(content);
      if IsPlacement(content[0], content[1]) {
        assert p[0] == content[0] && p[1] == content[1].(content := Kept(content[1].content)) && p[2..] == content[2..];
        KeptThenPruned(content[1].content);
      } else {
        PlacedThenPruned(content[2..]);
        assert p[0] == content[0] && p[1] == content[1] && p[2..] == Placed(content[2..]);
      }
    }
  }

  /*** The tree in memory ***/

  class Node {
    const kind: Kind
    const value: string
    var content: seq<Node>
    ghost var Repr: set<Node>
    /** The value of the tree that starts here. */
    ghost var Model: Tree

    ghost predicate Rooted()
      reads this
    {
      this in Repr && Model.kind == kind && Model.value == value
    }

    /** No node is shared: the children's parts are disjoint, as in any document without aliases. */
    ghost predicate Owned()
      reads this, Repr
      decreases Repr, 0
    {
      && Rooted()
      && (forall i :: 0 <= i < |content| ==>
            content[i] in Repr && content[i].Repr < Repr && this !in content[i].Repr && content[i].Rooted() && content[i].Valid())
      && (forall i, j :: 0 <= i < j < |content| ==> content[i].Repr !! content[j].Repr)
    }

    ghost predicate Valid()
      reads this, Repr
      decreases Repr, 1
    {
      Owned() && Matches(content, Model.content)
    }

    constructor (kind: Kind, value: string, content: seq<Node>, ghost models: seq<Tree>)
      requires forall i :: 0 <= i < |content| ==> content[i].Valid() && content[i].Rooted()
      requires forall i, j :: 0 <= i < j < |content| ==> content[i].Repr !! content[j].Repr
      requires Matches(content, models)
      ensures Valid() && Model == Tree(kind, value, models)
      ensures Repr == {this} + set i, o | 0 <= i < |content| && o in content[i].Repr :: o
    {
      this.kind, this.value, this.content, this.Model := kind, value, content, Tree(kind, value, models);
      new;
      Repr := {this} + (set i, o | 0 <= i < |content| && o in content[i].Repr :: o);
    }

    /** `removeKeys`: the kept pairs replace the content. */
    method RemoveKeys() returns (changed: bool)
      requires Valid()
      modifies this
      ensures Valid() && Repr == old(Repr)
      ensures Model == old(Model).(content := Kept(old(Model.content)))
      ensures changed <==> AnyDropped(old(Model.content))
    {
      hide Owned, Kept, AnyDropped;
      ghost var m := Model.content;
      changed := false;
      var kept: seq<Node> := [];
      ghost var from: seq<nat> := [];
      var i := 0;
      assert m[0..] == m && Picked(m, []) == [];
      while i + 1 < |content|
        invariant 0 <= i <= |content| && unchanged(this)
        invariant Picks(from, i) && kept == Picked(content, from)
        invariant Picked(m, from) + Kept(m[i..]) == Kept(m)
        invariant changed || AnyDropped(m[i..]) <==> AnyDropped(m)
        decreases |content| - i
      {
        var k, v := content[i], content[i + 1];
        KeptStep(m, i);
        ChildIs(i);
        if k.value == "worker" || k.value == "label" {
          changed := true;
        } else {
          PickedMore(m, from, i);
          PickedMore(content, from, i);
          kept := kept + [k, v];
          from := from + [i, i + 1];
        }
        i := i + 2;
      }
      KeptEnds(m, i);
      Replace(kept, from);
    }

    lemma ChildIs(i: nat)
      requires Valid() && i < |content|
      ensures content[i].Model == Model.content[i] && content[i].Valid()
      ensures content[i].value == Model.content[i].value && content[i].kind == Model.content[i].kind
    {
      assert content[i].Rooted();
    }

    /** The content becomes a part of itself, in its order. */
    method Replace(kept: seq<Node>, ghost from: seq<nat>)
      requires Valid() && Picks(from, |content|) && kept == Picked(content, from)
      modifies this
      ensures Valid() && Repr == old(Repr)
      ensures Model == old(Model).(content := Picked(old(Model.content), from))
    {
      ghost var before, models := content, Picked(Model.content, from);
      assert forall k :: 0 <= k < |from| ==> kept[k] == before[from[k]] && kept[k].Model == models[k];
      content := kept;
      Model := Model.(content := models);
    }

    /** Child `i` is rewritten in place; nothing else of the tree moves. */
    method CleanChild(i: nat) returns (changed: bool)
      requires Owned() && i < |content|
      modifies content[i].Repr
      ensures Owned() && content == old(content) && Repr == old(Repr) && Model == old(Model)
      ensures content[i].Model == old(content[i].Model).(content := Kept(old(content[i].Model.content))) && content[i].Repr == old(content[i].Repr)
      ensures changed <==> AnyDropped(old(content[i].Model.content))
      ensures forall j :: 0 <= j < |content| && j != i ==> content[j].Model == old(content[j].Model)
    {
      hide Kept, AnyDropped;
      Apart(i);
      changed := content[i].RemoveKeys();
    }

    lemma Apart(i: nat)
      requires Owned() && i < |content|
      ensures this !in content[i].Repr
      ensures content[i] in content[i].Repr
      ensures forall j :: 0 <= j < |content| && j != i ==> content[j].Repr !! content[i].Repr && content[j] in content[j].Repr
    {
      assert content[i].Rooted();
      assert forall j :: 0 <= j < |content| && j != i ==> content[j].Rooted();
    }

    /** Where the first mapping-valued placement stands; the length when there is none. */
    method PlacementAt() returns (at: nat)
      requires Valid()
      ensures at <= |content| == |Model.content|
      ensures at == |content| ==> Placed(Model.content) == Model.content && !PlacementDirty(Model.content)
      ensures at < |content| ==>
        && Placed(Model.content) == Model.content[at := Model.content[at].(content := Kept(Model.content[at].content))]
        && (PlacementDirty(Model.content) <==> AnyDropped(Model.content[at].content))
    {
      hide Owned, Placed, PlacementDirty, Kept, AnyDropped;
      ghost var m := Model.content;
      var i := 0;
      assert m[0..] == m && m[..0] == [] && [] + Placed(m) == Placed(m);
      while i + 1 < |content|
        invariant 0 <= i <= |content|
        invariant Placed(m) == m[..i] + Placed(m[i..])
        invariant PlacementDirty(m) <==> PlacementDirty(m[i..])
        decreases |content| - i
      {
        var key, val := content[i], content[i + 1];
        ChildIs(i);
        ChildIs(i + 1);
        PlacedStep(m, i);
        if key.value == "placement" && val.kind == Mapping {
          return i + 1;
        }
        i := i + 2;
      }
      PlacedEnds(m, i);
      return |content|;
    }

    /** `stripPlacement`: only the first mapping-valued placement is cleaned. */
    method StripPlacement() returns (changed: bool)
      requires Valid()
      modifies Repr
      ensures Valid() && Repr == old(Repr)
      ensures Model == old(Model).(content := Placed(old(Model.content)))
      ensures changed <==> PlacementDirty(old(Model.content))
    {
      hide Owned, Placed, PlacementDirty, Kept, AnyDropped;
      ghost var m := Model.content;
      var i := PlacementAt();
      if i == |content| {
        return false;
      }
      Mine();
      changed := CleanChild(i);
      Mine();
      Rename(Placed(m));
    }

    lemma Mine()
      requires Owned()
      ensures this in Repr && forall j :: 0 <= j < |content| ==> content[j].Repr < Repr && content[j].Valid()
    {
    }

    /** `stripNode`. */
    method StripNode() returns (changed: bool)
      requires Valid()
      modifies Repr
      ensures Valid() && Repr == old(Repr)
      ensures Model == Prune(old(Model), Elsewhere)
      ensures changed <==> Touched(old(Model), Elsewhere)
      decreases Repr, 4
    {
      match kind {
        case Document => changed := StripAll();
        case Sequence => changed := StripAll();
        case Mapping => changed := StripPairs();
        case _ => changed := false;
      }
    }

    method StripChild(i: nat) returns (changed: bool)
      requires Owned() && i < |content|
      modifies content[i].Repr
      ensures Owned() && content == old(content) && Repr == old(Repr) && Model == old(Model)
      ensures content[i].Model == Prune(old(content[i].Model), Elsewhere) && content[i].Repr == old(content[i].Repr)
      ensures changed <==> Touched(old(content[i].Model), Elsewhere)
      ensures forall j :: 0 <= j < |content| && j != i ==> content[j].Model == old(content[j].Model)
      decreases Repr, 0
    {
      hide Prune, Touched;
      Apart(i);
      changed := content[i].StripNode();
    }

    method StripChildPlacement(i: nat) returns (changed: bool)
      requires Owned() && i < |content|
      modifies content[i].Repr
      ensures Owned() && content == old(content) && Repr == old(Repr) && Model == old(Model)
      ensures content[i].Model == old(content[i].Model).(content := Placed(old(content[i].Model.content))) && content[i].Repr == old(content[i].Repr)
      ensures changed <==> PlacementDirty(old(content[i].Model.content))
      ensures forall j :: 0 <= j < |content| && j != i ==> content[j].Model == old(content[j].Model)
    {
      hide Placed, PlacementDirty;
      Apart(i);
      changed := content[i].StripPlacement();
    }

    /** A value in a mapping: a driver's placement first, then the walk below it. */
    method StripValue(i: nat) returns (changed: bool)
      requires Owned() && i + 1 < |content|
      modifies content[i + 1].Repr
      ensures Owned() && content == old(content) && Repr == old(Repr) && Model == old(Model)
      ensures var place := PlaceOf(Elsewhere, content[i].value, old(content[i + 1].Model));
        && content[i + 1].Model == Prune(old(content[i + 1].Model), place)
        && (changed <==> Touched(old(content[i + 1].Model), place))
      ensures forall j :: 0 <= j < |content| && j != i + 1 ==> content[j].Model == old(content[j].Model)
      decreases Repr, 1
    {
      hide Owned;
      ghost var v := content[i + 1].Model;
      ChildKind(i + 1);
      Apart(i + 1);
      Mine();
      changed := false;
      if content[i].value == "driver" && content[i + 1].kind == Mapping {
        var hit := StripChildPlacement(i + 1);
        if hit {
          changed := true;
        }
        PlacedThenPruned(v.content);
      }
      var hit := StripChild(i + 1);
      if hit {
        changed := true;
      }
    }

    lemma ChildKind(i: nat)
      requires Owned() && i < |content|
      ensures content[i].kind == content[i].Model.kind && content[i].value == content[i].Model.value
    {
      assert content[i].Rooted();
    }

    /** One turn of the loop over a document's or sequence's children. */
    method StripElement(i: nat, ghost models: seq<Tree>) returns (changed: bool)
      requires Owned() && i < |content| && Matches(content, models)
      modifies content[i].Repr
      ensures Owned() && content == old(content) && Repr == old(Repr) && Model == old(Model)
      ensures Matches(content, models[i := Prune(models[i], Elsewhere)])
      ensures changed <==> Touched(models[i], Elsewhere)
      decreases Repr, 1
    {
      hide Owned, Prune, Touched;
      Apart(i);
      Mine();
      changed := StripChild(i);
    }

    /** One turn of the loop over a mapping's pairs. */
    method StripPair(i: nat, ghost models: seq<Tree>) returns (changed: bool)
      requires Owned() && i + 1 < |content| && Matches(content, models)
      modifies content[i + 1].Repr
      ensures Owned() && content == old(content) && Repr == old(Repr) && Model == old(Model)
      ensures var place := PlaceOf(Elsewhere, models[i].value, models[i + 1]);
        && Matches(content, models[i + 1 := Prune(models[i + 1], place)])
        && (changed <==> Touched(models[i + 1], place))
      decreases Repr, 2
    {
      hide Owned, Prune, Touched, PlaceOf;
      Apart(i + 1);
      Mine();
      ChildKind(i);
      changed := StripValue(i);
    }

    method StripAll() returns (changed: bool)
      requires Valid()
      modifies Repr
      ensures Valid() && Repr == old(Repr)
      ensures Model == old(Model).(content := PruneAll(old(Model.content)))
      ensures changed <==> TouchedAll(old(Model.content))
      decreases Repr, 3
    {
      hide Owned, Prune, Touched, PruneAll, TouchedAll, Matches;
      ghost var m := Model.content;
      ghost var models := m;
      changed := false;
      MatchesLength(content, models);
      AllStart(m);
      for i := 0 to |content|
        invariant content == old(content) && Repr == old(Repr) && Model == old(Model) && Owned()
        invariant |models| == |content| && Matches(content, models)
        invariant models[..i] + PruneAll(models[i..]) == PruneAll(m)
        invariant changed || TouchedAll(models[i..]) <==> TouchedAll(m)
      {
        Mine();
        AllStep(models, i);
        var hit := StripElement(i, models);
        if hit {
          changed := true;
        }
        models := models[i := Prune(models[i], Elsewhere)];
      }
      AllEnds(models);
      Mine();
      Rename(models);
    }

    /** The ghost value catches up with the children. */
    ghost method Rename(models: seq<Tree>)
      requires Owned() && Matches(content, models)
      modifies `Model
      ensures Valid() && content == old(content) && Repr == old(Repr) && Model == old(Model).(content := models)
    {
      Model := Model.(content := models);
    }

    method StripPairs() returns (changed: bool)
      requires Valid()
      modifies Repr
      ensures Valid() && Repr == old(Repr)
      ensures Model == old(Model).(content := PrunePairs(old(Model.content), Elsewhere))
      ensures changed <==> TouchedPairs(old(Model.content), Elsewhere)
      decreases Repr, 3
    {
      hide Owned, Prune, Touched, PrunePairs, TouchedPairs, PlaceOf, Matches;
      ghost var m := Model.content;
      ghost var models := m;
      changed := false;
      MatchesLength(content, models);
      PairsStart(m);
      var i := 0;
      while i + 1 < |content|
        invariant content == old(content) && Repr == old(Repr) && Model == old(Model) && Owned()
        invariant i <= |models| == |content| && Matches(content, models)
        invariant models[..i] + PrunePairs(models[i..], Elsewhere) == PrunePairs(m, Elsewhere)
        invariant changed || TouchedPairs(models[i..], Elsewhere) <==> TouchedPairs(m, Elsewhere)
        decreases |content| - i
      {
        Mine();
        PairsStep(models, i);
        var hit := StripPair(i, models);
        if hit {
          changed := true;
        }
        models := models[i + 1 := Prune(models[i + 1], PlaceOf(Elsewhere, models[i].value, models[i + 1]))];
        i := i + 2;
      }
      PairsEnds(models, i);
      Mine();
      Rename(models);
    }
  }

  ghost predicate Matches(nodes: seq<Node>, models: seq<Tree>)
    reads nodes
  {
    |nodes| == |models| && forall i :: 0 <= i < |nodes| ==> nodes[i].Model == models[i]
  }

  lemma MatchesLength(nodes: seq<Node>, models: seq<Tree>)
    requires Matches(nodes, models)
    ensures |nodes| == |models|
  {
  }

  /*** Steps of the loops ***/

  predicate Picks(from: seq<nat>, n: nat) {
    (forall k :: 0 <= k < |from| ==> from[k] < n) && forall k, l :: 0 <= k < l < |from| ==> from[k] < from[l]
  }

  function Picked<T>(s: seq<T>, from: seq<nat>): seq<T>
    requires forall k :: 0 <= k < |from| ==> from[k] < |s|
  {
    seq(|from|, k requires 0 <= k < |from| => s[from[k]])
  }

  lemma PickedMore<T>(s: seq<T>, from: seq<nat>, i: nat)
    requires Picks(from, i) && i + 1 < |s|
    ensures Picks(from + [i, i + 1], i + 2) && Picked(s, from + [i, i + 1]) == Picked(s, from) + [s[i], s[i + 1]]
  {
  }

  lemma KeptStep(m: seq<Tree>, i: nat)
    requires i + 1 < |m|
    ensures Kept(m[i..]) == (if Dropped(m[i].value) then [] else [m[i], m[i + 1]]) + Kept(m[i + 2..])
    ensures AnyDropped(m[i..]) <==> Dropped(m[i].value) || AnyDropped(m[i + 2..])
  {
    assert m[i..][2..] == m[i + 2..] && m[i..][..2] == [m[i], m[i + 1]];
  }

  lemma KeptEnds(m: seq<Tree>, i: nat)
    requires i <= |m| <= i + 1
    ensures Kept(m[i..]) == [] && !AnyDropped(m[i..])
  {
  }

  lemma PlacedStep(m: seq<Tree>, i: nat)
    requires i + 1 < |m|
    ensures !IsPlacement(m[i], m[i + 1]) ==>
      && m[..i] + Placed(m[i..]) == m[..i + 2] + Placed(m[i + 2..])
      && (PlacementDirty(m[i..]) <==> PlacementDirty(m[i + 2..]))
    ensures IsPlacement(m[i], m[i + 1]) ==>
      && m[..i] + Placed(m[i..]) == m[i + 1 := m[i + 1].(content := Kept(m[i + 1].content))]
      && (PlacementDirty(m[i..]) <==> AnyDropped(m[i + 1].content))
  {
    assert m[i..][2..] == m[i + 2..] && m[i..][..2] == [m[i], m[i + 1]];
    assert m[..i] + ([m[i], m[i + 1]] + Placed(m[i + 2..])) == m[..i + 2] + Placed(m[i + 2..]);
  }

  lemma PlacedEnds(m: seq<Tree>, i: nat)
    requires i <= |m| <= i + 1
    ensures m[..i] + Placed(m[i..]) == m && !PlacementDirty(m[i..])
  {
    assert m[..i] + m[i..] == m;
  }

  lemma AllStart(m: seq<Tree>)
    ensures m[..0] + PruneAll(m[0..]) == PruneAll(m) && m[0..] == m
  {
    hide PruneAll;
    assert m[0..] == m && [] + PruneAll(m) == PruneAll(m);
  }

  lemma AllStep(m: seq<Tree>, i: nat)
    requires i < |m|
    ensures var t := m[i := Prune(m[i], Elsewhere)];
      && m[..i] + PruneAll(m[i..]) == t[..i + 1] + PruneAll(t[i + 1..])
      && (TouchedAll(m[i..]) <==> Touched(m[i], Elsewhere) || TouchedAll(t[i + 1..]))
  {
    hide Prune, Touched;
    var t := m[i := Prune(m[i], Elsewhere)];
    assert m[i..][1..] == t[i + 1..];
    assert PruneAll(m[i..]) == [t[i]] + PruneAll(t[i + 1..]);
    assert m[..i] + ([t[i]] + PruneAll(t[i + 1..])) == t[..i + 1] + PruneAll(t[i + 1..]);
  }

  lemma AllEnds(m: seq<Tree>)
    ensures m[..|m|] + PruneAll(m[|m|..]) == m && !TouchedAll(m[|m|..])
  {
  }

  lemma PairsStart(m: seq<Tree>)
    ensures m[..0] + PrunePairs(m[0..], Elsewhere) == PrunePairs(m, Elsewhere) && m[0..] == m
  {
    hide PrunePairs;
    assert m[0..] == m && [] + PrunePairs(m, Elsewhere) == PrunePairs(m, Elsewhere);
  }

  lemma PairsStep(m: seq<Tree>, i: nat)
    requires i + 1 < |m|
    ensures var place := PlaceOf(Elsewhere, m[i].value, m[i + 1]);
      var t := m[i + 1 := Prune(m[i + 1], place)];
      && m[..i] + PrunePairs(m[i..], Elsewhere) == t[..i + 2] + PrunePairs(t[i + 2..], Elsewhere)
      && (TouchedPairs(m[i..], Elsewhere) <==> Touched(m[i + 1], place) || TouchedPairs(t[i + 2..], Elsewhere))
  {
    hide Prune, Touched;
    var t := m[i + 1 := Prune(m[i + 1], PlaceOf(Elsewhere, m[i].value, m[i + 1]))];
    assert m[i..][2..] == t[i + 2..];
    assert PrunePairs(m[i..], Elsewhere) == [t[i], t[i + 1]] + PrunePairs(t[i + 2..], Elsewhere);
    assert m[..i] + ([t[i], t[i + 1]] + PrunePairs(t[i + 2..], Elsewhere)) == t[..i + 2] + PrunePairs(t[i + 2..], Elsewhere);
  }

  lemma PairsEnds(m: seq<Tree>, i: nat)
    requires i <= |m| <= i + 1
    ensures m[..i] + PrunePairs(m[i..], Elsewhere) == m && !TouchedPairs(m[i..], Elsewhere)
  {
    assert m[..i] + m[i..] == m;
  }

  /*** What the walk means ***/

  /** Mappings hold whole pairs, as every parser builds them. */
  predicate Paired(t: Tree) {
    (t.kind.Mapping? ==> |t.content| % 2 == 0) && forall i :: 0 <= i < |t.content| ==> Paired(t.content[i])
  }

  /** How many nodes the walk can see; what is inside a key counts as the key. */
  function Size(t: Tree): nat
    decreases t, 0
  {
    1 + if t.kind.Mapping? then SizePairs(t.content) else SizeAll(t.content)
  }

  function SizeAll(content: seq<Tree>): nat
    decreases content
  {
    if content == [] then 0 else Size(content[0]) + SizeAll(content[1..])
  }

  function SizePairs(content: seq<Tree>): nat
    decreases content
  {
    if |content| < 2 then 0 else 1 + Size(content[1]) + SizePairs(content[2..])
  }

  /** The report is exact: either something is gone, or the tree is what it was. */
  lemma {:induction false} PruneShrinks(t: Tree, place: Place)
    requires Paired(t)
    ensures if Touched(t, place) then Size(Prune(t, place)) < Size(t) else Prune(t, place) == t
    decreases t, 0
  {
    match t.kind
    case Document => PruneAllShrinks(t.content);
    case Sequence => PruneAllShrinks(t.content);
    case Mapping => PrunePairsShrinks(t.content, place);
    case _ =>
  }

  lemma {:induction false} PruneAllShrinks(content: seq<Tree>)
    requires forall i :: 0 <= i < |content| ==> Paired(content[i])
    ensures if TouchedAll(content) then SizeAll(PruneAll(content)) < SizeAll(content) else PruneAll(content) == content
    decreases content
  {
    hide Prune, Touched, Size;
    if content != [] {
      PruneShrinks(content[0], Elsewhere);
      PruneAllShrinks(content[1..]);
      assert content == [content[0]] + content[1..];
      assert PruneAll(content)[1..] == PruneAll(content[1..]);
    }
  }

  lemma TwoMore(a: Tree, b: Tree, rest: seq<Tree>)
    ensures SizePairs([a, b] + rest) == 1 + Size(b) + SizePairs(rest)
  {
    assert ([a, b] + rest)[2..] == rest;
  }

  lemma {:induction false} PrunePairsShrinks(content: seq<Tree>, place: Place)
    requires |content| % 2 == 0 && forall i :: 0 <= i < |content| ==> Paired(content[i])
    ensures if TouchedPairs(content, place) then SizePairs(PrunePairs(content, place)) < SizePairs(content)
            else PrunePairs(content, place) == content
    decreases content
  {
    hide Prune, Touched, Size, SizePairs, PlaceOf;
    if |content| >= 2 {
      assert content == [content[0], content[1]] + content[2..];
      TwoMore(content[0], content[1], content[2..]);
      var inner := PlaceOf(place, content[0].value, content[1]);
      if place.InPlacement? && Dropped(content[0].value) {
        PrunePairsShrinks(content[2..], place);
      } else {
        PruneShrinks(content[1], inner);
        PrunePairsShrinks(content[2..], Following(place, inner));
        TwoMore(content[0], Prune(content[1], inner), PrunePairs(content[2..], Following(place, inner)));
      }
    }
  }

  /** A second walk finds nothing. */
  lemma {:induction false} PruneSettles(t: Tree, place: Place)
    requires Paired(t)
    ensures !Touched(Prune(t, place), place) && Paired(Prune(t, place))
    ensures Prune(t, place).kind == t.kind && Prune(t, place).value == t.value
    decreases t, 0
  {
    match t.kind
    case Document => PruneAllSettles(t.content);
    case Sequence => PruneAllSettles(t.content);
    case Mapping => PrunePairsSettles(t.content, place);
    case _ =>
  }

  predicate PairedAll(content: seq<Tree>) {
    forall i :: 0 <= i < |content| ==> Paired(content[i])
  }

  lemma {:induction false} PruneAllSettles(content: seq<Tree>)
    requires PairedAll(content)
    ensures !TouchedAll(PruneAll(content)) && PairedAll(PruneAll(content))
    decreases content
  {
    hide Prune, Touched, Paired;
    if content != [] {
      PruneSettles(content[0], Elsewhere);
      PruneAllSettles(content[1..]);
      assert PruneAll(content)[1..] == PruneAll(content[1..]);
    }
  }

  lemma {:induction false} PrunePairsSettles(content: seq<Tree>, place: Place)
    requires |content| % 2 == 0 && PairedAll(content)
    ensures var p := PrunePairs(content, place);
      !TouchedPairs(p, place) && |p| % 2 == 0 && PairedAll(p)
    decreases content
  {
    hide Prune, Touched, Paired;
    if |content| >= 2 {
      if place.InPlacement? && Dropped(content[0].value) {
        PrunePairsSettles(content[2..], place);
      } else {
        var inner := PlaceOf(place, content[0].value, content[1]);
        PruneSettles(content[1], inner);
        PrunePairsSettles(content[2..], Following(place, inner));
        var p := PrunePairs(content, place);
        assert p[0] == content[0] && p[1] == Prune(content[1], inner) && p[2..] == PrunePairs(content[2..], Following(place, inner));
        assert PlaceOf(place, p[0].value, p[1]) == inner;
      }
    }
  }

  lemma Idempotent(t: Tree)
    requires Paired(t)
    ensures !Touched(Prune(t, Elsewhere), Elsewhere)
    ensures Prune(Prune(t, Elsewhere), Elsewhere) == Prune(t, Elsewhere)
  {
    PruneSettles(t, Elsewhere);
    PruneShrinks(Prune(t, Elsewhere), Elsewhere);
  }

  /*** Node by node ***/

  datatype Segment = Key(name: string) | At(index: nat)

  /** One node of the document under the path that leads to it; a key stands at the path of its value. */
  datatype Item = Item(path: seq<Segment>, isKey: bool, kind: Kind, value: string)

  function Items(t: Tree, path: seq<Segment>): seq<Item>
    decreases t, 0
  {
    [Item(path, false, t.kind, t.value)]
    + if t.kind.Mapping? then PairItems(t.content, path) else ListItems(t.content, path, 0)
  }

  function ListItems(content: seq<Tree>, path: seq<Segment>, from: nat): seq<Item>
    decreases content
  {
    if content == [] then [] else Items(content[0], path + [At(from)]) + ListItems(content[1..], path, from + 1)
  }

  function PairItems(content: seq<Tree>, path: seq<Segment>): seq<Item>
    decreases content
  {
    if |content| < 2 then []
    else
      var here := path + [Key(content[0].value)];
      [Item(here, true, content[0].kind, content[0].value)] + Items(content[1], here) + PairItems(content[2..], path)
  }

  /** The path goes through a worker or label key of a driver's placement. */
  predicate DoomedAt(path: seq<Segment>, i: nat)
    requires i + 2 < |path|
  {
    path[i] == Key("driver") && path[i + 1] == Key("placement") && (path[i + 2] == Key("worker") || path[i + 2] == Key("label"))
  }

  predicate Doomed(path: seq<Segment>) {
    exists i: nat :: i + 2 < |path| && DoomedAt(path, i)
  }

  function Spared(items: seq<Item>): seq<Item> {
    if items == [] then [] else (if Doomed(items[0].path) then [] else [items[0]]) + Spared(items[1..])
  }

  lemma {:induction false} SparedConcat(a: seq<Item>, b: seq<Item>)
    ensures Spared(a + b) == Spared(a) + Spared(b)
    decreases |a|
  {
    hide Doomed;
    if a == [] {
      assert a + b == b;
    } else {
      assert (a + b)[1..] == a[1..] + b;
      SparedConcat(a[1..], b);
    }
  }

  /** Mappings hold pairs, and nothing hangs below a scalar or an alias. */
  predicate Shaped(t: Tree) {
    && (t.kind.Mapping? ==> |t.content| % 2 == 0)
    && (t.kind.Scalar? || t.kind.Alias? ==> t.content == [])
    && forall i :: 0 <= i < |t.content| ==> Shaped(t.content[i])
  }

  /** The walk passes over a worker or label key: it stands in a second mapping-valued placement of one driver. */
  predicate Missed(t: Tree, place: Place)
    decreases t, 0
  {
    match t.kind
    case Document => MissedAll(t.content)
    case Sequence => MissedAll(t.content)
    case Mapping => MissedPairs(t.content, place, false)
    case _ => false
  }

  predicate MissedAll(content: seq<Tree>)
    decreases content
  {
    content != [] && (Missed(content[0], Elsewhere) || MissedAll(content[1..]))
  }

  /** `seen`: the mapping is a driver whose placement has been handled. */
  predicate MissedPairs(content: seq<Tree>, place: Place, seen: bool)
    decreases content
  {
    |content| >= 2 &&
    if place.InPlacement? && Dropped(content[0].value) then MissedPairs(content[2..], place, seen)
    else
      var inner := PlaceOf(place, content[0].value, content[1]);
      || (seen && IsPlacement(content[0], content[1]) && AnyDropped(content[1].content))
      || Missed(content[1], inner)
      || MissedPairs(content[2..], Following(place, inner), seen || inner.InPlacement?)
  }

  predicate EndsIn(path: seq<Segment>, key: string) {
    |path| >= 1 && path[|path| - 1] == Key(key)
  }

  predicate EndsInPlacement(path: seq<Segment>) {
    |path| >= 2 && path[|path| - 2] == Key("driver") && path[|path| - 1] == Key("placement")
  }

  /** `place` and `seen` are what the path says, or the mapping holds nothing to drop. */
  predicate Fits(place: Place, path: seq<Segment>, content: seq<Tree>, seen: bool) {
    && (place.InPlacement? ==> EndsInPlacement(path))
    && (EndsInPlacement(path) && !place.InPlacement? ==> !AnyDropped(content))
    && (place.InDriver? || seen <==> EndsIn(path, "driver"))
    && !(place.InDriver? && seen)
  }

  predicate FitsTree(place: Place, path: seq<Segment>, t: Tree) {
    t.kind.Mapping? ==> Fits(place, path, t.content, false)
  }

  lemma DoomedGrows(path: seq<Segment>, s: Segment)
    ensures Doomed(path + [s]) <==> Doomed(path) || (EndsInPlacement(path) && (s == Key("worker") || s == Key("label")))
  {
    var p := path + [s];
    if i: nat :| i + 2 < |path| && DoomedAt(path, i) {
      assert DoomedAt(p, i);
    }
    if i: nat :| i + 2 < |p| && DoomedAt(p, i) {
      if i + 2 < |path| { assert DoomedAt(path, i); }
    }
    if EndsInPlacement(path) && (s == Key("worker") || s == Key("label")) {
      assert DoomedAt(p, |path| - 2);
    }
  }

  lemma HereEnds(path: seq<Segment>, key: string)
    ensures EndsIn(path + [Key(key)], "driver") <==> key == "driver"
    ensures EndsInPlacement(path + [Key(key)]) <==> EndsIn(path, "driver") && key == "placement"
  {
  }

  /** The place of a value fits the path that leads to it, and the rest of the pairs still fit theirs. */
  lemma InnerFits(place: Place, path: seq<Segment>, content: seq<Tree>, seen: bool)
    requires |content| >= 2 && Fits(place, path, content, seen) && !MissedPairs(content, place, seen)
    requires !(place.InPlacement? && Dropped(content[0].value))
    ensures var inner, here := PlaceOf(place, content[0].value, content[1]), path + [Key(content[0].value)];
      && FitsTree(inner, here, content[1]) && !Missed(content[1], inner)
      && Fits(Following(place, inner), path, content[2..], seen || inner.InPlacement?)
      && !MissedPairs(content[2..], Following(place, inner), seen || inner.InPlacement?)
      && !(EndsInPlacement(path) && Dropped(content[0].value))
  {
    hide EndsIn, EndsInPlacement, Missed;
    HereEnds(path, content[0].value);
    EndsApart(path);
    EndsApart(path + [Key(content[0].value)]);
  }

  lemma EndsApart(path: seq<Segment>)
    ensures !(EndsIn(path, "driver") && EndsInPlacement(path))
  {
  }

  lemma {:induction false} DoomedAll(t: Tree, path: seq<Segment>)
    requires Doomed(path)
    ensures Spared(Items(t, path)) == []
    decreases t, 0
  {
    hide Doomed;
    var head, tail := [Item(path, false, t.kind, t.value)], if t.kind.Mapping? then PairItems(t.content, path) else ListItems(t.content, path, 0);
    assert Items(t, path) == head + tail;
    SparedConcat(head, tail);
    assert head[1..] == [];
    if t.kind.Mapping? { DoomedPairs(t.content, path); } else { DoomedList(t.content, path, 0); }
  }

  lemma {:induction false} DoomedList(content: seq<Tree>, path: seq<Segment>, from: nat)
    requires Doomed(path)
    ensures Spared(ListItems(content, path, from)) == []
    decreases content
  {
    hide Doomed, Items, Spared;
    if content != [] {
      DoomedGrows(path, At(from));
      DoomedAll(content[0], path + [At(from)]);
      DoomedList(content[1..], path, from + 1);
      SparedConcat(Items(content[0], path + [At(from)]), ListItems(content[1..], path, from + 1));
    } else {
      SparedNothing();
    }
  }

  lemma SparedNothing()
    ensures Spared([]) == []
  {
  }

  lemma SparedOne(item: Item)
    ensures Spared([item]) == if Doomed(item.path) then [] else [item]
  {
    hide Doomed;
    assert [item][1..] == [];
  }

  lemma PairItemsStep(content: seq<Tree>, path: seq<Segment>)
    requires |content| >= 2
    ensures var here := path + [Key(content[0].value)];
      var key := Item(here, true, content[0].kind, content[0].value);
      && PairItems(content, path) == [key] + Items(content[1], here) + PairItems(content[2..], path)
      && Spared(PairItems(content, path)) == Spared([key]) + Spared(Items(content[1], here)) + Spared(PairItems(content[2..], path))
  {
    hide Doomed, Items, Spared;
    var here := path + [Key(content[0].value)];
    var key := Item(here, true, content[0].kind, content[0].value);
    SparedConcat([key] + Items(content[1], here), PairItems(content[2..], path));
    SparedConcat([key], Items(content[1], here));
  }

  lemma {:induction false} DoomedPairs(content: seq<Tree>, path: seq<Segment>)
    requires Doomed(path)
    ensures Spared(PairItems(content, path)) == []
    decreases content
  {
    hide Doomed, Items, Spared;
    if |content| >= 2 {
      var here := path + [Key(content[0].value)];
      DoomedGrows(path, Key(content[0].value));
      DoomedAll(content[1], here);
      DoomedPairs(content[2..], path);
      PairItemsStep(content, path);
      SparedOne(Item(here, true, content[0].kind, content[0].value));
    } else {
      SparedNothing();
    }
  }

  /**
   The rewritten tree, node by node and in order, is the old one without exactly the nodes whose
   path goes through a worker or label key of a driver's placement, at any depth.
   */
  lemma {:induction false} PruneSpares(t: Tree, place: Place, path: seq<Segment>)
    requires Shaped(t) && FitsTree(place, path, t) && !Doomed(path) && !Missed(t, place)
    ensures Items(Prune(t, place), path) == Spared(Items(t, path))
    decreases t, 0
  {
    hide Doomed;
    var p := Prune(t, place);
    var head := Item(path, false, t.kind, t.value);
    var tail := if t.kind.Mapping? then PairItems(t.content, path) else ListItems(t.content, path, 0);
    assert Items(t, path) == [head] + tail;
    SparedConcat([head], tail);
    SparedOne(head);
    match t.kind
    case Document => PruneListSpares(t.content, path, 0);
    case Sequence => PruneListSpares(t.content, path, 0);
    case Mapping => PrunePairsSpares(t.content, place, path, false);
    case _ => LeafSpared(t, path);
  }

  lemma {:induction false} PruneListSpares(content: seq<Tree>, path: seq<Segment>, from: nat)
    requires (forall i :: 0 <= i < |content| ==> Shaped(content[i])) && !Doomed(path) && !MissedAll(content)
    ensures ListItems(PruneAll(content), path, from) == Spared(ListItems(content, path, from))
    decreases content
  {
    hide Doomed, Items, Spared, Prune;
    if content == [] {
      SparedNothing();
    } else {
      DoomedGrows(path, At(from));
      PruneSpares(content[0], Elsewhere, path + [At(from)]);
      PruneListSpares(content[1..], path, from + 1);
      SparedConcat(Items(content[0], path + [At(from)]), ListItems(content[1..], path, from + 1));
      var p := PruneAll(content);
      assert p[0] == Prune(content[0], Elsewhere) && p[1..] == PruneAll(content[1..]);
    }
  }

  lemma {:induction false} PrunePairsSpares(content: seq<Tree>, place: Place, path: seq<Segment>, seen: bool)
    requires |content| % 2 == 0 && Fits(place, path, content, seen) && !Doomed(path) && !MissedPairs(content, place, seen)
    requires forall i :: 0 <= i < |content| ==> Shaped(content[i])
    ensures PairItems(PrunePairs(content, place), path) == Spared(PairItems(content, path))
    decreases content
  {
    hide Doomed, Items, Spared, Prune, EndsIn, EndsInPlacement, Shaped, Missed;
    if |content| < 2 {
      SparedNothing();
    } else {
      var here := path + [Key(content[0].value)];
      var key := Item(here, true, content[0].kind, content[0].value);
      var inner := PlaceOf(place, content[0].value, content[1]);
      DoomedGrows(path, Key(content[0].value));
      PairItemsStep(content, path);
      SparedOne(key);
      if place.InPlacement? && Dropped(content[0].value) {
        PrunePairsSpares(content[2..], place, path, seen);
        DoomedAll(content[1], here);
      } else {
        InnerFits(place, path, content, seen);
        PrunePairsSpares(content[2..], Following(place, inner), path, seen || inner.InPlacement?);
        PruneSpares(content[1], inner, here);
        var p := PrunePairs(content, place);
        assert p[0] == content[0] && p[1] == Prune(content[1], inner) && p[2..] == PrunePairs(content[2..], Following(place, inner));
        PairItemsStep(p, path);
      }
    }
  }

  /*** What is passed over stays ***/

  /** A worker or label key in a placement the walk does not take for one. */
  lemma {:induction false} DroppedKeyStays(content: seq<Tree>, path: seq<Segment>) returns (item: Item)
    requires AnyDropped(content) && EndsInPlacement(path)
    ensures item in PairItems(PrunePairs(content, Elsewhere), path) && Doomed(item.path)
    decreases content
  {
    hide Doomed, Items, Spared, Prune, EndsInPlacement;
    var inner := PlaceOf(Elsewhere, content[0].value, content[1]);
    var p := PrunePairs(content, Elsewhere);
    assert p[0] == content[0] && p[1] == Prune(content[1], inner) && p[2..] == PrunePairs(content[2..], Following(Elsewhere, inner));
    PairItemsStep(p, path);
    if Dropped(content[0].value) {
      DoomedGrows(path, Key(content[0].value));
      item := Item(path + [Key(content[0].value)], true, content[0].kind, content[0].value);
    } else {
      item := DroppedKeyStays(content[2..], path);
    }
  }

  lemma {:induction false} MissedStays(t: Tree, place: Place, path: seq<Segment>) returns (item: Item)
    requires Missed(t, place) && (place.InDriver? ==> EndsIn(path, "driver"))
    ensures item in Items(Prune(t, place), path) && Doomed(item.path)
    decreases t, 0
  {
    if t.kind.Mapping? {
      item := MissedPairStays(t.content, place, path, false);
    } else {
      item := MissedListStays(t.content, path, 0);
    }
  }

  lemma {:induction false} MissedListStays(content: seq<Tree>, path: seq<Segment>, from: nat) returns (item: Item)
    requires MissedAll(content)
    ensures item in ListItems(PruneAll(content), path, from) && Doomed(item.path)
    decreases content
  {
    hide Doomed, Items, Prune, Missed;
    var p := PruneAll(content);
    assert p[0] == Prune(content[0], Elsewhere) && p[1..] == PruneAll(content[1..]);
    if Missed(content[0], Elsewhere) {
      item := MissedStays(content[0], Elsewhere, path + [At(from)]);
    } else {
      item := MissedListStays(content[1..], path, from + 1);
    }
  }

  lemma {:induction false} MissedPairStays(content: seq<Tree>, place: Place, path: seq<Segment>, seen: bool) returns (item: Item)
    requires MissedPairs(content, place, seen) && !(place.InDriver? && seen) && (place.InDriver? || seen ==> EndsIn(path, "driver"))
    ensures item in PairItems(PrunePairs(content, place), path) && Doomed(item.path)
    decreases content
  {
    hide Doomed, Items, Spared, Prune, EndsIn, EndsInPlacement, Missed;
    if place.InPlacement? && Dropped(content[0].value) {
      item := MissedPairStays(content[2..], place, path, seen);
    } else {
      var here := path + [Key(content[0].value)];
      var inner := PlaceOf(place, content[0].value, content[1]);
      var p := PrunePairs(content, place);
      assert p[0] == content[0] && p[1] == Prune(content[1], inner) && p[2..] == PrunePairs(content[2..], Following(place, inner));
      PairItemsStep(p, path);
      HereEnds(path, content[0].value);
      if seen && IsPlacement(content[0], content[1]) && AnyDropped(content[1].content) {
        item := DroppedKeyStays(content[1].content, here);
        InMapping(content[1], here, item);
      } else if Missed(content[1], inner) {
        item := MissedStays(content[1], inner, here);
      } else {
        item := MissedPairStays(content[2..], Following(place, inner), path, seen || inner.InPlacement?);
      }
    }
  }

  lemma InMapping(t: Tree, path: seq<Segment>, item: Item)
    requires t.kind.Mapping? && item in PairItems(PrunePairs(t.content, Elsewhere), path)
    ensures item in Items(Prune(t, Elsewhere), path)
  {
  }

  /** A scalar or an alias has nothing below it. */
  lemma LeafSpared(t: Tree, path: seq<Segment>)
    requires (t.kind.Scalar? || t.kind.Alias?) && Shaped(t) && !Doomed(path)
    ensures Items(t, path) == Spared(Items(t, path))
  {
    hide Doomed;
    var head := Item(path, false, t.kind, t.value);
    SparedOne(head);
    assert Items(t, path) == [head];
  }

  lemma {:induction false} SizeIsItems(t: Tree, path: seq<Segment>)
    ensures |Items(t, path)| == Size(t)
    decreases t, 0
  {
    if t.kind.Mapping? { SizeIsPairItems(t.content, path); } else { SizeIsListItems(t.content, path, 0); }
  }

  lemma {:induction false} SizeIsListItems(content: seq<Tree>, path: seq<Segment>, from: nat)
    ensures |ListItems(content, path, from)| == SizeAll(content)
    decreases content
  {
    if content != [] {
      SizeIsItems(content[0], path + [At(from)]);
      SizeIsListItems(content[1..], path, from + 1);
    }
  }

  lemma {:induction false} SizeIsPairItems(content: seq<Tree>, path: seq<Segment>)
    ensures |PairItems(content, path)| == SizePairs(content)
    decreases content
  {
    if |content| >= 2 {
      SizeIsItems(content[1], path + [Key(content[0].value)]);
      SizeIsPairItems(content[2..], path);
    }
  }

  lemma {:induction false} SparedMeans(items: seq<Item>)
    ensures forall item :: item in Spared(items) <==> item in items && !Doomed(item.path)
    ensures (forall item :: item in items ==> !Doomed(item.path)) ==> Spared(items) == items
    decreases |items|
  {
    hide Doomed;
    if items != [] {
      SparedMeans(items[1..]);
      assert items == [items[0]] + items[1..];
    }
  }

  lemma {:induction false} ShapedIsPaired(t: Tree)
    requires Shaped(t)
    ensures Paired(t)
    decreases t
  {
    forall i | 0 <= i < |t.content| ensures Paired(t.content[i]) {
      ShapedIsPaired(t.content[i]);
    }
  }

  /**
   One pass over a document: the nodes left, in order, are the old ones without exactly the worker
   and label keys under a driver's placement and what hangs below them, if and only if no such key
   stands in a second mapping-valued placement of one driver.  The report is true exactly when
   something went.
   */
  lemma StripIsExact(t: Tree)
    requires Shaped(t)
    ensures Items(Prune(t, Elsewhere), []) == Spared(Items(t, [])) <==> !Missed(t, Elsewhere)
    ensures !Missed(t, Elsewhere) ==>
      && (forall item :: item in Items(Prune(t, Elsewhere), []) <==> item in Items(t, []) && !Doomed(item.path))
      && (Touched(t, Elsewhere) <==> exists item :: item in Items(t, []) && Doomed(item.path))
    ensures Touched(t, Elsewhere) <==> Prune(t, Elsewhere) != t
  {
    hide Prune, Touched, Items, Spared, Size, Shaped, Paired, Doomed, Missed;
    SparedMeans(Items(t, []));
    ShapedIsPaired(t);
    PruneShrinks(t, Elsewhere);
    SizeIsItems(t, []);
    SizeIsItems(Prune(t, Elsewhere), []);
    RootIsSafe(t);
    if Missed(t, Elsewhere) {
      var item := MissedStays(t, Elsewhere, []);
      assert item !in Spared(Items(t, []));
    } else {
      PruneSpares(t, Elsewhere, []);
      if !Touched(t, Elsewhere) {
        assert forall item :: item in Items(t, []) ==> !Doomed(item.path);
      }
    }
  }

  lemma RootIsSafe(t: Tree)
    ensures !Doomed([]) && FitsTree(Elsewhere, [], t)
  {
  }

  /*** Unique keys are enough ***/

  predicate NoKey(content: seq<Tree>, name: string) {
    |content| >= 2 ==> content[0].value != name && NoKey(content[2..], name)
  }

  /** Keys of one mapping are unique. */
  predicate UniqueKeys(content: seq<Tree>) {
    |content| >= 2 ==> NoKey(content[2..], content[0].value) && UniqueKeys(content[2..])
  }

  predicate Unique(t: Tree) {
    (t.kind.Mapping? ==> UniqueKeys(t.content)) && forall i :: 0 <= i < |t.content| ==> Unique(t.content[i])
  }

  /** Nothing is passed over in a document without repeated keys. */
  lemma {:induction false} UniqueMissesNothing(t: Tree, place: Place)
    requires Unique(t)
    ensures !Missed(t, place)
    decreases t, 0
  {
    match t.kind
    case Document => UniqueListMissesNothing(t.content);
    case Sequence => UniqueListMissesNothing(t.content);
    case Mapping => UniquePairsMissNothing(t.content, place, false);
    case _ =>
  }

  lemma {:induction false} UniqueListMissesNothing(content: seq<Tree>)
    requires forall i :: 0 <= i < |content| ==> Unique(content[i])
    ensures !MissedAll(content)
    decreases content
  {
    hide Unique, Missed;
    if content != [] {
      UniqueMissesNothing(content[0], Elsewhere);
      UniqueListMissesNothing(content[1..]);
    }
  }

  lemma {:induction false} UniquePairsMissNothing(content: seq<Tree>, place: Place, seen: bool)
    requires UniqueKeys(content) && (forall i :: 0 <= i < |content| ==> Unique(content[i])) && (seen ==> NoKey(content, "placement"))
    ensures !MissedPairs(content, place, seen)
    decreases content
  {
    hide Unique, Missed;
    if |content| >= 2 {
      var inner := PlaceOf(place, content[0].value, content[1]);
      UniqueMissesNothing(content[1], inner);
      UniquePairsMissNothing(content[2..], place, seen);
      UniquePairsMissNothing(content[2..], Following(place, inner), seen || inner.InPlacement?);
    }
  }
}
