/**
 The Nuxt payload reader of the VueJobs collector: the same numbered slots as
 in NuxtGraph, decoded by a recursion that guards the current path instead of
 caching. Lists have no reviver reading here, and a slot met again on the
 current path becomes null.

 Numbers arrive as float64; one with an integral value is `Num(Whole(_))`.
 */
module VuePayload {
  import opened Prelude
  import opened NuxtGraph

  /** Slot `i` holds a container with an element that refers to slot `k`. */
  predicate Refers(p: seq<Json>, i: nat, k: nat)
    requires i < |p|
  {
    match p[i]
    case List(items) => exists j :: 0 <= j < |items| && Index(items[j], |p|) == Some(k)
    case Object(fields) => exists key :: key in fields && Index(fields[key], |p|) == Some(k)
    case _ => false
  }

  /** What the reader returns for `v` when the slots in `seen` are on the current path. */
  function Guarded(p: seq<Json>, v: Json, seen: set<nat>): Json
    requires forall i :: i in seen ==> i < |p|
    decreases |Free(p, seen)|, 1
  {
    match Index(v, |p|)
    case None => v
    case Some(i) =>
      if i in seen then Null else GuardedSlot(p, i, seen)
  }

  function GuardedSlot(p: seq<Json>, i: nat, seen: set<nat>): Json
    requires i < |p| && i !in seen && forall k :: k in seen ==> k < |p|
    decreases |Free(p, seen)|, 0
  {
    FreeShrinks(p, seen, i);
    match p[i]
    case List(items) =>
      List(seq(|items|, j requires 0 <= j < |items| => Guarded(p, items[j], seen + {i})))
    case Object(fields) => Object(map key | key in fields :: Guarded(p, fields[key], seen + {i}))
    case other => other
  }

  /** The slots that are not on the current path: they bound the depth of the recursion. */
  function Free(p: seq<Json>, seen: set<nat>): set<nat> {
    set i | 0 <= i < |p| && i !in seen
  }

  lemma FreeShrinks(p: seq<Json>, seen: set<nat>, i: nat)
    requires i < |p| && i !in seen
    ensures Free(p, seen + {i}) < Free(p, seen)
    ensures |Free(p, seen + {i})| < |Free(p, seen)|
  {
    assert i in Free(p, seen) && i !in Free(p, seen + {i});
    assert Free(p, seen + {i}) == Free(p, seen) - {i};
  }

  class Reader {
    const p: seq<Json>
    /** The slots on the current path. */
    var seen: set<nat>

    constructor (p: seq<Json>)
      ensures this.p == p && seen == {}
    {
      this.p := p;
      seen := {};
    }

    method Resolve(v: Json) returns (out: Json)
      requires forall i :: i in seen ==> i < |p|
      modifies this
      ensures seen == old(seen)
      ensures out == Guarded(p, v, seen)
      decreases |Free(p, seen)|
    {
      var found := Index(v, |p|);
      if found.None? {
        return v;
      }
      var idx := found.value;
      if idx in seen {
        return Null;
      }
      FreeShrinks(p, seen, idx);
      ghost var path := seen;
      seen := seen + {idx};
      match p[idx] {
        case List(items) =>
          var elems := [];
          for j := 0 to |items|
            invariant seen == path + {idx} && |elems| == j
            invariant forall m :: 0 <= m < j ==> elems[m] == Guarded(p, items[m], path + {idx})
          {
            var e := Resolve(items[j]);
            elems := elems + [e];
          }
          out := List(elems);
          assert elems == seq(|items|, j requires 0 <= j < |items| => Guarded(p, items[j], path + {idx}));
        case Object(fields) =>
          var built: map<string, Json> := map[];
          var rest := fields.Keys;
          while rest != {}
            invariant seen == path + {idx} && rest <= fields.Keys && built.Keys == fields.Keys - rest
            invariant forall key :: key in built ==> built[key] == Guarded(p, fields[key], path + {idx})
          {
            var key :| key in rest;
            var e := Resolve(fields[key]);
            built := built[key := e];
            rest := rest - {key};
          }
          assert built.Keys == fields.Keys;
          out := Object(built);
        case other =>
          out := other;
      }
      seen := seen - {idx};
      assert seen == path;
    }
  }

  /** The slots of the part refer to slots of the part only, and the ranking falls along every reference. */
  ghost predicate Loopless(p: seq<Json>, part: set<nat>, rank: seq<nat>) {
    && |rank| == |p| && (forall i :: i in part ==> i < |p|)
    && forall i, k :: i in part && 0 <= k < |p| && Refers(p, i, k) ==> k in part && rank[k] < rank[i]
  }

  /** The plain unfolding of a loopless part of a payload. */
  ghost function Unfolded(p: seq<Json>, part: set<nat>, rank: seq<nat>, i: nat): Json
    requires Loopless(p, part, rank) && i in part
    decreases rank[i], 1
  {
    match p[i]
    case List(items) =>
      List(seq(|items|, j requires 0 <= j < |items| => UnfoldedElem(p, part, rank, i, items[j])))
    case Object(fields) => Object(map key | key in fields :: UnfoldedElem(p, part, rank, i, fields[key]))
    case other => other
  }

  ghost function UnfoldedElem(p: seq<Json>, part: set<nat>, rank: seq<nat>, i: nat, el: Json): Json
    requires Loopless(p, part, rank) && i in part
    requires forall k :: 0 <= k < |p| && Index(el, |p|) == Some(k) ==> Refers(p, i, k)
    decreases rank[i], 0
  {
    match Index(el, |p|)
    case None => el
    case Some(k) => Unfolded(p, part, rank, k)
  }

  /** On a loopless part the guard never fires: the reader returns the plain unfolding. */
  lemma {:induction false} GuardNeverFires(p: seq<Json>, part: set<nat>, rank: seq<nat>, i: nat, seen: set<nat>)
    requires Loopless(p, part, rank) && i in part
    requires forall x :: x in seen ==> x < |p| && rank[i] < rank[x]
    ensures i !in seen && Guarded(p, Num(Whole(i)), seen) == Unfolded(p, part, rank, i)
    decreases rank[i], 1
  {
    match p[i]
    case List(items) =>
      forall j | 0 <= j < |items|
        ensures Guarded(p, items[j], seen + {i}) == UnfoldedElem(p, part, rank, i, items[j])
      {
        GuardElem(p, part, rank, i, items[j], seen);
      }
    case Object(fields) =>
      forall key | key in fields
        ensures Guarded(p, fields[key], seen + {i}) == UnfoldedElem(p, part, rank, i, fields[key])
      {
        GuardElem(p, part, rank, i, fields[key], seen);
      }
    case other =>
  }

  lemma {:induction false} GuardElem(p: seq<Json>, part: set<nat>, rank: seq<nat>, i: nat, el: Json, seen: set<nat>)
    requires Loopless(p, part, rank) && i in part
    requires forall x :: x in seen ==> x < |p| && rank[i] < rank[x]
    requires forall k :: 0 <= k < |p| && Index(el, |p|) == Some(k) ==> Refers(p, i, k)
    ensures Guarded(p, el, seen + {i}) == UnfoldedElem(p, part, rank, i, el)
    decreases rank[i], 0
  {
    match Index(el, |p|)
    case None =>
    case Some(k) =>
      assert el == Num(Whole(k));
      GuardNeverFires(p, part, rank, k, seen + {i});
  }

  /** In the part no list reads as a reviver and every number can be read. */
  ghost predicate Bare(p: seq<Json>, part: set<nat>) {
    forall i :: i in part && i < |p| ==>
      !ShapeOf(p, i).Wrapper? && !ShapeOf(p, i).Hollow? && !ShapeOf(p, i).Unreadable?
  }

  /** Where a part has no reviver and no unreadable number, the two decoders read the same graph. */
  lemma SameGraph(p: seq<Json>, part: set<nat>, rank: seq<nat>)
    requires Bare(p, part)
    ensures Loopless(p, part, rank) <==> AcyclicOn(ShapesOf(p), part, rank)
  {
    var g := ShapesOf(p);
    forall i, k | i in part && i < |g| && 0 <= k < |g| ensures Linked(g, i, k) <==> Refers(p, i, k) {
    }
  }

  /** The cached decode of NuxtGraph and the path-guarded decode give the same tree. */
  lemma DecodersAgree(p: seq<Json>, part: set<nat>, rank: seq<nat>, i: nat)
    requires AcyclicOn(ShapesOf(p), part, rank) && Bare(p, part) && i in part
    ensures PlainTree(ShapesOf(p), part, rank, i) == Guarded(p, Num(Whole(i)), {})
  {
    SameGraph(p, part, rank);
    GuardNeverFires(p, part, rank, i, {});
    PlainIsUnfolded(p, part, rank, i);
  }

  /**
   What NuxtGraph's Decode returns for a payload whose root reaches no cycle, no
   reviver and no unreadable number is what the path-guarded reader returns.
   Slots that the root does not reach have no say.
   */
  lemma DecodeIsGuarded(p: seq<Json>, rank: seq<nat>)
    requires p != [] && Acyclic(ShapesOf(p), rank) && Bare(p, Region(ShapesOf(p)))
    ensures PlainTree(ShapesOf(p), Region(ShapesOf(p)), rank, 0) == Guarded(p, Num(Whole(0)), {})
  {
    DecodersAgree(p, Region(ShapesOf(p)), rank, 0);
  }

  lemma {:induction false} PlainIsUnfolded(p: seq<Json>, part: set<nat>, rank: seq<nat>, i: nat)
    requires Loopless(p, part, rank) && i in part && Bare(p, part) && AcyclicOn(ShapesOf(p), part, rank)
    ensures PlainTree(ShapesOf(p), part, rank, i) == Unfolded(p, part, rank, i)
    decreases rank[i]
  {
    var g := ShapesOf(p);
    assert g[i] == ShapeOf(p, i);
    match p[i]
    case List(items) =>
      forall j | 0 <= j < |items| && Index(items[j], |p|).Some?
        ensures var k := Index(items[j], |p|).value; PlainTree(g, part, rank, k) == Unfolded(p, part, rank, k)
      {
        assert Refers(p, i, Index(items[j], |p|).value);
        PlainIsUnfolded(p, part, rank, Index(items[j], |p|).value);
      }
    case Object(fields) =>
      forall key | key in fields && Index(fields[key], |p|).Some?
        ensures var k := Index(fields[key], |p|).value; PlainTree(g, part, rank, k) == Unfolded(p, part, rank, k)
      {
        assert Refers(p, i, Index(fields[key], |p|).value);
        PlainIsUnfolded(p, part, rank, Index(fields[key], |p|).value);
      }
    case other =>
  }

  // What the reader returns, said of the slots alone.

  /** A tree for each slot and each set of slots above it. */
  type Readings = (nat, set<nat>) -> Json

  /** An element below `path`: a slot above it reads null, another one as it reads there; what names no slot stays. */
  predicate ElemReads(p: seq<Json>, t: Readings, el: Json, tree: Json, path: set<nat>) {
    if el.Num? && el.number.Whole? && 0 <= el.number.value < |p|
    then tree == (if el.number.value in path then Null else t(el.number.value, path))
    else tree == el
  }

  /** What slot `i` has to read below `path`. A list is a list, whatever its first element. */
  predicate Reads(p: seq<Json>, t: Readings, i: nat, path: set<nat>)
    requires i < |p|
  {
    match p[i]
    case List(v) =>
      && t(i, path).List? && |t(i, path).items| == |v|
      && forall j :: 0 <= j < |v| ==> ElemReads(p, t, v[j], t(i, path).items[j], path + {i})
    case Object(f) =>
      && t(i, path).Object? && t(i, path).fields.Keys == f.Keys
      && forall key :: key in f ==> ElemReads(p, t, f[key], t(i, path).fields[key], path + {i})
    case other => t(i, path) == other
  }

  predicate OnPath(p: seq<Json>, i: nat, path: set<nat>) {
    i < |p| && i !in path && forall k :: k in path ==> k < |p|
  }

  ghost predicate Readable(p: seq<Json>, t: Readings) {
    forall i: nat, path: set<nat> :: OnPath(p, i, path) ==> Reads(p, t, i, path)
  }

  /** The reader's trees are the only ones with this law. */
  lemma {:induction false} ReadsIs(p: seq<Json>, t: Readings, i: nat, path: set<nat>)
    requires Readable(p, t) && OnPath(p, i, path)
    ensures Guarded(p, Num(Whole(i)), path) == t(i, path)
    decreases |Free(p, path)|
  {
    FreeShrinks(p, path, i);
    assert Reads(p, t, i, path);
    match p[i]
    case List(v) =>
      var tree := t(i, path);
      forall j | 0 <= j < |v| ensures Guarded(p, v[j], path + {i}) == tree.items[j] {
        ElemIs(p, t, i, path, v[j], tree.items[j]);
      }
      assert tree.items == seq(|v|, j requires 0 <= j < |v| => Guarded(p, v[j], path + {i}));
    case Object(f) =>
      var tree := t(i, path);
      forall key | key in f ensures Guarded(p, f[key], path + {i}) == tree.fields[key] {
        ElemIs(p, t, i, path, f[key], tree.fields[key]);
      }
      assert tree.fields == map key | key in f :: Guarded(p, f[key], path + {i});
    case other =>
  }

  lemma {:induction false} ElemIs(p: seq<Json>, t: Readings, i: nat, path: set<nat>, el: Json, tree: Json)
    requires Readable(p, t) && OnPath(p, i, path) && ElemReads(p, t, el, tree, path + {i})
    ensures Guarded(p, el, path + {i}) == tree
    decreases |Free(p, path)|, 0
  {
    hide Readable, Reads;
    FreeShrinks(p, path, i);
    if el.Num? && el.number.Whole? && 0 <= el.number.value < |p| && el.number.value !in path + {i} {
      ReadsIs(p, t, el.number.value, path + {i});
    }
  }

  function Reading(p: seq<Json>): Readings {
    (i: nat, path: set<nat>) =>
      if i < |p| && i !in path && (forall k :: k in path ==> k < |p|) then GuardedSlot(p, i, path) else Null
  }

  /** And they have it. */
  lemma ReadingIsReadable(p: seq<Json>)
    ensures Readable(p, Reading(p))
  {
    forall i: nat, path: set<nat> | OnPath(p, i, path) ensures Reads(p, Reading(p), i, path) {
      SlotHolds(p, i, path);
    }
  }

  lemma SlotHolds(p: seq<Json>, i: nat, path: set<nat>)
    requires OnPath(p, i, path)
    ensures Reads(p, Reading(p), i, path)
  {
    hide ElemReads;
    var t := Reading(p);
    var below := path + {i};
    match p[i]
    case List(v) =>
      forall j | 0 <= j < |v| ensures ElemReads(p, t, v[j], t(i, path).items[j], below) {
        ElemHolds(p, v[j], below);
      }
    case Object(f) =>
      forall key | key in f ensures ElemReads(p, t, f[key], t(i, path).fields[key], below) {
        ElemHolds(p, f[key], below);
      }
    case other =>
  }

  lemma ElemHolds(p: seq<Json>, el: Json, path: set<nat>)
    requires forall k :: k in path ==> k < |p|
    ensures ElemReads(p, Reading(p), el, Guarded(p, el, path), path)
  {
    hide GuardedSlot;
  }
}
