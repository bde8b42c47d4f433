/**
 The Nuxt payload decoder of the eJobs collector.

 A payload is a flat list of slots. A container slot refers to other slots by
 number, and a two-element list whose head is a reviver name stands for the
 slot it names. `Decoder.Walk` expands the graph depth first into containers
 that are shared and may be cyclic, with one cache cell and one ready flag for
 each slot.

 A container that the program allocates while expanding slot `i` is the heap
 cell `i`: a slot is expanded at most once, so it allocates at most once.
 A number token and the number parsed from it are the same `Num` value.
 */
module NuxtGraph {
  import opened Prelude

  /** A JSON number token: fits int64, parses only as float64, or neither. */
  datatype Number = Whole(value: int) | Fraction(approx: real) | Overflow

  datatype Json =
    | Null
    | Str(text: string)
    | Bool(flag: bool)
    | Num(number: Number)
    | List(items: seq<Json>)
    | Object(fields: map<string, Json>)

  /** What the decoder stores: a value as it stands, or a container it allocated. */
  datatype Value = Plain(json: Json) | Ref(slot: nat)

  datatype Container = Items(items: seq<Value>) | Fields(fields: map<string, Value>)

  datatype Fault = EmptyPayload | IndexOutOfRange | BadNumber

  const REVIVERS: set<string> :=
    {"EmptyShallowRef", "EmptyRef", "ShallowRef", "ShallowReactive", "Ref", "Reactive", "NuxtError"}

  /** The slot an element refers to, if it refers to one. */
  function Index(el: Json, n: nat): Option<nat> {
    if el.Num? && el.number.Whole? && 0 <= el.number.value < n then Some(el.number.value) else None
  }

  /** How the decoder classifies a slot. The shapes of all slots are the graph it walks. */
  datatype Shape =
    | Scalar(json: Json)
    | Unreadable
    | Hollow
    | Wrapper(inner: nat)
    | Listing(items: seq<Json>)
    | Record(fields: map<string, Json>)

  function ListShape(v: seq<Json>, n: nat): Shape {
    if |v| == 0 || |v| > 2 || !v[0].Str? || v[0].text !in REVIVERS then Listing(v)
    else if |v| == 1 then Hollow
    else match Index(v[1], n)
      case None => Listing(v)
      case Some(k) => Wrapper(k)
  }

  function ShapeOf(slots: seq<Json>, i: nat): Shape
    requires i < |slots|
  {
    match slots[i]
    case Num(Overflow) => Unreadable
    case List(v) => ListShape(v, |slots|)
    case Object(f) => Record(f)
    case other => Scalar(other)
  }

  function ShapesOf(slots: seq<Json>): (g: seq<Shape>)
    ensures |g| == |slots| && forall i :: 0 <= i < |slots| ==> g[i] == ShapeOf(slots, i)
  {
    seq(|slots|, i requires 0 <= i < |slots| => ShapeOf(slots, i))
  }

  /** Slot `i` refers to slot `k`. */
  predicate Linked(g: seq<Shape>, i: nat, k: nat)
    requires i < |g|
  {
    match g[i]
    case Wrapper(inner) => inner == k
    case Listing(items) => exists j :: 0 <= j < |items| && Index(items[j], |g|) == Some(k)
    case Record(fields) => exists key :: key in fields && Index(fields[key], |g|) == Some(k)
    case _ => false
  }

  predicate Opaque(g: seq<Shape>, i: nat)
    requires i < |g|
  {
    g[i].Wrapper?
  }

  predicate Expandable(g: seq<Shape>, i: nat)
    requires i < |g|
  {
    g[i].Listing? || g[i].Record?
  }

  /** A walk of `n` links leads from the root, slot 0, to slot `i`. */
  ghost predicate ReachedBy(g: seq<Shape>, i: nat, n: nat)
    decreases n
  {
    && i < |g|
    && if n == 0 then i == 0 else exists k: nat :: k < |g| && ReachedBy(g, k, n - 1) && Linked(g, k, i)
  }

  ghost predicate Reachable(g: seq<Shape>, i: nat) {
    exists n: nat :: ReachedBy(g, i, n)
  }

  lemma ReachableStep(g: seq<Shape>, i: nat, k: nat)
    requires i < |g| && k < |g| && Reachable(g, i) && Linked(g, i, k)
    ensures Reachable(g, k)
  {
    var n: nat :| ReachedBy(g, i, n);
    assert ReachedBy(g, k, n + 1);
  }

  /** A set that holds the root and is closed under links holds everything reachable. */
  lemma {:induction false} ClosedHoldsReachable(g: seq<Shape>, s: set<nat>, i: nat, n: nat)
    requires ReachedBy(g, i, n) && 0 in s
    requires forall x, k: nat :: x in s && x < |g| && k < |g| && Linked(g, x, k) ==> k in s
    ensures i in s
    decreases n
  {
    if n == 0 {
    } else {
      var k: nat :| k < |g| && ReachedBy(g, k, n - 1) && Linked(g, k, i);
      ClosedHoldsReachable(g, s, k, n - 1);
    }
  }

  /** The slots a walk from the root can come to. */
  ghost function Region(g: seq<Shape>): (part: set<nat>)
    ensures |g| > 0 ==> 0 in part
  {
    assert |g| > 0 ==> ReachedBy(g, 0, 0);
    set i: nat | i < |g| && Reachable(g, i)
  }

  /** A set of slots that holds whatever its members refer to. */
  ghost predicate Closed(g: seq<Shape>, part: set<nat>) {
    && (forall i :: i in part ==> i < |g|)
    && forall i, k :: i in part && 0 <= k < |g| && Linked(g, i, k) ==> k in part
  }

  /**
   No reviver of the part lies on a cycle: some ranking never rises along a link
   and falls along a link out of a reviver.
   */
  ghost predicate RankedOn(g: seq<Shape>, part: set<nat>, rank: seq<nat>) {
    && |rank| == |g| && Closed(g, part)
    && forall i, k :: i in part && k in part && Linked(g, i, k) ==>
         rank[k] <= rank[i] && (Opaque(g, i) ==> rank[k] < rank[i])
  }

  /** No cycle at all in the part: the ranking falls along every link. */
  ghost predicate AcyclicOn(g: seq<Shape>, part: set<nat>, rank: seq<nat>) {
    && |rank| == |g| && Closed(g, part)
    && forall i, k :: i in part && k in part && Linked(g, i, k) ==> rank[k] < rank[i]
  }

  /** No reviver that the root reaches lies on a cycle. */
  ghost predicate Ranked(g: seq<Shape>, rank: seq<nat>) {
    RankedOn(g, Region(g), rank)
  }

  /** The root reaches no cycle. */
  ghost predicate Acyclic(g: seq<Shape>, rank: seq<nat>) {
    AcyclicOn(g, Region(g), rank)
  }

  /** What an element of a container decodes to, given the values of the g. */
  function Elem(cache: seq<Value>, el: Json): Value {
    match Index(el, |cache|)
    case None => Plain(el)
    case Some(k) => cache[k]
  }

  /** The decoder's tables; slot numbers in the order of expansion. */
  datatype State = State(cache: seq<Value>, ready: seq<bool>, heap: map<nat, Container>, expansions: seq<nat>)

  ghost predicate Filled(g: seq<Shape>, s: State, i: nat)
    requires i < |g| == |s.cache|
  {
    match g[i]
    case Listing(items) => i in s.heap && ListFilled(items, |items|, s, s.heap[i])
    case Record(fields) => i in s.heap && RecordFilled(fields, fields.Keys, s, s.heap[i])
    case _ => true
  }

  /** The first `n` items are decoded, and every slot they name is ready. */
  ghost predicate ListFilled(items: seq<Json>, n: nat, s: State, c: Container)
    requires n <= |items|
  {
    && c.Items? && |c.items| == |items|
    && forall j :: 0 <= j < n ==> c.items[j] == Elem(s.cache, items[j])
  }

  ghost predicate RecordFilled(fields: map<string, Json>, keys: set<string>, s: State, c: Container)
    requires keys <= fields.Keys
  {
    && c.Fields? && c.fields.Keys == keys
    && forall key :: key in keys ==> c.fields[key] == Elem(s.cache, fields[key])
  }

  /** The value of a finished slot agrees with the slot; a reviver has its target's value. */
  ghost predicate Faithful(g: seq<Shape>, s: State, i: nat)
    requires i < |g| == |s.cache|
  {
    && Filled(g, s, i)
    && (Opaque(g, i) ==> var k := g[i].inner; k < |g| && s.cache[i] == s.cache[k])
  }

  ghost predicate Sized(g: seq<Shape>, s: State, open: set<nat>) {
    && |s.cache| == |s.ready| == |g|
    && (forall i :: i in open ==> i < |g| && s.ready[i])
    && (forall i :: i in s.heap ==> i < |g| && s.ready[i])
  }

  ghost predicate Settled(g: seq<Shape>, s: State, open: set<nat>, i: nat)
    requires i < |g| == |s.cache|
  {
    match g[i]
    case Scalar(j) => s.cache[i] == Plain(j)
    case Unreadable => false
    case Hollow => s.cache[i] == Plain(Null)
    case Wrapper(_) => i in open ==> s.cache[i] == Plain(Null)
    case _ => s.cache[i] == Ref(i) && i in s.heap
  }

  /** Everything that finished slot `i` refers to is ready. */
  ghost predicate Explored(g: seq<Shape>, s: State, i: nat)
    requires i < |g| == |s.ready|
  {
    forall k :: 0 <= k < |g| && Linked(g, i, k) ==> s.ready[k]
  }

  ghost predicate Logged(g: seq<Shape>, s: State)
    requires |s.ready| == |g|
  {
    && (forall i :: 0 <= i < |g| ==> (s.ready[i] <==> i in s.expansions))
    && (forall i :: i in s.expansions ==> i < |g|)
    && (forall j, k :: 0 <= j < k < |s.expansions| ==> s.expansions[j] != s.expansions[k])
  }

  /** What holds between any two steps; `open` holds the g whose expansion has not ended. */
  ghost predicate Inv(g: seq<Shape>, s: State, open: set<nat>) {
    && Sized(g, s, open)
    && Logged(g, s)
    && forall i :: 0 <= i < |g| && s.ready[i] ==>
         && Settled(g, s, open, i) && Reachable(g, i) && (i !in open ==> Explored(g, s, i))
  }

  /** Every finished slot is faithful and refers to no reviver that is still open. */
  ghost predicate FaithInv(g: seq<Shape>, s: State, open: set<nat>)
    requires |s.cache| == |s.ready| == |g|
  {
    forall i :: 0 <= i < |g| && s.ready[i] && i !in open ==>
      && Faithful(g, s, i)
      && forall k :: k in open && k < |g| && Opaque(g, k) ==> !Linked(g, i, k)
  }

  /** No open reviver ranks at or below slot `i`, so none is reachable from it. */
  ghost predicate Above(g: seq<Shape>, rank: seq<nat>, open: set<nat>, i: nat) {
    && i < |g| == |rank|
    && forall r :: r in open && r < |g| && Opaque(g, r) ==> rank[i] < rank[r]
  }

  /** What was ready before stays ready, with the same value and the same container. */
  ghost predicate Kept(s: State, t: State) {
    && |s.cache| == |s.ready| == |t.cache| == |t.ready|
    && forall x :: 0 <= x < |s.ready| && s.ready[x] ==>
         && t.ready[x] && t.cache[x] == s.cache[x]
         && (x in s.heap ==> x in t.heap && t.heap[x] == s.heap[x])
  }

  /** Like Kept, except that the container of open slot `i` may have grown. */
  ghost predicate Shared(s: State, t: State, i: nat) {
    && |s.cache| == |s.ready| == |t.cache| == |t.ready|
    && forall x :: 0 <= x < |s.ready| && s.ready[x] ==>
         && t.ready[x] && t.cache[x] == s.cache[x]
         && (x in s.heap && x != i ==> x in t.heap && t.heap[x] == s.heap[x])
  }

  ghost predicate Broken(g: seq<Shape>) {
    exists b :: 0 <= b < |g| && Reachable(g, b) && g[b].Unreadable?
  }

  /** How many slots are still to be expanded: the measure of the walk. */
  ghost function Pending(ready: seq<bool>): nat {
    if ready == [] then 0 else (if ready[0] then 0 else 1) + Pending(ready[1..])
  }

  function Marked(s: State, i: nat, v: Value): State
    requires i < |s.cache| == |s.ready|
  {
    State(s.cache[i := v], s.ready[i := true], s.heap, s.expansions + [i])
  }

  lemma {:induction false} MarkShrinks(ready: seq<bool>, i: nat)
    requires i < |ready| && !ready[i]
    ensures Pending(ready[i := true]) == Pending(ready) - 1
  {
    if i > 0 {
      MarkShrinks(ready[1..], i - 1);
      assert ready[i := true][1..] == ready[1..][i - 1 := true];
    } else {
      assert ready[i := true][1..] == ready[1..];
    }
  }

  lemma MarkLogged(g: seq<Shape>, s: State, i: nat, v: Value)
    requires i < |g| == |s.cache| == |s.ready| && !s.ready[i] && Logged(g, s)
    ensures Logged(g, Marked(s, i, v))
  {
  }

  /** A container slot `i` is opened, with any container in its cell. */
  function Opened(s: State, i: nat, c: Container): State
    requires i < |s.cache| == |s.ready|
  {
    Marked(s, i, Ref(i)).(heap := s.heap[i := c])
  }

  lemma OpenFaith(g: seq<Shape>, s: State, t: State, open: set<nat>, i: nat)
    requires Inv(g, s, open) && FaithInv(g, s, open) && i < |g| && !s.ready[i]
    requires |t.cache| == |t.ready| == |g| && t.ready == s.ready[i := true]
    requires forall x :: 0 <= x < |g| && x != i ==> t.cache[x] == s.cache[x]
    requires forall x :: x in s.heap ==> x in t.heap && (x != i ==> t.heap[x] == s.heap[x])
    ensures FaithInv(g, t, open + {i})
  {
    forall x | 0 <= x < |g| && t.ready[x] && x !in open + {i}
      ensures Faithful(g, t, x)
      ensures forall k :: k in open + {i} && k < |g| && Opaque(g, k) ==> !Linked(g, x, k)
    {
      assert s.ready[x] && Explored(g, s, x) && Faithful(g, s, x);
      assert !Linked(g, x, i);
      SameFaith(g, s, t, x);
    }
  }

  /** Faithfulness looks only at the slot's own cells and at the values it refers to. */
  lemma SameFaith(g: seq<Shape>, s: State, t: State, x: nat)
    requires x < |g| == |s.cache| == |t.cache| && Faithful(g, s, x)
    requires x in s.heap ==> x in t.heap && t.heap[x] == s.heap[x]
    requires t.cache[x] == s.cache[x]
    requires forall k :: 0 <= k < |g| && Linked(g, x, k) ==> t.cache[k] == s.cache[k]
    ensures Faithful(g, t, x)
  {
    match g[x]
    case Listing(items) =>
      forall j | 0 <= j < |items| ensures Elem(t.cache, items[j]) == Elem(s.cache, items[j]) {
        match Index(items[j], |g|)
        case None =>
        case Some(k) => assert Linked(g, x, k);
      }
    case Record(fields) =>
      forall key | key in fields ensures Elem(t.cache, fields[key]) == Elem(s.cache, fields[key]) {
        match Index(fields[key], |g|)
        case None =>
        case Some(k) => assert Linked(g, x, k);
      }
    case Wrapper(k) => assert Linked(g, x, k);
    case _ =>
  }

  lemma ScalarInv(g: seq<Shape>, s: State, open: set<nat>, i: nat, v: Value)
    requires Inv(g, s, open) && i < |g| && !s.ready[i] && Reachable(g, i)
    requires match g[i] case Scalar(j) => v == Plain(j) case Hollow => v == Plain(Null) case _ => false
    ensures Inv(g, Marked(s, i, v), open)
    ensures FaithInv(g, s, open) ==> FaithInv(g, Marked(s, i, v), open)
  {
    MarkLogged(g, s, i, v);
    var t := Marked(s, i, v);
    forall x | 0 <= x < |g| && t.ready[x]
      ensures Settled(g, t, open, x) && Reachable(g, x) && (x !in open ==> Explored(g, t, x))
    {
      if x != i {
        assert Settled(g, s, open, x) && (x !in open ==> Explored(g, s, x));
      }
    }
    if FaithInv(g, s, open) {
      OpenFaith(g, s, t, open, i);
      assert Faithful(g, t, i);
    }
  }

  /** A reviver or a container becomes open. */
  lemma OpenInv(g: seq<Shape>, s: State, t: State, open: set<nat>, i: nat)
    requires Inv(g, s, open) && i < |g| && !s.ready[i] && Reachable(g, i)
    requires if Opaque(g, i) then t == Marked(s, i, Plain(Null))
             else Expandable(g, i) && exists c :: t == Opened(s, i, c)
    ensures Inv(g, t, open + {i})
    ensures FaithInv(g, s, open) ==> FaithInv(g, t, open + {i})
    ensures Kept(s, t)
  {
    hide Faithful, Reachable, Elem, Settled, Explored, FaithInv, Linked;
    MarkLogged(g, s, i, t.cache[i]);
    assert Logged(g, t);
    hide Logged;
    OpenSettled(g, s, t, open, i);
    if FaithInv(g, s, open) {
      OpenFaith(g, s, t, open, i);
    }
  }

  lemma OpenSettled(g: seq<Shape>, s: State, t: State, open: set<nat>, i: nat)
    requires Inv(g, s, open) && i < |g| && !s.ready[i] && Reachable(g, i)
    requires if Opaque(g, i) then t == Marked(s, i, Plain(Null))
             else Expandable(g, i) && exists c :: t == Opened(s, i, c)
    ensures forall x :: 0 <= x < |g| && t.ready[x] ==>
      Settled(g, t, open + {i}, x) && Reachable(g, x) && (x !in open + {i} ==> Explored(g, t, x))
  {
    hide Reachable, Logged;
    forall x | 0 <= x < |g| && t.ready[x]
      ensures Settled(g, t, open + {i}, x) && Reachable(g, x) && (x !in open + {i} ==> Explored(g, t, x))
    {
      if x != i {
        assert Settled(g, s, open, x) && (x !in open ==> Explored(g, s, x));
      }
    }
  }

  /** Writing into an open container disturbs no finished slot. */
  lemma WriteInv(g: seq<Shape>, s: State, open: set<nat>, i: nat, c: Container)
    requires Inv(g, s, open) && i in open && Expandable(g, i)
    ensures Inv(g, s.(heap := s.heap[i := c]), open)
    ensures FaithInv(g, s, open) ==> FaithInv(g, s.(heap := s.heap[i := c]), open)
  {
    var t := s.(heap := s.heap[i := c]);
    forall x | 0 <= x < |g| && t.ready[x]
      ensures Settled(g, t, open, x) && (x !in open ==> Explored(g, t, x))
    {
      assert Settled(g, s, open, x) && (x !in open ==> Explored(g, s, x));
    }
    if FaithInv(g, s, open) {
      forall x | 0 <= x < |g| && t.ready[x] && x !in open ensures Faithful(g, t, x) {
        SameFaith(g, s, t, x);
      }
    }
  }

  /** An open slot whose links are all ready is closed. */
  lemma CloseInv(g: seq<Shape>, s: State, t: State, open: set<nat>, i: nat, rank: seq<nat>)
    requires Inv(g, s, open + {i}) && i !in open && i < |g| && Explored(g, s, i)
    requires |t.cache| == |g|
    requires t == if Opaque(g, i) then s.(cache := s.cache[i := t.cache[i]]) else s
    requires Ranked(g, rank) && Above(g, rank, open, i) && FaithInv(g, s, open + {i}) ==> Faithful(g, t, i)
    ensures Inv(g, t, open)
    ensures Ranked(g, rank) && Above(g, rank, open, i) && FaithInv(g, s, open + {i}) ==> FaithInv(g, t, open)
  {
    forall x | 0 <= x < |g| && t.ready[x]
      ensures Settled(g, t, open, x) && Reachable(g, x) && (x !in open ==> Explored(g, t, x))
    {
      assert Settled(g, s, open + {i}, x) && (x !in open + {i} ==> Explored(g, s, x));
    }
    if Ranked(g, rank) && Above(g, rank, open, i) && FaithInv(g, s, open + {i}) {
      forall x | 0 <= x < |g| && t.ready[x] && x !in open
        ensures Faithful(g, t, x)
        ensures forall k :: k in open && k < |g| && Opaque(g, k) ==> !Linked(g, x, k)
      {
        if x != i {
          assert Faithful(g, s, x) && i in open + {i};
          SameFaith(g, s, t, x);
        }
      }
    }
  }

  lemma Deeper(g: seq<Shape>, rank: seq<nat>, open: set<nat>, i: nat, k: nat)
    requires Ranked(g, rank) && Above(g, rank, open, i) && Reachable(g, i) && k < |g| && Linked(g, i, k)
    ensures Above(g, rank, open + {i}, k)
  {
    ReachableStep(g, i, k);
  }

  /** List slot `i` is open and its first `n` items are decoded. */
  ghost predicate ListOpen(s: State, i: nat, items: seq<Json>, n: nat) {
    && i < |s.cache| == |s.ready| && s.ready[i] && s.cache[i] == Ref(i) && i in s.heap
    && n <= |items| && ListFilled(items, n, s, s.heap[i])
    && forall m :: 0 <= m < n ==> IndexReady(s, items[m])
  }

  ghost predicate RecordOpen(s: State, i: nat, fields: map<string, Json>, keys: set<string>) {
    && i < |s.cache| == |s.ready| && s.ready[i] && s.cache[i] == Ref(i) && i in s.heap
    && keys <= fields.Keys && RecordFilled(fields, keys, s, s.heap[i])
    && forall key :: key in keys ==> IndexReady(s, fields[key])
  }

  /** The slot that an element names, if any, is ready. */
  ghost predicate IndexReady(s: State, el: Json)
    requires |s.cache| == |s.ready|
  {
    match Index(el, |s.ready|)
    case None => true
    case Some(k) => s.ready[k]
  }

  /** One round of the loop over a list: item `n` is decoded in `t` and stored. */
  lemma ListStep(s: State, t: State, i: nat, items: seq<Json>, n: nat, v: Value)
    requires ListOpen(s, i, items, n) && n < |items| && Kept(s, t)
    requires IndexReady(t, items[n]) && v == Elem(t.cache, items[n])
    ensures t.heap[i] == s.heap[i]
    ensures ListOpen(t.(heap := t.heap[i := Items(t.heap[i].items[n := v])]), i, items, n + 1)
    ensures Shared(s, t.(heap := t.heap[i := Items(t.heap[i].items[n := v])]), i)
  {
  }

  lemma RecordStep(s: State, t: State, i: nat, fields: map<string, Json>, keys: set<string>, key: string, v: Value)
    requires RecordOpen(s, i, fields, keys) && key in fields && Kept(s, t)
    requires IndexReady(t, fields[key]) && v == Elem(t.cache, fields[key])
    ensures t.heap[i] == s.heap[i]
    ensures RecordOpen(t.(heap := t.heap[i := Fields(t.heap[i].fields[key := v])]), i, fields, keys + {key})
    ensures Shared(s, t.(heap := t.heap[i := Fields(t.heap[i].fields[key := v])]), i)
  {
  }

  lemma ListClose(g: seq<Shape>, s: State, open: set<nat>, i: nat, items: seq<Json>, rank: seq<nat>)
    requires Inv(g, s, open + {i}) && i !in open && i < |g| && g[i] == Listing(items) && ListOpen(s, i, items, |items|)
    ensures Inv(g, s, open)
    ensures Ranked(g, rank) && Above(g, rank, open, i) && FaithInv(g, s, open + {i}) ==> FaithInv(g, s, open)
  {
    forall k | 0 <= k < |g| && Linked(g, i, k) ensures s.ready[k] {
      var m :| 0 <= m < |items| && Index(items[m], |g|) == Some(k);
      assert IndexReady(s, items[m]);
    }
    CloseInv(g, s, s, open, i, rank);
  }

  lemma RecordClose(g: seq<Shape>, s: State, open: set<nat>, i: nat, fields: map<string, Json>, rank: seq<nat>)
    requires Inv(g, s, open + {i}) && i !in open && i < |g| && g[i] == Record(fields) && RecordOpen(s, i, fields, fields.Keys)
    ensures Inv(g, s, open)
    ensures Ranked(g, rank) && Above(g, rank, open, i) && FaithInv(g, s, open + {i}) ==> FaithInv(g, s, open)
  {
    forall k | 0 <= k < |g| && Linked(g, i, k) ensures s.ready[k] {
      var key :| key in fields && Index(fields[key], |g|) == Some(k);
      assert IndexReady(s, fields[key]);
    }
    CloseInv(g, s, s, open, i, rank);
  }

  lemma ReviverClose(g: seq<Shape>, s0: State, s: State, open: set<nat>, i: nat, inner: nat, rank: seq<nat>)
    requires Inv(g, s, open + {i}) && i !in open && i < |g| && g[i] == Wrapper(inner) && inner < |g| && s.ready[inner]
    requires Kept(s0, s) && !s0.ready[i]
    ensures Inv(g, s.(cache := s.cache[i := s.cache[inner]]), open)
    ensures Kept(s0, s.(cache := s.cache[i := s.cache[inner]]))
    ensures Ranked(g, rank) && Above(g, rank, open, i) && FaithInv(g, s, open + {i})
      ==> FaithInv(g, s.(cache := s.cache[i := s.cache[inner]]), open)
  {
    CloseInv(g, s, s.(cache := s.cache[i := s.cache[inner]]), open, i, rank);
  }

  lemma KeptTransitive(s: State, t: State, u: State)
    requires Kept(s, t) && Kept(t, u)
    ensures Kept(s, u)
  {
  }

  lemma SharedTransitive(s: State, t: State, u: State, i: nat)
    requires Shared(s, t, i) && Shared(t, u, i)
    ensures Shared(s, u, i)
  {
  }

  lemma SharedLater(s: State, t: State, u: State, i: nat)
    requires Kept(s, t) && Shared(t, u, i) && i < |s.ready| && !s.ready[i]
    ensures Kept(s, u)
  {
  }

  class Decoder {
    const slots: seq<Json>
    ghost const g: seq<Shape>
    var cache: seq<Value>
    var ready: seq<bool>
    var heap: map<nat, Container>
    /** The slots in the order they were expanded. */
    ghost var expansions: seq<nat>

    constructor (slots: seq<Json>)
      ensures this.slots == slots && Wired()
      ensures Inv(g, S(), {}) && FaithInv(g, S(), {})
    {
      this.slots := slots;
      g := ShapesOf(slots);
      cache := seq(|slots|, _ => Plain(Null));
      ready := seq(|slots|, _ => false);
      heap := map[];
      expansions := [];
    }

    /** The graph is the graph of the payload. */
    ghost predicate Wired() {
      |g| == |slots| && forall i {:trigger ShapeOf(slots, i)} :: 0 <= i < |slots| ==> g[i] == ShapeOf(slots, i)
    }

    ghost function S(): State
      reads this
    {
      State(cache, ready, heap, expansions)
    }

    method Mark(i: nat, v: Value)
      requires i < |cache| == |ready| && !ready[i]
      modifies this
      ensures S() == old(Marked(S(), i, v)) && Pending(ready) < old(Pending(ready))
    {
      MarkShrinks(ready, i);
      cache := cache[i := v];
      ready := ready[i := true];
      expansions := expansions + [i];
    }

    /** Stores an empty container for slot `i` before its elements are decoded. */
    method Begin(i: nat, c: Container, ghost open: set<nat>)
      requires Inv(g, S(), open) && i < |g| && !ready[i] && Reachable(g, i) && Expandable(g, i)
      modifies this
      ensures S() == old(Opened(S(), i, c)) && Inv(g, S(), open + {i}) && Kept(old(S()), S())
      ensures old(FaithInv(g, S(), open)) ==> FaithInv(g, S(), open + {i})
      ensures Pending(ready) < old(Pending(ready))
    {
      OpenInv(g, S(), Opened(S(), i, c), open, i);
      Mark(i, Ref(i));
      heap := heap[i := c];
    }

    /** Decodes slot `i`. Every slot in `open` is being expanded by a caller. */
    method Walk(i: nat, ghost open: set<nat>, ghost rank: seq<nat>) returns (r: Result<Value, Fault>)
      requires Wired() && Inv(g, S(), open)
      requires i < |g| ==> Reachable(g, i)
      modifies this
      ensures r.Ok? ==>
        && i < |g| && Inv(g, S(), open) && ready[i] && r.value == cache[i]
        && Kept(old(S()), S()) && Pending(ready) <= old(Pending(ready))
      ensures r.Err? ==> if i < |g| then r.error == BadNumber && Broken(g) else r.error == IndexOutOfRange
      ensures r.Ok? && Ranked(g, rank) && Above(g, rank, open, i) && old(FaithInv(g, S(), open))
        ==> FaithInv(g, S(), open)
      decreases Pending(ready), 1
    {
      if i >= |slots| {
        return Err(IndexOutOfRange);
      }
      if ready[i] {
        return Ok(cache[i]);
      }
      match ShapeOf(slots, i)
      case Unreadable =>
        Mark(i, Plain(Null));
        return Err(BadNumber);
      case Scalar(j) =>
        ScalarInv(g, S(), open, i, Plain(j));
        Mark(i, Plain(j));
        return Ok(cache[i]);
      case Hollow =>
        ScalarInv(g, S(), open, i, Plain(Null));
        Mark(i, Plain(Null));
        return Ok(Plain(Null));
      case Wrapper(inner) =>
        r := WalkReviver(i, inner, open, rank);
      case Listing(items) =>
        r := WalkList(i, items, open, rank);
      case Record(fields) =>
        r := WalkRecord(i, fields, open, rank);
    }

    method WalkReviver(i: nat, inner: nat, ghost open: set<nat>, ghost rank: seq<nat>) returns (r: Result<Value, Fault>)
      requires Wired() && Inv(g, S(), open) && i < |g| && !ready[i] && Reachable(g, i)
      requires g[i] == Wrapper(inner) && inner < |g|
      modifies this
      ensures r.Ok? ==>
        && Inv(g, S(), open) && ready[i] && r.value == cache[i]
        && Kept(old(S()), S()) && Pending(ready) <= old(Pending(ready))
      ensures r.Err? ==> r.error == BadNumber && Broken(g)
      ensures r.Ok? && Ranked(g, rank) && Above(g, rank, open, i) && old(FaithInv(g, S(), open))
        ==> FaithInv(g, S(), open)
      ensures r.Ok? ==> cache[i] == cache[inner]
      decreases Pending(ready), 0
    {
      hide Settled, Explored, Logged, Reachable, FaithInv;
      ghost var s0 := S();
      OpenInv(g, s0, Marked(s0, i, Plain(Null)), open, i);
      Mark(i, Plain(Null));
      assert Linked(g, i, inner);
      ReachableStep(g, i, inner);
      if Ranked(g, rank) && Above(g, rank, open, i) {
        Deeper(g, rank, open, i, inner);
      }
      ghost var s1 := S();
      r := Walk(inner, open + {i}, rank);
      if r.Ok? {
        KeptTransitive(s0, s1, S());
        ReviverClose(g, s0, S(), open, i, inner, rank);
        cache := cache[i := r.value];
      }
    }

    /** Decodes one element of the open container `i`. */
    method WalkElement(i: nat, el: Json, ghost open: set<nat>, ghost rank: seq<nat>) returns (r: Result<Value, Fault>)
      requires Wired() && Inv(g, S(), open + {i}) && i < |g| && Reachable(g, i)
      requires forall k :: 0 <= k < |g| && Index(el, |g|) == Some(k) ==> Linked(g, i, k)
      modifies this
      ensures r.Ok? ==>
        && Inv(g, S(), open + {i}) && Kept(old(S()), S()) && Pending(ready) <= old(Pending(ready))
        && IndexReady(S(), el) && r.value == Elem(cache, el)
      ensures r.Err? ==> r.error == BadNumber && Broken(g)
      ensures r.Ok? && Ranked(g, rank) && Above(g, rank, open, i) && old(FaithInv(g, S(), open + {i}))
        ==> FaithInv(g, S(), open + {i})
      decreases Pending(ready), 2
    {
      match Index(el, |cache|)
      case None =>
        r := Ok(Plain(el));
      case Some(k) =>
        ReachableStep(g, i, k);
        if Ranked(g, rank) && Above(g, rank, open, i) {
          Deeper(g, rank, open, i, k);
        }
        r := Walk(k, open + {i}, rank);
    }

    /** Writes into the open container `i`. */
    method Store(i: nat, c: Container, ghost open: set<nat>)
      requires Inv(g, S(), open) && i in open && i < |g| && Expandable(g, i)
      modifies this`heap
      ensures heap == old(heap)[i := c] && Inv(g, S(), open)
      ensures old(FaithInv(g, S(), open)) ==> FaithInv(g, S(), open)
    {
      WriteInv(g, S(), open, i, c);
      heap := heap[i := c];
    }

    /** One round of the loop over a list. */
    method ListRound(i: nat, items: seq<Json>, j: nat, ghost open: set<nat>, ghost rank: seq<nat>) returns (fault: Option<Fault>)
      requires Wired() && Inv(g, S(), open + {i}) && i < |g| && Reachable(g, i)
      requires g[i] == Listing(items) && j < |items| && ListOpen(S(), i, items, j)
      modifies this
      ensures fault.None? ==>
        && Inv(g, S(), open + {i}) && Shared(old(S()), S(), i) && Pending(ready) <= old(Pending(ready))
        && ListOpen(S(), i, items, j + 1)
      ensures fault.Some? ==> fault.value == BadNumber && Broken(g)
      ensures fault.None? && Ranked(g, rank) && Above(g, rank, open, i) && old(FaithInv(g, S(), open + {i}))
        ==> FaithInv(g, S(), open + {i})
      decreases Pending(ready), 3
    {
      hide Settled, Explored, Logged, Reachable;
      var r := WalkElement(i, items[j], open, rank);
      if r.Err? {
        return Some(r.error);
      }
      ListStep(old(S()), S(), i, items, j, r.value);
      Store(i, Items(heap[i].items[j := r.value]), open + {i});
      fault := None;
    }

    /** One round of the loop over a record; `keys` are the keys already done. */
    method RecordRound(
        i: nat, fields: map<string, Json>, key: string, ghost keys: set<string>, ghost open: set<nat>, ghost rank: seq<nat>)
      returns (fault: Option<Fault>)
      requires Wired() && Inv(g, S(), open + {i}) && i < |g| && Reachable(g, i)
      requires g[i] == Record(fields) && key in fields && RecordOpen(S(), i, fields, keys)
      modifies this
      ensures fault.None? ==>
        && Inv(g, S(), open + {i}) && Shared(old(S()), S(), i) && Pending(ready) <= old(Pending(ready))
        && RecordOpen(S(), i, fields, keys + {key})
      ensures fault.Some? ==> fault.value == BadNumber && Broken(g)
      ensures fault.None? && Ranked(g, rank) && Above(g, rank, open, i) && old(FaithInv(g, S(), open + {i}))
        ==> FaithInv(g, S(), open + {i})
      decreases Pending(ready), 3
    {
      hide Settled, Explored, Logged, Reachable;
      var r := WalkElement(i, fields[key], open, rank);
      if r.Err? {
        return Some(r.error);
      }
      RecordStep(old(S()), S(), i, fields, keys, key, r.value);
      Store(i, Fields(heap[i].fields[key := r.value]), open + {i});
      fault := None;
    }

    method WalkList(i: nat, items: seq<Json>, ghost open: set<nat>, ghost rank: seq<nat>) returns (r: Result<Value, Fault>)
      requires Wired() && Inv(g, S(), open) && i < |g| && !ready[i] && Reachable(g, i)
      requires g[i] == Listing(items)
      modifies this
      ensures r.Ok? ==>
        && Inv(g, S(), open) && ready[i] && r.value == cache[i]
        && Kept(old(S()), S()) && Pending(ready) <= old(Pending(ready))
      ensures r.Err? ==> r.error == BadNumber && Broken(g)
      ensures r.Ok? && Ranked(g, rank) && Above(g, rank, open, i) && old(FaithInv(g, S(), open))
        ==> FaithInv(g, S(), open)
      decreases Pending(ready), 0
    {
      ghost var s0 := S();
      Begin(i, Items(seq(|items|, _ => Plain(Null))), open);
      for j := 0 to |items|
        invariant Inv(g, S(), open + {i}) && Shared(s0, S(), i) && ListOpen(S(), i, items, j)
        invariant Pending(ready) < Pending(s0.ready)
        invariant Ranked(g, rank) && Above(g, rank, open, i) && FaithInv(g, s0, open) ==> FaithInv(g, S(), open + {i})
      {
        var fault := ListRound(i, items, j, open, rank);
        if fault.Some? {
          return Err(fault.value);
        }
      }
      ListClose(g, S(), open, i, items, rank);
      r := Ok(Ref(i));
    }

    method WalkRecord(i: nat, fields: map<string, Json>, ghost open: set<nat>, ghost rank: seq<nat>) returns (r: Result<Value, Fault>)
      requires Wired() && Inv(g, S(), open) && i < |g| && !ready[i] && Reachable(g, i)
      requires g[i] == Record(fields)
      modifies this
      ensures r.Ok? ==>
        && Inv(g, S(), open) && ready[i] && r.value == cache[i]
        && Kept(old(S()), S()) && Pending(ready) <= old(Pending(ready))
      ensures r.Err? ==> r.error == BadNumber && Broken(g)
      ensures r.Ok? && Ranked(g, rank) && Above(g, rank, open, i) && old(FaithInv(g, S(), open))
        ==> FaithInv(g, S(), open)
      decreases Pending(ready), 0
    {
      hide Settled, Explored, Logged, Reachable;
      ghost var s0 := S();
      Begin(i, Fields(map[]), open);
      ghost var s1 := S();
      var fault := FillRecord(i, fields, open, rank);
      if fault.Some? {
        return Err(fault.value);
      }
      SharedLater(s0, s1, S(), i);
      RecordClose(g, S(), open, i, fields, rank);
      r := Ok(Ref(i));
    }

    /** The loop over a record, in whatever order the map yields its keys. */
    method FillRecord(i: nat, fields: map<string, Json>, ghost open: set<nat>, ghost rank: seq<nat>) returns (fault: Option<Fault>)
      requires Wired() && Inv(g, S(), open + {i}) && i < |g| && Reachable(g, i)
      requires g[i] == Record(fields) && RecordOpen(S(), i, fields, {})
      modifies this
      ensures fault.None? ==>
        && Inv(g, S(), open + {i}) && Shared(old(S()), S(), i) && Pending(ready) <= old(Pending(ready))
        && RecordOpen(S(), i, fields, fields.Keys)
      ensures fault.Some? ==> fault.value == BadNumber && Broken(g)
      ensures fault.None? && Ranked(g, rank) && Above(g, rank, open, i) && old(FaithInv(g, S(), open + {i}))
        ==> FaithInv(g, S(), open + {i})
      decreases Pending(ready), 4
    {
      hide Settled, Explored, Logged, Reachable;
      ghost var s0 := S();
      var rest := fields.Keys;
      ghost var keys: set<string> := {};
      while rest != {}
        invariant keys <= fields.Keys && rest == fields.Keys - keys
        invariant Inv(g, S(), open + {i}) && Shared(s0, S(), i) && RecordOpen(S(), i, fields, keys)
        invariant Pending(ready) <= Pending(s0.ready)
        invariant Ranked(g, rank) && Above(g, rank, open, i) && FaithInv(g, s0, open + {i}) ==> FaithInv(g, S(), open + {i})
      {
        ghost var s := S();
        var key :| key in rest;
        fault := RecordRound(i, fields, key, keys, open, rank);
        if fault.Some? {
          return;
        }
        SharedTransitive(s0, s, S(), i);
        keys := keys + {key};
        rest := rest - {key};
      }
      assert keys == fields.Keys;
      fault := None;
    }
  }

  /** What a stored value denotes when containers are opened down to depth `n`. */
  function HeapTree(heap: map<nat, Container>, v: Value, n: nat): Json
    decreases n
  {
    match v
    case Plain(json) => json
    case Ref(slot) =>
      if n == 0 || slot !in heap then Null
      else match heap[slot]
        case Items(items) =>
          List(seq(|items|, j requires 0 <= j < |items| => HeapTree(heap, items[j], n - 1)))
        case Fields(fields) => Object(map key | key in fields :: HeapTree(heap, fields[key], n - 1))
  }

  /** What slot `i` of the payload denotes down to depth `n`, with revivers transparent. */
  ghost function SlotTree(g: seq<Shape>, part: set<nat>, rank: seq<nat>, i: nat, n: nat): Json
    requires RankedOn(g, part, rank) && i in part
    decreases n, 1 + rank[i]
  {
    match g[i]
    case Scalar(json) => json
    case Unreadable => Null
    case Hollow => Null
    case Wrapper(k) => if k < |g| then assert Linked(g, i, k); SlotTree(g, part, rank, k, n) else Null
    case Listing(items) =>
      if n == 0 then Null
      else List(seq(|items|, j requires 0 <= j < |items| => ElemTree(g, part, rank, i, items[j], n - 1)))
    case Record(fields) =>
      if n == 0 then Null else Object(map key | key in fields :: ElemTree(g, part, rank, i, fields[key], n - 1))
  }

  /** An element of slot `i`. */
  ghost function ElemTree(g: seq<Shape>, part: set<nat>, rank: seq<nat>, i: nat, el: Json, n: nat): Json
    requires RankedOn(g, part, rank) && i in part && Within(g, i, el)
    decreases n + 1, 0
  {
    match Index(el, |g|)
    case None => el
    case Some(k) => assert Linked(g, i, k); SlotTree(g, part, rank, k, n)
  }

  /** The plain recursive unfolding of an acyclic part of a payload. */
  ghost function PlainTree(g: seq<Shape>, part: set<nat>, rank: seq<nat>, i: nat): Json
    requires AcyclicOn(g, part, rank) && i in part
    decreases rank[i], 1
  {
    match g[i]
    case Scalar(json) => json
    case Unreadable => Null
    case Hollow => Null
    case Wrapper(k) => if k < |g| then assert Linked(g, i, k); PlainTree(g, part, rank, k) else Null
    case Listing(items) =>
      List(seq(|items|, j requires 0 <= j < |items| => PlainElem(g, part, rank, i, items[j])))
    case Record(fields) => Object(map key | key in fields :: PlainElem(g, part, rank, i, fields[key]))
  }

  ghost function PlainElem(g: seq<Shape>, part: set<nat>, rank: seq<nat>, i: nat, el: Json): Json
    requires AcyclicOn(g, part, rank) && i in part && Within(g, i, el)
    decreases rank[i], 0
  {
    match Index(el, |g|)
    case None => el
    case Some(k) => assert Linked(g, i, k); PlainTree(g, part, rank, k)
  }

  ghost predicate Within(g: seq<Shape>, i: nat, el: Json)
    requires i < |g|
  {
    match g[i]
    case Listing(items) => el in items
    case Record(fields) => exists key :: key in fields && fields[key] == el
    case _ => false
  }

  /** In a decoded payload the shared heap reads like the unfolding, to any depth and from any finished slot. */
  lemma {:induction false} HeapUnfolds(g: seq<Shape>, s: State, rank: seq<nat>, i: nat, n: nat)
    requires Inv(g, s, {}) && FaithInv(g, s, {}) && Ranked(g, rank) && i < |g| && s.ready[i]
    ensures i in Region(g) && HeapTree(s.heap, s.cache[i], n) == SlotTree(g, Region(g), rank, i, n)
    decreases n, 1 + rank[i]
  {
    hide Inv, FaithInv, HeapTree, SlotTree, ElemTree;
    Finished(g, s, rank, i);
    match g[i]
    case Wrapper(k) =>
      ReadyLink(g, s, i, k);
      HeapUnfolds(g, s, rank, k, n);
      WrapperUnfolds(g, s, rank, i, k, n);
    case Listing(items) =>
      if n > 0 {
        forall j | 0 <= j < |items|
          ensures HeapTree(s.heap, Elem(s.cache, items[j]), n - 1) == ElemTree(g, Region(g), rank, i, items[j], n - 1)
        {
          ElemUnfolds(g, s, rank, i, items[j], n - 1);
        }
      }
      ListUnfolds(g, s, rank, i, items, n);
    case Record(fields) =>
      if n > 0 {
        forall key | key in fields
          ensures HeapTree(s.heap, Elem(s.cache, fields[key]), n - 1) == ElemTree(g, Region(g), rank, i, fields[key], n - 1)
        {
          ElemUnfolds(g, s, rank, i, fields[key], n - 1);
        }
      }
      RecordUnfolds(g, s, rank, i, fields, n);
    case _ => ScalarUnfolds(g, s, rank, i, n);
  }

  lemma Finished(g: seq<Shape>, s: State, rank: seq<nat>, i: nat)
    requires Inv(g, s, {}) && FaithInv(g, s, {}) && Ranked(g, rank) && i < |g| && s.ready[i]
    ensures |s.cache| == |s.ready| == |g| && i in Region(g) && Settled(g, s, {}, i) && Faithful(g, s, i)
  {
  }

  /** What a finished slot refers to is finished. */
  lemma ReadyLink(g: seq<Shape>, s: State, i: nat, k: nat)
    requires Inv(g, s, {}) && i < |g| && s.ready[i] && k < |g| && Linked(g, i, k)
    ensures s.ready[k]
  {
    assert Explored(g, s, i);
  }

  lemma {:induction false} ElemUnfolds(g: seq<Shape>, s: State, rank: seq<nat>, i: nat, el: Json, n: nat)
    requires Inv(g, s, {}) && FaithInv(g, s, {}) && Ranked(g, rank) && i < |g| && s.ready[i] && Within(g, i, el)
    ensures i in Region(g) && HeapTree(s.heap, Elem(s.cache, el), n) == ElemTree(g, Region(g), rank, i, el, n)
    decreases n + 1, 0
  {
    hide Inv, FaithInv, Settled, Faithful;
    Finished(g, s, rank, i);
    match Index(el, |g|)
    case None =>
    case Some(k) =>
      assert Linked(g, i, k);
      ReadyLink(g, s, i, k);
      HeapUnfolds(g, s, rank, k, n);
  }

  lemma ListUnfolds(g: seq<Shape>, s: State, rank: seq<nat>, i: nat, items: seq<Json>, n: nat)
    requires i < |g| == |s.cache| && g[i] == Listing(items) && s.cache[i] == Ref(i) && Ranked(g, rank) && i in Region(g)
    requires Filled(g, s, i)
    requires n > 0 ==> forall j :: 0 <= j < |items| ==>
      HeapTree(s.heap, Elem(s.cache, items[j]), n - 1) == ElemTree(g, Region(g), rank, i, items[j], n - 1)
    ensures HeapTree(s.heap, s.cache[i], n) == SlotTree(g, Region(g), rank, i, n)
  {
    hide Region, RankedOn, ElemTree, Elem;
  }

  lemma RecordUnfolds(g: seq<Shape>, s: State, rank: seq<nat>, i: nat, fields: map<string, Json>, n: nat)
    requires i < |g| == |s.cache| && g[i] == Record(fields) && s.cache[i] == Ref(i) && Ranked(g, rank) && i in Region(g)
    requires Filled(g, s, i)
    requires n > 0 ==> forall key :: key in fields ==>
      HeapTree(s.heap, Elem(s.cache, fields[key]), n - 1) == ElemTree(g, Region(g), rank, i, fields[key], n - 1)
    ensures HeapTree(s.heap, s.cache[i], n) == SlotTree(g, Region(g), rank, i, n)
  {
    hide Region, RankedOn, ElemTree, Elem;
  }

  lemma ScalarUnfolds(g: seq<Shape>, s: State, rank: seq<nat>, i: nat, n: nat)
    requires i < |g| == |s.cache| && Settled(g, s, {}, i) && (g[i].Scalar? || g[i].Hollow?)
    requires Ranked(g, rank) && i in Region(g)
    ensures HeapTree(s.heap, s.cache[i], n) == SlotTree(g, Region(g), rank, i, n)
  {
    hide Region, RankedOn;
  }

  lemma WrapperUnfolds(g: seq<Shape>, s: State, rank: seq<nat>, i: nat, k: nat, n: nat)
    requires i < |g| == |s.cache| && g[i] == Wrapper(k) && Faithful(g, s, i)
    requires Ranked(g, rank) && i in Region(g) && k in Region(g)
    requires HeapTree(s.heap, s.cache[k], n) == SlotTree(g, Region(g), rank, k, n)
    ensures HeapTree(s.heap, s.cache[i], n) == SlotTree(g, Region(g), rank, i, n)
  {
    hide Region, RankedOn, HeapTree;
  }

  lemma AcyclicRanked(g: seq<Shape>, rank: seq<nat>)
    requires Acyclic(g, rank)
    ensures Ranked(g, rank)
  {
    hide Region;
  }

  /** On an acyclic part a deep enough unfolding is the whole unfolding. */
  lemma {:induction false} DeepEnough(g: seq<Shape>, part: set<nat>, rank: seq<nat>, i: nat, n: nat)
    requires AcyclicOn(g, part, rank) && RankedOn(g, part, rank) && i in part && n > rank[i]
    ensures SlotTree(g, part, rank, i, n) == PlainTree(g, part, rank, i)
    decreases rank[i], 1
  {
    match g[i]
    case Wrapper(k) =>
      if k < |g| {
        assert Linked(g, i, k);
        DeepEnough(g, part, rank, k, n);
      }
    case Listing(items) =>
      forall j | 0 <= j < |items|
        ensures ElemTree(g, part, rank, i, items[j], n - 1) == PlainElem(g, part, rank, i, items[j])
      {
        DeepElem(g, part, rank, i, items[j], n - 1);
      }
    case Record(fields) =>
      forall key | key in fields
        ensures ElemTree(g, part, rank, i, fields[key], n - 1) == PlainElem(g, part, rank, i, fields[key])
      {
        DeepElem(g, part, rank, i, fields[key], n - 1);
      }
    case _ =>
  }

  lemma {:induction false} DeepElem(g: seq<Shape>, part: set<nat>, rank: seq<nat>, i: nat, el: Json, n: nat)
    requires AcyclicOn(g, part, rank) && RankedOn(g, part, rank) && i in part && Within(g, i, el) && n >= rank[i]
    ensures ElemTree(g, part, rank, i, el, n) == PlainElem(g, part, rank, i, el)
    decreases rank[i], 0
  {
    match Index(el, |g|)
    case None =>
    case Some(k) =>
      assert Linked(g, i, k);
      DeepEnough(g, part, rank, k, n);
  }

  /** When the walk is over, the ready slots are exactly the reachable ones. */
  lemma ReadyIsReachable(g: seq<Shape>, s: State, i: nat)
    requires Inv(g, s, {}) && |g| > 0 && s.ready[0] && i < |g|
    ensures s.ready[i] <==> Reachable(g, i)
  {
    if Reachable(g, i) {
      var n: nat :| ReachedBy(g, i, n);
      var done := set k: nat | k < |g| && s.ready[k];
      forall x, k: nat | x in done && x < |g| && k < |g| && Linked(g, x, k) ensures k in done {
        assert Explored(g, s, x);
      }
      ClosedHoldsReachable(g, done, i, n);
    }
  }

  // What a payload means, said of its slots alone.

  /** A two-element list whose head is one of these names stands for the slot it names; a lone name stands for null. */
  predicate RevivesBy(name: string) {
    || name == "EmptyShallowRef" || name == "EmptyRef" || name == "ShallowRef" || name == "ShallowReactive"
    || name == "Ref" || name == "Reactive" || name == "NuxtError"
  }

  /** The list stands for slot `k`. */
  predicate StandsFor(v: seq<Json>, slots: seq<Json>, k: nat) {
    |v| == 2 && v[0].Str? && RevivesBy(v[0].text) && v[1] == Num(Whole(k)) && k < |slots|
  }

  ghost predicate StandsForSome(v: seq<Json>, slots: seq<Json>) {
    exists k: nat :: StandsFor(v, slots, k)
  }

  predicate IsLoneName(v: seq<Json>) {
    |v| == 1 && v[0].Str? && RevivesBy(v[0].text)
  }

  /** The slot holds the number of slot `k`, whatever it is itself. */
  predicate Names(slot: Json, k: nat) {
    match slot
    case List(v) => Num(Whole(k)) in v
    case Object(f) => Num(Whole(k)) in f.Values
    case _ => false
  }

  /** From slot 0, `n` numbers lead to slot `i`. */
  ghost predicate LedTo(slots: seq<Json>, i: nat, n: nat)
    decreases n
  {
    && i < |slots|
    && if n == 0 then i == 0 else exists k: nat :: k < |slots| && LedTo(slots, k, n - 1) && Names(slots[k], i)
  }

  ghost predicate Led(slots: seq<Json>, i: nat) {
    exists n: nat :: LedTo(slots, i, n)
  }

  /** No slot that stands for another lies on a cycle: a ranking never rises, and falls out of such a slot. */
  ghost predicate Unlooped(slots: seq<Json>, rank: seq<nat>) {
    && |rank| == |slots|
    && forall i: nat, k: nat :: Led(slots, i) && k < |slots| && i < |slots| && Names(slots[i], k) ==>
         rank[k] <= rank[i] && (slots[i].List? && StandsFor(slots[i].items, slots, k) ==> rank[k] < rank[i])
  }

  /** A tree for each slot and each depth. */
  type Trees = (nat, nat) -> Json

  /** An element is what the slot it names is, or itself where it names none. */
  predicate ElemMeans(slots: seq<Json>, t: Trees, el: Json, tree: Json, n: nat) {
    if el.Num? && el.number.Whole? && 0 <= el.number.value < |slots| then tree == t(el.number.value, n) else tree == el
  }

  /** What the tree of slot `i` to depth `n` has to be. */
  ghost predicate Means(slots: seq<Json>, t: Trees, i: nat, n: nat)
    requires i < |slots|
  {
    match slots[i]
    case Num(Overflow) => true
    case List(v) =>
      if IsLoneName(v) then t(i, n) == Null
      else if StandsForSome(v, slots) then forall k: nat :: StandsFor(v, slots, k) ==> t(i, n) == t(k, n)
      else if n == 0 then t(i, n) == Null
      else
        && t(i, n).List? && |t(i, n).items| == |v|
        && forall j :: 0 <= j < |v| ==> ElemMeans(slots, t, v[j], t(i, n).items[j], n - 1)
    case Object(f) =>
      if n == 0 then t(i, n) == Null
      else
        && t(i, n).Object? && t(i, n).fields.Keys == f.Keys
        && forall key :: key in f ==> ElemMeans(slots, t, f[key], t(i, n).fields[key], n - 1)
    case other => t(i, n) == other
  }

  ghost predicate Lawful(slots: seq<Json>, t: Trees) {
    forall i: nat, n: nat :: i < |slots| && Led(slots, i) ==> Means(slots, t, i, n)
  }

  /** The graph the decoder walks has a link exactly where a slot holds the number of another. */
  lemma LinkedIff(slots: seq<Json>, i: nat, k: nat)
    requires i < |slots| && k < |slots|
    ensures Linked(ShapesOf(slots), i, k) <==> Names(slots[i], k)
  {
    var g := ShapesOf(slots);
    assert g[i] == ShapeOf(slots, i);
    match slots[i]
    case List(v) =>
      if Num(Whole(k)) in v {
        var j :| 0 <= j < |v| && v[j] == Num(Whole(k));
        assert Index(v[j], |g|) == Some(k);
      }
    case Object(f) =>
      if Num(Whole(k)) in f.Values {
        var key :| key in f && f[key] == Num(Whole(k));
        assert Index(f[key], |g|) == Some(k);
      }
    case _ =>
  }

  lemma {:induction false} ReachedIff(slots: seq<Json>, i: nat, n: nat)
    ensures ReachedBy(ShapesOf(slots), i, n) <==> LedTo(slots, i, n)
    decreases n
  {
    hide Linked, Names, ShapesOf;
    if n == 0 || i >= |slots| {
    } else {
      forall k: nat | k < |slots|
        ensures ReachedBy(ShapesOf(slots), k, n - 1) && Linked(ShapesOf(slots), k, i) <==> LedTo(slots, k, n - 1) && Names(slots[k], i)
      {
        ReachedIff(slots, k, n - 1);
        LinkedIff(slots, k, i);
      }
    }
  }

  lemma LedIff(slots: seq<Json>, i: nat)
    ensures Reachable(ShapesOf(slots), i) <==> Led(slots, i)
  {
    hide ReachedBy, LedTo;
    forall n: nat ensures ReachedBy(ShapesOf(slots), i, n) <==> LedTo(slots, i, n) {
      ReachedIff(slots, i, n);
    }
  }

  /** The shape of a list slot, by the names alone. */
  lemma ListShapeIs(slots: seq<Json>, i: nat, v: seq<Json>)
    requires i < |slots| && slots[i] == List(v)
    ensures ShapesOf(slots)[i] == Hollow <==> IsLoneName(v)
    ensures forall k: nat :: ShapesOf(slots)[i] == Wrapper(k) <==> StandsFor(v, slots, k)
    ensures !IsLoneName(v) && !StandsForSome(v, slots) <==> ShapesOf(slots)[i] == Listing(v)
  {
    assert ShapesOf(slots)[i] == ListShape(v, |slots|);
    if |v| == 2 && Index(v[1], |slots|).Some? {
      var k := Index(v[1], |slots|).value;
      assert v[1] == Num(Whole(k));
      assert StandsFor(v, slots, k) <==> v[0].Str? && RevivesBy(v[0].text);
    }
  }

  lemma UnloopedIff(slots: seq<Json>, rank: seq<nat>)
    ensures Unlooped(slots, rank) <==> Ranked(ShapesOf(slots), rank)
  {
    hide ShapesOf, Linked, Names, Reachable, Led, StandsFor;
    var g := ShapesOf(slots);
    forall i: nat ensures i in Region(g) <==> Led(slots, i) && i < |slots| {
      LedIff(slots, i);
    }
    forall i: nat, k: nat | i < |slots| && k < |slots|
      ensures Linked(g, i, k) <==> Names(slots[i], k)
      ensures Linked(g, i, k) ==> (Opaque(g, i) <==> slots[i].List? && StandsFor(slots[i].items, slots, k))
    {
      LinkedIff(slots, i, k);
      OpaqueIff(slots, i, k);
    }
    forall i: nat, k: nat | i in Region(g) && k < |g| && Linked(g, i, k) ensures k in Region(g) {
      ReachableStep(g, i, k);
    }
  }

  lemma OpaqueIff(slots: seq<Json>, i: nat, k: nat)
    requires i < |slots| && k < |slots|
    ensures Linked(ShapesOf(slots), i, k) ==>
      (Opaque(ShapesOf(slots), i) <==> slots[i].List? && StandsFor(slots[i].items, slots, k))
  {
    var g := ShapesOf(slots);
    assert g[i] == ShapeOf(slots, i);
    if slots[i].List? {
      hide ShapesOf, ListShape, StandsFor;
      ListShapeIs(slots, i, slots[i].items);
    }
  }

  lemma NextSlot(g: seq<Shape>, rank: seq<nat>, i: nat, k: nat)
    requires Ranked(g, rank) && i in Region(g) && k < |g| && Linked(g, i, k)
    ensures k in Region(g) && rank[k] <= rank[i] && (Opaque(g, i) ==> rank[k] < rank[i])
  {
  }

  lemma LawAt(slots: seq<Json>, t: Trees, i: nat, n: nat)
    requires Lawful(slots, t) && i in Region(ShapesOf(slots))
    ensures i < |slots| && Means(slots, t, i, n)
  {
    LedIff(slots, i);
  }

  /** The laws leave no choice: trees that obey them are the unfolding of the graph the decoder walks. */
  lemma {:induction false} LawsDecide(slots: seq<Json>, rank: seq<nat>, t: Trees, i: nat, n: nat)
    requires Ranked(ShapesOf(slots), rank) && Lawful(slots, t) && i in Region(ShapesOf(slots)) && !Broken(ShapesOf(slots))
    ensures t(i, n) == SlotTree(ShapesOf(slots), Region(ShapesOf(slots)), rank, i, n)
    decreases n, 1 + rank[i], 1
  {
    hide Region, ShapesOf, Lawful, Means, RankedOn, Linked, Broken, SlotTree, ElemTree;
    InRegion(ShapesOf(slots), rank, i);
    LawAt(slots, t, i, n);
    match slots[i]
    case List(v) => LawsDecideList(slots, rank, t, i, n, v);
    case Object(f) =>
      if n > 0 {
        forall key | key in f
          ensures ElemMeans(slots, t, f[key], ElemTree(ShapesOf(slots), Region(ShapesOf(slots)), rank, i, f[key], n - 1), n - 1)
        {
          LawsDecideElem(slots, rank, t, i, f[key], n - 1);
        }
      }
      ObjectDecided(slots, rank, t, i, n, f);
    case _ => ScalarDecided(slots, rank, t, i, n);
  }

  lemma {:induction false} LawsDecideList(slots: seq<Json>, rank: seq<nat>, t: Trees, i: nat, n: nat, v: seq<Json>)
    requires Ranked(ShapesOf(slots), rank) && Lawful(slots, t) && i in Region(ShapesOf(slots)) && !Broken(ShapesOf(slots))
    requires slots[i] == List(v)
    ensures t(i, n) == SlotTree(ShapesOf(slots), Region(ShapesOf(slots)), rank, i, n)
    decreases n, 1 + rank[i], 0
  {
    hide Region, ShapesOf, Lawful, RankedOn, Broken, ElemTree, ElemMeans, StandsFor, IsLoneName;
    InRegion(ShapesOf(slots), rank, i);
    LawAt(slots, t, i, n);
    ListShapeIs(slots, i, v);
    var g := ShapesOf(slots);
    if g[i].Hollow? {
    } else if g[i].Wrapper? {
      var k := g[i].inner;
      assert StandsFor(v, slots, k);
      StandsInside(v, slots, k);
      NextSlot(g, rank, i, k);
      LawsDecide(slots, rank, t, k, n);
    } else {
      if n > 0 {
        forall j | 0 <= j < |v| ensures ElemMeans(slots, t, v[j], ElemTree(g, Region(g), rank, i, v[j], n - 1), n - 1) {
          LawsDecideElem(slots, rank, t, i, v[j], n - 1);
        }
      }
      ListDecided(slots, rank, t, i, n, v);
    }
  }

  lemma StandsInside(v: seq<Json>, slots: seq<Json>, k: nat)
    requires StandsFor(v, slots, k)
    ensures k < |slots|
  {
  }

  lemma {:induction false} LawsDecideElem(slots: seq<Json>, rank: seq<nat>, t: Trees, i: nat, el: Json, n: nat)
    requires Ranked(ShapesOf(slots), rank) && Lawful(slots, t) && i in Region(ShapesOf(slots)) && !Broken(ShapesOf(slots))
    requires Within(ShapesOf(slots), i, el)
    ensures ElemMeans(slots, t, el, ElemTree(ShapesOf(slots), Region(ShapesOf(slots)), rank, i, el, n), n)
    decreases n + 1, 0, 0
  {
    hide Region, ShapesOf, Lawful, RankedOn, Broken, SlotTree;
    var g := ShapesOf(slots);
    InRegion(g, rank, i);
    match Index(el, |g|)
    case None =>
    case Some(k) =>
      assert Linked(g, i, k);
      NextSlot(g, rank, i, k);
      LawsDecide(slots, rank, t, k, n);
  }

  lemma SameElem(slots: seq<Json>, t: Trees, el: Json, a: Json, b: Json, n: nat)
    requires ElemMeans(slots, t, el, a, n) && ElemMeans(slots, t, el, b, n)
    ensures a == b
  {
  }

  lemma ListDecided(slots: seq<Json>, rank: seq<nat>, t: Trees, i: nat, n: nat, v: seq<Json>)
    requires Ranked(ShapesOf(slots), rank) && i in Region(ShapesOf(slots))
    requires slots[i] == List(v) && ShapesOf(slots)[i] == Listing(v) && Means(slots, t, i, n)
    requires n > 0 ==> forall j :: 0 <= j < |v| ==>
      ElemMeans(slots, t, v[j], ElemTree(ShapesOf(slots), Region(ShapesOf(slots)), rank, i, v[j], n - 1), n - 1)
    ensures t(i, n) == SlotTree(ShapesOf(slots), Region(ShapesOf(slots)), rank, i, n)
  {
    hide Region, ShapesOf, RankedOn, ElemTree, ElemMeans, StandsFor, IsLoneName;
    InRegion(ShapesOf(slots), rank, i);
    ListShapeIs(slots, i, v);
    if n > 0 {
      forall j | 0 <= j < |v|
        ensures t(i, n).items[j] == ElemTree(ShapesOf(slots), Region(ShapesOf(slots)), rank, i, v[j], n - 1)
      {
        SameElem(slots, t, v[j], t(i, n).items[j], ElemTree(ShapesOf(slots), Region(ShapesOf(slots)), rank, i, v[j], n - 1), n - 1);
      }
    }
  }

  lemma ObjectDecided(slots: seq<Json>, rank: seq<nat>, t: Trees, i: nat, n: nat, f: map<string, Json>)
    requires Ranked(ShapesOf(slots), rank) && i in Region(ShapesOf(slots))
    requires slots[i] == Object(f) && Means(slots, t, i, n)
    requires ShapesOf(slots)[i] == Record(f)
    requires n > 0 ==> forall key :: key in f ==>
      ElemMeans(slots, t, f[key], ElemTree(ShapesOf(slots), Region(ShapesOf(slots)), rank, i, f[key], n - 1), n - 1)
    ensures t(i, n) == SlotTree(ShapesOf(slots), Region(ShapesOf(slots)), rank, i, n)
  {
    hide Region, ShapesOf, RankedOn, ElemTree, ElemMeans;
    if n > 0 {
      forall key | key in f
        ensures t(i, n).fields[key] == ElemTree(ShapesOf(slots), Region(ShapesOf(slots)), rank, i, f[key], n - 1)
      {
        SameElem(slots, t, f[key], t(i, n).fields[key],
                 ElemTree(ShapesOf(slots), Region(ShapesOf(slots)), rank, i, f[key], n - 1), n - 1);
      }
    }
  }

  lemma ScalarDecided(slots: seq<Json>, rank: seq<nat>, t: Trees, i: nat, n: nat)
    requires Ranked(ShapesOf(slots), rank) && i in Region(ShapesOf(slots)) && !Broken(ShapesOf(slots))
    requires !slots[i].List? && !slots[i].Object? && Means(slots, t, i, n)
    ensures t(i, n) == SlotTree(ShapesOf(slots), Region(ShapesOf(slots)), rank, i, n)
  {
    hide RankedOn;
    assert ShapesOf(slots)[i] == ShapeOf(slots, i);
    assert Reachable(ShapesOf(slots), i);
  }

  lemma TreesMean(slots: seq<Json>, rank: seq<nat>, t: Trees, i: nat, n: nat)
    requires Ranked(ShapesOf(slots), rank) && i in Region(ShapesOf(slots))
    requires forall x: nat, m: nat :: x in Region(ShapesOf(slots)) ==>
      t(x, m) == SlotTree(ShapesOf(slots), Region(ShapesOf(slots)), rank, x, m)
    ensures i < |slots| && Means(slots, t, i, n)
  {
    hide Region, ShapesOf, RankedOn, ElemTree, ElemMeans, StandsFor, IsLoneName, Linked;
    var g := ShapesOf(slots);
    InRegion(g, rank, i);
    assert g[i] == ShapeOf(slots, i);
    match slots[i]
    case List(v) =>
      ListShapeIs(slots, i, v);
      if g[i].Wrapper? {
        var k := g[i].inner;
        StandsInside(v, slots, k);
        StandsForOne(v, slots, k);
        LinkedWrapper(g, i, k);
        NextSlot(g, rank, i, k);
      } else if g[i].Listing? && n > 0 {
        forall j | 0 <= j < |v| ensures ElemMeans(slots, t, v[j], ElemTree(g, Region(g), rank, i, v[j], n - 1), n - 1) {
          ElemTreeMeans(slots, rank, t, i, v[j], n - 1);
        }
      }
    case Object(f) =>
      if n > 0 {
        forall key | key in f ensures ElemMeans(slots, t, f[key], ElemTree(g, Region(g), rank, i, f[key], n - 1), n - 1) {
          ElemTreeMeans(slots, rank, t, i, f[key], n - 1);
        }
      }
    case _ =>
  }

  lemma InRegion(g: seq<Shape>, rank: seq<nat>, i: nat)
    requires Ranked(g, rank) && i in Region(g)
    ensures i < |g| == |rank|
  {
  }

  lemma StandsForOne(v: seq<Json>, slots: seq<Json>, k: nat)
    requires StandsFor(v, slots, k)
    ensures StandsForSome(v, slots) && forall m: nat :: StandsFor(v, slots, m) ==> m == k
  {
  }

  lemma LinkedWrapper(g: seq<Shape>, i: nat, k: nat)
    requires i < |g| && g[i] == Wrapper(k)
    ensures Linked(g, i, k)
  {
  }

  lemma ElemTreeMeans(slots: seq<Json>, rank: seq<nat>, t: Trees, i: nat, el: Json, n: nat)
    requires Ranked(ShapesOf(slots), rank) && i in Region(ShapesOf(slots)) && Within(ShapesOf(slots), i, el)
    requires forall x: nat, m: nat :: x in Region(ShapesOf(slots)) ==>
      t(x, m) == SlotTree(ShapesOf(slots), Region(ShapesOf(slots)), rank, x, m)
    ensures ElemMeans(slots, t, el, ElemTree(ShapesOf(slots), Region(ShapesOf(slots)), rank, i, el, n), n)
  {
    hide Region, ShapesOf, RankedOn, SlotTree;
    var g := ShapesOf(slots);
    InRegion(g, rank, i);
    match Index(el, |g|)
    case None =>
    case Some(k) =>
      assert Linked(g, i, k);
      NextSlot(g, rank, i, k);
  }

  /** There are such trees. */
  lemma LawfulTrees(slots: seq<Json>, rank: seq<nat>) returns (t: Trees)
    requires Unlooped(slots, rank)
    ensures Lawful(slots, t)
  {
    UnloopedIff(slots, rank);
    var g := ShapesOf(slots);
    t := (i: nat, n: nat) => if i in Region(g) then SlotTree(g, Region(g), rank, i, n) else Null;
    forall i: nat, n: nat | i < |slots| && Led(slots, i) ensures Means(slots, t, i, n) {
      LedIff(slots, i);
      assert i in Region(g);
      TreesMean(slots, rank, t, i, n);
    }
  }

  /** The way the site's payloads begin: a reactive wrapper around an object, and the value of its one field. */
  const WRAPPED: seq<Json> :=
    [List([Str("ShallowReactive"), Num(Whole(1))]), Object(map["a" := Num(Whole(2))]), Num(Whole(7))]

  lemma WrappedMeans(t: Trees)
    requires Lawful(WRAPPED, t)
    ensures Unlooped(WRAPPED, [2, 1, 0]) && t(0, 1) == Object(map["a" := Num(Whole(7))])
  {
    hide Led, LedTo;
    WrappedLed();
    WrappedUnlooped();
    hide Unlooped, Names;
    assert Means(WRAPPED, t, 0, 1) && Means(WRAPPED, t, 1, 1) && Means(WRAPPED, t, 2, 0);
    assert StandsFor(WRAPPED[0].items, WRAPPED, 1);
  }

  lemma WrappedLed()
    ensures Led(WRAPPED, 0) && Led(WRAPPED, 1) && Led(WRAPPED, 2)
  {
    assert LedTo(WRAPPED, 0, 0);
    LedNext(WRAPPED, 0, 1);
    assert WRAPPED[1].fields["a"] == Num(Whole(2));
    LedNext(WRAPPED, 1, 2);
  }

  lemma LedNext(slots: seq<Json>, i: nat, k: nat)
    requires i < |slots| && k < |slots| && Led(slots, i) && Names(slots[i], k)
    ensures Led(slots, k)
  {
    var n: nat :| LedTo(slots, i, n);
    assert LedTo(slots, k, n + 1);
  }

  lemma WrappedUnlooped()
    ensures Unlooped(WRAPPED, [2, 1, 0])
  {
    hide Led;
    forall i: nat, k: nat | i < 3 && k < 3 && Names(WRAPPED[i], k) ensures k == i + 1 {
    }
  }

  /**
   Decodes a payload. It fails exactly when the payload is empty or a reachable
   slot holds a number that cannot be read, whatever the cycles and the order of
   map keys. On success exactly the reachable slots were expanded, once each. If no
   reachable reviver lies on a cycle, the result agrees with the payload at every
   depth: with any trees that obey the laws of `Means`, and with the unfolding of the graph.
   */
  method Decode(slots: seq<Json>, ghost rank: seq<nat>)
    returns (r: Result<Value, Fault>, heap: map<nat, Container>, ghost log: seq<nat>)
    ensures slots == [] ==> r == Err(EmptyPayload)
    ensures slots != [] ==> (r.Err? <==> Broken(ShapesOf(slots))) && (r.Err? ==> r.error == BadNumber)
    ensures slots != [] ==> (r.Err? <==> exists i: nat :: i < |slots| && Led(slots, i) && slots[i] == Num(Overflow))
    ensures r.Ok? ==> forall i: nat :: i in log <==> i < |slots| && Reachable(ShapesOf(slots), i)
    ensures r.Ok? ==> forall i: nat :: i in log <==> Led(slots, i)
    ensures r.Ok? ==> forall j, k :: 0 <= j < k < |log| ==> log[j] != log[k]
    ensures r.Ok? && Unlooped(slots, rank) ==>
      forall t: Trees, n: nat :: Lawful(slots, t) ==> HeapTree(heap, r.value, n) == t(0, n)
    ensures r.Ok? && Ranked(ShapesOf(slots), rank) ==>
      forall n: nat :: HeapTree(heap, r.value, n) == SlotTree(ShapesOf(slots), Region(ShapesOf(slots)), rank, 0, n)
    ensures r.Ok? && Acyclic(ShapesOf(slots), rank) ==>
      forall n: nat :: n > rank[0] ==> HeapTree(heap, r.value, n) == PlainTree(ShapesOf(slots), Region(ShapesOf(slots)), rank, 0)
  {
    heap := map[];
    log := [];
    if slots == [] {
      return Err(EmptyPayload), heap, log;
    }
    var d := new Decoder(slots);
    ghost var g := ShapesOf(slots);
    assert d.g == g;
    assert ReachedBy(g, 0, 0);
    r := d.Walk(0, {}, rank);
    heap := d.heap;
    log := d.expansions;
    forall i: nat ensures Reachable(g, i) <==> Led(slots, i) {
      LedIff(slots, i);
    }
    BrokenIff(slots);
    UnloopedIff(slots, rank);
    if r.Ok? {
      ghost var s := d.S();
      forall i: nat | i < |g| ensures s.ready[i] <==> Reachable(g, i) {
        ReadyIsReachable(g, s, i);
      }
      NothingBroken(g, s);
      if Ranked(g, rank) {
        forall n: nat ensures HeapTree(heap, r.value, n) == SlotTree(g, Region(g), rank, 0, n) {
          HeapUnfolds(g, s, rank, 0, n);
        }
        forall t: Trees, n: nat | Lawful(slots, t) ensures HeapTree(heap, r.value, n) == t(0, n) {
          LawsDecide(slots, rank, t, 0, n);
        }
      }
      if Acyclic(g, rank) {
        AcyclicRanked(g, rank);
        forall n: nat | n > rank[0] ensures HeapTree(heap, r.value, n) == PlainTree(g, Region(g), rank, 0) {
          HeapUnfolds(g, s, rank, 0, n);
          DeepEnough(g, Region(g), rank, 0, n);
        }
      }
    }
  }

  lemma BrokenIff(slots: seq<Json>)
    ensures Broken(ShapesOf(slots)) <==> exists i: nat :: i < |slots| && Led(slots, i) && slots[i] == Num(Overflow)
  {
    var g := ShapesOf(slots);
    forall i: nat | i < |slots|
      ensures (Reachable(g, i) <==> Led(slots, i)) && (g[i].Unreadable? <==> slots[i] == Num(Overflow))
    {
      LedIff(slots, i);
      UnreadableIff(slots, i);
    }
  }

  lemma UnreadableIff(slots: seq<Json>, i: nat)
    requires i < |slots|
    ensures ShapesOf(slots)[i].Unreadable? <==> slots[i] == Num(Overflow)
  {
    assert ShapesOf(slots)[i] == ShapeOf(slots, i);
  }

  lemma NothingBroken(g: seq<Shape>, s: State)
    requires Inv(g, s, {}) && forall i: nat :: i < |g| && Reachable(g, i) ==> s.ready[i]
    ensures !Broken(g)
  {
    forall b: nat | b < |g| && Reachable(g, b) ensures !g[b].Unreadable? {
      assert Settled(g, s, {}, b);
    }
  }
}
