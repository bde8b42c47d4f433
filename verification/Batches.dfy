/**
 Splitting a list of batch items into request bodies. `wire` is the length of an
 item's JSON text. Sizes are bytes.
 */
module Batches {
  const MAX_BATCH_BODY_BYTES: int := 200 * 1024 * 1024
  const MAX_BATCH_REQUESTS: int := 100000
  const BATCH_CREATE_ENVELOPE: int := 14

  /** A non-positive limit selects the default. */
  function ByteCap(maxBytes: int): int {
    if maxBytes <= 0 then MAX_BATCH_BODY_BYTES else maxBytes
  }

  function RequestCap(maxReqs: int): int {
    if maxReqs <= 0 then MAX_BATCH_REQUESTS else maxReqs
  }

  /** The items' own lengths and the commas between them. */
  function Payload<T>(wire: T -> nat, items: seq<T>): nat {
    if items == [] then 0
    else Payload(wire, items[..|items| - 1]) + wire(items[|items| - 1]) + (if |items| > 1 then 1 else 0)
  }

  /** What the splitter accounts for a body. */
  function Account<T>(wire: T -> nat, items: seq<T>): int {
    BATCH_CREATE_ENVELOPE + Payload(wire, items)
  }

  const OPENING: string := "{\"requests\":["
  const CLOSING: string := "]}"

  /** The body that is sent: the array of the items' texts in its envelope. */
  function Body<T>(text: T -> string, items: seq<T>): string {
    OPENING + Joined(text, items) + CLOSING
  }

  function Joined<T>(text: T -> string, items: seq<T>): string {
    if items == [] then ""
    else Joined(text, items[..|items| - 1]) + (if |items| > 1 then "," else "") + text(items[|items| - 1])
  }

  /** Both limits hold, or there is a single item. */
  predicate Fits<T>(wire: T -> nat, items: seq<T>, byteCap: int, requestCap: int) {
    |items| <= 1 || (Account(wire, items) <= byteCap && |items| <= requestCap)
  }

  /** firstBatchChunk: the longest prefix that fits, and the rest. */
  method FirstBatchChunk<T>(wire: T -> nat, items: seq<T>, maxBytes: int, maxReqs: int) returns (first: seq<T>, rest: seq<T>)
    ensures first + rest == items && (items != [] ==> first != [])
    ensures first == ChunkOf(wire, items, maxBytes, maxReqs)
  {
    if |items| == 0 {
      return [], [];
    }
    var byteCap, requestCap := ByteCap(maxBytes), RequestCap(maxReqs);
    var size := BATCH_CREATE_ENVELOPE;
    first := [];
    for i := 0 to |items|
      invariant first == items[..i] && size == Account(wire, first)
      invariant ChunkFrom(wire, items, byteCap, requestCap, i) == ChunkFrom(wire, items, byteCap, requestCap, 0)
    {
      var need := wire(items[i]);
      if |first| > 0 {
        need := need + 1;
      }
      assert items[..i + 1][..i] == items[..i];
      if |first| > 0 && (size + need > byteCap || |first| >= requestCap) {
        return first, items[i..];
      }
      first := first + [items[i]];
      size := size + need;
    }
    return first, [];
  }

  /** The prefix the splitter stops at, from `n` items on: it grows while one more still fits. */
  function ChunkFrom<T>(wire: T -> nat, items: seq<T>, byteCap: int, requestCap: int, n: nat): seq<T>
    requires n <= |items|
    decreases |items| - n
  {
    if n < |items| && Fits(wire, items[..n + 1], byteCap, requestCap)
    then ChunkFrom(wire, items, byteCap, requestCap, n + 1) else items[..n]
  }

  function ChunkOf<T>(wire: T -> nat, items: seq<T>, maxBytes: int, maxReqs: int): seq<T> {
    ChunkFrom(wire, items, ByteCap(maxBytes), RequestCap(maxReqs), 0)
  }

  lemma {:induction false} ChunkShape<T>(wire: T -> nat, items: seq<T>, byteCap: int, requestCap: int, n: nat)
    requires n <= |items| && (n > 0 ==> Fits(wire, items[..n], byteCap, requestCap))
    ensures var c := ChunkFrom(wire, items, byteCap, requestCap, n);
      && n <= |c| <= |items| && c == items[..|c|] && (items != [] ==> c != [])
      && Fits(wire, c, byteCap, requestCap)
      && (|c| < |items| ==> !Fits(wire, items[..|c| + 1], byteCap, requestCap))
    decreases |items| - n
  {
    if n >= |items| || !Fits(wire, items[..n + 1], byteCap, requestCap) {
    } else {
      ChunkShape(wire, items, byteCap, requestCap, n + 1);
    }
  }

  lemma {:induction false} PayloadGrows<T>(wire: T -> nat, items: seq<T>, m: nat, n: nat)
    requires m <= n <= |items|
    ensures Payload(wire, items[..m]) <= Payload(wire, items[..n])
    decreases n
  {
    if m >= n {
    } else {
      PayloadGrows(wire, items, m, n - 1);
      assert items[..n][..n - 1] == items[..n - 1];
    }
  }

  /**
   The chunk is a non-empty prefix within both caps, unless it is a single item,
   and it is the longest one: every longer prefix breaks a cap.
   */
  lemma ChunkIsLongest<T>(wire: T -> nat, items: seq<T>, maxBytes: int, maxReqs: int, n: nat)
    requires items != []
    ensures var c := ChunkOf(wire, items, maxBytes, maxReqs);
      var bytes, count := if maxBytes > 0 then maxBytes else 209715200, if maxReqs > 0 then maxReqs else 100000;
      && ByteCap(maxBytes) == bytes && RequestCap(maxReqs) == count
      && c != [] && c <= items
      && (|c| > 1 ==> 14 + Payload(wire, c) <= bytes && |c| <= count)
      && (|c| < n <= |items| ==> 14 + Payload(wire, items[..n]) > bytes || n > count)
  {
    var byteCap, requestCap := ByteCap(maxBytes), RequestCap(maxReqs);
    ChunkShape(wire, items, byteCap, requestCap, 0);
    var c := ChunkOf(wire, items, maxBytes, maxReqs);
    if |c| < n <= |items| {
      PayloadGrows(wire, items, |c| + 1, n);
    }
  }

  /** All the chunks, until nothing is left. */
  function Chunks<T>(wire: T -> nat, items: seq<T>, maxBytes: int, maxReqs: int): seq<seq<T>>
    decreases |items|
  {
    if items == [] then []
    else
      ChunkShape(wire, items, ByteCap(maxBytes), RequestCap(maxReqs), 0);
      var c := ChunkOf(wire, items, maxBytes, maxReqs);
      [c] + Chunks(wire, items[|c|..], maxBytes, maxReqs)
  }

  function Flatten<T>(chunks: seq<seq<T>>): seq<T> {
    if chunks == [] then [] else chunks[0] + Flatten(chunks[1..])
  }

  /** Splitting again and again loses, repeats and reorders nothing. */
  lemma {:induction false} ChunksRepartition<T>(wire: T -> nat, items: seq<T>, maxBytes: int, maxReqs: int)
    ensures Flatten(Chunks(wire, items, maxBytes, maxReqs)) == items
    ensures forall i :: 0 <= i < |Chunks(wire, items, maxBytes, maxReqs)| ==>
      Chunks(wire, items, maxBytes, maxReqs)[i] != []
      && Fits(wire, Chunks(wire, items, maxBytes, maxReqs)[i], ByteCap(maxBytes), RequestCap(maxReqs))
    decreases |items|
  {
    hide ChunkOf, Fits, ByteCap, RequestCap, Chunks;
    FirstOfChunks(wire, items, maxBytes, maxReqs);
    if items == [] {
    } else {
      var c := ChunkOf(wire, items, maxBytes, maxReqs);
      var more := Chunks(wire, items[|c|..], maxBytes, maxReqs);
      ChunksRepartition(wire, items[|c|..], maxBytes, maxReqs);
      assert ([c] + more)[1..] == more;
    }
  }

  lemma FirstOfChunks<T>(wire: T -> nat, items: seq<T>, maxBytes: int, maxReqs: int)
    ensures items == [] ==> Chunks(wire, items, maxBytes, maxReqs) == []
    ensures items != [] ==>
      var c := ChunkOf(wire, items, maxBytes, maxReqs);
      && c != [] && c <= items && c + items[|c|..] == items && Fits(wire, c, ByteCap(maxBytes), RequestCap(maxReqs))
      && Chunks(wire, items, maxBytes, maxReqs) == [c] + Chunks(wire, items[|c|..], maxBytes, maxReqs)
  {
    ChunkShape(wire, items, ByteCap(maxBytes), RequestCap(maxReqs), 0);
  }

  lemma {:induction false} JoinedLength<T>(text: T -> string, wire: T -> nat, items: seq<T>)
    requires forall x :: wire(x) == |text(x)|
    ensures |Joined(text, items)| == Payload(wire, items)
    decreases |items|
  {
    if items == [] {
    } else {
      JoinedLength(text, wire, items[..|items| - 1]);
    }
  }

  /** The body is one byte longer than its account: the empty envelope has fifteen bytes, not fourteen. */
  lemma BodyIsOneByteLonger<T>(text: T -> string, wire: T -> nat, items: seq<T>)
    requires forall x :: wire(x) == |text(x)|
    ensures |Body(text, items)| == Account(wire, items) + 1
  {
    JoinedLength(text, wire, items);
    assert |OPENING| == 13 && |CLOSING| == 2;
  }

  /**
   When the body of the first chunk is over the byte cap, told from the items: the
   first one is too long by itself, or some prefix that the request cap allows
   fills the cap exactly.
   */
  predicate Overflows<T>(wire: T -> nat, items: seq<T>, maxBytes: int, maxReqs: int)
    requires items != []
  {
    || Account(wire, items[..1]) > ByteCap(maxBytes)
    || exists n :: 1 <= n <= |items| && FillsCap(wire, items, maxBytes, maxReqs, n)
  }

  predicate FillsCap<T>(wire: T -> nat, items: seq<T>, maxBytes: int, maxReqs: int, n: nat)
    requires n <= |items|
  {
    (n == 1 || n <= RequestCap(maxReqs)) && Account(wire, items[..n]) == ByteCap(maxBytes)
  }

  /** The body that is sent exceeds the cap exactly for these items, and by one byte unless it holds a single item. */
  lemma BodyExceedsCapIff<T>(text: T -> string, wire: T -> nat, items: seq<T>, maxBytes: int, maxReqs: int)
    requires (forall x :: wire(x) == |text(x)|) && items != []
    ensures var c := ChunkOf(wire, items, maxBytes, maxReqs);
      && (|Body(text, c)| > ByteCap(maxBytes) <==> Overflows(wire, items, maxBytes, maxReqs))
      && (|c| > 1 ==> |Body(text, c)| <= ByteCap(maxBytes) + 1)
  {
    var c := ChunkOf(wire, items, maxBytes, maxReqs);
    BodyIsOneByteLonger(text, wire, c);
    ChunkIsLongest(wire, items, maxBytes, maxReqs, 0);
    assert c == items[..|c|];
    if Account(wire, c) >= ByteCap(maxBytes) {
      assert Account(wire, c) == ByteCap(maxBytes) ==> FillsCap(wire, items, maxBytes, maxReqs, |c|);
    }
    PayloadGrows(wire, items, 1, |c|);
    if n :| 1 <= n <= |items| && FillsCap(wire, items, maxBytes, maxReqs, n) {
      ChunkIsLongest(wire, items, maxBytes, maxReqs, n);
      PayloadGrows(wire, items, n, |c|);
    }
  }

  /** Any two items and the cap that their account fills: both go into one body, which is one byte over the cap. */
  lemma BodyOverCapWitness<T>(text: T -> string, wire: T -> nat, x: T, y: T)
    requires forall z :: wire(z) == |text(z)|
    ensures var cap := Account(wire, [x, y]);
      ChunkOf(wire, [x, y], cap, 2) == [x, y] && |Body(text, [x, y])| == cap + 1
  {
    var items := [x, y];
    var cap := Account(wire, items);
    assert items[..2] == items;
    ChunkIsLongest(wire, items, cap, 2, 2);
    var c := ChunkOf(wire, items, cap, 2);
    assert c == items[..|c|];
    BodyIsOneByteLonger(text, wire, items);
  }
}
