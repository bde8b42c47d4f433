/**
 The end-of-array scanner for Next.js Flight responses, against a printer for
 JSON texts as RFC 8259 sections 2, 5 and 7 lay them out: any white space
 between tokens, any escape inside strings.
 */
module FlightScan {
  import opened Prelude

  datatype Fault = NoArrayStart | Unterminated

  /** What the loop remembers between characters; `Closed` once the array has ended. */
  datatype Scanner = At(depth: int, inString: bool, escape: bool) | Closed

  function Step(st: Scanner, c: char): Scanner {
    match st
    case Closed => Closed
    case At(depth, true, true) => At(depth, true, false)
    case At(depth, true, false) =>
      if c == '\\' then At(depth, true, true) else if c == '"' then At(depth, false, false) else st
    case At(depth, false, escape) =>
      if c == '"' then At(depth, true, escape)
      else if c == '[' then At(depth + 1, false, escape)
      else if c == ']' then if depth == 1 then Closed else At(depth - 1, false, escape)
      else st
  }

  function Run(st: Scanner, t: string): Scanner
    decreases |t|
  {
    if t == [] then st else Run(Step(st, t[0]), t[1..])
  }

  /** The first position after which the scanner is closed. */
  ghost predicate ClosesFirstAt(s: string, start: nat, end: nat) {
    && start <= end <= |s|
    && Run(At(0, false, false), s[start..end]) == Closed
    && forall e :: start <= e < end ==> Run(At(0, false, false), s[start..e]) != Closed
  }

  ghost predicate NeverCloses(s: string, start: nat) {
    forall e :: start <= e <= |s| ==> Run(At(0, false, false), s[start..e]) != Closed
  }

  lemma {:induction false} RunAppend(st: Scanner, a: string, b: string)
    ensures Run(st, a + b) == Run(Run(st, a), b)
    decreases |a|
  {
    if a == [] {
      assert a + b == b;
    } else {
      assert (a + b)[1..] == a[1..] + b;
      RunAppend(Step(st, a[0]), a[1..], b);
    }
  }

  lemma {:induction false} ClosedStays(t: string)
    ensures Run(Closed, t) == Closed
    decreases |t|
  {
    if t == [] {
    } else {
      ClosedStays(t[1..]);
    }
  }

  method MatchingJSONArrayEnd(s: string, start: nat) returns (r: Result<nat, Fault>)
    ensures r.Ok? ==> start < |s| && s[start] == '[' && ClosesFirstAt(s, start, r.value)
    ensures r.Err? ==> if start >= |s| || s[start] != '[' then r.error == NoArrayStart
                       else r.error == Unterminated && NeverCloses(s, start)
  {
    if start >= |s| || s[start] != '[' {
      return Err(NoArrayStart);
    }
    var depth, inString, escape := 0, false, false;
    var i := start;
    assert s[start..start] == [];
    while i < |s|
      invariant start <= i <= |s|
      invariant Run(At(0, false, false), s[start..i]) == At(depth, inString, escape)
      invariant forall e :: start <= e <= i ==> Run(At(0, false, false), s[start..e]) != Closed
      invariant !inString ==> !escape
    {
      var c := s[i];
      assert s[start..i + 1] == s[start..i] + [c];
      RunAppend(At(0, false, false), s[start..i], [c]);
      assert Run(At(0, false, false), s[start..i + 1]) == Step(At(depth, inString, escape), c);
      i := i + 1;
      if inString {
        if escape {
          escape := false;
        } else if c == '\\' {
          escape := true;
        } else if c == '"' {
          inString := false;
        }
      } else if c == '"' {
        inString := true;
      } else if c == '[' {
        depth := depth + 1;
      } else if c == ']' {
        depth := depth - 1;
        if depth == 0 {
          return Ok(i);
        }
      }
    }
    return Err(Unterminated);
  }

  /** A piece of a string: a character as it stands, a two-character escape, or a \u escape. */
  datatype Piece = Raw(c: char) | Escape(c: char) | Unicode(h0: char, h1: char, h2: char, h3: char)

  /** `Bare` is a number or a literal name. */
  datatype Json =
    | Bare(text: string)
    | Str(pieces: seq<Piece>)
    | Arr(blank: string, elems: seq<Padded>)
    | Obj(blank: string, members: seq<Member>)

  datatype Padded = Padded(before: string, value: Json, after: string)

  datatype Member = Member(before: string, name: seq<Piece>, middle: string, value: Padded)

  predicate IsBlank(ws: string) {
    forall i :: 0 <= i < |ws| ==> ws[i] in " \t\n\r"
  }

  predicate IsHex(c: char) {
    '0' <= c <= '9' || 'a' <= c <= 'f' || 'A' <= c <= 'F'
  }

  predicate PieceOk(p: Piece) {
    match p
    case Raw(c) => c >= ' ' && c != '"' && c != '\\'
    case Escape(c) => c in "\"\\/bfnrt"
    case Unicode(a, b, c, d) => IsHex(a) && IsHex(b) && IsHex(c) && IsHex(d)
  }

  predicate PiecesOk(ps: seq<Piece>) {
    forall i :: 0 <= i < |ps| ==> PieceOk(ps[i])
  }

  /** The text is one that RFC 8259 allows; numbers and names need only be free of quotes and brackets. */
  predicate JsonOk(v: Json) {
    match v
    case Bare(text) => forall i :: 0 <= i < |text| ==> text[i] !in "\"[]"
    case Str(ps) => PiecesOk(ps)
    case Arr(blank, elems) => IsBlank(blank) && forall i :: 0 <= i < |elems| ==> PaddedOk(elems[i])
    case Obj(blank, members) => IsBlank(blank) && forall i :: 0 <= i < |members| ==> MemberOk(members[i])
  }

  predicate PaddedOk(e: Padded) {
    IsBlank(e.before) && JsonOk(e.value) && IsBlank(e.after)
  }

  predicate MemberOk(m: Member) {
    IsBlank(m.before) && PiecesOk(m.name) && IsBlank(m.middle) && PaddedOk(m.value)
  }

  function PrintPiece(p: Piece): string {
    match p
    case Raw(c) => [c]
    case Escape(c) => ['\\', c]
    case Unicode(a, b, c, d) => ['\\', 'u', a, b, c, d]
  }

  function PrintPieces(ps: seq<Piece>): string {
    if ps == [] then "" else PrintPiece(ps[0]) + PrintPieces(ps[1..])
  }

  function PrintString(ps: seq<Piece>): string {
    "\"" + PrintPieces(ps) + "\""
  }

  function Print(v: Json): string
    decreases v, 0
  {
    match v
    case Bare(text) => text
    case Str(ps) => PrintString(ps)
    case Arr(blank, elems) => "[" + (if elems == [] then blank else PrintElems(elems)) + "]"
    case Obj(blank, members) => "{" + (if members == [] then blank else PrintMembers(members)) + "}"
  }

  function PrintPadded(e: Padded): string
    decreases e, 1
  {
    e.before + Print(e.value) + e.after
  }

  function PrintElems(elems: seq<Padded>): string
    requires elems != []
    decreases elems, 2
  {
    PrintPadded(elems[0]) + if |elems| == 1 then "" else "," + PrintElems(elems[1..])
  }

  function PrintMember(m: Member): string
    decreases m, 2
  {
    m.before + PrintString(m.name) + m.middle + ":" + PrintPadded(m.value)
  }

  function PrintMembers(ms: seq<Member>): string
    requires ms != []
    decreases ms, 3
  {
    PrintMember(ms[0]) + if |ms| == 1 then "" else "," + PrintMembers(ms[1..])
  }

  /** The scanner comes out of `t` as it went in. */
  ghost predicate Neutral(t: string, d: int) {
    Run(At(d, false, false), t) == At(d, false, false)
  }

  lemma NeutralAppend(a: string, b: string, d: int)
    requires Neutral(a, d) && Neutral(b, d)
    ensures Neutral(a + b, d)
  {
    RunAppend(At(d, false, false), a, b);
  }

  lemma {:induction false} InertNeutral(t: string, d: int)
    requires forall i :: 0 <= i < |t| ==> t[i] !in "\"[]"
    ensures Neutral(t, d)
    decreases |t|
  {
    if t == [] {
    } else {
      assert t[0] !in "\"[]";
      InertNeutral(t[1..], d);
    }
  }

  lemma BlankNeutral(ws: string, d: int)
    requires IsBlank(ws)
    ensures Neutral(ws, d)
  {
    InertNeutral(ws, d);
  }

  lemma {:induction false} PiecesKeepString(ps: seq<Piece>, d: int)
    requires PiecesOk(ps)
    ensures Run(At(d, true, false), PrintPieces(ps)) == At(d, true, false)
    decreases |ps|
  {
    if ps == [] {
    } else {
      RunAppend(At(d, true, false), PrintPiece(ps[0]), PrintPieces(ps[1..]));
      PieceKeepsString(ps[0], d);
      PiecesKeepString(ps[1..], d);
    }
  }

  lemma PieceKeepsString(p: Piece, d: int)
    requires PieceOk(p)
    ensures Run(At(d, true, false), PrintPiece(p)) == At(d, true, false)
  {
    var t := PrintPiece(p);
    match p
    case Raw(c) =>
      assert t[1..] == [];
    case Escape(c) =>
      assert t[1..] == [c] && t[1..][1..] == [];
      assert Run(At(d, true, true), [c]) == Run(At(d, true, false), []);
    case Unicode(a, b, c, e) =>
      assert t[1..] == ['u', a, b, c, e] && t[1..][1..] == [a, b, c, e];
      assert Step(Step(At(d, true, false), '\\'), 'u') == At(d, true, false);
      HexKeepsString([a, b, c, e], d);
  }

  lemma {:induction false} HexKeepsString(t: string, d: int)
    requires forall i :: 0 <= i < |t| ==> IsHex(t[i])
    ensures Run(At(d, true, false), t) == At(d, true, false)
    decreases |t|
  {
    if t == [] {
    } else {
      HexKeepsString(t[1..], d);
    }
  }

  lemma StringNeutral(ps: seq<Piece>, d: int)
    requires PiecesOk(ps)
    ensures Neutral(PrintString(ps), d)
  {
    var st := At(d, false, false);
    RunAppend(st, "\"", PrintPieces(ps));
    RunAppend(st, "\"" + PrintPieces(ps), "\"");
    PiecesKeepString(ps, d);
  }

  lemma {:induction false} ValueNeutral(v: Json, d: int)
    requires JsonOk(v) && d >= 1
    ensures Neutral(Print(v), d)
    decreases v, 0
  {
    match v
    case Bare(text) => InertNeutral(text, d);
    case Str(ps) => StringNeutral(ps, d);
    case Arr(blank, elems) =>
      var body := if elems == [] then blank else PrintElems(elems);
      ArrayBodyNeutral(v, d + 1);
      RunAppend(At(d, false, false), "[", body);
      RunAppend(At(d, false, false), "[" + body, "]");
    case Obj(blank, members) =>
      var body := if members == [] then blank else PrintMembers(members);
      if members == [] {
        BlankNeutral(blank, d);
      } else {
        MembersNeutral(members, d);
      }
      InertNeutral("{", d);
      InertNeutral("}", d);
      NeutralAppend("{", body, d);
      NeutralAppend("{" + body, "}", d);
  }

  lemma {:induction false} ArrayBodyNeutral(v: Json, d: int)
    requires v.Arr? && JsonOk(v) && d >= 1
    ensures Neutral(if v.elems == [] then v.blank else PrintElems(v.elems), d)
    decreases v.elems, 3
  {
    if v.elems == [] {
      BlankNeutral(v.blank, d);
    } else {
      ElemsNeutral(v.elems, d);
    }
  }

  lemma {:induction false} PaddedNeutral(e: Padded, d: int)
    requires PaddedOk(e) && d >= 1
    ensures Neutral(PrintPadded(e), d)
    decreases e, 1
  {
    BlankNeutral(e.before, d);
    ValueNeutral(e.value, d);
    BlankNeutral(e.after, d);
    NeutralAppend(e.before, Print(e.value), d);
    NeutralAppend(e.before + Print(e.value), e.after, d);
  }

  lemma {:induction false} ElemsNeutral(elems: seq<Padded>, d: int)
    requires elems != [] && d >= 1 && forall i :: 0 <= i < |elems| ==> PaddedOk(elems[i])
    ensures Neutral(PrintElems(elems), d)
    decreases elems, 2
  {
    PaddedNeutral(elems[0], d);
    if |elems| > 1 {
      ElemsNeutral(elems[1..], d);
      InertNeutral(",", d);
      NeutralAppend(",", PrintElems(elems[1..]), d);
      NeutralAppend(PrintPadded(elems[0]), "," + PrintElems(elems[1..]), d);
    } else {
      assert PrintElems(elems) == PrintPadded(elems[0]);
    }
  }

  lemma {:induction false} MembersNeutral(ms: seq<Member>, d: int)
    requires ms != [] && d >= 1 && forall i :: 0 <= i < |ms| ==> MemberOk(ms[i])
    ensures Neutral(PrintMembers(ms), d)
    decreases ms, 3
  {
    MemberNeutral(ms[0], d);
    if |ms| > 1 {
      MembersNeutral(ms[1..], d);
      InertNeutral(",", d);
      NeutralAppend(",", PrintMembers(ms[1..]), d);
      NeutralAppend(PrintMember(ms[0]), "," + PrintMembers(ms[1..]), d);
    } else {
      assert PrintMembers(ms) == PrintMember(ms[0]);
    }
  }

  lemma {:induction false} MemberNeutral(m: Member, d: int)
    requires MemberOk(m) && d >= 1
    ensures Neutral(PrintMember(m), d)
    decreases m, 2
  {
    BlankNeutral(m.before, d);
    StringNeutral(m.name, d);
    BlankNeutral(m.middle, d);
    InertNeutral(":", d);
    PaddedNeutral(m.value, d);
    NeutralAppend(m.before, PrintString(m.name), d);
    NeutralAppend(m.before + PrintString(m.name), m.middle, d);
    NeutralAppend(m.before + PrintString(m.name) + m.middle, ":", d);
    NeutralAppend(m.before + PrintString(m.name) + m.middle + ":", PrintPadded(m.value), d);
  }

  /** No proper prefix of a printed array closes the scanner, and the whole array does. */
  lemma PrintedArrayCloses(v: Json, pre: string, tail: string)
    requires v.Arr? && JsonOk(v)
    ensures ClosesFirstAt(pre + Print(v) + tail, |pre|, |pre| + |Print(v)|)
  {
    var s, t, st := pre + Print(v) + tail, Print(v), At(0, false, false);
    var inner := t[..|t| - 1];
    ArrayBodyNeutral(v, 1);
    RunAppend(st, "[", if v.elems == [] then v.blank else PrintElems(v.elems));
    assert inner == "[" + if v.elems == [] then v.blank else PrintElems(v.elems);
    assert Run(st, inner) == At(1, false, false);
    assert t == inner + "]";
    RunAppend(st, inner, "]");
    assert s[|pre|..|pre| + |t|] == t;
    forall e | |pre| <= e < |pre| + |t| ensures Run(st, s[|pre|..e]) != Closed {
      var k := e - |pre|;
      assert s[|pre|..e] == inner[..k];
      assert inner == inner[..k] + inner[k..];
      RunAppend(st, inner[..k], inner[k..]);
      ClosedStays(inner[k..]);
    }
  }

  /** The first closing position is unique. */
  lemma ClosesOnce(s: string, start: nat, a: nat, b: nat)
    requires ClosesFirstAt(s, start, a) && ClosesFirstAt(s, start, b)
    ensures a == b
  {
  }

  /** A printed array, wherever it stands and whatever follows it, is cut out exactly. */
  method CutPrintedArray(v: Json, pre: string, tail: string) returns (r: Result<nat, Fault>)
    requires v.Arr? && JsonOk(v)
    ensures r == Ok(|pre| + |Print(v)|)
  {
    var s := pre + Print(v) + tail;
    assert s[|pre|] == '[';
    PrintedArrayCloses(v, pre, tail);
    assert !NeverCloses(s, |pre|);
    r := MatchingJSONArrayEnd(s, |pre|);
    if r.Ok? {
      ClosesOnce(s, |pre|, r.value, |pre| + |Print(v)|);
    }
  }
}
