/**
 Postgres text-array literals: the printer of jobs.sources and
 companies.aliases, and the parser that reads them back.
 */
module TextArray {
  import opened Prelude
  import opened Text

  datatype Fault = UnclosedQuote | NotAnArray

  function ReplaceAll(s: string, c: char, sub: string): string {
    if s == [] then [] else (if s[0] == c then sub else [s[0]]) + ReplaceAll(s[1..], c, sub)
  }

  /** One id as it stands in a literal: backslashes doubled, then quotes escaped, then quoted. */
  function Quote(id: string): string {
    "\"" + ReplaceAll(ReplaceAll(id, '\\', "\\\\"), '"', "\\\"") + "\""
  }

  function Join(parts: seq<string>): string {
    if parts == [] then [] else if |parts| == 1 then parts[0] else parts[0] + "," + Join(parts[1..])
  }

  function Quoted(ids: seq<string>): seq<string> {
    seq(|ids|, i requires 0 <= i < |ids| => Quote(ids[i]))
  }

  /** Prints a literal that the parser reads back as the same list, whatever the strings hold. */
  method FormatTextArray(ids: seq<string>) returns (lit: string)
    ensures lit == "{" + Join(Quoted(ids)) + "}"
    ensures forall json :: SourceIDs(lit, json) == Ok(ids)
  {
    forall json ensures SourceIDs("{" + Join(Quoted(ids)) + "}", json) == Ok(ids) {
      LiteralRoundTrips(ids, json);
    }
    if |ids| == 0 {
      assert Quoted(ids) == [];
      return "{}";
    }
    var parts: seq<string> := [];
    for i := 0 to |ids|
      invariant parts == Quoted(ids)[..i]
    {
      parts := parts + [Quote(ids[i])];
    }
    assert parts == Quoted(ids);
    return "{" + Join(parts) + "}";
  }

  /** What the parser has collected after part of the body. */
  datatype Reader = Reader(out: seq<string>, b: string, inQuote: bool)

  /** The parser's loop from position `i` of the body. */
  function Read(body: string, i: nat, st: Reader): Reader
    requires i <= |body|
    decreases |body| - i
  {
    if i == |body| then st
    else var c := body[i];
      if st.inQuote then
        if c == '\\' && i + 1 < |body| then Read(body, i + 2, st.(b := st.b + [body[i + 1]]))
        else if c == '"' then Read(body, i + 1, st.(inQuote := false))
        else Read(body, i + 1, st.(b := st.b + [c]))
      else if c == '"' then Read(body, i + 1, st.(inQuote := true))
      else if c == ',' then Read(body, i + 1, st.(out := st.out + [st.b], b := []))
      else Read(body, i + 1, st.(b := st.b + [c]))
  }

  /** What a literal in braces stands for. */
  function PGArray(s: string): Result<seq<string>, Fault>
    requires |s| >= 2
  {
    var body := s[1..|s| - 1];
    var end := Read(body, 0, Reader([], [], false));
    if Trim(body) == [] then Ok([]) else if end.inQuote then Err(UnclosedQuote) else Ok(end.out + [end.b])
  }

  /** What a stored text stands for. A JSON list goes to a JSON decoder, which is a parameter here. */
  function SourceIDs(raw: string, json: string -> Result<seq<string>, Fault>): Result<seq<string>, Fault> {
    var s := Trim(raw);
    if s == "" || s == "{}" || s == "[]" || s == "null" then Ok([])
    else if s[0] == '[' then json(s)
    else if s[0] == '{' && s[|s| - 1] == '}' && |s| >= 2 then PGArray(s)
    else Err(NotAnArray)
  }

  method ParsePGArray(s: string) returns (r: Result<seq<string>, Fault>)
    requires |s| >= 2
    ensures r == PGArray(s)
  {
    var body := s[1..|s| - 1];
    if Trim(body) == [] {
      return Ok([]);
    }
    var out: seq<string> := [];
    var b: string := [];
    var inQuote := false;
    var i := 0;
    while i < |body|
      invariant 0 <= i <= |body|
      invariant Read(body, i, Reader(out, b, inQuote)) == Read(body, 0, Reader([], [], false))
    {
      var c := body[i];
      if inQuote {
        if c == '\\' && i + 1 < |body| {
          i := i + 1;
          b := b + [body[i]];
        } else if c == '"' {
          inQuote := false;
        } else {
          b := b + [c];
        }
      } else if c == '"' {
        inQuote := true;
      } else if c == ',' {
        out := out + [b];
        b := [];
      } else {
        b := b + [c];
      }
      i := i + 1;
    }
    if inQuote {
      return Err(UnclosedQuote);
    }
    return Ok(out + [b]);
  }

  /**
   Reads back every literal, with quotes or without them where none are needed. A
   lone blank without quotes is no id: it is the empty array.
   */
  method ParseSourceIDs(raw: string, json: string -> Result<seq<string>, Fault>) returns (r: Result<seq<string>, Fault>)
    ensures r == SourceIDs(raw, json)
    ensures forall ids, parts {:trigger Shows(parts, ids)} :: Shows(parts, ids) && raw == "{" + Join(parts) + "}" ==>
      r == if LoneBlank(parts, ids) then Ok([]) else Ok(ids)
    ensures Trim(raw) in {"", "{}", "[]", "null"} ==> r == Ok([])
    ensures var s := Trim(raw);
      s !in {"", "{}", "[]", "null"} && s[0] != '[' && !(s[0] == '{' && s[|s| - 1] == '}') ==> r == Err(NotAnArray)
  {
    forall ids, parts | Shows(parts, ids) && raw == "{" + Join(parts) + "}"
      ensures SourceIDs(raw, json) == if LoneBlank(parts, ids) then Ok([]) else Ok(ids)
    {
      LiteralReadsBack(parts, ids, json);
    }
    var s := Trim(raw);
    if s == "" || s == "{}" || s == "[]" || s == "null" {
      return Ok([]);
    }
    if s[0] == '[' {
      return json(s);
    }
    if s[0] == '{' && s[|s| - 1] == '}' {
      r := ParsePGArray(s);
      return;
    }
    return Err(NotAnArray);
  }

  /** An id that can stand without quotes. Postgres quotes more than these: white space, braces, backslashes. */
  predicate Bare(id: string) {
    '"' !in id && ',' !in id
  }

  /** The parts print the ids: each one quoted, or bare where it can be. */
  predicate Shows(parts: seq<string>, ids: seq<string>) {
    && |parts| == |ids|
    && forall i :: 0 <= i < |ids| ==> parts[i] == Quote(ids[i]) || (parts[i] == ids[i] && Bare(ids[i]))
  }

  predicate LoneBlank(parts: seq<string>, ids: seq<string>) {
    |parts| == |ids| == 1 && parts[0] == ids[0] && Trim(ids[0]) == []
  }

  /** Escaping doubles backslashes and marks quotes, one character of the id at a time. */
  function Escape(id: string): string {
    if id == [] then []
    else (if id[0] == '\\' then "\\\\" else if id[0] == '"' then "\\\"" else [id[0]]) + Escape(id[1..])
  }

  lemma {:induction false} ReplaceAppend(a: string, b: string, c: char, sub: string)
    ensures ReplaceAll(a + b, c, sub) == ReplaceAll(a, c, sub) + ReplaceAll(b, c, sub)
    decreases |a|
  {
    if a == [] {
      assert a + b == b;
    } else {
      assert (a + b)[1..] == a[1..] + b;
      ReplaceAppend(a[1..], b, c, sub);
    }
  }

  lemma {:induction false} TwoPassesEscape(id: string)
    ensures ReplaceAll(ReplaceAll(id, '\\', "\\\\"), '"', "\\\"") == Escape(id)
    decreases |id|
  {
    if id == [] {
    } else {
      var head := if id[0] == '\\' then "\\\\" else [id[0]];
      ReplaceAppend(head, ReplaceAll(id[1..], '\\', "\\\\"), '"', "\\\"");
      TwoPassesEscape(id[1..]);
      if id[0] == '\\' {
        assert head[1..] == "\\" && head[1..][1..] == [];
      } else {
        assert head[1..] == [];
      }
    }
  }

  /** Inside quotes, the escaped id is read back and the quote is still open. */
  lemma {:induction false} ReadEscaped(body: string, i: nat, id: string, st: Reader)
    requires st.inQuote && i + |Escape(id)| < |body| && body[i..i + |Escape(id)|] == Escape(id)
    ensures Read(body, i, st) == Read(body, i + |Escape(id)|, st.(b := st.b + id))
    decreases |id|
  {
    var e := Escape(id);
    if id == [] {
      assert st.b + id == st.b;
    } else {
      var n := if id[0] == '\\' || id[0] == '"' then 2 else 1;
      assert e[n..] == Escape(id[1..]);
      assert body[i + n..i + n + |Escape(id[1..])|] == body[i..i + |e|][n..];
      assert body[i] == e[0] && (n == 2 ==> body[i + 1] == e[1] == id[0]);
      var next := st.(b := st.b + [id[0]]);
      ReadEscaped(body, i + n, id[1..], next);
      assert next.b + id[1..] == st.b + id;
    }
  }

  /** A quoted id, read from outside quotes, adds the id to what is collected. */
  lemma ReadQuoted(body: string, i: nat, id: string, out: seq<string>)
    requires i + |Quote(id)| <= |body| && body[i..i + |Quote(id)|] == Quote(id)
    ensures Read(body, i, Reader(out, [], false)) == Read(body, i + |Quote(id)|, Reader(out, id, false))
  {
    TwoPassesEscape(id);
    var e := Escape(id);
    var q := body[i..i + |Quote(id)|];
    assert q == "\"" + e + "\"";
    assert body[i] == q[0] == '"';
    forall k | 0 <= k < |e| ensures body[i + 1 + k] == e[k] {
      assert q[1 + k] == e[k];
    }
    assert body[i + 1..i + 1 + |e|] == e;
    assert body[i + 1 + |e|] == q[1 + |e|] == '"';
    ReadEscaped(body, i + 1, id, Reader(out, [], true));
    assert [] + id == id;
  }

  /** A bare id is read as it stands. */
  lemma {:induction false} ReadBare(body: string, i: nat, id: string, st: Reader)
    requires !st.inQuote && Bare(id) && i + |id| <= |body| && body[i..i + |id|] == id
    ensures Read(body, i, st) == Read(body, i + |id|, st.(b := st.b + id))
    decreases |id|
  {
    if id == [] {
      assert st.b + id == st.b;
    } else {
      assert body[i] == id[0] && body[i + 1..i + |id|] == id[1..];
      ReadBare(body, i + 1, id[1..], st.(b := st.b + [id[0]]));
      assert st.b + [id[0]] + id[1..] == st.b + id;
    }
  }

  lemma ReadPart(body: string, i: nat, part: string, id: string, out: seq<string>)
    requires part == Quote(id) || (part == id && Bare(id))
    requires i + |part| <= |body| && body[i..i + |part|] == part
    ensures Read(body, i, Reader(out, [], false)) == Read(body, i + |part|, Reader(out, id, false))
  {
    hide Read, Quote, Bare;
    if part == Quote(id) {
      ReadQuoted(body, i, id, out);
    } else {
      ReadBare(body, i, id, Reader(out, [], false));
      assert [] + id == id;
    }
  }

  /** Reading the joined parts from position `i` on yields all the ids. */
  lemma {:induction false} ReadJoined(body: string, i: nat, parts: seq<string>, ids: seq<string>, out: seq<string>)
    requires ids != [] && Shows(parts, ids) && i <= |body| && body[i..] == Join(parts)
    ensures var end := Read(body, i, Reader(out, [], false)); !end.inQuote && end.out + [end.b] == out + ids
    decreases |ids|
  {
    hide Quote, Bare;
    var q := parts[0];
    if |ids| == 1 {
      assert body[i..i + |q|] == q;
      ReadPart(body, i, q, ids[0], out);
      assert ids == [ids[0]];
    } else {
      var rest := Join(parts[1..]);
      assert body[i..] == q + "," + rest;
      assert body[i..i + |q|] == q;
      ReadPart(body, i, q, ids[0], out);
      assert body[i + |q|] == body[i..][|q|] == ',';
      assert body[i + |q| + 1..] == body[i..][|q| + 1..] == rest;
      ReadJoined(body, i + |q| + 1, parts[1..], ids[1..], out + [ids[0]]);
      assert out + [ids[0]] + ids[1..] == out + ids;
    }
  }

  /** The body is blank only for no ids, or for a lone blank id without quotes. */
  lemma BlankBodyIff(parts: seq<string>, ids: seq<string>)
    requires Shows(parts, ids)
    ensures Trim(Join(parts)) == [] <==> ids == [] || LoneBlank(parts, ids)
  {
    var body := Join(parts);
    TrimsAwayIff(body);
    if |ids| == 1 && parts[0] != ids[0] {
      assert body[0] == '"' && !IsSpace('"');
    } else if |ids| > 1 {
      assert body[|parts[0]|] == ',' && !IsSpace(',');
    }
  }

  /** A printed literal reads back as its ids, white space, braces, commas, quotes and backslashes included. */
  lemma LiteralReadsBack(parts: seq<string>, ids: seq<string>, json: string -> Result<seq<string>, Fault>)
    requires Shows(parts, ids)
    ensures SourceIDs("{" + Join(parts) + "}", json) == if LoneBlank(parts, ids) then Ok([]) else Ok(ids)
  {
    hide Trim, Read, Shows, LoneBlank, Join;
    var lit, body := "{" + Join(parts) + "}", Join(parts);
    assert lit[0] == '{' && lit[|lit| - 1] == '}' && lit[1..|lit| - 1] == body;
    TrimIsTrimmed(lit);
    TrimsAwayIff(body);
    BlankBodyIff(parts, ids);
    if Trim(body) != [] {
      assert body[0..] == body && [] + ids == ids;
      ReadJoined(body, 0, parts, ids, []);
    }
  }

  /** The program's own literal has quotes everywhere, and no exception. */
  lemma LiteralRoundTrips(ids: seq<string>, json: string -> Result<seq<string>, Fault>)
    ensures SourceIDs("{" + Join(Quoted(ids)) + "}", json) == Ok(ids)
  {
    if |ids| == 1 {
      LongerQuoted(ids[0]);
    }
    LiteralReadsBack(Quoted(ids), ids, json);
  }

  lemma LongerQuoted(id: string)
    ensures Quote(id) != id || Trim(id) != []
  {
    TrimsAwayIff(id);
    if Quote(id) == id {
      assert id[0] == '"' && !IsSpace(id[0]);
    }
  }
}
