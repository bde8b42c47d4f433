/**
 Company keys: the normalized name, or the bare domain when a website is known.
 Lower-casing and the host of a URL are the parameters `lower` and `host`.
 */
module CompanyKeys {
  import opened Text

  const LEGAL_SUFFIXES: set<string> := {"inc", "gmbh", "ltd", "llc", "srl"}

  predicate IsDot(c: char) {
    c == '.' || c == ','
  }

  function DropDotsLeft(s: string): string {
    if s != [] && IsDot(s[0]) then DropDotsLeft(s[1..]) else s
  }

  function DropDotsRight(s: string): (r: string)
    ensures r <= s && (IsWord(s) ==> IsWord(r))
  {
    if s != [] && IsDot(s[|s| - 1]) then DropDotsRight(s[..|s| - 1]) else s
  }

  function TokenEnd(s: string): (n: nat)
    ensures n <= |s|
    ensures forall i :: 0 <= i < n ==> !IsSpace(s[i])
    ensures s != [] && !IsSpace(s[0]) ==> n > 0
  {
    if s == [] || IsSpace(s[0]) then 0 else 1 + TokenEnd(s[1..])
  }

  function TrimmedLeft(s: string): (t: string)
    ensures |t| <= |s| && (t != [] ==> !IsSpace(t[0])) && t == TrimLeft(s)
  {
    if s != [] && IsSpace(s[0]) then TrimmedLeft(s[1..]) else s
  }

  predicate IsWord(w: string) {
    forall i :: 0 <= i < |w| ==> !IsSpace(w[i])
  }

  /** strings.Fields. */
  function Fields(s: string): (ws: seq<string>)
    ensures forall i :: 0 <= i < |ws| ==> ws[i] != "" && IsWord(ws[i])
    decreases |s|
  {
    var t := TrimmedLeft(s);
    if t == [] then [] else [t[..TokenEnd(t)]] + Fields(t[TokenEnd(t)..])
  }

  /** The words without legal suffixes and without dots and commas at their ends. */
  function Kept(ws: seq<string>): (r: seq<string>)
    requires forall i :: 0 <= i < |ws| ==> IsWord(ws[i])
    ensures forall i :: 0 <= i < |r| ==> IsWord(r[i])
  {
    if ws == [] then []
    else if DropDotsLeft(DropDotsRight(ws[0])) in LEGAL_SUFFIXES then Kept(ws[1..])
    else [DropDotsRight(ws[0])] + Kept(ws[1..])
  }

  function JoinWords(ws: seq<string>): string {
    if ws == [] then "" else if |ws| == 1 then ws[0] else ws[0] + " " + JoinWords(ws[1..])
  }

  /** CompanyKey, which NormalizeName calls. */
  function NormalizeName(lower: string -> string, name: string): string {
    JoinWords(Kept(Fields(lower(Trim(name)))))
  }

  function StripPrefixes(host: string): string
    decreases |host|
  {
    if "www." <= host then StripPrefixes(host[4..])
    else if "careers." <= host then StripPrefixes(host[8..])
    else host
  }

  /** NormalizeDomain. `host` is the lower-case host of a URL, or the lower-case text where it is none. */
  function NormalizeDomain(host: string -> string, website: string): string {
    if Trim(website) == "" then "" else StripPrefixes(host(Trim(website)))
  }

  lemma {:induction false} JoinEnds(ws: seq<string>)
    requires |ws| >= 2
    ensures var j := JoinWords(ws);
      j != "" && (ws[0] != "" ==> j[0] == ws[0][0]) && (ws[0] == "" ==> j[0] == ' ')
    ensures var j, w := JoinWords(ws), ws[|ws| - 1];
      j != "" && (w != "" ==> j[|j| - 1] == w[|w| - 1]) && (w == "" ==> j[|j| - 1] == ' ')
    decreases |ws|
  {
    assert JoinWords(ws) == ws[0] + " " + JoinWords(ws[1..]);
    if |ws| > 2 {
      JoinEnds(ws[1..]);
    } else {
      assert JoinWords(ws[1..]) == ws[1];
    }
  }

  /**
   A normalized name can begin or end with a blank: exactly when it has two or
   more words and the first or the last of them is nothing but dots and commas.
   */
  lemma NameTrimmedIff(lower: string -> string, name: string)
    ensures var ws := Kept(Fields(lower(Trim(name))));
      IsTrimmed(NormalizeName(lower, name)) <==> (|ws| >= 2 ==> ws[0] != "" && ws[|ws| - 1] != "")
  {
    var ws := Kept(Fields(lower(Trim(name))));
    if |ws| >= 2 {
      JoinEnds(ws);
      assert IsSpace(' ');
    } else if |ws| == 1 {
      assert IsWord(ws[0]);
    }
  }

  /** Two words with a blank between them are their own fields. */
  lemma FieldsOfTwo(a: string, b: string)
    requires a != "" && b != "" && IsWord(a) && IsWord(b)
    ensures Fields(a + " " + b) == [a, b]
  {
    hide IsSpace;
    var s := a + " " + b;
    assert IsSpace(s[|a|]) by {
      BlankIsSpace();
    }
    assert !IsSpace(s[0]) && !IsSpace(b[0]);
    TokenEndAt(s, |a|);
    TokenEndAt(b, |b|);
    assert s[..|a|] == a && s[|a|..] == " " + b && (" " + b)[1..] == b;
    assert TrimmedLeft(" " + b) == TrimmedLeft(b) by {
      BlankIsSpace();
    }
    assert b[..|b|] == b && b[|b|..] == "";
    assert Fields(b) == [b] + Fields("");
    assert Fields(" " + b) == Fields(b);
  }

  lemma BlankIsSpace()
    ensures IsSpace(' ')
  {
  }

  lemma TwoWordsTrimmed(a: string, b: string)
    requires a != "" && b != "" && IsWord(a) && IsWord(b)
    ensures Trim(a + " " + b) == a + " " + b
  {
    var s := a + " " + b;
    TrimIsTrimmed(s);
    assert s[0] == a[0] && s[|s| - 1] == b[|b| - 1];
  }

  lemma KeptWitness()
    ensures Kept(["foo", "..."]) == ["foo", ""]
  {
    NoDots("foo");
    assert ["foo", "..."][1..] == ["..."] && ["..."][1..] == [];
    assert DropDotsRight("...") == "" by {
      assert "..."[..2] == ".." && ".."[..1] == "." && "."[..0] == "";
    }
    assert forall w :: w in LEGAL_SUFFIXES ==> w != "" && w[0] != 'f';
    assert "foo"[0] == 'f';
    assert Kept(["..."]) == [""] + Kept([]);
  }

  /** The name "foo ..." normalizes to "foo " with its blank. */
  lemma UntrimmedName(lower: string -> string)
    requires lower("foo ...") == "foo ..."
    ensures NormalizeName(lower, "foo ...") == "foo "
  {
    hide Fields, Kept, Trim;
    assert "foo" + " " + "..." == "foo ...";
    FieldsOfTwo("foo", "...");
    TwoWordsTrimmed("foo", "...");
    KeptWitness();
    assert ["foo", ""][1..] == [""];
    assert JoinWords(["foo", ""]) == "foo" + " " + "";
  }

  lemma {:induction false} TokenEndAt(s: string, n: nat)
    requires n <= |s| && (forall i :: 0 <= i < n ==> !IsSpace(s[i])) && (n < |s| ==> IsSpace(s[n]))
    ensures TokenEnd(s) == n
    decreases n
  {
    if n == 0 {
    } else {
      TokenEndAt(s[1..], n - 1);
    }
  }

  lemma NoDots(w: string)
    requires w != [] && !IsDot(w[0]) && !IsDot(w[|w| - 1])
    ensures DropDotsRight(w) == w && DropDotsLeft(w) == w
  {
  }

  // What the keys are, without the way they are computed.

  predicate Dots(s: string) {
    forall i :: 0 <= i < |s| ==> s[i] == '.' || s[i] == ','
  }

  predicate Spaces(s: string) {
    forall i :: 0 <= i < |s| ==> IsSpace(s[i])
  }

  /** Words with these separators before, between and behind them. */
  function Spaced(seps: seq<string>, ws: seq<string>): string
    requires |seps| == |ws| + 1
  {
    if ws == [] then seps[0] else seps[0] + ws[0] + Spaced(seps[1..], ws[1..])
  }

  /** White space, and some of it between two words. */
  predicate Separates(seps: seq<string>) {
    && (forall i :: 0 <= i < |seps| ==> Spaces(seps[i]))
    && forall i :: 0 < i < |seps| - 1 ==> seps[i] != ""
  }

  /** The words of a text. */
  ghost predicate WordsOf(s: string, ws: seq<string>) {
    && (forall i :: 0 <= i < |ws| ==> ws[i] != "" && IsWord(ws[i]))
    && exists seps: seq<string> :: |seps| == |ws| + 1 && Separates(seps) && Spaced(seps, ws) == s
  }

  predicate Legal(s: string) {
    s == "inc" || s == "gmbh" || s == "ltd" || s == "llc" || s == "srl"
  }

  /** A legal suffix, but for dots and commas around it. */
  ghost predicate IsLegal(w: string) {
    exists a, s, b :: Dots(a) && Legal(s) && Dots(b) && w == a + s + b
  }

  /** The word without the dots and commas behind it. */
  ghost predicate Bared(w: string, k: string) {
    (exists b :: Dots(b) && w == k + b) && (k == "" || !(k[|k| - 1] == '.' || k[|k| - 1] == ','))
  }

  ghost predicate Keeps(ws: seq<string>, ks: seq<string>) {
    if ws == [] then ks == []
    else if IsLegal(ws[0]) then Keeps(ws[1..], ks)
    else ks != [] && Bared(ws[0], ks[0]) && Keeps(ws[1..], ks[1..])
  }

  function Blanked(ks: seq<string>): string {
    if ks == [] then "" else if |ks| == 1 then ks[0] else Blanked(ks[..|ks| - 1]) + " " + ks[|ks| - 1]
  }

  lemma {:induction false} GapIs(s: string)
    ensures var t := TrimmedLeft(s); s[|s| - |t|..] == t && Spaces(s[..|s| - |t|])
    decreases |s|
  {
    if s == [] || !IsSpace(s[0]) {
    } else {
      GapIs(s[1..]);
    }
  }

  lemma {:induction false} TokenStops(s: string)
    ensures TokenEnd(s) < |s| ==> IsSpace(s[TokenEnd(s)])
    decreases |s|
  {
    if s == [] || IsSpace(s[0]) {
    } else {
      TokenStops(s[1..]);
    }
  }

  lemma SpacedMore(gap: string, w: string, more: seq<string>, ws: seq<string>)
    requires |more| == |ws| + 1 && Separates(more) && Spaces(gap) && (ws != [] ==> more[0] != "")
    ensures Separates([gap] + more) && Spaced([gap] + more, [w] + ws) == gap + w + Spaced(more, ws)
  {
    hide Spaces;
    var seps := [gap] + more;
    assert seps[1..] == more && ([w] + ws)[1..] == ws;
    assert forall i :: 1 <= i < |seps| ==> seps[i] == more[i - 1];
  }

  lemma FirstWord(seps: seq<string>, ws: seq<string>)
    requires |seps| == |ws| + 1 && ws != [] && ws[0] != "" && IsWord(ws[0]) && seps[0] == ""
    ensures Spaced(seps, ws) != "" && !IsSpace(Spaced(seps, ws)[0])
  {
    hide IsSpace, Spaced;
    SpacedStep(seps, ws);
    assert seps[0] + ws[0] == ws[0];
  }

  lemma SpacedStep(seps: seq<string>, ws: seq<string>)
    requires |seps| == |ws| + 1 && ws != []
    ensures Spaced(seps, ws) == seps[0] + ws[0] + Spaced(seps[1..], ws[1..])
  {
  }

  /** White space, then a word, then what follows it, which begins with white space. */
  lemma FieldsStep(s: string) returns (gap: string, w: string, rest: string)
    ensures Spaces(gap) && (rest != "" ==> IsSpace(rest[0]))
    ensures if Fields(s) == [] then s == gap && w == rest == ""
      else w != "" && s == gap + w + rest && Fields(s) == [w] + Fields(rest)
  {
    hide IsSpace;
    var t := TrimmedLeft(s);
    GapIs(s);
    gap := s[..|s| - |t|];
    if t == [] {
      w, rest := "", "";
    } else {
      TokenStops(t);
      w, rest := t[..TokenEnd(t)], t[TokenEnd(t)..];
      Joined(gap, w, rest);
    }
  }

  lemma {:induction false} FieldsAre(s: string) returns (seps: seq<string>)
    ensures |seps| == |Fields(s)| + 1 && Separates(seps) && Spaced(seps, Fields(s)) == s
    decreases |s|
  {
    hide IsSpace, Spaced, Separates, Fields, Spaces;
    var gap, w, rest := FieldsStep(s);
    if Fields(s) == [] {
      seps := [s];
      OneGap(s);
    } else {
      var more := FieldsAre(rest);
      if Fields(rest) != [] && more[0] == "" {
        FirstWord(more, Fields(rest));
      }
      SpacedMore(gap, w, more, Fields(rest));
      seps := [gap] + more;
    }
  }

  lemma OneGap(s: string)
    requires Spaces(s)
    ensures Separates([s]) && Spaced([s], []) == s
  {
  }

  lemma {:induction false} RightIs(s: string)
    ensures Bared(s, DropDotsRight(s))
    decreases |s|
  {
    hide Bared;
    if s != [] && IsDot(s[|s| - 1]) {
      RightIs(s[..|s| - 1]);
      BaredMore(s, DropDotsRight(s));
    } else {
      BaredAlready(s);
    }
  }

  lemma BaredMore(s: string, k: string)
    requires s != [] && IsDot(s[|s| - 1]) && Bared(s[..|s| - 1], k)
    ensures Bared(s, k)
  {
    var n := |s| - 1;
    var b :| Dots(b) && s[..n] == k + b;
    assert Dots(b + [s[n]]);
    Joined(k, b, [s[n]]);
    assert s == s[..n] + [s[n]];
  }

  lemma BaredAlready(s: string)
    requires s == [] || !IsDot(s[|s| - 1])
    ensures Bared(s, s)
  {
    assert Dots("") && s == s + "";
  }

  lemma {:induction false} LeftIs(s: string) returns (a: string)
    ensures Dots(a) && s == a + DropDotsLeft(s)
    decreases |s|
  {
    if s != [] && IsDot(s[0]) {
      a := LeftIs(s[1..]);
      assert s == ([s[0]] + a) + DropDotsLeft(s[1..]);
      a := [s[0]] + a;
    } else {
      a := "";
    }
  }

  lemma {:induction false} DropsLeft(a: string, s: string)
    requires Dots(a) && (s == "" || !IsDot(s[0]))
    ensures DropDotsLeft(a + s) == s
    decreases |a|
  {
    if a == [] {
      assert a + s == s;
    } else {
      DropsLeft(a[1..], s);
      assert (a + s)[1..] == a[1..] + s;
    }
  }

  lemma {:induction false} DropsRight(s: string, b: string)
    requires Dots(b) && (s == "" || !IsDot(s[|s| - 1]))
    ensures DropDotsRight(s + b) == s
    decreases |b|
  {
    if b == [] {
      assert s + b == s;
    } else {
      var n := |b| - 1;
      DropsRight(s, b[..n]);
      assert (s + b)[..|s + b| - 1] == s + b[..n];
    }
  }

  lemma LegalIff(w: string)
    ensures DropDotsLeft(DropDotsRight(w)) in LEGAL_SUFFIXES <==> IsLegal(w)
  {
    hide Dots, Legal, DropDotsLeft, DropDotsRight;
    var s := DropDotsLeft(DropDotsRight(w));
    LegalNames(s);
    if Legal(s) {
      var a := LeftIs(DropDotsRight(w));
      RightIs(w);
      var b :| Dots(b) && w == DropDotsRight(w) + b;
      assert w == a + s + b;
    }
    if IsLegal(w) {
      var a, x, b :| Dots(a) && Legal(x) && Dots(b) && w == a + x + b;
      LegalDrops(a, x, b);
    }
  }

  lemma LegalNames(s: string)
    ensures s in LEGAL_SUFFIXES <==> Legal(s)
  {
  }

  lemma LegalDrops(a: string, s: string, b: string)
    requires Dots(a) && Dots(b) && Legal(s)
    ensures DropDotsLeft(DropDotsRight(a + s + b)) == s
  {
    assert (a + s)[|a + s| - 1] == s[|s| - 1];
    DropsRight(a + s, b);
    DropsLeft(a, s);
  }

  lemma {:induction false} KeptKeeps(ws: seq<string>)
    requires forall i :: 0 <= i < |ws| ==> IsWord(ws[i])
    ensures Keeps(ws, Kept(ws))
    decreases |ws|
  {
    hide IsLegal, Bared;
    if ws == [] {
    } else {
      LegalIff(ws[0]);
      RightIs(ws[0]);
      KeptKeeps(ws[1..]);
      assert Kept(ws) != [] ==> ([DropDotsRight(ws[0])] + Kept(ws[1..]))[1..] == Kept(ws[1..]);
    }
  }

  lemma {:induction false} JoinIsBlanked(ks: seq<string>)
    ensures JoinWords(ks) == Blanked(ks)
    decreases |ks|
  {
    if |ks| <= 1 {
    } else if |ks| == 2 {
      assert ks[1..] == [ks[1]] && ks[..1] == [ks[0]];
    } else {
      var n := |ks| - 1;
      JoinIsBlanked(ks[1..]);
      JoinIsBlanked(ks[..n]);
      JoinIsBlanked(ks[1..n]);
      assert ks[1..][..n - 1] == ks[1..n] && ks[..n][1..] == ks[1..n];
      assert JoinWords(ks[..n]) == ks[0] + " " + JoinWords(ks[1..n]);
      assert Blanked(ks[1..]) == Blanked(ks[1..n]) + " " + ks[n];
      assert ks[0] + " " + (Blanked(ks[1..n]) + " " + ks[n]) == ks[0] + " " + Blanked(ks[1..n]) + " " + ks[n];
    }
  }

  /** The key of a name: its words in lower case, but for the legal suffixes, without dots and commas behind them, with one blank between. */
  lemma NameIs(lower: string -> string, name: string) returns (ws: seq<string>, ks: seq<string>)
    ensures WordsOf(lower(Trim(name)), ws) && Keeps(ws, ks) && NormalizeName(lower, name) == Blanked(ks)
  {
    hide Trim, Keeps, Blanked;
    ws := Fields(lower(Trim(name)));
    ks := Kept(ws);
    var seps := FieldsAre(lower(Trim(name)));
    KeptKeeps(ws);
    JoinIsBlanked(ks);
  }

  /** Some of "www." and "careers.", one behind the other. */
  function Prefixes(careers: seq<bool>): string {
    if careers == [] then "" else (if careers[0] then "careers." else "www.") + Prefixes(careers[1..])
  }

  lemma MorePrefixes(careers: seq<bool>, d: string)
    ensures Prefixes([false] + careers) + d == "www." + (Prefixes(careers) + d)
    ensures Prefixes([true] + careers) + d == "careers." + (Prefixes(careers) + d)
  {
    assert ([false] + careers)[1..] == careers && ([true] + careers)[1..] == careers;
    Joined("www.", Prefixes(careers), d);
    Joined("careers.", Prefixes(careers), d);
  }

  lemma Joined(a: string, b: string, c: string)
    ensures a + b + c == a + (b + c)
  {
  }

  lemma Behind(host: string, a: string)
    requires a <= host
    ensures host == a + host[|a|..]
  {
  }

  lemma {:induction false} StripIs(host: string) returns (careers: seq<bool>)
    ensures var d := StripPrefixes(host); host == Prefixes(careers) + d && !("www." <= d) && !("careers." <= d)
    decreases |host|
  {
    hide Prefixes;
    if "www." <= host {
      careers := StripIs(host[4..]);
      Behind(host, "www.");
      MorePrefixes(careers, StripPrefixes(host));
      careers := [false] + careers;
    } else if "careers." <= host {
      careers := StripIs(host[8..]);
      Behind(host, "careers.");
      MorePrefixes(careers, StripPrefixes(host));
      careers := [true] + careers;
    } else {
      careers := [];
      NoPrefix(host);
    }
  }

  lemma NoPrefix(d: string)
    ensures Prefixes([]) + d == d
  {
  }

  /** The domain of a website: its host without those prefixes; of a blank one, none. */
  lemma DomainIs(host: string -> string, website: string) returns (careers: seq<bool>)
    ensures var d := NormalizeDomain(host, website);
      if Trim(website) == "" then d == ""
      else host(Trim(website)) == Prefixes(careers) + d && !("www." <= d) && !("careers." <= d)
  {
    hide Trim, StripPrefixes;
    careers := StripIs(host(Trim(website)));
  }
}
