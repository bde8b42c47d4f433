/**
 Counting a phrase in a text: whole words only, without hits that a caller skips
 and, where asked, without negated hits. Folding of case and diacritics, and the
 letters and digits that make words, are the parameters of `Script`. Positions
 count characters.
 */
module PhraseCount {
  import opened Text

  datatype Script = Script(fold: string -> string, isWord: char -> bool)

  const WINDOW: nat := 50

  predicate IsStop(c: char) {
    c == '.' || c == '!' || c == '?'
  }

  predicate WordBounded(isWord: char -> bool, text: string, start: nat, length: nat)
    requires start + length <= |text|
  {
    && (start > 0 ==> !isWord(text[start - 1]))
    && (start + length < |text| ==> !isWord(text[start + length]))
  }

  /** The places where the needle stands on whole words and `keep` holds. */
  function Hits(isWord: char -> bool, hay: string, needle: string, keep: nat -> bool): set<nat> {
    set p: nat | p <= |hay| && OccursAt(hay, needle, p) && WordBounded(isWord, hay, p, |needle|) && keep(p)
  }

  predicate Always(p: nat) {
    true
  }

  /** How often a word stands in a text, whatever stands before it. */
  function PlainCount(script: Script, text: string, phrase: string): nat {
    if Trim(phrase) == "" then 0 else |Hits(script.isWord, script.fold(text), script.fold(Trim(phrase)), Always)|
  }

  predicate HasSuffix(s: string, t: string) {
    |t| <= |s| && s[|s| - |t|..] == t
  }

  predicate HasNt(s: string) {
    exists i :: 0 <= i <= |s| && OccursAt(s, "n't", i)
  }

  /** What follows the last stop. */
  function AfterStop(s: string): (r: string)
    ensures |r| <= |s|
  {
    if s == [] || IsStop(s[|s| - 1]) then [] else AfterStop(s[..|s| - 1]) + [s[|s| - 1]]
  }

  function LastOf(s: string, n: nat): string {
    if |s| > n then s[|s| - n..] else s
  }

  /** At most fifty characters before the hit, none of them before the last stop. */
  function NegationWindow(hay: string, start: nat): string
    requires start <= |hay|
  {
    AfterStop(LastOf(hay[..start], WINDOW))
  }

  predicate NegationIn(script: Script, window: string) {
    HasNt(window) || PlainCount(script, window, "not") > 0 || PlainCount(script, window, "no") > 0
  }

  predicate Negated(script: Script, hay: string, start: nat)
    requires start <= |hay|
  {
    HasSuffix(hay[..start], "non-") || NegationIn(script, NegationWindow(hay, start))
  }

  /** A hit counts unless the caller skips it or it is negated. */
  predicate Counts(script: Script, hay: string, needle: string, checkNegation: bool, skip: (nat, nat) -> bool, p: nat) {
    !skip(p, |needle|) && (p <= |hay| && checkNegation ==> !Negated(script, hay, p))
  }

  function Counted(script: Script, text: string, phrase: string, checkNegation: bool, skip: (nat, nat) -> bool): nat {
    if Trim(phrase) == "" then 0
    else
      var hay, needle := script.fold(text), script.fold(Trim(phrase));
      |Hits(script.isWord, hay, needle, (p: nat) => Counts(script, hay, needle, checkNegation, skip, p))|
  }

  /** strings.Index from `from` on: the first place of the needle. */
  method Index(hay: string, needle: string, from: nat) returns (found: bool, at: nat)
    requires from <= |hay|
    ensures found ==> from <= at <= |hay| && OccursAt(hay, needle, at)
    ensures found ==> forall p: nat :: from <= p < at ==> !OccursAt(hay, needle, p)
    ensures !found ==> forall p: nat :: from <= p ==> !OccursAt(hay, needle, p)
  {
    at := from;
    while at + |needle| <= |hay|
      invariant from <= at && forall p: nat :: from <= p < at ==> !OccursAt(hay, needle, p)
      decreases |hay| - at
    {
      if hay[at..at + |needle|] == needle {
        return true, at;
      }
      at := at + 1;
    }
    found := false;
  }

  lemma NoSkip(script: Script, text: string, phrase: string)
    ensures Counted(script, text, phrase, false, (p, n) => false) == PlainCount(script, text, phrase)
  {
    if Trim(phrase) != "" {
      var hay, needle := script.fold(text), script.fold(Trim(phrase));
      var keep := (p: nat) => Counts(script, hay, needle, false, (p, n) => false, p);
      assert Hits(script.isWord, hay, needle, keep) == Hits(script.isWord, hay, needle, Always);
    }
  }

  lemma NextHit(all: set<nat>, start: nat, at: nat)
    requires start <= at && forall p :: p in all && start <= p ==> at <= p
    ensures (set p | p in all && p < at + 1) == (set p | p in all && p < start) + (if at in all then {at} else {})
    ensures at !in set p | p in all && p < start
  {
  }

  /** countHits: jumps from one occurrence to the next, and counts exactly the hits that count. */
  method CountHits(script: Script, text: string, phrase: string, checkNegation: bool, skip: (nat, nat) -> bool)
    returns (n: nat)
    ensures n == Counted(script, text, phrase, checkNegation, skip)
    decreases checkNegation
  {
    var trimmed := Trim(phrase);
    if trimmed == "" {
      return 0;
    }
    var hay, needle := script.fold(text), script.fold(trimmed);
    ghost var keep := (p: nat) => Counts(script, hay, needle, checkNegation, skip, p);
    ghost var all := Hits(script.isWord, hay, needle, keep);
    if |needle| > |hay| {
      assert all == {};
      return 0;
    }
    n := 0;
    var start := 0;
    ghost var counted: set<nat> := {};
    while start + |needle| <= |hay|
      invariant n == |counted| && counted == set p | p in all && p < start
      decreases |hay| - start
    {
      var found, at := Index(hay, needle, start);
      if !found {
        assert counted == all;
        return;
      }
      var take := WordBounded(script.isWord, hay, at, |needle|) && !skip(at, |needle|);
      if take && checkNegation {
        var negated := IsNegated(script, hay, at);
        take := !negated;
      }
      assert take <==> at in all;
      NextHit(all, start, at);
      if take {
        n := n + 1;
        counted := counted + {at};
      }
      start := at + 1;
    }
    assert counted == all;
  }

  method IsNegated(script: Script, hay: string, start: nat) returns (r: bool)
    requires start <= |hay|
    ensures r == Negated(script, hay, start)
    decreases true, 0
  {
    if HasSuffix(hay[..start], "non-") {
      return true;
    }
    var window := WindowBefore(hay, start);
    var at: nat;
    r, at := Index(window, "n't", 0);
    if r {
      assert HasNt(window);
      return;
    }
    assert !HasNt(window);
    var nots := CountHits(script, window, "not", false, (p, n) => false);
    NoSkip(script, window, "not");
    if nots > 0 {
      return true;
    }
    var noes := CountHits(script, window, "no", false, (p, n) => false);
    NoSkip(script, window, "no");
    return noes > 0;
  }

  /** negationWindow: cut to fifty characters, then behind the last stop. */
  method WindowBefore(hay: string, start: nat) returns (window: string)
    requires start <= |hay|
    ensures window == NegationWindow(hay, start)
  {
    var prefix := hay[..start];
    if |prefix| > WINDOW {
      prefix := prefix[|prefix| - WINDOW..];
    }
    var cut := |prefix|;
    while cut > 0 && !IsStop(prefix[cut - 1])
      invariant 0 <= cut <= |prefix| && forall i :: cut <= i < |prefix| ==> !IsStop(prefix[i])
    {
      cut := cut - 1;
    }
    AfterStopIs(prefix, cut);
    window := prefix[cut..];
  }

  lemma AfterStopIs(s: string, cut: nat)
    requires cut <= |s| && (forall i :: cut <= i < |s| ==> !IsStop(s[i])) && (cut > 0 ==> IsStop(s[cut - 1]))
    ensures AfterStop(s) == s[cut..]
  {
    AfterStopShape(s);
    var n := |s| - |AfterStop(s)|;
    if n > 0 {
      assert IsStop(s[n - 1]);
    }
  }

  lemma {:induction false} AfterStopShape(s: string)
    ensures var r := AfterStop(s);
      && r == s[|s| - |r|..] && (forall i :: 0 <= i < |r| ==> !IsStop(r[i]))
      && (|r| < |s| ==> IsStop(s[|s| - |r| - 1]))
    decreases |s|
  {
    if s == [] || IsStop(s[|s| - 1]) {
    } else {
      var front := s[..|s| - 1];
      AfterStopShape(front);
      assert s == front + [s[|s| - 1]];
    }
  }

  /** The window is the longest stretch before the hit that has at most fifty characters and no stop. */
  lemma WindowShape(hay: string, start: nat)
    requires start <= |hay|
    ensures var w := NegationWindow(hay, start);
      && |w| <= WINDOW && |w| <= start && w == hay[start - |w|..start]
      && (forall i :: 0 <= i < |w| ==> !IsStop(w[i]))
      && (|w| < WINDOW && |w| < start ==> IsStop(hay[start - |w| - 1]))
  {
    AfterStopShape(LastOf(hay[..start], WINDOW));
  }

  /** The window reaches back over characters that are no stops. */
  lemma WindowReaches(hay: string, start: nat, k: nat)
    requires k <= start <= |hay| && k <= WINDOW && forall i :: start - k <= i < start ==> !IsStop(hay[i])
    ensures |NegationWindow(hay, start)| >= k
  {
    var at := start - |NegationWindow(hay, start)| - 1;
    assert start - k <= at < start ==> !IsStop(hay[at]);
    WindowShape(hay, start);
  }

  lemma SuffixOfSuffix(s: string, n: nat, k: nat)
    requires k <= n <= |s|
    ensures s[|s| - n..][n - k..] == s[|s| - k..]
  {
  }

  /** Negation, judged by the window alone. */
  predicate NegatedBy(script: Script, window: string) {
    HasSuffix(window, "non-") || NegationIn(script, window)
  }

  /**
   Negation depends on the window and on nothing else. The prefix non- makes no
   exception: its four characters hold no stop, so they lie in the window.
   */
  lemma NegationIsLocal(script: Script, hay: string, start: nat)
    requires start <= |hay|
    ensures Negated(script, hay, start) <==> NegatedBy(script, NegationWindow(hay, start))
  {
    hide NegationIn;
    var w := NegationWindow(hay, start);
    WindowShape(hay, start);
    var prefix := hay[..start];
    assert w == prefix[start - |w|..];
    if HasSuffix(prefix, "non-") {
      var tail := prefix[start - 4..];
      assert tail == "non-" && |tail| == 4;
      forall i | start - 4 <= i < start ensures !IsStop(hay[i]) {
        assert tail[i - (start - 4)] == prefix[i] == hay[i];
      }
      WindowReaches(hay, start, 4);
    }
    if |w| >= 4 {
      SuffixOfSuffix(prefix, |w|, 4);
    }
  }

  /** Whatever stands before a stop, or after the phrase, has no say in it. */
  lemma EarlierSentencesDoNotNegate(script: Script, a: string, b: string, stop: char, mid: string, t: string, u: string)
    requires IsStop(stop)
    ensures Negated(script, a + [stop] + mid + t, |a| + 1 + |mid|)
      <==> Negated(script, b + [stop] + mid + u, |b| + 1 + |mid|)
  {
    hide NegationIn, Negated, NegatedBy;
    var x, y := a + [stop] + mid + t, b + [stop] + mid + u;
    var i, j := |a| + 1 + |mid|, |b| + 1 + |mid|;
    NegationIsLocal(script, x, i);
    NegationIsLocal(script, y, j);
    SameWindow(x, i, y, j, |mid| + 1);
  }

  /** Nor has what stands more than fifty characters before the phrase. */
  lemma DistantWordsDoNotNegate(script: Script, a: string, b: string, mid: string, t: string, u: string)
    requires |mid| >= WINDOW
    ensures Negated(script, a + mid + t, |a| + |mid|) <==> Negated(script, b + mid + u, |b| + |mid|)
  {
    hide NegationIn, Negated, NegatedBy;
    var x, y := a + mid + t, b + mid + u;
    var i, j := |a| + |mid|, |b| + |mid|;
    NegationIsLocal(script, x, i);
    NegationIsLocal(script, y, j);
    SameWindow(x, i, y, j, |mid|);
  }

  /** What stands before a stop does not matter for what follows the last stop. */
  lemma {:induction false} AfterStopLocal(a: string, m: string)
    requires m != [] && IsStop(m[0])
    ensures AfterStop(a + m) == AfterStop(m)
    decreases |m|
  {
    var n := |m| - 1;
    assert (a + m)[..|a + m| - 1] == a + m[..n] && (a + m)[|a + m| - 1] == m[n];
    if IsStop(m[n]) {
    } else {
      AfterStopLocal(a, m[..n]);
    }
  }

  /** Two places with the same `n` characters before them have the same window, if these begin with a stop or fill it. */
  lemma SameWindow(x: string, i: nat, y: string, j: nat, n: nat)
    requires i <= |x| && j <= |y| && n <= i && n <= j && x[i - n..i] == y[j - n..j]
    requires n >= WINDOW || (n > 0 && IsStop(x[i - n]))
    ensures NegationWindow(x, i) == NegationWindow(y, j)
  {
    WindowOfTail(x, i, n);
    WindowOfTail(y, j, n);
    if n < WINDOW {
      assert x[i - n..i][0] == x[i - n] && y[j - n..j][0] == y[j - n];
    }
  }

  lemma WindowOfTail(x: string, i: nat, n: nat)
    requires n <= i <= |x| && (n >= WINDOW || (n > 0 && IsStop(x[i - n..i][0])))
    ensures NegationWindow(x, i) == AfterStop(LastOf(x[i - n..i], WINDOW))
  {
    var m := x[i - n..i];
    var last := LastOf(x[..i], WINDOW);
    if n >= WINDOW {
      assert last == LastOf(m, WINDOW);
    } else {
      var a := last[..|last| - n];
      assert last == a + m;
      AfterStopLocal(a, m);
    }
  }

  // The count, said of the characters of the text.

  /** The word stands at `p`, and neither the character before nor the one behind it belongs to a word. */
  predicate WholeWordAt(isWord: char -> bool, hay: string, word: string, p: nat) {
    && p + |word| <= |hay| && hay[p..p + |word|] == word
    && (p == 0 || !isWord(hay[p - 1])) && (p + |word| == |hay| || !isWord(hay[p + |word|]))
  }

  ghost predicate WordIn(script: Script, text: string, word: string) {
    exists p: nat :: WholeWordAt(script.isWord, script.fold(text), script.fold(word), p)
  }

  /** The stretch from `a` to `p` has no stop and at most fifty characters, and no longer one has. */
  predicate Stretch(hay: string, a: nat, p: nat) {
    && a <= p <= |hay| && p - a <= 50
    && (forall i :: a <= i < p ==> hay[i] != '.' && hay[i] != '!' && hay[i] != '?')
    && (a == 0 || p - a == 50 || hay[a - 1] == '.' || hay[a - 1] == '!' || hay[a - 1] == '?')
  }

  ghost predicate Denies(script: Script, text: string) {
    (exists i: nat :: OccursAt(text, "n't", i)) || WordIn(script, text, "not") || WordIn(script, text, "no")
  }

  /** Something denies the phrase at `p`: a non- right before it, or a denial in the stretch before it. */
  ghost predicate Denied(script: Script, hay: string, p: nat) {
    || (4 <= p <= |hay| && hay[p - 4..p] == "non-")
    || exists a: nat :: Stretch(hay, a, p) && Denies(script, hay[a..p])
  }

  lemma StretchIs(hay: string, a: nat, p: nat)
    requires p <= |hay|
    ensures Stretch(hay, a, p) <==> a == p - |NegationWindow(hay, p)|
    ensures Stretch(hay, a, p) ==> hay[a..p] == NegationWindow(hay, p)
  {
    hide NegationWindow;
    WindowShape(hay, p);
    var w := NegationWindow(hay, p);
    var b := p - |w|;
    assert forall i :: b <= i < p ==> hay[i] == w[i - b];
    if a < b && p - a <= 50 {
      assert IsStop(hay[b - 1]);
    } else if b < a <= p {
      assert !IsStop(hay[a - 1]);
    }
  }

  lemma WordsAre(script: Script, text: string, word: string)
    requires Trim(word) == word && word != ""
    ensures PlainCount(script, text, word) > 0 <==> WordIn(script, text, word)
  {
    var hay, needle := script.fold(text), script.fold(word);
    var hits := Hits(script.isWord, hay, needle, Always);
    if WordIn(script, text, word) {
      var p: nat :| WholeWordAt(script.isWord, hay, needle, p);
      assert p in hits;
      assert hits != {};
    }
    if hits != {} {
      var p: nat :| p in hits;
      assert WholeWordAt(script.isWord, hay, needle, p);
    }
  }

  lemma DeniesIs(script: Script, window: string)
    ensures NegationIn(script, window) <==> Denies(script, window)
  {
    hide PlainCount, WordIn, Trim;
    ShortWords();
    WordsAre(script, window, "not");
    WordsAre(script, window, "no");
  }

  lemma ShortWords()
    ensures Trim("not") == "not" && Trim("no") == "no"
  {
    hide Trim;
    TrimIsTrimmed("not");
    TrimIsTrimmed("no");
  }

  lemma DeniedIs(script: Script, hay: string, p: nat)
    requires p <= |hay|
    ensures Negated(script, hay, p) <==> Denied(script, hay, p)
  {
    hide NegationIn, Denies, NegationWindow, Stretch;
    var w := NegationWindow(hay, p);
    DeniesIs(script, w);
    WindowShape(hay, p);
    assert p >= 4 ==> hay[..p][p - 4..] == hay[p - 4..p];
    forall a: nat ensures Stretch(hay, a, p) <==> a == p - |w| {
      StretchIs(hay, a, p);
    }
    StretchIs(hay, p - |w|, p);
  }

  /** The place is one of those that count. */
  ghost predicate CountsAt(script: Script, hay: string, word: string, checkNegation: bool, skip: (nat, nat) -> bool, p: nat) {
    WholeWordAt(script.isWord, hay, word, p) && !skip(p, |word|) && (checkNegation ==> !Denied(script, hay, p))
  }

  /** What CountHits returns: the number of whole words that are not skipped and, where asked, not denied. */
  lemma CountIs(script: Script, text: string, phrase: string, checkNegation: bool, skip: (nat, nat) -> bool)
    ensures var hay, word := script.fold(text), script.fold(Trim(phrase));
      Counted(script, text, phrase, checkNegation, skip) ==
      if Trim(phrase) == "" then 0 else |set p: nat | p <= |hay| && CountsAt(script, hay, word, checkNegation, skip, p)|
  {
    hide Trim, Denied, Negated;
    if Trim(phrase) != "" {
      var hay, word := script.fold(text), script.fold(Trim(phrase));
      var keep := (p: nat) => Counts(script, hay, word, checkNegation, skip, p);
      forall p: nat | p <= |hay|
        ensures p in Hits(script.isWord, hay, word, keep) <==> CountsAt(script, hay, word, checkNegation, skip, p)
      {
        DeniedIs(script, hay, p);
      }
      assert Hits(script.isWord, hay, word, keep) == set p: nat | p <= |hay| && CountsAt(script, hay, word, checkNegation, skip, p);
    }
  }
}
