/**
 Lists of strings as the program collects them: trimmed, without empty ones and
 without repetition. This is the loop of mergeSourceIDs, unionSortedCodes,
 uniqueNonEmpty and uniqueNonEmptyStrings.
 */
module TextLists {
  import opened Text
  import opened KeyedList

  function Same(s: string): string {
    s
  }

  lemma LessIsOrder()
    ensures StrictTotal(Less)
  {
    forall a, b, c | Less(a, b) && Less(b, c) ensures Less(a, c) {
      LessTransitive(a, b, c);
    }
    forall a ensures !Less(a, a) {
      LessIrreflexive(a);
    }
    forall a, b ensures Less(a, b) || Less(b, a) || a == b {
      LessTotal(a, b);
    }
  }

  /** Trimmed, without the empty ones. */
  function Clean(ss: seq<string>): seq<string> {
    if ss == [] then []
    else
      var s, front := Trim(ss[|ss| - 1]), Clean(ss[..|ss| - 1]);
      if s == "" then front else front + [s]
  }

  predicate Blank(s: string) {
    Trim(s) == ""
  }

  method CollectTrimmed(ss: seq<string>) returns (out: seq<string>)
    ensures out == Dedup(Same, Clean(ss))
  {
    out := [];
    var seen: set<string> := {};
    for i := 0 to |ss|
      invariant out == Dedup(Same, Clean(ss[..i])) && seen == Keys(Same, out)
    {
      assert ss[..i + 1][..i] == ss[..i];
      var s := Trim(ss[i]);
      if s == "" {
        continue;
      }
      DedupAppend(Same, Clean(ss[..i]), s);
      if s in seen {
        continue;
      }
      KeysAppend(Same, out, s);
      seen := seen + {s};
      out := out + [s];
    }
    assert ss[..|ss|] == ss;
  }

  predicate AllClean(ss: seq<string>) {
    forall i :: 0 <= i < |ss| ==> ss[i] != "" && Trim(ss[i]) == ss[i]
  }

  lemma {:induction false} CleanIsClean(ss: seq<string>)
    ensures AllClean(Clean(ss))
    decreases |ss|
  {
    if ss == [] {
    } else {
      CleanIsClean(ss[..|ss| - 1]);
      TrimIsTrimmed(ss[|ss| - 1]);
    }
  }

  lemma {:induction false} CleanMember(ss: seq<string>, k: string)
    ensures k in Clean(ss) <==> k != "" && exists s :: s in ss && Trim(s) == k
    decreases |ss|
  {
    if ss == [] {
    } else {
      var n := |ss| - 1;
      CleanMember(ss[..n], k);
      assert ss == ss[..n] + [ss[n]];
    }
  }

  lemma {:induction false} CleanFixed(ss: seq<string>)
    requires AllClean(ss)
    ensures Clean(ss) == ss
    decreases |ss|
  {
    if ss == [] {
    } else {
      var n := |ss| - 1;
      CleanFixed(ss[..n]);
      assert ss == ss[..n] + [ss[n]];
    }
  }

  lemma {:induction false} CleanConcat(a: seq<string>, b: seq<string>)
    ensures Clean(a + b) == Clean(a) + Clean(b)
    decreases |b|
  {
    hide Trim;
    if b == [] {
      assert a + b == a;
    } else {
      var n := |b| - 1;
      CleanConcat(a, b[..n]);
      assert (a + b)[..|a + b| - 1] == a + b[..n] && (a + b)[|a + b| - 1] == b[n];
      var s := Trim(b[n]);
      assert Clean(a) + (Clean(b[..n]) + [s]) == Clean(a) + Clean(b[..n]) + [s];
    }
  }

  lemma CleanKeys(s: seq<string>, t: seq<string>)
    requires AllClean(s) && Keys(Same, t) == Keys(Same, s)
    ensures AllClean(t)
  {
    forall i | 0 <= i < |t| ensures t[i] != "" && Trim(t[i]) == t[i] {
      assert Same(t[i]) in Keys(Same, t);
      var j :| 0 <= j < |s| && Same(s[j]) == Same(t[i]);
    }
  }

  lemma KeySeqSame(a: seq<string>, b: seq<string>)
    requires KeySeq(Same, a) == KeySeq(Same, b)
    ensures a == b
  {
    assert |a| == |KeySeq(Same, a)| == |b|;
    forall i | 0 <= i < |a| ensures a[i] == b[i] {
      assert KeySeq(Same, a)[i] == Same(a[i]);
    }
  }

  lemma SameMembers(ss: seq<string>)
    ensures forall s :: s in Dedup(Same, ss) <==> s in ss
  {
    DedupKeys(Same, ss);
    forall s ensures s in Dedup(Same, ss) <==> s in ss {
      MemberKey(ss, s);
      MemberKey(Dedup(Same, ss), s);
    }
  }

  lemma MemberKey(ss: seq<string>, s: string)
    ensures s in ss <==> s in Keys(Same, ss)
  {
    if s in ss {
      InKeys(Same, ss, s);
    }
    if s in Keys(Same, ss) {
      var i :| 0 <= i < |ss| && Same(ss[i]) == s;
    }
  }
}
