/**
 Lists kept duplicate-free and ordered by a key: the shape behind openings,
 country codes, region codes, country labels and source ids. `Merged` is what
 the program computes, first occurrences sorted stably by key; the lemmas say
 that it has a canonical form.
 */
module KeyedList {
  ghost predicate StrictTotal<K(!new)>(less: (K, K) -> bool) {
    && (forall a :: !less(a, a))
    && (forall a, b, c :: less(a, b) && less(b, c) ==> less(a, c))
    && (forall a, b :: less(a, b) || less(b, a) || a == b)
  }

  function Keys<T, K>(key: T -> K, s: seq<T>): set<K> {
    set i | 0 <= i < |s| :: key(s[i])
  }

  function KeySeq<T, K>(key: T -> K, s: seq<T>): (ks: seq<K>)
    ensures |ks| == |s| && forall i :: 0 <= i < |s| ==> ks[i] == key(s[i])
  {
    seq(|s|, i requires 0 <= i < |s| => key(s[i]))
  }

  ghost predicate Sorted<T, K>(key: T -> K, less: (K, K) -> bool, s: seq<T>) {
    forall i, j :: 0 <= i < j < |s| ==> less(key(s[i]), key(s[j]))
  }

  /** The first element of each key, in the order of arrival. */
  function Dedup<T, K(==)>(key: T -> K, s: seq<T>): seq<T> {
    if s == [] then []
    else
      var front := Dedup(key, s[..|s| - 1]);
      if key(s[|s| - 1]) in Keys(key, front) then front else front + [s[|s| - 1]]
  }

  /** `x` goes behind every element that is not greater. */
  function Place<T, K>(key: T -> K, less: (K, K) -> bool, s: seq<T>, x: T): (r: seq<T>)
    ensures |r| == |s| + 1
  {
    if s != [] && less(key(x), key(s[|s| - 1])) then Place(key, less, s[..|s| - 1], x) + [s[|s| - 1]] else s + [x]
  }

  /** Stable sort by key. */
  function SortStable<T, K>(key: T -> K, less: (K, K) -> bool, s: seq<T>): seq<T> {
    if s == [] then [] else Place(key, less, SortStable(key, less, s[..|s| - 1]), s[|s| - 1])
  }

  function Merged<T, K(==)>(key: T -> K, less: (K, K) -> bool, s: seq<T>): seq<T> {
    SortStable(key, less, Dedup(key, s))
  }

  lemma InKeys<T, K>(key: T -> K, s: seq<T>, x: T)
    requires x in s
    ensures key(x) in Keys(key, s)
  {
    var i :| 0 <= i < |s| && s[i] == x;
  }

  lemma KeysAppend<T, K>(key: T -> K, s: seq<T>, x: T)
    ensures Keys(key, s + [x]) == Keys(key, s) + {key(x)}
  {
    forall k | k in Keys(key, s) + {key(x)} ensures k in Keys(key, s + [x]) {
      if k == key(x) {
        assert (s + [x])[|s|] == x;
      } else {
        var i :| 0 <= i < |s| && key(s[i]) == k;
        assert (s + [x])[i] == s[i];
      }
    }
  }

  lemma KeysConcat<T, K>(key: T -> K, s: seq<T>, t: seq<T>)
    ensures Keys(key, s + t) == Keys(key, s) + Keys(key, t)
  {
    forall k | k in Keys(key, t) ensures k in Keys(key, s + t) {
      var i :| 0 <= i < |t| && key(t[i]) == k;
      assert (s + t)[|s| + i] == t[i];
    }
    forall k | k in Keys(key, s) ensures k in Keys(key, s + t) {
      var i :| 0 <= i < |s| && key(s[i]) == k;
      assert (s + t)[i] == s[i];
    }
  }

  lemma {:induction false} DedupKeys<T, K>(key: T -> K, s: seq<T>)
    ensures Keys(key, Dedup(key, s)) == Keys(key, s)
    decreases |s|
  {
    if s == [] {
    } else {
      var n := |s| - 1;
      DedupKeys(key, s[..n]);
      KeysAppend(key, s[..n], s[n]);
      KeysAppend(key, Dedup(key, s[..n]), s[n]);
      assert s == s[..n] + [s[n]];
    }
  }

  lemma DedupAppend<T, K>(key: T -> K, s: seq<T>, x: T)
    ensures Dedup(key, s + [x]) == if key(x) in Keys(key, s) then Dedup(key, s) else Dedup(key, s) + [x]
    ensures Keys(key, Dedup(key, s)) == Keys(key, s)
  {
    assert (s + [x])[..|s|] == s;
    DedupKeys(key, s);
  }

  lemma {:induction false} DedupDistinct<T, K>(key: T -> K, s: seq<T>)
    ensures forall i, j :: 0 <= i < j < |Dedup(key, s)| ==> key(Dedup(key, s)[i]) != key(Dedup(key, s)[j])
    ensures forall x :: x in Dedup(key, s) ==> x in s
    decreases |s|
  {
    if s == [] {
    } else {
      var n := |s| - 1;
      DedupDistinct(key, s[..n]);
      var front := Dedup(key, s[..n]);
      forall i | 0 <= i < |front| ensures key(front[i]) in Keys(key, front) {
      }
    }
  }

  lemma {:induction false} PlaceKeys<T, K>(key: T -> K, less: (K, K) -> bool, s: seq<T>, x: T)
    ensures Keys(key, Place(key, less, s, x)) == Keys(key, s) + {key(x)}
    decreases |s|
  {
    KeysAppend(key, s, x);
    if s == [] || !less(key(x), key(s[|s| - 1])) {
    } else {
      var n := |s| - 1;
      PlaceKeys(key, less, s[..n], x);
      KeysAppend(key, Place(key, less, s[..n], x), s[n]);
      KeysAppend(key, s[..n], s[n]);
      assert s == s[..n] + [s[n]];
    }
  }

  lemma {:induction false} SortKeys<T, K>(key: T -> K, less: (K, K) -> bool, s: seq<T>)
    ensures Keys(key, SortStable(key, less, s)) == Keys(key, s)
    decreases |s|
  {
    if s == [] {
    } else {
      var n := |s| - 1;
      SortKeys(key, less, s[..n]);
      PlaceKeys(key, less, SortStable(key, less, s[..n]), s[n]);
      KeysAppend(key, s[..n], s[n]);
      assert s == s[..n] + [s[n]];
    }
  }

  lemma {:induction false} PlaceSorted<T, K(!new)>(key: T -> K, less: (K, K) -> bool, s: seq<T>, x: T)
    requires StrictTotal(less) && Sorted(key, less, s) && key(x) !in Keys(key, s)
    ensures Sorted(key, less, Place(key, less, s, x))
    decreases |s|
  {
    if s == [] {
    } else {
      var n := |s| - 1;
      assert key(s[n]) in Keys(key, s);
      if less(key(x), key(s[n])) {
        forall k | k in Keys(key, s[..n]) ensures k in Keys(key, s) {
          var i :| 0 <= i < n && key(s[..n][i]) == k;
          assert s[i] == s[..n][i];
        }
        PlaceSorted(key, less, s[..n], x);
        var p := Place(key, less, s[..n], x);
        PlaceKeys(key, less, s[..n], x);
        forall i | 0 <= i < |p| ensures less(key(p[i]), key(s[n])) {
          assert key(p[i]) in Keys(key, p);
        }
      } else {
        forall i | 0 <= i < |s| ensures less(key(s[i]), key(x)) {
          assert key(s[i]) in Keys(key, s);
        }
      }
    }
  }

  lemma {:induction false} SortSorted<T, K(!new)>(key: T -> K, less: (K, K) -> bool, s: seq<T>)
    requires StrictTotal(less)
    requires forall i, j :: 0 <= i < j < |s| ==> key(s[i]) != key(s[j])
    ensures Sorted(key, less, SortStable(key, less, s))
    decreases |s|
  {
    if s == [] {
    } else {
      var n := |s| - 1;
      SortSorted(key, less, s[..n]);
      SortKeys(key, less, s[..n]);
      assert key(s[n]) !in Keys(key, s[..n]);
      PlaceSorted(key, less, SortStable(key, less, s[..n]), s[n]);
    }
  }

  /** A merged list is strictly sorted by key, hence key-unique, and loses or gains no key. */
  lemma MergedSorted<T, K(!new)>(key: T -> K, less: (K, K) -> bool, s: seq<T>)
    requires StrictTotal(less)
    ensures Sorted(key, less, Merged(key, less, s))
    ensures Keys(key, Merged(key, less, s)) == Keys(key, s)
  {
    DedupDistinct(key, s);
    DedupKeys(key, s);
    SortSorted(key, less, Dedup(key, s));
    SortKeys(key, less, Dedup(key, s));
  }

  lemma {:induction false} PlaceMembers<T, K>(key: T -> K, less: (K, K) -> bool, s: seq<T>, x: T)
    ensures forall y :: y in Place(key, less, s, x) <==> y in s || y == x
    decreases |s|
  {
    if s == [] || !less(key(x), key(s[|s| - 1])) {
    } else {
      PlaceMembers(key, less, s[..|s| - 1], x);
      assert s == s[..|s| - 1] + [s[|s| - 1]];
    }
  }

  lemma {:induction false} SortMembers<T, K>(key: T -> K, less: (K, K) -> bool, s: seq<T>)
    ensures forall y :: y in SortStable(key, less, s) <==> y in s
    decreases |s|
  {
    if s == [] {
    } else {
      var n := |s| - 1;
      SortMembers(key, less, s[..n]);
      PlaceMembers(key, less, SortStable(key, less, s[..n]), s[n]);
      assert s == s[..n] + [s[n]];
    }
  }

  /** The element is the first of the list with its key. */
  ghost predicate FirstOfKey<T, K>(key: T -> K, s: seq<T>, x: T, i: nat) {
    i < |s| && s[i] == x && forall m :: 0 <= m < i ==> key(s[m]) != key(x)
  }

  lemma {:induction false} DedupKeepsFirst<T, K>(key: T -> K, s: seq<T>, x: T) returns (i: nat)
    requires x in Dedup(key, s)
    ensures FirstOfKey(key, s, x, i)
    decreases |s|
  {
    var n := |s| - 1;
    if x in Dedup(key, s[..n]) {
      i := DedupKeepsFirst(key, s[..n], x);
    } else {
      i := n;
      DedupKeys(key, s[..n]);
      forall m | 0 <= m < n ensures key(s[m]) != key(x) {
        InKeys(key, s[..n], s[..n][m]);
      }
    }
  }

  /** Of elements with one key, merging keeps the first. */
  lemma MergedKeepsFirst<T, K>(key: T -> K, less: (K, K) -> bool, s: seq<T>, x: T) returns (i: nat)
    requires x in Merged(key, less, s)
    ensures FirstOfKey(key, s, x, i)
  {
    SortMembers(key, less, Dedup(key, s));
    i := DedupKeepsFirst(key, s, x);
  }

  lemma NoKeys<T, K>(key: T -> K, s: seq<T>)
    ensures Keys(key, s) == {} <==> s == []
  {
    if s != [] {
      InKeys(key, s, s[0]);
    }
  }

  /** Two strictly sorted lists with the same keys have the same key sequence. */
  lemma {:induction false} Canonical<T, K(!new)>(key: T -> K, less: (K, K) -> bool, a: seq<T>, b: seq<T>)
    requires StrictTotal(less) && Sorted(key, less, a) && Sorted(key, less, b)
    requires Keys(key, a) == Keys(key, b)
    ensures KeySeq(key, a) == KeySeq(key, b)
    decreases |a|
  {
    hide StrictTotal;
    NoKeys(key, a);
    NoKeys(key, b);
    if a == [] || b == [] {
    } else {
      var m, n := |a| - 1, |b| - 1;
      SameLast(key, less, a, b);
      KeysAppend(key, a[..m], a[m]);
      KeysAppend(key, b[..n], b[n]);
      assert a == a[..m] + [a[m]] && b == b[..n] + [b[n]];
      LastIsNew(key, less, a);
      LastIsNew(key, less, b);
      assert Keys(key, a[..m]) == Keys(key, a) - {key(a[m])};
      assert Keys(key, b[..n]) == Keys(key, b) - {key(b[n])};
      Canonical(key, less, a[..m], b[..n]);
      assert KeySeq(key, a) == KeySeq(key, a[..m]) + [key(a[m])];
      assert KeySeq(key, b) == KeySeq(key, b[..n]) + [key(b[n])];
    }
  }

  lemma LastIsGreatest<T, K(!new)>(key: T -> K, less: (K, K) -> bool, a: seq<T>, b: seq<T>)
    requires StrictTotal(less) && Sorted(key, less, a) && a != [] && b != [] && Keys(key, b) <= Keys(key, a)
    ensures !less(key(a[|a| - 1]), key(b[|b| - 1]))
  {
    assert key(b[|b| - 1]) in Keys(key, b);
    var i :| 0 <= i < |a| && key(a[i]) == key(b[|b| - 1]);
  }

  lemma SameLast<T, K(!new)>(key: T -> K, less: (K, K) -> bool, a: seq<T>, b: seq<T>)
    requires StrictTotal(less) && Sorted(key, less, a) && Sorted(key, less, b) && a != [] && b != []
    requires Keys(key, a) == Keys(key, b)
    ensures key(a[|a| - 1]) == key(b[|b| - 1])
  {
    LastIsGreatest(key, less, a, b);
    LastIsGreatest(key, less, b, a);
  }

  lemma LastIsNew<T, K(!new)>(key: T -> K, less: (K, K) -> bool, a: seq<T>)
    requires StrictTotal(less) && Sorted(key, less, a) && a != []
    ensures key(a[|a| - 1]) !in Keys(key, a[..|a| - 1])
  {
  }

  /** Order and repetition of what is merged do not matter. */
  lemma MergeOrder<T, K(!new)>(key: T -> K, less: (K, K) -> bool, s: seq<T>, t: seq<T>)
    requires StrictTotal(less) && Keys(key, s) == Keys(key, t)
    ensures KeySeq(key, Merged(key, less, s)) == KeySeq(key, Merged(key, less, t))
  {
    MergedSorted(key, less, s);
    MergedSorted(key, less, t);
    Canonical(key, less, Merged(key, less, s), Merged(key, less, t));
  }

  lemma {:induction false} SortedIsFixed<T, K(!new)>(key: T -> K, less: (K, K) -> bool, s: seq<T>)
    requires StrictTotal(less) && Sorted(key, less, s)
    ensures Merged(key, less, s) == s && Dedup(key, s) == s
    decreases |s|
  {
    if s == [] {
    } else {
      var n := |s| - 1;
      SortedIsFixed(key, less, s[..n]);
      assert key(s[n]) !in Keys(key, s[..n]);
      assert s == s[..n] + [s[n]];
      assert Dedup(key, s) == s;
      assert s[..n] != [] ==> less(key(s[n - 1]), key(s[n]));
    }
  }

  /** One more element: nothing when its key is there, otherwise it goes to its place. */
  lemma MergedAppend<T, K(!new)>(key: T -> K, less: (K, K) -> bool, s: seq<T>, x: T)
    ensures Merged(key, less, s + [x]) ==
      if key(x) in Keys(key, s) then Merged(key, less, s) else Place(key, less, Merged(key, less, s), x)
  {
    assert (s + [x])[..|s|] == s;
    DedupKeys(key, s);
    var d := Dedup(key, s);
    assert (d + [x])[..|d|] == d;
  }

  /** Merging onto a merged list is merging everything at once. */
  lemma {:induction false} MergeOnto<T, K(!new)>(key: T -> K, less: (K, K) -> bool, s: seq<T>, t: seq<T>)
    requires StrictTotal(less)
    ensures Merged(key, less, Merged(key, less, s) + t) == Merged(key, less, s + t)
    decreases |t|
  {
    hide Merged, Place, SortStable, Dedup, Keys;
    var m := Merged(key, less, s);
    MergedSorted(key, less, s);
    if t == [] {
      SortedIsFixed(key, less, m);
      assert m + t == m && s + t == s;
    } else {
      var n := |t| - 1;
      MergeOnto(key, less, s, t[..n]);
      MergedAppend(key, less, m + t[..n], t[n]);
      MergedAppend(key, less, s + t[..n], t[n]);
      KeysConcat(key, m, t[..n]);
      KeysConcat(key, s, t[..n]);
      assert m + t == m + t[..n] + [t[n]] && s + t == s + t[..n] + [t[n]];
    }
  }

  /** Merging what is already there changes nothing. */
  lemma {:induction false} MergeAbsorbs<T, K(!new)>(key: T -> K, less: (K, K) -> bool, s: seq<T>, t: seq<T>)
    requires Keys(key, t) <= Keys(key, s)
    ensures Merged(key, less, s + t) == Merged(key, less, s) && Dedup(key, s + t) == Dedup(key, s)
    decreases |t|
  {
    hide SortStable;
    if t == [] {
      assert s + t == s;
    } else {
      var n := |t| - 1;
      assert t == t[..n] + [t[n]];
      KeysAppend(key, t[..n], t[n]);
      MergeAbsorbs(key, less, s, t[..n]);
      KeysConcat(key, s, t[..n]);
      DedupAppend(key, s + t[..n], t[n]);
      assert s + t == s + t[..n] + [t[n]];
    }
  }

  /** The same for lists that are only freed of duplicates. */
  lemma {:induction false} DedupOnto<T, K>(key: T -> K, s: seq<T>, t: seq<T>)
    ensures Dedup(key, Dedup(key, s) + t) == Dedup(key, s + t)
    decreases |t|
  {
    var d := Dedup(key, s);
    if t == [] {
      DedupDistinct(key, s);
      DistinctIsFixed(key, d);
      assert d + t == d && s + t == s;
    } else {
      var n := |t| - 1;
      DedupOnto(key, s, t[..n]);
      assert (d + t)[..|d + t| - 1] == d + t[..n] && (s + t)[..|s + t| - 1] == s + t[..n];
    }
  }

  lemma {:induction false} DistinctIsFixed<T, K>(key: T -> K, s: seq<T>)
    requires forall i, j :: 0 <= i < j < |s| ==> key(s[i]) != key(s[j])
    ensures Dedup(key, s) == s
    decreases |s|
  {
    if s == [] {
    } else {
      var n := |s| - 1;
      DistinctIsFixed(key, s[..n]);
      assert key(s[n]) !in Keys(key, s[..n]);
      assert s == s[..n] + [s[n]];
    }
  }

  /** The program's loop: a set of keys seen so far beside the list. */
  method KeepFirst<T, K(==)>(key: T -> K, s: seq<T>) returns (out: seq<T>)
    ensures out == Dedup(key, s)
  {
    out := [];
    var seen: set<K> := {};
    for i := 0 to |s|
      invariant out == Dedup(key, s[..i]) && seen == Keys(key, out)
    {
      assert s[..i + 1][..i] == s[..i];
      if key(s[i]) !in seen {
        KeysAppend(key, out, s[i]);
        seen := seen + {key(s[i])};
        out := out + [s[i]];
      }
    }
    assert s[..|s|] == s;
  }
}
