/**
 Company histories over runs of the whole table: what the counters of a row
 count, how a row leaves RESOLVED, and what never happens to an UNRESOLVED one.
 */
module CompanyHistory {
  import opened Prelude
  import opened PollOutcomes
  import opened Text
  import opened KeyedList
  import opened TextLists
  import opened CompanyTable
  import opened CompanyIdentity
  import opened CompanyLife
  import opened SeedImport

  type Kind = (Company, Act) -> bool

  /** The number of acts up to and including the last one of the kind; zero if there is none. */
  function LastOf(kind: Kind, c: Company, acts: seq<Act>): (j: nat)
    ensures j <= |acts|
  {
    var n := |acts| - 1;
    if acts == [] then 0
    else if kind(After(c, acts[..n]), acts[n]) then |acts|
    else LastOf(kind, c, acts[..n])
  }

  lemma {:induction false} LastOfIsLast(kind: Kind, c: Company, acts: seq<Act>)
    ensures var j := LastOf(kind, c, acts);
      NoneSince(kind, c, acts, j) && (j > 0 ==> kind(After(c, acts[..j - 1]), acts[j - 1]))
    decreases |acts|
  {
    hide After;
    if acts == [] {
    } else {
      var n := |acts| - 1;
      LastOfIsLast(kind, c, acts[..n]);
      forall i: nat | i < n ensures acts[..n][..i] == acts[..i] && acts[..n][i] == acts[i] {
      }
    }
  }

  /** DEAD_SLUG answers and transport failures since the last other answer or rewrite, or since a start with some. */
  function Failures(c: Company, acts: seq<Act>): int {
    var j := LastOf(ResetsFailures, c, acts);
    (if j == 0 then c.failCount else 0) + Count(IsFailure, c, acts, j)
  }

  /** EMPTY answers since the last COMPLETE, PARTIAL, wake or rewrite, or since a start with some. */
  function Empties(c: Company, acts: seq<Act>): int {
    var j := LastOf(ResetsStreak, c, acts);
    (if j == 0 then c.emptyStreak else 0) + Count(IsEmpty, c, acts, j)
  }

  lemma CountersCount(c: Company, acts: seq<Act>)
    requires BornFresh(acts)
    ensures After(c, acts).failCount == Failures(c, acts) && After(c, acts).emptyStreak == Empties(c, acts)
  {
    FailCountIsFailures(c, acts);
    StreakIsEmpties(c, acts);
  }

  lemma FailCountIsFailures(c: Company, acts: seq<Act>)
    requires BornFresh(acts)
    ensures After(c, acts).failCount == Failures(c, acts)
  {
    hide After, Count, BornFresh, ResetsFailures, ResetsStreak, IsFailure, IsEmpty;
    LastOfIsLast(ResetsFailures, c, acts);
    var j := LastOf(ResetsFailures, c, acts);
    if j > 0 {
      FailCountCountsFailures(c, acts, j - 1);
    } else {
      CountsFromTheStart(c, acts);
    }
  }

  lemma StreakIsEmpties(c: Company, acts: seq<Act>)
    requires BornFresh(acts)
    ensures After(c, acts).emptyStreak == Empties(c, acts)
  {
    hide After, Count, BornFresh, ResetsFailures, ResetsStreak, IsFailure, IsEmpty;
    LastOfIsLast(ResetsStreak, c, acts);
    var k := LastOf(ResetsStreak, c, acts);
    if k > 0 {
      StreakCountsEmpties(c, acts, k - 1);
    } else {
      CountsFromTheStart(c, acts);
    }
  }

  /** The table when the `i`-th event of a run comes. */
  ghost function At(rules: Rules, web: Web, rows: Companies, es: seq<Event>, i: nat): Companies
    requires i <= |es|
  {
    RunFrom(rules, web, rows, es[..i])
  }

  lemma {:induction false} RunSplit(rules: Rules, web: Web, rows: Companies, es: seq<Event>, i: nat)
    requires i <= |es|
    ensures RunFrom(rules, web, rows, es) == RunFrom(rules, web, At(rules, web, rows, es, i), es[i..])
    decreases i
  {
    hide Advance;
    if i == 0 {
      assert es[0..] == es && es[..0] == [];
    } else {
      var next := Advance(rules, web, rows, es[0]);
      RunSplit(rules, web, next, es[1..], i - 1);
      assert es[1..][i - 1..] == es[i..] && es[..i][1..] == es[1..][..i - 1];
    }
  }

  lemma AtShift(rules: Rules, web: Web, rows: Companies, es: seq<Event>, i: nat)
    requires i < |es|
    ensures At(rules, web, rows, es, i + 1) == At(rules, web, Advance(rules, web, rows, es[0]), es[1..], i)
  {
    hide Advance;
    assert es[..i + 1][1..] == es[1..][..i];
  }

  lemma AtNext(rules: Rules, web: Web, rows: Companies, es: seq<Event>, i: nat)
    requires i < |es|
    ensures At(rules, web, rows, es, i + 1) == Advance(rules, web, At(rules, web, rows, es, i), es[i])
  {
    hide Advance;
    RunSplit(rules, web, rows, es[..i + 1], i);
    assert es[..i + 1][..i] == es[..i] && es[..i + 1][i..] == [es[i]] && [es[i]][1..] == [];
  }

  lemma {:induction false} ActsPrefix(rules: Rules, web: Web, rows: Companies, es: seq<Event>, k: string, i: nat)
    requires CompanyTable.Valid(rows) && k in rows && i <= |es|
    ensures |ActsOf(rules, web, rows, es, k)| == |es|
    ensures ActsOf(rules, web, rows, es[..i], k) == ActsOf(rules, web, rows, es, k)[..i]
    decreases i
  {
    hide Advance, ActOf, Apply;
    RowHistory(rules, web, rows, es, k);
    if i == 0 {
      assert es[..0] == [];
    } else {
      var next := Advance(rules, web, rows, es[0]);
      StepIsAct(rules, web, rows, es[0], k);
      StepValid(rules, web, rows, es[0]);
      ActsPrefix(rules, web, next, es[1..], k, i - 1);
      assert es[..i][1..] == es[1..][..i - 1];
    }
  }

  /** At every point of a run a row is what its acts so far have made of it, and its counters count these acts. */
  lemma RowAt(rules: Rules, web: Web, rows: Companies, es: seq<Event>, k: string, i: nat)
    requires CompanyTable.Valid(rows) && k in rows && i <= |es|
    ensures var acts := ActsOf(rules, web, rows, es, k);
      var at := At(rules, web, rows, es, i);
      && |acts| == |es| && k in at && at[k] == After(rows[k], acts[..i])
      && at[k].failCount == Failures(rows[k], acts[..i]) && at[k].emptyStreak == Empties(rows[k], acts[..i])
  {
    hide After, Failures, Empties;
    RowHistory(rules, web, rows, es[..i], k);
    ActsPrefix(rules, web, rows, es, k, i);
    CountersCount(rows[k], ActsOf(rules, web, rows, es[..i], k));
  }

  /**
   In every run an answered poll takes a row out of RESOLVED exactly when it is a
   DEAD_SLUG and, with it, at least three failures of the row lie since its last
   other answer or rewrite. The row is PENDING then and keeps its board.
   */
  lemma LeavesResolvedIff(rules: Rules, web: Web, rows: Companies, es: seq<Event>, k: string, i: nat)
    requires TableSound(rows) && k in rows && i < |es| && es[i].PollAnswered? && es[i].key == k
    requires var before := At(rules, web, rows, es, i); k in before && before[k].status == Resolved
    ensures var before, after := At(rules, web, rows, es, i), At(rules, web, rows, es, i + 1);
      var acts := ActsOf(rules, web, rows, es, k);
      && k in after && |acts| == |es|
      && (after[k].status != Resolved <==>
          es[i].result.outcome.DeadSlug? && Failures(rows[k], acts[..i + 1]) >= DEAD_STREAK_TO_PENDING)
      && (after[k].status != Resolved ==> after[k].status == Pending)
      && after[k].slug == before[k].slug && after[k].ats == before[k].ats && after[k].boardURL == before[k].boardURL
  {
    hide Failures, Empties, After, TableSound, Sound;
    SoundIsValid(rows);
    RowAt(rules, web, rows, es, k, i);
    RowAt(rules, web, rows, es, k, i + 1);
    var before := At(rules, web, rows, es, i);
    RunSound(rules, web, rows, es[..i]);
    ResolvedCanPoll(before, k);
    AtNext(rules, web, rows, es, i);
    PollLeavesResolvedIff(before[k], es[i].result.outcome, es[i].result.etag, es[i].now);
  }

  lemma SoundIsValid(rows: Companies)
    requires TableSound(rows)
    ensures CompanyTable.Valid(rows)
  {
  }

  lemma ResolvedCanPoll(rows: Companies, k: string)
    requires TableSound(rows) && k in rows && rows[k].status == Resolved
    ensures CanPoll(rows[k])
  {
    assert Sound(rows[k]);
  }

  /** What makes a row ACTIVE: a COMPLETE, a sighting, a seed row, or a rewrite. */
  predicate Wakes(c: Company, a: Act) {
    (a.Answer? && CanPoll(c) && a.outcome.Complete?) || a.Sight? || a.Import? || a.Overwrite?
  }

  /** One act: awake after one of these, asleep after an EMPTY that makes the streak five, otherwise as before. */
  lemma ActWakes(c: Company, a: Act)
    requires IsFresh(a)
    ensures Apply(c, a).pollState ==
      if Wakes(c, a) then Active
      else if IsEmpty(c, a) && Apply(c, a).emptyStreak >= 5 then Inactive
      else c.pollState
  {
    hide Seeded, AppendAlias;
    if a.Import? {
      SeededKeeps(WithSighting(c, a.name, SeedSighting(a.row), a.otherForm, a.needsReview, a.now), a.row);
    }
  }

  /** No act of the history from the `j`-th on wakes the row. */
  ghost predicate NotWoken(c: Company, acts: seq<Act>, j: nat) {
    NoneSince(Wakes, c, acts, j)
  }

  /** The `i`-th act is an EMPTY that brings the number of EMPTY answers since the last reset to five, or beyond. */
  ghost predicate FallsAsleep(c: Company, acts: seq<Act>, i: nat) {
    i < |acts| && IsEmpty(After(c, acts[..i]), acts[i]) && Empties(c, acts[..i + 1]) >= 5
  }

  ghost predicate Asleep(c: Company, acts: seq<Act>) {
    || (c.pollState == Inactive && NotWoken(c, acts, 0))
    || exists i: nat :: FallsAsleep(c, acts, i) && NotWoken(c, acts, i + 1)
  }

  /** A row is INACTIVE exactly when it fell asleep, or was INACTIVE at first, and nothing woke it since. */
  lemma {:induction false} InactiveIff(c: Company, acts: seq<Act>)
    requires BornFresh(acts)
    ensures After(c, acts).pollState == Inactive <==> Asleep(c, acts)
    decreases |acts|
  {
    hide Apply, IsEmpty, Wakes, Empties, ResetsFailures, ResetsStreak, IsFailure;
    if acts == [] {
    } else {
      var n := |acts| - 1;
      var front, before := acts[..n], After(c, acts[..n]);
      InactiveIff(c, front);
      ActWakes(before, acts[n]);
      CountersCount(c, acts);
      assert acts[..n + 1] == acts;
      assert forall i: nat :: i <= n ==> front[..i] == acts[..i];
      if !Wakes(before, acts[n]) {
        AsleepOnward(c, acts);
      } else {
        Awake(c, acts);
      }
    }
  }

  /** After an act that wakes it no row is asleep. */
  lemma Awake(c: Company, acts: seq<Act>)
    requires acts != [] && Wakes(After(c, acts[..|acts| - 1]), acts[|acts| - 1])
    ensures !Asleep(c, acts)
  {
    hide Empties, After, CanPoll;
    var n := |acts| - 1;
    forall j: nat | j <= n ensures !NotWoken(c, acts, j) {
      WokenSince(c, acts, j);
    }
  }

  lemma WokenSince(c: Company, acts: seq<Act>, j: nat)
    requires j < |acts| && Wakes(After(c, acts[..|acts| - 1]), acts[|acts| - 1])
    ensures !NotWoken(c, acts, j)
  {
    hide After, Wakes;
    assert Wakes(After(c, acts[..|acts| - 1]), acts[|acts| - 1]);
  }

  lemma AsleepOnward(c: Company, acts: seq<Act>)
    requires acts != [] && !Wakes(After(c, acts[..|acts| - 1]), acts[|acts| - 1])
    ensures Asleep(c, acts) <==> Asleep(c, acts[..|acts| - 1]) || FallsAsleep(c, acts, |acts| - 1)
  {
    hide Empties, After, Wakes, IsEmpty;
    var n := |acts| - 1;
    var front := acts[..n];
    forall i: nat | i <= n ensures NotWoken(c, acts, i) <==> NotWoken(c, front, i) {
      NotWokenPrefix(c, acts, i);
    }
    forall i: nat | i < n ensures FallsAsleep(c, acts, i) <==> FallsAsleep(c, front, i) {
      assert front[..i] == acts[..i] && front[..i + 1] == acts[..i + 1] && front[i] == acts[i];
    }
    assert NotWoken(c, acts, n + 1);
    if Asleep(c, front) {
      if i: nat :| FallsAsleep(c, front, i) && NotWoken(c, front, i + 1) {
        assert FallsAsleep(c, acts, i) && NotWoken(c, acts, i + 1);
      }
    }
    if Asleep(c, acts) {
      if i: nat :| FallsAsleep(c, acts, i) && NotWoken(c, acts, i + 1) {
        assert i < n ==> FallsAsleep(c, front, i) && NotWoken(c, front, i + 1);
      }
    }
  }

  lemma NotWokenPrefix(c: Company, acts: seq<Act>, j: nat)
    requires acts != [] && j <= |acts| - 1 && !Wakes(After(c, acts[..|acts| - 1]), acts[|acts| - 1])
    ensures NotWoken(c, acts, j) <==> NotWoken(c, acts[..|acts| - 1], j)
  {
    hide After, Wakes;
    var front := acts[..|acts| - 1];
    assert forall i: nat :: i < |front| ==> front[..i] == acts[..i] && front[i] == acts[i];
  }

  /** Over every run a row of the table is INACTIVE exactly under this condition on its acts. */
  lemma InactiveRowIff(rules: Rules, web: Web, rows: Companies, es: seq<Event>, k: string)
    requires CompanyTable.Valid(rows) && k in rows
    ensures var after := RunFrom(rules, web, rows, es);
      k in after && (after[k].pollState == Inactive <==> Asleep(rows[k], ActsOf(rules, web, rows, es, k)))
  {
    hide After, Asleep;
    RowHistory(rules, web, rows, es, k);
    InactiveIff(rows[k], ActsOf(rules, web, rows, es, k));
  }

  /** Every row that is there at the end and was not at the start was born in between, without streak and failures. */
  lemma {:induction false} Born(rules: Rules, web: Web, rows: Companies, es: seq<Event>, k: string) returns (i: nat)
    requires TableSound(rows) && k !in rows && k in RunFrom(rules, web, rows, es)
    ensures 0 < i <= |es| && k !in At(rules, web, rows, es, i - 1)
    ensures var at := At(rules, web, rows, es, i);
      && TableSound(at) && k in at && at[k].emptyStreak == 0 && at[k].failCount == 0
      && RunFrom(rules, web, rows, es) == RunFrom(rules, web, at, es[i..])
    decreases |es|
  {
    hide Advance, TableSound, Sound;
    var next := Advance(rules, web, rows, es[0]);
    StepSound(rules, web, rows, es[0]);
    assert es[..0] == [];
    if k in next {
      i := 1;
      SoundIsValid(rows);
      NewRows(rules, web, rows, es[0], k);
      AtNext(rules, web, rows, es, 0);
    } else {
      var j := Born(rules, web, next, es[1..], k);
      i := j + 1;
      AtShift(rules, web, rows, es, j);
      AtShift(rules, web, rows, es, j - 1);
      assert es[1..][j..] == es[i..];
    }
  }

  /** An act that takes a company out of UNRESOLVED: a seed row, or a rewrite by a row in another status. */
  predicate Revives(a: Act) {
    a.Import? || (a.Overwrite? && a.born.status != Unresolved)
  }

  /** A seed row never leaves UNRESOLVED behind. */
  lemma SeededIsNotUnresolved(c: Company, a: Act)
    requires a.Import?
    ensures Apply(c, a).status != Unresolved
  {
    hide WithSighting, Classify, Trim;
  }

  /** One act takes a company out of UNRESOLVED exactly when it is one of these: no poll, failure, sighting or resolve attempt is. */
  lemma ActRevivesIff(c: Company, a: Act)
    requires c.status == Unresolved
    ensures Apply(c, a).status != Unresolved <==> Revives(a)
  {
    hide Seeded, AppendAlias, Trim;
    if a.Import? {
      SeededIsNotUnresolved(c, a);
    }
  }

  /** A history keeps a company UNRESOLVED all the way exactly when none of its acts revives it. */
  lemma {:induction false} StaysUnresolvedIff(c: Company, acts: seq<Act>)
    requires c.status == Unresolved
    ensures (forall i: nat :: i <= |acts| ==> After(c, acts[..i]).status == Unresolved)
      <==> forall i :: 0 <= i < |acts| ==> !Revives(acts[i])
    decreases |acts|
  {
    hide Apply, Revives;
    if acts == [] {
      assert acts[..0] == [];
    } else {
      var n := |acts| - 1;
      StaysUnresolvedIff(c, acts[..n]);
      forall i: nat | i <= n ensures acts[..n][..i] == acts[..i] {
      }
      assert acts[..n + 1] == acts && acts[..n][..n] == acts[..n];
      if After(c, acts[..n]).status == Unresolved {
        ActRevivesIff(After(c, acts[..n]), acts[n]);
      }
      assert forall i :: 0 <= i < n ==> acts[..n][i] == acts[i];
    }
  }

  /** The same for a row of the table: over every run it stays UNRESOLVED exactly until a seed row or a rewrite reaches it. */
  lemma UnresolvedIsNotRetried(rules: Rules, web: Web, rows: Companies, es: seq<Event>, k: string)
    requires CompanyTable.Valid(rows) && k in rows && rows[k].status == Unresolved
    ensures (forall i: nat :: i <= |es| ==>
        k in At(rules, web, rows, es, i) && At(rules, web, rows, es, i)[k].status == Unresolved)
      <==> forall i :: 0 <= i < |ActsOf(rules, web, rows, es, k)| ==> !Revives(ActsOf(rules, web, rows, es, k)[i])
  {
    hide After, Revives, At;
    var acts := ActsOf(rules, web, rows, es, k);
    StaysUnresolvedIff(rows[k], acts);
    RowHistory(rules, web, rows, es, k);
    forall i: nat | i <= |es|
      ensures k in At(rules, web, rows, es, i) && At(rules, web, rows, es, i)[k] == After(rows[k], acts[..i])
    {
      RowAt(rules, web, rows, es, k, i);
    }
    RowAt(rules, web, rows, es, k, 0);
    if forall i: nat :: i <= |es| ==> k in At(rules, web, rows, es, i) && At(rules, web, rows, es, i)[k].status == Unresolved {
      forall i: nat | i <= |acts| ensures After(rows[k], acts[..i]).status == Unresolved {
        assert At(rules, web, rows, es, i)[k].status == Unresolved;
      }
    }
  }

  /** A company without website and apply URL has no board to find, whatever the web answers. */
  lemma NothingToFind(web: Web, c: Company)
    requires Blank(c.boardURL) && Blank(c.website)
    ensures FoundBoard(web, c).None?
  {
    var raws := [c.boardURL, c.website];
    assert raws[..|raws| - 1] == [c.boardURL] && [c.boardURL][..0] == [];
    assert Clean([]) == [];
    assert Clean([c.boardURL]) == [];
    assert Clean(raws) == [];
  }

  /**
   An input: a company sighted by name only is PENDING. Its resolution finds
   nothing and announces a retry at `retryAt`, and a resolution then, or at any
   other time, changes nothing.
   */
  lemma RetryNeverComes(rules: Rules, web: Web, s: Sighting, now: int, key: string, retryAt: int, later: int)
    requires CompanyIdentity.Sight(rules, map[], s, now).result == Ok(Creates(key)) && Blank(s.website) && Blank(s.applyURL)
    ensures var rows := Advance(rules, web, map[], SightingRead(s, now));
      var tried := Advance(rules, web, rows, ResolveDue(key, retryAt));
      && key in rows && rows[key].status == Pending
      && key in tried && tried[key].status == Unresolved && tried[key].nextResolveAt == Some(retryAt)
      && Advance(rules, web, tried, ResolveDue(key, later)) == tried
  {
    hide Lookup, FormsOf, FoundBoard;
    var rows := Advance(rules, web, map[], SightingRead(s, now));
    TrimIsTrimmed(s.applyURL);
    TrimIsTrimmed(s.website);
    assert Trim("") == "";
    NothingToFind(web, rows[key]);
  }
}
