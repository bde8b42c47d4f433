/**
 What polls and resolve attempts leave in the columns of a company, told from the
 row before, the answer and the clock; and which board a URL names.
 */
module CompanyPolls {
  import opened Prelude
  import opened PollOutcomes
  import opened Text
  import opened KeyedList
  import opened TextLists
  import opened CompanyTable
  import opened CompanyIdentity
  import opened CompanyLife
  import opened JobMerge
  import opened JobTable
  import opened BoardApply

  /** The columns that a poll never writes. */
  predicate SameIdentity(a: Company, b: Company) {
    && a.key == b.key && a.name == b.name && a.aliases == b.aliases && a.website == b.website
    && a.firstSeen == b.firstSeen && a.lastSeen == b.lastSeen && a.needsReview == b.needsReview
  }

  predicate SameBoard(a: Company, b: Company) {
    a.ats == b.ats && a.slug == b.slug && a.boardURL == b.boardURL && a.resolvedBy == b.resolvedBy
  }

  /**
   A poll that goes through, by its outcome. COMPLETE makes the company ACTIVE; five
   EMPTY ones in a row make it INACTIVE; three DEAD_SLUG ones make it PENDING. Every
   other answer clears the failures, and COMPLETE and PARTIAL the streak.
   */
  lemma AnsweredColumns(rules: Rules, web: Web, rows: Companies, key: string, result: BoardResult, now: int)
    requires key in rows && rows[key].status == Resolved && Pollable(rows[key].ats)
    ensures var after := Advance(rules, web, rows, PollAnswered(key, result, now));
      var o := result.outcome;
      && after.Keys == rows.Keys && (forall k :: k in rows && k != key ==> after[k] == rows[k])
      && var was, got := rows[key], after[key];
         && got.failCount == (if o == DeadSlug then was.failCount + 1 else 0)
         && got.emptyStreak ==
            (if o == Complete || o == Partial then 0 else if o == Empty then was.emptyStreak + 1 else was.emptyStreak)
         && got.pollState ==
            (if o == Complete then Active else if o == Empty && was.emptyStreak >= 4 then Inactive else was.pollState)
         && got.lastPolledAt == Some(now)
         && got.etag == (if o == DeadSlug || result.etag == "" then was.etag else result.etag)
         && got.status == (if o == DeadSlug && was.failCount >= 2 then Pending else Resolved)
         && got.nextResolveAt == (if o == DeadSlug && was.failCount >= 2 then None else was.nextResolveAt)
         && SameIdentity(was, got) && SameBoard(was, got)
  {
  }

  /** A transport failure is counted, and nothing else changes but a poll time that was not known. */
  lemma FailedColumns(rules: Rules, web: Web, rows: Companies, key: string, now: int)
    requires key in rows
    ensures Advance(rules, web, rows, PollFailed(key, now)) ==
      rows[key := rows[key].(failCount := rows[key].failCount + 1,
                             lastPolledAt := if rows[key].lastPolledAt == None then Some(now) else rows[key].lastPolledAt)]
  {
  }

  /** What the URL of a company leads to by itself, if it is not blank. */
  function Direct(web: Web, raw: string): Option<Hit> {
    if Trim(raw) == "" then None else ParseATS(web.parse, Trim(raw))
  }

  /** And behind a redirect. */
  function Behind(web: Web, raw: string): Option<Hit> {
    if Trim(raw) == "" then None
    else match web.follow(Trim(raw))
         case None => None
         case Some(to) => if to == "" || to == Trim(raw) then None else ParseATS(web.parse, to)
  }

  /** The board URL goes before the website, and both go before what is behind them. */
  lemma FoundBoardIs(web: Web, c: Company)
    ensures FoundBoard(web, c) ==
      if Direct(web, c.boardURL).Some? then Direct(web, c.boardURL)
      else if Direct(web, c.website).Some? then Direct(web, c.website)
      else if Behind(web, c.boardURL).Some? then Behind(web, c.boardURL)
      else Behind(web, c.website)
  {
    hide ParseATS, Trim;
    var raws := [c.boardURL, c.website];
    assert raws[..1] == [c.boardURL] && [c.boardURL][..0] == [];
    assert Clean([]) == [];
    assert Clean([c.boardURL]) == if Blank(c.boardURL) then [] else [Trim(c.boardURL)];
    var clean := Clean(raws);
    assert clean == Clean([c.boardURL]) + (if Blank(c.website) then [] else [Trim(c.website)]);
    FewRaws(web, Trim(c.boardURL), Trim(c.website));
  }

  lemma FewRaws(web: Web, a: string, b: string)
    ensures Dedup(Same, []) == []
    ensures Dedup(Same, [a]) == [a] && Dedup(Same, [b]) == [b]
    ensures Dedup(Same, [a, b]) == if a == b then [a] else [a, b]
    ensures FirstDirect(web, []) == None && FirstRedirected(web, []) == None
    ensures forall x :: x == a || x == b ==>
      FirstDirect(web, [x]) == ParseATS(web.parse, x) && FirstRedirected(web, [x]) == Redirected(web, x)
    ensures FirstDirect(web, [a, b]) == if ParseATS(web.parse, a).Some? then ParseATS(web.parse, a) else ParseATS(web.parse, b)
    ensures FirstRedirected(web, [a, b]) == if Redirected(web, a).Some? then Redirected(web, a) else Redirected(web, b)
  {
    hide ParseATS, Redirected;
    assert [a, b][..1] == [a] && [a][..0] == [] && [b][..0] == [];
    assert [a, b][1..] == [b] && [a][1..] == [] && [b][1..] == [];
    assert [] + [a] == [a];
    KeysAppend(Same, [], a);
  }

  /** The resolution of a PENDING company: to the board that is found, or to a retry. No other company changes. */
  lemma ResolvedColumns(rules: Rules, web: Web, rows: Companies, key: string, retryAt: int)
    requires key in rows
    ensures var after := Advance(rules, web, rows, ResolveDue(key, retryAt));
      && after.Keys == rows.Keys && (forall k :: k in rows && k != key ==> after[k] == rows[k])
      && (rows[key].status != Pending ==> after[key] == rows[key])
      && var was, got, hit := rows[key], after[key], FoundBoard(web, rows[key]);
         && SameIdentity(was, got) && got.failCount == was.failCount && got.emptyStreak == was.emptyStreak
         && got.pollState == was.pollState && got.etag == was.etag && got.lastPolledAt == was.lastPolledAt
         && (was.status == Pending && hit == None ==>
               got.status == Unresolved && got.ats == NoATS && got.slug == "" && got.boardURL == ""
               && got.nextResolveAt == Some(retryAt) && got.resolvedBy == NoMethod)
         && (was.status == Pending && hit.Some? ==>
               got.ats == hit.value.ats && got.boardURL == hit.value.boardURL && got.nextResolveAt == None
               && got.resolvedBy == ApplyURL
               && (if hit.value.ats in {Greenhouse, Lever, Ashby} then got.status == Resolved && got.slug == hit.value.slug
                   else got.status == UnsupportedATS && got.slug == ""))
  {
    hide FoundBoard;
  }

  ghost predicate EndsWith(s: string, t: string) {
    exists a :: s == a + t
  }

  lemma EndsWithIff(s: string, t: string)
    ensures EndsWith(s, t) <==> HasSuffix(s, t)
  {
    if HasSuffix(s, t) {
      assert s == s[..|s| - |t|] + t;
    }
  }

  /** No host belongs to two of the families. */
  lemma FamiliesDiffer(s: string)
    ensures !(HasSuffix(s, "greenhouse.io") && HasSuffix(s, "lever.co"))
    ensures !(HasSuffix(s, "greenhouse.io") && HasSuffix(s, "ashbyhq.com"))
    ensures !(HasSuffix(s, "lever.co") && HasSuffix(s, "ashbyhq.com"))
  {
    assert "greenhouse.io"[11] == 'i' && "greenhouse.io"[12] == 'o';
    assert "lever.co"[6] == 'c' && "lever.co"[7] == 'o' && "ashbyhq.com"[10] == 'm';
    CharFromEnd(s, "greenhouse.io", 1);
    CharFromEnd(s, "greenhouse.io", 2);
    CharFromEnd(s, "lever.co", 1);
    CharFromEnd(s, "lever.co", 2);
    CharFromEnd(s, "ashbyhq.com", 1);
  }

  lemma CharFromEnd(s: string, t: string, n: nat)
    requires 0 < n <= |t|
    ensures HasSuffix(s, t) ==> n <= |s| && s[|s| - n] == t[|t| - n]
  {
    if HasSuffix(s, t) {
      assert s[|s| - |t|..][|t| - n] == t[|t| - n];
    }
  }

  /** The longer end of a host ends it too. */
  lemma ShorterEnd(s: string, t: string, u: string)
    requires HasSuffix(t, u)
    ensures HasSuffix(s, t) ==> HasSuffix(s, u)
  {
    if HasSuffix(s, t) {
      assert s[|s| - |u|..] == s[|s| - |t|..][|t| - |u|..];
    }
  }

  /** The boards by their hosts. A host of none of these families, and without a known foreign name in it, names no board. */
  lemma HostsAre(u: URL)
    ensures var slug := if u.segments == [] then "" else u.segments[0];
      && (u.host == "boards.greenhouse.io" || u.host == "job-boards.greenhouse.io" || EndsWith(u.host, ".greenhouse.io") ==>
            PollableHost(u) ==
            if slug == "" || slug == "embed" then None else Some(Hit(Greenhouse, slug, "https://boards.greenhouse.io/" + slug)))
      && (u.host == "jobs.lever.co" || u.host == "lever.co" || EndsWith(u.host, ".lever.co") ==>
            PollableHost(u) == if slug == "" then None else Some(Hit(Lever, slug, "https://jobs.lever.co/" + slug)))
      && (u.host == "jobs.ashbyhq.com" || u.host == "ashbyhq.com" || EndsWith(u.host, ".ashbyhq.com") ==>
            PollableHost(u) == if slug == "" then None else Some(Hit(Ashby, slug, "https://jobs.ashbyhq.com/" + slug)))
      && (PollableHost(u).Some? ==> EndsWith(u.host, "greenhouse.io") || EndsWith(u.host, "lever.co") || EndsWith(u.host, "ashbyhq.com"))
  {
    hide HasSuffix, EndsWith;
    EndsWithIff(u.host, ".greenhouse.io");
    EndsWithIff(u.host, ".lever.co");
    EndsWithIff(u.host, ".ashbyhq.com");
    EndsWithIff(u.host, "greenhouse.io");
    EndsWithIff(u.host, "lever.co");
    EndsWithIff(u.host, "ashbyhq.com");
    FamiliesDiffer(u.host);
    FamilyEnds(u.host);
  }

  lemma FamilyEnds(s: string)
    ensures s == "boards.greenhouse.io" || s == "job-boards.greenhouse.io" || HasSuffix(s, ".greenhouse.io") ==> HasSuffix(s, "greenhouse.io")
    ensures s == "jobs.lever.co" || s == "lever.co" || HasSuffix(s, ".lever.co") ==> HasSuffix(s, "lever.co")
    ensures s == "jobs.ashbyhq.com" || s == "ashbyhq.com" || HasSuffix(s, ".ashbyhq.com") ==> HasSuffix(s, "ashbyhq.com")
  {
    assert HasSuffix("boards.greenhouse.io", "greenhouse.io") && HasSuffix("job-boards.greenhouse.io", "greenhouse.io");
    assert HasSuffix("jobs.lever.co", "lever.co") && HasSuffix("lever.co", "lever.co");
    assert HasSuffix("jobs.ashbyhq.com", "ashbyhq.com") && HasSuffix("ashbyhq.com", "ashbyhq.com");
    ShorterEnd(s, ".greenhouse.io", "greenhouse.io");
    ShorterEnd(s, ".lever.co", "lever.co");
    ShorterEnd(s, ".ashbyhq.com", "ashbyhq.com");
  }

  ghost predicate Within(s: string, t: string) {
    exists a, b :: s == a + t + b
  }

  lemma WithinIff(s: string, t: string)
    ensures Within(s, t) <==> Contains(s, t)
  {
    if i :| 0 <= i <= |s| && OccursAt(s, t, i) {
      assert s == s[..i] + t + s[i + |t|..];
    }
    if a, b :| s == a + t + b {
      assert OccursAt(s, t, |a|);
    }
  }

  /** The foreign board that a host belongs to. */
  ghost predicate Belongs(host: string, name: string) {
    || (name == "WORKDAY" && (Within(host, "myworkdayjobs.com") || Within(host, "workday.com")))
    || (name == "TEAMTAILOR" && Within(host, "teamtailor.com"))
    || (name == "WORKABLE" && Within(host, "workable.com"))
    || (name == "RECRUITEE" && Within(host, "recruitee.com"))
    || (name == "PERSONIO" && (Within(host, "personio.de") || Within(host, "personio.com")))
    || (name == "RIPPLING" && Within(host, "rippling.com"))
    || (name == "SMARTRECRUITERS" && Within(host, "smartrecruiters.com"))
  }

  ghost predicate IsForeign(host: string) {
    exists name :: Belongs(host, name)
  }

  /** What a URL names: a board that can be polled, or else a foreign one with its address, or nothing. */
  lemma BoardOf(parse: string -> Option<URL>, raw: string)
    ensures var hit := ParseATS(parse, raw);
      if Trim(raw) == "" || parse(Trim(raw)).None? then hit == None
      else
        var u := parse(Trim(raw)).value;
        && (PollableHost(u).Some? ==> hit == PollableHost(u))
        && (PollableHost(u).None? && !IsForeign(u.host) ==> hit == None)
        && (PollableHost(u).None? && IsForeign(u.host) ==>
              && hit.Some? && hit.value.slug == "" && hit.value.boardURL == u.text
              && hit.value.ats.OtherATS? && Belongs(u.host, hit.value.ats.name))
  {
    hide PollableHost, Trim, Contains, Within;
    if parse(Trim(raw)).Some? {
      ForeignIs(parse(Trim(raw)).value.host);
    }
  }

  lemma ForeignIs(host: string)
    ensures UnsupportedHost(host).Some? <==> IsForeign(host)
    ensures var ats := UnsupportedHost(host); ats.Some? ==> ats.value.OtherATS? && Belongs(host, ats.value.name)
  {
    hide Contains, Within;
    WithinIff(host, "myworkdayjobs.com");
    WithinIff(host, "workday.com");
    WithinIff(host, "teamtailor.com");
    WithinIff(host, "workable.com");
    WithinIff(host, "recruitee.com");
    WithinIff(host, "personio.de");
    WithinIff(host, "personio.com");
    WithinIff(host, "rippling.com");
    WithinIff(host, "smartrecruiters.com");
    if UnsupportedHost(host).Some? {
      assert Belongs(host, UnsupportedHost(host).value.name);
    }
  }

  // The jobs of a poll.

  predicate Young(job: Job, now: int) {
    !(job.postedAt.Some? && job.postedAt.value < now - 30 * 86400)
  }

  function YoungOnes(jobs: seq<Job>, now: int): nat {
    if jobs == [] then 0 else YoungOnes(jobs[..|jobs| - 1], now) + (if Young(jobs[|jobs| - 1], now) then 1 else 0)
  }

  /** The board lists the id, young enough when the poll looks at it. */
  ghost predicate SeenNow(jobs: seq<Job>, id: string, t: Clocks) {
    id != "" && exists job :: job in jobs && job.id == id && Young(job, t.filter)
  }

  /** And it is still young enough when it is written. */
  ghost predicate SavedNow(jobs: seq<Job>, id: string, t: Clocks) {
    exists job :: job in jobs && job.id == id && Young(job, t.filter) && Young(job, t.upsert)
  }

  /** The row is the company's, and has been on its board. */
  predicate WasThere(rows: Rows, key: string, id: string) {
    id in rows && rows[id].companyKeyRef == Some(key) && rows[id].boardSeenAt.Some?
  }

  predicate OpenThere(rows: Rows, key: string, id: string) {
    WasThere(rows, key, id) && rows[id].closedAt == None
  }

  predicate SameRow(was: Rows, now: Rows, id: string) {
    (id in now <==> id in was) && (id in was ==> now[id] == was[id])
  }

  lemma {:induction false} YoungAre(jobs: seq<Job>, now: int)
    ensures |Fresh(jobs, now)| == YoungOnes(jobs, now)
    decreases |jobs|
  {
    if jobs == [] {
    } else {
      YoungAre(jobs[..|jobs| - 1], now);
    }
  }

  lemma SeenIs(jobs: seq<Job>, id: string, t: Clocks)
    ensures id in Listed(jobs, t) <==> SeenNow(jobs, id, t)
    ensures Written(Fresh(jobs, t.filter), id, t.upsert) <==> SavedNow(jobs, id, t)
  {
    var recent := Fresh(jobs, t.filter);
    SeenMember(recent, id);
    hide SeenIDs, Fresh;
    forall job: Job
      ensures job in recent <==> job in jobs && Young(job, t.filter)
      ensures Stale(job.postedAt, t.upsert) <==> !Young(job, t.upsert)
    {
      FreshMember(jobs, t.filter, job);
    }
    if Written(recent, id, t.upsert) {
      var i :| 0 <= i < |recent| && recent[i].id == id && !Stale(recent[i].postedAt, t.upsert);
      assert recent[i] in recent;
    }
    if job :| job in jobs && job.id == id && Young(job, t.filter) && Young(job, t.upsert) {
      assert job in recent;
      var i :| 0 <= i < |recent| && recent[i] == job;
    }
  }

  /**
   What a poll that goes through does to the jobs. COMPLETE leaves open on the board
   what is listed, and was written now or there before; it closes what was open
   there and is not listed. PARTIAL closes nothing. Every other answer leaves the
   jobs alone.
   */
  lemma JobsAfterPoll(fold: string -> string, rows: Rows, key: string, result: BoardResult, t: Clocks, id: string)
    requires Writes(fold, rows, key, result, t)
    ensures var after, r := PolledJobs(fold, rows, key, result, t), ResultOf(fold, rows, key, result, t);
      var jobs, o := result.jobs, result.outcome;
      && r.outcome == o
      && (o != Complete && o != Partial ==> after == rows && r.upserted == 0 && r.closed == 0)
      && (o == Complete || o == Partial ==> r.upserted == YoungOnes(jobs, t.filter))
      && (o == Complete ==>
            && (OpenThere(after, key, id) <==> SeenNow(jobs, id, t) && (SavedNow(jobs, id, t) || WasThere(rows, key, id)))
            && (!SeenNow(jobs, id, t) && OpenThere(rows, key, id) ==>
                  id in after && after[id] == rows[id].(closedAt := Some(t.close), closedBy := ATS, updatedAt := t.close))
            && (!SeenNow(jobs, id, t) && !OpenThere(rows, key, id) ==> SameRow(rows, after, id))
            && r.closed == |set x | x in rows && OpenThere(rows, key, x) && !SeenNow(jobs, x, t)|)
      && (o == Partial ==>
            && r.closed == 0 && (!SeenNow(jobs, id, t) ==> SameRow(rows, after, id))
            && (id in rows && rows[id].closedAt == None ==> id in after && after[id].closedAt == None))
  {
    hide Fresh, SeenIDs, Listed, Written, AppliedRows, AppliedCounts, SeenNow, SavedNow, Succeeds, UpsertedRows;
    if result.outcome == Complete {
      OpenAfterComplete(fold, rows, key, result.jobs, t, id);
      ClosedCount(fold, rows, key, result.jobs, t);
    }
    if result.outcome == Partial {
      PartialCount(fold, rows, key, result.jobs, t);
      if id in rows {
        PartialOnlyGrows(fold, rows, key, result.jobs, t, id);
      }
    }
    if result.outcome == Complete || result.outcome == Partial {
      UpsertCount(fold, rows, key, result.jobs, result.outcome == Complete, t);
      SeenIs(result.jobs, id, t);
      if id !in Listed(result.jobs, t) {
        Untouched(fold, rows, key, result.jobs, result.outcome == Complete, t, id);
      }
    }
  }

  /** The jobs can be written when the company has a key and every listing that is young enough has an id. */
  lemma WritesIff(fold: string -> string, rows: Rows, key: string, result: BoardResult, t: Clocks)
    ensures Writes(fold, rows, key, result, t) <==>
      (result.outcome == Complete || result.outcome == Partial ==>
         key != "" && forall job :: job in result.jobs && Young(job, t.filter) ==> job.id != "")
  {
    var recent := Fresh(result.jobs, t.filter);
    UpsertSucceeds(fold, rows, key, recent, t.upsert);
    hide Fresh;
    forall job: Job ensures job in recent <==> job in result.jobs && Young(job, t.filter) {
      FreshMember(result.jobs, t.filter, job);
    }
    assert forall i :: 0 <= i < |recent| ==> recent[i] in recent;
  }

  lemma UpsertCount(fold: string -> string, rows: Rows, key: string, jobs: seq<Job>, closeAbsent: bool, t: Clocks)
    ensures AppliedCounts(fold, rows, key, jobs, closeAbsent, t).upserted == YoungOnes(jobs, t.filter)
  {
    hide ClosedIDs;
    YoungAre(jobs, t.filter);
  }

  lemma PartialCount(fold: string -> string, rows: Rows, key: string, jobs: seq<Job>, t: Clocks)
    ensures AppliedCounts(fold, rows, key, jobs, false, t).closed == 0
  {
  }

  lemma ClosedCount(fold: string -> string, rows: Rows, key: string, jobs: seq<Job>, t: Clocks)
    requires Succeeds(fold, rows, key, jobs, t)
    ensures AppliedCounts(fold, rows, key, jobs, true, t).closed ==
      |set x | x in rows && OpenThere(rows, key, x) && !SeenNow(jobs, x, t)|
  {
    hide Fresh, SeenIDs, Listed, Written, AppliedCounts, SeenNow, Succeeds;
    ClosedIsExact(fold, rows, key, jobs, t);
    forall x ensures x in ListedSet(jobs, t) <==> SeenNow(jobs, x, t) {
      SeenIs(jobs, x, t);
    }
    assert OpenOnBoard(rows, key) - ListedSet(jobs, t) == set x | x in rows && OpenThere(rows, key, x) && !SeenNow(jobs, x, t);
  }
}
