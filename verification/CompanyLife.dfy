/**
 The life of a company row: polls of its board, transport failures, resolution
 of its board address, sightings and seed imports. `Apply` is what one of these
 acts does to the row; the service methods do the same to the tables. Fetching,
 URL parsing and redirects are oracles.
 */
module CompanyLife {
  import opened Prelude
  import opened PollOutcomes
  import opened Text
  import opened KeyedList
  import opened TextLists
  import opened CompanyKeys
  import opened CompanyTable
  import opened CompanyIdentity
  import opened SeedImport
  import opened JobMerge
  import opened JobTable
  import opened BoardApply

  const EMPTY_STREAK_TO_INACTIVE: int := 5
  const DEAD_STREAK_TO_PENDING: int := 3

  function PreferETag(next: string, prev: string): string {
    if next != "" then next else prev
  }

  /** The row after a poll that the board answered. */
  function Answered(c: Company, outcome: Outcome, etag: string, now: int): Company {
    match outcome
    case NotModified => Polled(c, now, PreferETag(etag, c.etag), 0, c.emptyStreak, c.pollState)
    case Complete => Polled(c, now, PreferETag(etag, c.etag), 0, 0, Active)
    case Partial => Polled(c, now, PreferETag(etag, c.etag), 0, 0, c.pollState)
    case Empty =>
      Polled(c, now, PreferETag(etag, c.etag), 0, c.emptyStreak + 1,
             if c.emptyStreak + 1 >= EMPTY_STREAK_TO_INACTIVE then Inactive else c.pollState)
    case DeadSlug =>
      var counted := Polled(c, now, c.etag, c.failCount + 1, c.emptyStreak, c.pollState);
      if c.failCount + 1 >= DEAD_STREAK_TO_PENDING
      then Committed(counted, Pending, c.resolvedBy, c.ats, c.slug, c.boardURL, None)
      else counted
  }

  /** The row after the transport retries of a poll are exhausted. */
  function TransportFailed(c: Company, now: int): Company {
    Polled(c, if c.lastPolledAt.Some? then c.lastPolledAt.value else now, c.etag, c.failCount + 1, c.emptyStreak, c.pollState)
  }

  predicate CanPoll(c: Company) {
    c.status == Resolved && Pollable(c.ats)
  }

  /** A parsed URL: lower-case host, non-empty path segments, and its text. */
  datatype URL = URL(host: string, segments: seq<string>, text: string)

  datatype Hit = Hit(ats: ATS, slug: string, boardURL: string)

  predicate HasSuffix(s: string, t: string) {
    |t| <= |s| && s[|s| - |t|..] == t
  }

  predicate Contains(s: string, t: string) {
    exists i :: 0 <= i <= |s| && OccursAt(s, t, i)
  }

  function FirstSegment(u: URL): string {
    if u.segments == [] then "" else u.segments[0]
  }

  /** parsePollableHost. */
  function PollableHost(u: URL): Option<Hit> {
    var slug := FirstSegment(u);
    if u.host == "boards.greenhouse.io" || u.host == "job-boards.greenhouse.io" || HasSuffix(u.host, ".greenhouse.io") then
      if slug == "" || slug == "embed" then None else Some(Hit(Greenhouse, slug, "https://boards.greenhouse.io/" + slug))
    else if u.host == "jobs.lever.co" || u.host == "lever.co" || HasSuffix(u.host, ".lever.co") then
      if slug == "" then None else Some(Hit(Lever, slug, "https://jobs.lever.co/" + slug))
    else if u.host == "jobs.ashbyhq.com" || u.host == "ashbyhq.com" || HasSuffix(u.host, ".ashbyhq.com") then
      if slug == "" then None else Some(Hit(Ashby, slug, "https://jobs.ashbyhq.com/" + slug))
    else None
  }

  function UnsupportedHost(host: string): Option<ATS> {
    if Contains(host, "myworkdayjobs.com") || Contains(host, "workday.com") then Some(OtherATS("WORKDAY"))
    else if Contains(host, "teamtailor.com") then Some(OtherATS("TEAMTAILOR"))
    else if Contains(host, "workable.com") then Some(OtherATS("WORKABLE"))
    else if Contains(host, "recruitee.com") then Some(OtherATS("RECRUITEE"))
    else if Contains(host, "personio.de") || Contains(host, "personio.com") then Some(OtherATS("PERSONIO"))
    else if Contains(host, "rippling.com") then Some(OtherATS("RIPPLING"))
    else if Contains(host, "smartrecruiters.com") then Some(OtherATS("SMARTRECRUITERS"))
    else None
  }

  /** parseATSURL. */
  function ParseATS(parse: string -> Option<URL>, raw: string): Option<Hit> {
    if Blank(raw) then None
    else match parse(Trim(raw))
         case None => None
         case Some(u) =>
           if PollableHost(u).Some? then PollableHost(u)
           else match UnsupportedHost(u.host)
                case Some(ats) => Some(Hit(ats, "", u.text))
                case None => None
  }

  /** What is known about the world outside: URL parsing and redirects. A failed redirect is `None`. */
  datatype Web = Web(parse: string -> Option<URL>, follow: string -> Option<string>)

  function FirstDirect(web: Web, raws: seq<string>): Option<Hit> {
    if raws == [] then None
    else if ParseATS(web.parse, raws[0]).Some? then ParseATS(web.parse, raws[0])
    else FirstDirect(web, raws[1..])
  }

  function Redirected(web: Web, raw: string): Option<Hit> {
    match web.follow(raw)
    case None => None
    case Some(to) => if to == "" || to == raw then None else ParseATS(web.parse, to)
  }

  function FirstRedirected(web: Web, raws: seq<string>): Option<Hit> {
    if raws == [] then None
    else if Redirected(web, raws[0]).Some? then Redirected(web, raws[0])
    else FirstRedirected(web, raws[1..])
  }

  /** The board found for a company: directly if any candidate allows, otherwise behind a redirect. */
  function FoundBoard(web: Web, c: Company): Option<Hit> {
    var raws := Dedup(Same, Clean([c.boardURL, c.website]));
    if FirstDirect(web, raws).Some? then FirstDirect(web, raws) else FirstRedirected(web, raws)
  }

  /** The row after a resolution attempt with this result. */
  function ResolvedAs(c: Company, hit: Option<Hit>, retryAt: int): Company {
    match hit
    case None => Committed(c, Unresolved, NoMethod, NoATS, "", "", Some(retryAt))
    case Some(h) =>
      if Pollable(h.ats) then Committed(c, Resolved, ApplyURL, h.ats, h.slug, h.boardURL, None)
      else Committed(c, UnsupportedATS, ApplyURL, h.ats, "", h.boardURL, None)
  }

  datatype BoardResult = BoardResult(outcome: Outcome, jobs: seq<Job>, etag: string)

  datatype PollResult = PollResult(outcome: Outcome, upserted: int, closed: int)

  lemma NewbornKeys(f: Forms, name: string, s: Sighting, needsReview: bool, now: int)
    ensures var c := Newborn(f, name, s, needsReview, now);
      c.key == f.birth && c.name == name && c.emptyStreak == 0 && c.failCount == 0 && c.pollState == Active && Sound(c)
  {
    AppendKeeps([], f.name, "");
  }

  predicate ClosesOrGrows(outcome: Outcome) {
    outcome.Complete? || outcome.Partial?
  }

  /** The listings of an outcome that has any can be written. */
  predicate Writes(fold: string -> string, rows: Rows, key: string, result: BoardResult, t: Clocks) {
    ClosesOrGrows(result.outcome) ==> Succeeds(fold, rows, key, result.jobs, t)
  }

  /** The jobs table after the board answered: only COMPLETE and PARTIAL touch it, and a failed upsert leaves its part. */
  function PolledJobs(fold: string -> string, rows: Rows, key: string, result: BoardResult, t: Clocks): Rows {
    if !ClosesOrGrows(result.outcome) then rows
    else if Succeeds(fold, rows, key, result.jobs, t) then AppliedRows(fold, rows, key, result.jobs, result.outcome.Complete?, t)
    else UpsertedRows(fold, rows, key, result.jobs, t)
  }

  /** What a poll reports: its outcome and, where jobs were written, how many were upserted and closed. */
  function ResultOf(fold: string -> string, rows: Rows, key: string, result: BoardResult, t: Clocks): PollResult {
    if !ClosesOrGrows(result.outcome) then PollResult(result.outcome, 0, 0)
    else
      var counts := AppliedCounts(fold, rows, key, result.jobs, result.outcome.Complete?, t);
      PollResult(result.outcome, counts.upserted, counts.closed)
  }

  function AnsweredRows(rows: Companies, key: string, result: BoardResult, now: int): Companies {
    if key in rows then rows[key := Answered(rows[key], result.outcome, result.etag, now)] else rows
  }

  function FailedRows(rows: Companies, key: string, now: int): Companies {
    if key in rows then rows[key := TransportFailed(rows[key], now)] else rows
  }

  function ResolvedRows(rows: Companies, web: Web, key: string, retryAt: int): Companies {
    if key in rows && rows[key].status == Pending
    then rows[key := ResolvedAs(rows[key], FoundBoard(web, rows[key]), retryAt)]
    else rows
  }

  /** What Resolve returns. After an attempt without a hit it is not the row: the old board is still in it. */
  function ResolveReply(c: Company, web: Web, retryAt: int): Company {
    var hit := FoundBoard(web, c);
    if c.status != Pending then c
    else if hit.None? then c.(status := Unresolved, nextResolveAt := Some(retryAt))
    else ResolvedAs(c, hit, retryAt)
  }

  /** The companies service over its two tables. */
  class Service {
    const companies: Discovery
    const jobs: JobRepository
    const web: Web
    const retryDays: int
    const fetchers: set<ATS>

    constructor (companies: Discovery, jobs: JobRepository, web: Web, retryDays: int, fetchers: set<ATS>)
      ensures this.companies == companies && this.jobs == jobs && this.web == web
      ensures this.retryDays == retryDays && this.fetchers == fetchers
    {
      this.companies, this.jobs, this.web, this.retryDays, this.fetchers := companies, jobs, web, retryDays, fetchers;
    }

    /** `fetched` is what the board answers, `t` the clocks of the job writes. A failed poll leaves the company alone. */
    method Poll(key: string, fetched: Result<BoardResult, ()>, now: int, t: Clocks)
      returns (r: Result<PollResult, CompanyTable.Fault>)
      requires CompanyTable.Valid(companies.table.rows)
      modifies companies.table`rows, jobs`rows
      ensures r.Ok? <==> PollSucceeds(old(companies.table.rows), old(jobs.rows), key, fetched, t)
      ensures r.Ok? ==> r.value == ResultOf(jobs.fold, old(jobs.rows), key, fetched.value, t)
      ensures r.Err? ==> r.error == Refusal(old(companies.table.rows), key, fetched)
      ensures companies.table.rows ==
        if r.Ok? then Advance(companies.rules, web, old(companies.table.rows), PollAnswered(key, fetched.value, now))
        else old(companies.table.rows)
      ensures r.Ok? && fetched.value.outcome == Complete ==>
        key in companies.table.rows && companies.table.rows[key].pollState == Active
      ensures jobs.rows ==
        if Due(old(companies.table.rows), key) && fetched.Ok? then PolledJobs(jobs.fold, old(jobs.rows), key, fetched.value, t)
        else old(jobs.rows)
    {
      var found := companies.table.GetByKey(key);
      if found.Err? {
        return Err(found.error);
      }
      var c := found.value;
      if c.status != Resolved {
        return Err(NotPollable);
      }
      if !Pollable(c.ats) {
        return Err(NotPollable);
      }
      if c.ats !in fetchers {
        return Err(NotPollable);
      }
      if fetched.Err? {
        return Err(FetchFailed);
      }
      r := Record(c, fetched.value, now, t);
    }

    /** The company as a poll wants it: resolved, with a board some fetcher can read. */
    predicate Due(rows: Companies, key: string) {
      key in rows && CanPoll(rows[key]) && rows[key].ats in fetchers
    }

    /** When a poll goes through: the company is due, the board answers, and its listings can be written. */
    predicate PollSucceeds(rows: Companies, jobRows: Rows, key: string, fetched: Result<BoardResult, ()>, t: Clocks) {
      Due(rows, key) && fetched.Ok? && Writes(jobs.fold, jobRows, key, fetched.value, t)
    }

    /** Why a poll that does not go through is refused. */
    function Refusal(rows: Companies, key: string, fetched: Result<BoardResult, ()>): CompanyTable.Fault {
      if key == "" then KeyRequired
      else if key !in rows then NotFound
      else if !Due(rows, key) then NotPollable
      else if fetched.Err? then FetchFailed
      else JobsFailed
    }

    method Record(c: Company, result: BoardResult, now: int, t: Clocks) returns (r: Result<PollResult, CompanyTable.Fault>)
      requires CompanyTable.Valid(companies.table.rows) && c.key in companies.table.rows && companies.table.rows[c.key] == c
      modifies companies.table`rows, jobs`rows
      ensures r.Ok? <==> Writes(jobs.fold, old(jobs.rows), c.key, result, t)
      ensures r.Ok? ==> r.value == ResultOf(jobs.fold, old(jobs.rows), c.key, result, t)
      ensures r.Err? ==> r.error == JobsFailed
      ensures companies.table.rows ==
        if r.Ok? then AnsweredRows(old(companies.table.rows), c.key, result, now) else old(companies.table.rows)
      ensures jobs.rows == PolledJobs(jobs.fold, old(jobs.rows), c.key, result, t)
    {
      match result.outcome
      case NotModified =>
        var _ := companies.table.MarkPolled(c.key, now, PreferETag(result.etag, c.etag), 0, c.emptyStreak, c.pollState);
        return Ok(PollResult(NotModified, 0, 0));
      case Complete =>
        var applied := ApplyJobs(jobs, c.key, result.jobs, true, t);
        if applied.Err? {
          return Err(JobsFailed);
        }
        var _ := companies.table.MarkPolled(c.key, now, PreferETag(result.etag, c.etag), 0, 0, Active);
        return Ok(PollResult(Complete, applied.value.upserted, applied.value.closed));
      case Partial =>
        var applied := ApplyJobs(jobs, c.key, result.jobs, false, t);
        if applied.Err? {
          return Err(JobsFailed);
        }
        var _ := companies.table.MarkPolled(c.key, now, PreferETag(result.etag, c.etag), 0, 0, c.pollState);
        return Ok(PollResult(Partial, applied.value.upserted, 0));
      case Empty =>
        var streak, pollState := c.emptyStreak + 1, c.pollState;
        if streak >= EMPTY_STREAK_TO_INACTIVE {
          pollState := Inactive;
        }
        var _ := companies.table.MarkPolled(c.key, now, PreferETag(result.etag, c.etag), 0, streak, pollState);
        return Ok(PollResult(Empty, 0, 0));
      case DeadSlug =>
        var failCount := c.failCount + 1;
        var _ := companies.table.MarkPolled(c.key, now, c.etag, failCount, c.emptyStreak, c.pollState);
        if failCount >= DEAD_STREAK_TO_PENDING {
          var _ := companies.table.MarkResolution(c.key, Pending, c.resolvedBy, c.ats, c.slug, c.boardURL, None);
        }
        return Ok(PollResult(DeadSlug, 0, 0));
    }

    method RecordPollTransportFailure(key: string, now: int) returns (r: Result<(), CompanyTable.Fault>)
      requires CompanyTable.Valid(companies.table.rows)
      modifies companies.table`rows
      ensures r.Ok? <==> key in old(companies.table.rows)
      ensures r.Err? ==> r.error == if key == "" then KeyRequired else NotFound
      ensures companies.table.rows == FailedRows(old(companies.table.rows), key, now)
    {
      var found := companies.table.GetByKey(key);
      if found.Err? {
        return Err(found.error);
      }
      var c := found.value;
      var lastPolled := now;
      if c.lastPolledAt.Some? {
        lastPolled := c.lastPolledAt.value;
      }
      r := companies.table.MarkPolled(c.key, lastPolled, c.etag, c.failCount + 1, c.emptyStreak, c.pollState);
    }

    method Candidates(c: Company) returns (hit: Option<Hit>)
      ensures hit == FoundBoard(web, c)
    {
      var raws := CollectTrimmed([c.boardURL, c.website]);
      for i := 0 to |raws|
        invariant FirstDirect(web, raws) == FirstDirect(web, raws[i..])
      {
        hit := ParseATS(web.parse, raws[i]);
        if hit.Some? {
          return;
        }
        assert raws[i..][1..] == raws[i + 1..];
      }
      for i := 0 to |raws|
        invariant FirstRedirected(web, raws) == FirstRedirected(web, raws[i..])
      {
        assert raws[i..][1..] == raws[i + 1..];
        var to := web.follow(raws[i]);
        if to.None? || to.value == "" || to.value == raws[i] {
          continue;
        }
        hit := ParseATS(web.parse, to.value);
        if hit.Some? {
          return;
        }
      }
      return None;
    }

    /** Only a PENDING company is resolved; for any other the call changes nothing. */
    method Resolve(key: string, now: int) returns (r: Result<Company, CompanyTable.Fault>)
      requires CompanyTable.Valid(companies.table.rows)
      modifies companies.table`rows
      ensures r.Ok? <==> key in old(companies.table.rows)
      ensures companies.table.rows == ResolvedRows(old(companies.table.rows), web, key, now + retryDays * DAY)
      ensures r.Ok? ==> r.value == ResolveReply(old(companies.table.rows)[key], web, now + retryDays * DAY)
      ensures r.Err? ==> r.error == if key == "" then KeyRequired else NotFound
    {
      var found := companies.table.GetByKey(key);
      if found.Err? {
        return Err(found.error);
      }
      var c := found.value;
      if c.status != Pending {
        return Ok(c);
      }
      var hit := Candidates(c);
      if hit.None? {
        var retry := now + retryDays * DAY;
        var _ := companies.table.MarkResolution(c.key, Unresolved, NoMethod, NoATS, "", "", Some(retry));
        return Ok(c.(status := Unresolved, nextResolveAt := Some(retry)));
      }
      var h := hit.value;
      if !Pollable(h.ats) {
        var _ := companies.table.MarkResolution(c.key, UnsupportedATS, ApplyURL, h.ats, "", h.boardURL, None);
      } else {
        var _ := companies.table.MarkResolution(c.key, Resolved, ApplyURL, h.ats, h.slug, h.boardURL, None);
      }
      return Ok(companies.table.rows[key]);
    }
  }

  /** What happens to one company row. */
  datatype Act =
    | Answer(outcome: Outcome, etag: string, now: int)
    | Transport(now: int)
    | Resolution(hit: Option<Hit>, retryAt: int)
    | Sight(name: string, s: Sighting, otherForm: string, needsReview: bool, now: int)
    | Import(name: string, row: SeedRow, otherForm: string, needsReview: bool, now: int)
    | Overwrite(born: Company)
    | Idle

  /** A write over an existing row keeps its first sighting. */
  function Apply(c: Company, a: Act): Company {
    match a
    case Answer(outcome, etag, now) => if CanPoll(c) then Answered(c, outcome, etag, now) else c
    case Transport(now) => TransportFailed(c, now)
    case Resolution(hit, retryAt) => if c.status == Pending then ResolvedAs(c, hit, retryAt) else c
    case Sight(name, s, otherForm, needsReview, now) => WithSighting(c, name, s, otherForm, needsReview, now)
    case Import(name, row, otherForm, needsReview, now) =>
      Seeded(WithSighting(c, name, SeedSighting(row), otherForm, needsReview, now), row)
    case Overwrite(born) => born.(firstSeen := c.firstSeen)
    case Idle => c
  }

  function After(c: Company, acts: seq<Act>): Company {
    if acts == [] then c else Apply(After(c, acts[..|acts| - 1]), acts[|acts| - 1])
  }

  /** ACTIVE means a short streak, RESOLVED means a board that can be polled; no alias is listed twice. */
  predicate Sound(c: Company) {
    && c.emptyStreak >= 0 && c.failCount >= 0 && NoRepeats(c.aliases)
    && (c.pollState == Active ==> c.emptyStreak < EMPTY_STREAK_TO_INACTIVE)
    && (c.status == Resolved ==> Pollable(c.ats) && c.slug != "")
  }

  /** A board that the resolver finds has a slug when it can be polled, and a new row is sound. */
  predicate SoundAct(a: Act) {
    && (a.Resolution? && a.hit.Some? && Pollable(a.hit.value.ats) ==> a.hit.value.slug != "")
    && (a.Overwrite? ==> Sound(a.born))
  }

  lemma AnsweredSound(c: Company, outcome: Outcome, etag: string, now: int)
    requires Sound(c)
    ensures Sound(Answered(c, outcome, etag, now)) && Sound(TransportFailed(c, now))
  {
    hide NoRepeats;
  }

  lemma SightingSound(c: Company, name: string, s: Sighting, otherForm: string, needsReview: bool, now: int)
    requires Sound(c)
    ensures Sound(WithSighting(c, name, s, otherForm, needsReview, now))
  {
    hide AppendAlias, Trim, NoRepeats;
    AppendKeeps(c.aliases, otherForm, "");
  }

  lemma ApplySound(c: Company, a: Act)
    requires Sound(c) && SoundAct(a)
    ensures Sound(Apply(c, a))
  {
    hide Answered, TransportFailed, WithSighting, Seeded, NoRepeats;
    match a
    case Answer(outcome, etag, now) => AnsweredSound(c, outcome, etag, now);
    case Transport(now) => AnsweredSound(c, Empty, "", now);
    case Sight(name, s, otherForm, needsReview, now) => SightingSound(c, name, s, otherForm, needsReview, now);
    case Import(name, row, otherForm, needsReview, now) =>
      SightingSound(c, name, SeedSighting(row), otherForm, needsReview, now);
      SeededSound(WithSighting(c, name, SeedSighting(row), otherForm, needsReview, now), row);
    case _ =>
  }

  lemma SeededSound(c: Company, row: SeedRow)
    requires Sound(c)
    ensures Sound(Seeded(c, row))
  {
  }

  lemma ParsedHitSound(web: Web, raw: string)
    ensures var hit := ParseATS(web.parse, raw); hit.Some? && Pollable(hit.value.ats) ==> hit.value.slug != ""
  {
    hide Contains, HasSuffix;
  }

  lemma {:induction false} FoundBoardSound(web: Web, raws: seq<string>)
    ensures var hit := FirstDirect(web, raws); hit.Some? && Pollable(hit.value.ats) ==> hit.value.slug != ""
    ensures var hit := FirstRedirected(web, raws); hit.Some? && Pollable(hit.value.ats) ==> hit.value.slug != ""
    decreases |raws|
  {
    hide ParseATS;
    if raws == [] {
    } else {
      ParsedHitSound(web, raws[0]);
      var to := web.follow(raws[0]);
      if to.Some? {
        ParsedHitSound(web, to.value);
      }
      FoundBoardSound(web, raws[1..]);
    }
  }

  /** COMPLETE, PARTIAL, a wake of an INACTIVE row, or a row written over. */
  predicate ResetsStreak(c: Company, a: Act) {
    || (a.Answer? && CanPoll(c) && (a.outcome.Complete? || a.outcome.Partial?))
    || ((a.Sight? || a.Import?) && c.pollState == Inactive)
    || a.Overwrite?
  }

  predicate IsEmpty(c: Company, a: Act) {
    a.Answer? && CanPoll(c) && a.outcome.Empty?
  }

  /** Any answer but DEAD_SLUG, or a row written over. */
  predicate ResetsFailures(c: Company, a: Act) {
    (a.Answer? && CanPoll(c) && !a.outcome.DeadSlug?) || a.Overwrite?
  }

  predicate IsFailure(c: Company, a: Act) {
    (a.Answer? && CanPoll(c) && a.outcome.DeadSlug?) || a.Transport?
  }

  /** How many acts from the `j`-th on are of a kind, each judged by the row it meets. */
  function Count(kind: (Company, Act) -> bool, c: Company, acts: seq<Act>, j: nat): nat {
    var n := |acts| - 1;
    if |acts| <= j then 0
    else Count(kind, c, acts[..n], j) + (if kind(After(c, acts[..n]), acts[n]) then 1 else 0)
  }

  /** From the `j`-th act on there is none of the kind. */
  ghost predicate NoneSince(kind: (Company, Act) -> bool, c: Company, acts: seq<Act>, j: nat) {
    forall i: nat :: j <= i < |acts| ==> !kind(After(c, acts[..i]), acts[i])
  }

  /** Rows that are written over are new rows: ACTIVE, no streak, no failures. */
  predicate BornFresh(acts: seq<Act>) {
    forall i :: 0 <= i < |acts| ==> IsFresh(acts[i])
  }

  /** What one act does to the two counters. */
  lemma ApplyCounts(c: Company, a: Act)
    ensures var d := Apply(c, a);
      && (!ResetsStreak(c, a) ==> d.emptyStreak == c.emptyStreak + (if IsEmpty(c, a) then 1 else 0))
      && (ResetsStreak(c, a) ==> d.emptyStreak == if a.Overwrite? then a.born.emptyStreak else 0)
      && (!ResetsFailures(c, a) ==> d.failCount == c.failCount + (if IsFailure(c, a) then 1 else 0))
      && (ResetsFailures(c, a) ==> d.failCount == if a.Overwrite? then a.born.failCount else 0)
  {
    hide Seeded, AppendAlias, Trim;
    if a.Import? {
      SeededKeeps(WithSighting(c, a.name, SeedSighting(a.row), a.otherForm, a.needsReview, a.now), a.row);
    }
  }

  /** The streak is the number of EMPTY answers since the last COMPLETE, PARTIAL, wake or rewrite. */
  lemma {:induction false} StreakCountsEmpties(c: Company, acts: seq<Act>, j: nat)
    requires j < |acts| && ResetsStreak(After(c, acts[..j]), acts[j]) && NoneSince(ResetsStreak, c, acts, j + 1)
    requires BornFresh(acts)
    ensures After(c, acts).emptyStreak == Count(IsEmpty, c, acts, j + 1)
    decreases |acts|
  {
    hide Apply, ResetsStreak, IsEmpty, ResetsFailures, IsFailure;
    var n := |acts| - 1;
    ApplyCounts(After(c, acts[..n]), acts[n]);
    if j >= n {
    } else {
      PrefixHistory(ResetsStreak, c, acts, j);
      StreakCountsEmpties(c, acts[..n], j);
      assert !ResetsStreak(After(c, acts[..n]), acts[n]);
    }
  }

  lemma PrefixHistory(kind: (Company, Act) -> bool, c: Company, acts: seq<Act>, j: nat)
    requires j < |acts| - 1 && NoneSince(kind, c, acts, j + 1)
    ensures var front := acts[..|acts| - 1];
      front[..j] == acts[..j] && front[j] == acts[j] && NoneSince(kind, c, front, j + 1)
  {
    var front := acts[..|acts| - 1];
    forall i: nat | j + 1 <= i < |front| ensures !kind(After(c, front[..i]), front[i]) {
      assert front[..i] == acts[..i];
    }
  }

  /** The fail count is the number of DEAD_SLUG answers and transport failures since the last other answer. */
  lemma {:induction false} FailCountCountsFailures(c: Company, acts: seq<Act>, j: nat)
    requires j < |acts| && ResetsFailures(After(c, acts[..j]), acts[j]) && NoneSince(ResetsFailures, c, acts, j + 1)
    requires BornFresh(acts)
    ensures After(c, acts).failCount == Count(IsFailure, c, acts, j + 1)
    decreases |acts|
  {
    hide Apply, ResetsStreak, IsEmpty, ResetsFailures, IsFailure;
    var n := |acts| - 1;
    ApplyCounts(After(c, acts[..n]), acts[n]);
    if j >= n {
    } else {
      PrefixHistory(ResetsFailures, c, acts, j);
      FailCountCountsFailures(c, acts[..n], j);
      assert !ResetsFailures(After(c, acts[..n]), acts[n]);
    }
  }

  /** The same for a history that has no reset, from the row it starts with. */
  lemma {:induction false} CountsFromTheStart(c: Company, acts: seq<Act>)
    ensures NoneSince(ResetsStreak, c, acts, 0) ==> After(c, acts).emptyStreak == c.emptyStreak + Count(IsEmpty, c, acts, 0)
    ensures NoneSince(ResetsFailures, c, acts, 0) ==> After(c, acts).failCount == c.failCount + Count(IsFailure, c, acts, 0)
    decreases |acts|
  {
    hide Apply, ResetsStreak, IsEmpty, ResetsFailures, IsFailure;
    if acts == [] {
    } else {
      var n := |acts| - 1;
      ApplyCounts(After(c, acts[..n]), acts[n]);
      CountsFromTheStart(c, acts[..n]);
      forall i: nat | i < n ensures acts[..n][..i] == acts[..i] && acts[..n][i] == acts[i] {
      }
    }
  }

  /** A poll replaces the stored ETag by a new one if the board is there and sends one, and never touches identity. */
  lemma PollKeepsIdentity(c: Company, outcome: Outcome, etag: string, now: int)
    requires CanPoll(c)
    ensures var d := Apply(c, Answer(outcome, etag, now));
      && d.etag == (if outcome.DeadSlug? || etag == "" then c.etag else etag) && d.lastPolledAt == Some(now)
      && d.key == c.key && d.name == c.name && d.aliases == c.aliases && d.website == c.website
      && d.firstSeen == c.firstSeen && d.lastSeen == c.lastSeen && d.needsReview == c.needsReview
      && (d.pollState == Active ==> c.pollState == Active || outcome.Complete?)
      && (d.pollState == Inactive ==> c.pollState == Inactive || (outcome.Empty? && d.emptyStreak >= EMPTY_STREAK_TO_INACTIVE))
  {
  }

  /** A poll takes RESOLVED away exactly on a DEAD_SLUG that brings the failures to three, and the slug stays. */
  lemma PollLeavesResolvedIff(c: Company, outcome: Outcome, etag: string, now: int)
    requires CanPoll(c)
    ensures var d := Apply(c, Answer(outcome, etag, now));
      && (d.status != Resolved <==> outcome.DeadSlug? && d.failCount >= DEAD_STREAK_TO_PENDING)
      && (d.status != Resolved ==> d.status == Pending && d.nextResolveAt.None?)
      && d.slug == c.slug && d.ats == c.ats && d.boardURL == c.boardURL && d.resolvedBy == c.resolvedBy
  {
  }

  /** What happens to the companies table. A poll that fails in any way but an exhausted transport leaves no trace. */
  datatype Event =
    | PollAnswered(key: string, result: BoardResult, now: int)
    | PollFailed(key: string, now: int)
    | ResolveDue(key: string, retryAt: int)
    | SightingRead(s: Sighting, now: int)
    | SeedRead(row: SeedRow, now: int)

  ghost function Advance(rules: Rules, web: Web, rows: Companies, e: Event): Companies {
    match e
    case PollAnswered(key, result, now) =>
      if key in rows && CanPoll(rows[key]) then AnsweredRows(rows, key, result, now) else rows
    case PollFailed(key, now) => FailedRows(rows, key, now)
    case ResolveDue(key, retryAt) => ResolvedRows(rows, web, key, retryAt)
    case SightingRead(s, now) => CompanyIdentity.Sight(rules, rows, s, now).rows
    case SeedRead(row, now) => ImportRow(rules, rows, row, now).rows
  }

  /** The act of a sighting or of a seed row on the row of `k`. */
  ghost function MergeAct(rows: Companies, f: Forms, k: string, merge: string -> Act, born: Company): Act {
    match Lookup(rows, f)
    case Err(_) => Idle
    case Ok(Some(found)) => if found.key == k then merge(found.otherForm) else Idle
    case Ok(None) => if f.birth == k then Overwrite(born) else Idle
  }

  ghost function ActOf(rules: Rules, web: Web, rows: Companies, e: Event, k: string): Act
    requires k in rows
  {
    match e
    case PollAnswered(key, result, now) => if key == k then Answer(result.outcome, result.etag, now) else Idle
    case PollFailed(key, now) => if key == k then Transport(now) else Idle
    case ResolveDue(key, retryAt) => if key == k then Resolution(FoundBoard(web, rows[k]), retryAt) else Idle
    case SightingRead(s, now) =>
      var name := Trim(s.name);
      var f := FormsOf(rules, name, s.website);
      var decision := rules.blocklist(f.name, f.domain);
      if name == "" || decision.blocked then Idle
      else MergeAct(rows, f, k, form => Sight(name, s, form, decision.needsReview, now),
                    Newborn(f, name, s, decision.needsReview, now))
    case SeedRead(row, now) =>
      var name := Trim(row.name);
      var f := FormsOf(rules, name, row.website);
      var decision := rules.blocklist(f.name, f.domain);
      if name == "" || row.skip || decision.blocked || VerifyFails(row) then Idle
      else MergeAct(rows, f, k, form => Import(name, row, form, decision.needsReview, now),
                    Seeded(Newborn(f, name, SeedSighting(row), decision.needsReview, now), row))
  }

  ghost predicate TableSound(rows: Companies) {
    CompanyTable.Valid(rows) && forall k :: k in rows ==> Sound(rows[k])
  }

  predicate IsFresh(a: Act) {
    a.Overwrite? ==> a.born.emptyStreak == 0 && a.born.failCount == 0 && a.born.pollState == Active
  }

  lemma NewbornSeeded(f: Forms, name: string, row: SeedRow, needsReview: bool, now: int)
    ensures var c := Seeded(Newborn(f, name, SeedSighting(row), needsReview, now), row);
      Sound(c) && c.key == f.birth && c.emptyStreak == 0 && c.failCount == 0 && c.pollState == Active
  {
    NewbornKeys(f, name, SeedSighting(row), needsReview, now);
    SeededKeeps(Newborn(f, name, SeedSighting(row), needsReview, now), row);
    SeededSound(Newborn(f, name, SeedSighting(row), needsReview, now), row);
  }

  /** A poll, a transport failure or a resolve attempt is one act on one row. */
  lemma StepOnKey(rules: Rules, web: Web, rows: Companies, e: Event, k: string)
    requires CompanyTable.Valid(rows) && k in rows && !e.SightingRead? && !e.SeedRead?
    ensures var after, a := Advance(rules, web, rows, e), ActOf(rules, web, rows, e, k);
      after.Keys == rows.Keys && after[k] == Apply(rows[k], a) && SoundAct(a) && IsFresh(a)
  {
    hide FoundBoard;
    FoundIsSound(web, rows[k]);
  }

  lemma FoundIsSound(web: Web, c: Company)
    ensures var hit := FoundBoard(web, c); hit.Some? && Pollable(hit.value.ats) ==> hit.value.slug != ""
  {
    FoundBoardSound(web, Dedup(Same, Clean([c.boardURL, c.website])));
  }

  lemma StepOnSighting(rules: Rules, web: Web, rows: Companies, e: Event, k: string)
    requires CompanyTable.Valid(rows) && e.SightingRead? && k in rows
    ensures var after, a := Advance(rules, web, rows, e), ActOf(rules, web, rows, e, k);
      k in after && after[k] == Apply(rows[k], a) && SoundAct(a) && IsFresh(a)
  {
    hide Lookup, FormsOf, WithSighting, Newborn;
    var name := Trim(e.s.name);
    var f := FormsOf(rules, name, e.s.website);
    var review := rules.blocklist(f.name, f.domain).needsReview;
    LookupSound(rows, f);
    NewbornKeys(f, name, e.s, review, e.now);
    var r := Lookup(rows, f);
    if r.Ok? && r.value.Some? {
      SightingKeeps(rows[r.value.value.key], name, e.s, r.value.value.otherForm, review, e.now);
    }
  }

  lemma StepOnSeed(rules: Rules, web: Web, rows: Companies, e: Event, k: string)
    requires CompanyTable.Valid(rows) && e.SeedRead? && k in rows
    ensures var after, a := Advance(rules, web, rows, e), ActOf(rules, web, rows, e, k);
      k in after && after[k] == Apply(rows[k], a) && SoundAct(a) && IsFresh(a)
  {
    hide Lookup, FormsOf, WithSighting, Newborn, Seeded, VerifyFails, Sound, Status, Add;
    var name := Trim(e.row.name);
    var f := FormsOf(rules, name, e.row.website);
    var review := rules.blocklist(f.name, f.domain).needsReview;
    LookupSound(rows, f);
    NewbornSeeded(f, name, e.row, review, e.now);
    var r := Lookup(rows, f);
    if r.Ok? && r.value.Some? {
      var found := r.value.value;
      SightingKeeps(rows[found.key], name, SeedSighting(e.row), found.otherForm, review, e.now);
      SeededKeeps(WithSighting(rows[found.key], name, SeedSighting(e.row), found.otherForm, review, e.now), e.row);
    }
  }

  /** Every event is one act on every row that is there, and no row goes. */
  lemma StepIsAct(rules: Rules, web: Web, rows: Companies, e: Event, k: string)
    requires CompanyTable.Valid(rows) && k in rows
    ensures var after, a := Advance(rules, web, rows, e), ActOf(rules, web, rows, e, k);
      k in after && after[k] == Apply(rows[k], a) && SoundAct(a) && IsFresh(a)
  {
    hide Advance, ActOf, Apply;
    if e.SightingRead? {
      StepOnSighting(rules, web, rows, e, k);
    } else if e.SeedRead? {
      StepOnSeed(rules, web, rows, e, k);
    } else {
      StepOnKey(rules, web, rows, e, k);
    }
  }

  /** A row that an event adds is new and sound, under its own key. */
  lemma NewRows(rules: Rules, web: Web, rows: Companies, e: Event, k: string)
    requires CompanyTable.Valid(rows) && k in Advance(rules, web, rows, e) && k !in rows
    ensures var c := Advance(rules, web, rows, e)[k];
      Sound(c) && c.key == k && k != "" && c.emptyStreak == 0 && c.failCount == 0
  {
    hide Lookup, FormsOf, WithSighting, Newborn, Seeded, VerifyFails, FoundBoard, Sound;
    if e.SightingRead? {
      var name := Trim(e.s.name);
      var f := FormsOf(rules, name, e.s.website);
      LookupSound(rows, f);
      NewbornKeys(f, name, e.s, rules.blocklist(f.name, f.domain).needsReview, e.now);
      var r := Lookup(rows, f);
      if r.Ok? && r.value.Some? {
        SightingKeeps(rows[r.value.value.key], name, e.s, r.value.value.otherForm,
                      rules.blocklist(f.name, f.domain).needsReview, e.now);
      }
    } else if e.SeedRead? {
      var name := Trim(e.row.name);
      var f := FormsOf(rules, name, e.row.website);
      var review := rules.blocklist(f.name, f.domain).needsReview;
      LookupSound(rows, f);
      NewbornSeeded(f, name, e.row, review, e.now);
      var r := Lookup(rows, f);
      if r.Ok? && r.value.Some? {
        var found := r.value.value;
        SightingKeeps(rows[found.key], name, SeedSighting(e.row), found.otherForm, review, e.now);
        SeededKeeps(WithSighting(rows[found.key], name, SeedSighting(e.row), found.otherForm, review, e.now), e.row);
      }
    }
  }

  /** No act changes the key or the first sighting of a row, if a rewrite carries its key. */
  lemma ApplyKeepsKey(c: Company, a: Act)
    requires a.Overwrite? ==> a.born.key == c.key
    ensures Apply(c, a).key == c.key && Apply(c, a).firstSeen == c.firstSeen
  {
    hide Seeded, AppendAlias, Trim;
    if a.Import? {
      SeededKeeps(WithSighting(c, a.name, SeedSighting(a.row), a.otherForm, a.needsReview, a.now), a.row);
    }
  }

  lemma ActOverwritesOwnKey(rules: Rules, web: Web, rows: Companies, e: Event, k: string)
    requires CompanyTable.Valid(rows) && k in rows && ActOf(rules, web, rows, e, k).Overwrite?
    ensures ActOf(rules, web, rows, e, k).born.key == k
  {
    hide Lookup, FormsOf, Newborn, Seeded, VerifyFails;
    if e.SightingRead? {
      var f := FormsOf(rules, Trim(e.s.name), e.s.website);
      NewbornKeys(f, Trim(e.s.name), e.s, rules.blocklist(f.name, f.domain).needsReview, e.now);
    } else {
      var f := FormsOf(rules, Trim(e.row.name), e.row.website);
      NewbornSeeded(f, Trim(e.row.name), e.row, rules.blocklist(f.name, f.domain).needsReview, e.now);
    }
  }

  lemma StepSound(rules: Rules, web: Web, rows: Companies, e: Event)
    requires TableSound(rows)
    ensures TableSound(Advance(rules, web, rows, e))
    ensures forall k :: k in rows ==> k in Advance(rules, web, rows, e) && Advance(rules, web, rows, e)[k].firstSeen == rows[k].firstSeen
  {
    hide Advance, ActOf, Apply, Sound;
    var after := Advance(rules, web, rows, e);
    forall k | k in rows ensures k in after && after[k].key == k && after[k].firstSeen == rows[k].firstSeen && Sound(after[k]) {
      StepIsAct(rules, web, rows, e, k);
      var a := ActOf(rules, web, rows, e, k);
      ApplySound(rows[k], a);
      if a.Overwrite? {
        ActOverwritesOwnKey(rules, web, rows, e, k);
      }
      ApplyKeepsKey(rows[k], a);
    }
    forall k | k in after && k !in rows ensures after[k].key == k && k != "" && Sound(after[k]) {
      NewRows(rules, web, rows, e, k);
    }
  }

  ghost function RunFrom(rules: Rules, web: Web, rows: Companies, es: seq<Event>): Companies
    decreases |es|
  {
    if es == [] then rows else RunFrom(rules, web, Advance(rules, web, rows, es[0]), es[1..])
  }

  /**
   Over every history of polls, failures, resolve attempts, sightings and seed
   imports: ACTIVE means a streak below five, RESOLVED means a pollable board
   with a slug, no alias is listed twice, keys and first sightings never change,
   and no row goes.
   */
  lemma {:induction false} RunSound(rules: Rules, web: Web, rows: Companies, es: seq<Event>)
    requires TableSound(rows)
    ensures var after := RunFrom(rules, web, rows, es);
      TableSound(after) && forall k :: k in rows ==> k in after && after[k].firstSeen == rows[k].firstSeen
    decreases |es|
  {
    hide Advance;
    if es == [] {
    } else {
      StepSound(rules, web, rows, es[0]);
      RunSound(rules, web, Advance(rules, web, rows, es[0]), es[1..]);
    }
  }

  /** The acts of a run on the row of `k`. */
  ghost function ActsOf(rules: Rules, web: Web, rows: Companies, es: seq<Event>, k: string): seq<Act>
    requires k in rows && CompanyTable.Valid(rows)
    decreases |es|
  {
    if es == [] then []
    else
      StepIsAct(rules, web, rows, es[0], k);
      StepValid(rules, web, rows, es[0]);
      [ActOf(rules, web, rows, es[0], k)] + ActsOf(rules, web, Advance(rules, web, rows, es[0]), es[1..], k)
  }

  lemma StepValid(rules: Rules, web: Web, rows: Companies, e: Event)
    requires CompanyTable.Valid(rows)
    ensures CompanyTable.Valid(Advance(rules, web, rows, e))
  {
    hide Advance, ActOf, Apply;
    var after := Advance(rules, web, rows, e);
    forall k | k in after ensures after[k].key == k && k != "" {
      if k in rows {
        StepIsAct(rules, web, rows, e, k);
        if ActOf(rules, web, rows, e, k).Overwrite? {
          ActOverwritesOwnKey(rules, web, rows, e, k);
        }
        ApplyKeepsKey(rows[k], ActOf(rules, web, rows, e, k));
      } else {
        NewRows(rules, web, rows, e, k);
      }
    }
  }

  lemma {:induction false} AfterFirst(c: Company, a: Act, acts: seq<Act>)
    ensures After(c, [a] + acts) == After(Apply(c, a), acts)
    decreases |acts|
  {
    hide Apply;
    var all := [a] + acts;
    if acts == [] {
      assert all[..0] == [];
    } else {
      AfterFirst(c, a, acts[..|acts| - 1]);
      assert all[..|all| - 1] == [a] + acts[..|acts| - 1];
    }
  }

  /**
   Each row of the table lives the history of its own acts, so the two counting
   lemmas above speak about every run of the whole table.
   */
  lemma {:induction false} RowHistory(rules: Rules, web: Web, rows: Companies, es: seq<Event>, k: string)
    requires CompanyTable.Valid(rows) && k in rows
    ensures var after, acts := RunFrom(rules, web, rows, es), ActsOf(rules, web, rows, es, k);
      k in after && after[k] == After(rows[k], acts) && BornFresh(acts) && |acts| == |es|
    decreases |es|
  {
    hide Advance, ActOf, Apply;
    if es == [] {
    } else {
      var next := Advance(rules, web, rows, es[0]);
      StepIsAct(rules, web, rows, es[0], k);
      StepValid(rules, web, rows, es[0]);
      RowHistory(rules, web, next, es[1..], k);
      AfterFirst(rows[k], ActOf(rules, web, rows, es[0], k), ActsOf(rules, web, next, es[1..], k));
    }
  }
}
