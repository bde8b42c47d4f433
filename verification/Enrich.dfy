/**
 Which jobs still lack a verdict. `Missing` walks the jobs table with a query;
 `Statuses` looks at the jobs it is asked about with a predicate of its own. A
 verdict is stored for a job, a prompt version, a model and a hash of the text.
 Hash and length of a text are parameters.
 */
module Enrich {
  import opened Prelude
  import opened KeyedList
  import opened TextLists
  import opened JobMerge
  import opened JobTable

  const WINDOW_DAYS: int := 30
  const POSTED_AT_MAX_AGE_DAYS: int := 30

  datatype VerdictKey = VerdictKey(jobID: string, promptVersion: int, model: string, hash: string)

  type Verdicts<V> = map<VerdictKey, V>

  datatype FactsStatus = Pending | Ready | Off

  datatype Fault = ModelRequired | UnknownJob | HashRequired | KeyRequired

  /** `length` is the length in bytes. */
  datatype Config = Config(
    model: string, minDescriptionChars: int, windowDays: int, hash: Job -> string, length: string -> nat)

  function Since(c: Config, now: int): int {
    now - (if c.windowDays <= 0 then WINDOW_DAYS else c.windowDays) * DAY
  }

  function PostedAfter(now: int): int {
    now - POSTED_AT_MAX_AGE_DAYS * DAY
  }

  /** The query of ListEnrichCandidates. A NULL column is `None`. */
  predicate IsCandidate(row: Row, since: int, postedAfter: int) {
    && row.job.firstSeen >= since && row.closedAt == None
    && (row.job.postedAt == None || row.job.postedAt.value >= postedAfter)
  }

  /** windowEligible, as the code spells it: three reasons to say no. */
  predicate WindowEligible(row: Row, since: int, postedAfter: int) {
    if row.closedAt.Some? then false
    else if row.job.firstSeen < since then false
    else if row.job.postedAt.Some? && row.job.postedAt.value < postedAfter then false
    else true
  }

  predicate DescriptionEligible(c: Config, description: string) {
    c.minDescriptionChars <= 0 || c.length(description) >= c.minDescriptionChars
  }

  predicate HasVerdict<V>(verdicts: Verdicts<V>, id: string, prompt: int, model: string, hash: string) {
    VerdictKey(id, prompt, model, hash) in verdicts
  }

  function VerdictAt<V>(verdicts: Verdicts<V>, key: VerdictKey): Option<V> {
    if key in verdicts then Some(verdicts[key]) else None
  }

  /** readyJobIDs: the jobs that have a row for their current hash. */
  function ReadyIDs<V>(verdicts: Verdicts<V>, prompt: int, model: string, hashes: map<string, string>): set<string> {
    set id | id in hashes && HasVerdict(verdicts, id, prompt, model, hashes[id])
  }

  class VerdictRepository<V(==)> {
    var rows: Verdicts<V>

    constructor ()
      ensures rows == map[]
    {
      rows := map[];
    }

    /** The first verdict for a key stays. */
    method Insert(key: VerdictKey, v: V) returns (r: Result<(), Fault>)
      modifies this`rows
      ensures if key.jobID == "" || key.model == "" || key.hash == "" then r == Err(KeyRequired) && rows == old(rows)
        else r == Ok(()) && rows == (if key in old(rows) then old(rows) else old(rows)[key := v])
    {
      if key.jobID == "" || key.model == "" || key.hash == "" {
        return Err(KeyRequired);
      }
      if key !in rows {
        rows := rows[key := v];
      }
      return Ok(());
    }

    /** The stored verdict for a key, if there is one. */
    method Verdict(id: string, model: string, prompt: int, hash: string) returns (r: Result<Option<V>, Fault>)
      ensures r ==
        if id == "" then Err(KeyRequired)
        else if model == "" then Err(ModelRequired)
        else if hash == "" then Err(HashRequired)
        else Ok(VerdictAt(rows, VerdictKey(id, prompt, model, hash)))
    {
      if id == "" {
        return Err(KeyRequired);
      }
      if model == "" {
        return Err(ModelRequired);
      }
      if hash == "" {
        return Err(HashRequired);
      }
      return Ok(VerdictAt(rows, VerdictKey(id, prompt, model, hash)));
    }

    /** The query for all rows of the prompt version, the model and the jobs, filtered by the current hash. */
    method ReadyJobIDs(model: string, prompt: int, hashes: map<string, string>) returns (r: Result<set<string>, Fault>)
      ensures if exists id :: id in hashes && (id == "" || hashes[id] == "") then r == Err(HashRequired)
        else r == Ok(ReadyIDs(rows, prompt, model, hashes))
    {
      if exists id :: id in hashes && (id == "" || hashes[id] == "") {
        return Err(HashRequired);
      }
      var found := set k | k in rows && k.promptVersion == prompt && k.model == model && k.jobID in hashes;
      var ready: set<string> := {};
      var rest := found;
      while rest != {}
        invariant rest <= found
        invariant ready == set k | k in found && k !in rest && hashes[k.jobID] == k.hash :: k.jobID
        decreases |rest|
      {
        var k :| k in rest;
        rest := rest - {k};
        if hashes[k.jobID] == k.hash {
          ready := ready + {k.jobID};
        }
      }
      forall id ensures id in ready <==> id in ReadyIDs(rows, prompt, model, hashes) {
        if id in ReadyIDs(rows, prompt, model, hashes) {
          assert VerdictKey(id, prompt, model, hashes[id]) in found;
        }
        if id in ready {
          var k :| k in found && hashes[k.jobID] == k.hash && k.jobID == id;
          assert k == VerdictKey(id, prompt, model, hashes[id]);
        }
      }
      assert ready == ReadyIDs(rows, prompt, model, hashes);
      return Ok(ready);
    }
  }

  class Service<V(==)> {
    const config: Config
    const jobs: JobRepository
    const repo: VerdictRepository<V>

    constructor (config: Config, jobs: JobRepository, repo: VerdictRepository<V>)
      ensures this.config == config && this.jobs == jobs && this.repo == repo
    {
      this.config, this.jobs, this.repo := config, jobs, repo;
    }

    /** MissingIDs, at one reading of the clock. The order of the result is not defined. */
    method MissingIDs(model: string, prompt: int, now: int) returns (r: Result<set<string>, Fault>)
      ensures r.Ok? ==> r.value == Missing(config, jobs.rows, repo.rows, model, prompt, now)
      ensures model == "" ==> r == Err(ModelRequired)
      ensures model != "" && TextsHashed(config, jobs.rows) ==> r.Ok?
    {
      if model == "" {
        return Err(ModelRequired);
      }
      var all := map id | id in jobs.rows && IsCandidate(jobs.rows[id], Since(config, now), PostedAfter(now)) :: jobs.rows[id].job;
      var eligible := map id | id in all && DescriptionEligible(config, all[id].description) :: all[id];
      var hashes := map id | id in eligible :: config.hash(eligible[id]);
      var ready := repo.ReadyJobIDs(model, prompt, hashes);
      if ready.Err? {
        return Err(ready.error);
      }
      return Ok(hashes.Keys - ready.value);
    }

    /** Statuses, at one reading of the clock. */
    method Statuses(ids: seq<string>, prompt: int, now: int) returns (r: Result<map<string, FactsStatus>, Fault>)
      ensures r.Ok? ==> forall id :: id in r.value <==> id in ids && id != ""
      ensures r.Ok? ==> forall id :: id in r.value ==>
        id in jobs.rows && r.value[id] == StatusOf(config, jobs.rows[id], repo.rows, id, prompt, now)
      ensures config.model == "" ==> r == Err(ModelRequired)
      ensures r.Ok? ==> forall id :: id in ids && id != "" ==> id in jobs.rows
      ensures config.model != "" && TextsHashed(config, jobs.rows) ==>
        (r.Ok? <==> forall id :: id in ids && id != "" ==> id in jobs.rows)
    {
      if config.model == "" {
        return Err(ModelRequired);
      }
      var asked := Asked(ids);
      if asked.Err? {
        return Err(asked.error);
      }
      var (out, hashes) := asked.value;
      if |hashes| == 0 {
        assert hashes == map[];
        return Ok(out);
      }
      var ready := repo.ReadyJobIDs(config.model, prompt, hashes);
      if ready.Err? {
        return Err(ready.error);
      }
      var got := map id | id in hashes ::
        if id in ready.value then Ready
        else if !WindowEligible(jobs.rows[id], Since(config, now), PostedAfter(now)) then Off
        else Pending;
      return Ok(out + got);
    }

    /** The jobs asked about: those with too short a text are off, the others go by the hash of theirs. */
    method Asked(ids: seq<string>) returns (r: Result<(map<string, FactsStatus>, map<string, string>), Fault>)
      ensures r.Ok? <==> forall id :: id in ids && id != "" ==> id in jobs.rows
      ensures r.Ok? ==> forall id :: id in r.value.0 || id in r.value.1 <==> id in ids && id != ""
      ensures r.Ok? ==> forall id :: id in r.value.0 ==> ShortText(id) && r.value.0[id] == Off
      ensures r.Ok? ==> forall id :: id in r.value.1 ==> LongText(id) && r.value.1[id] == config.hash(jobs.rows[id].job)
      ensures r.Err? ==> r.error == UnknownJob
    {
      var out: map<string, FactsStatus> := map[];
      var hashes: map<string, string> := map[];
      for i := 0 to |ids|
        invariant forall id :: id in out || id in hashes <==> id in ids[..i] && id != ""
        invariant forall id :: id in out ==> ShortText(id) && out[id] == Off
        invariant forall id :: id in hashes ==> LongText(id) && hashes[id] == config.hash(jobs.rows[id].job)
      {
        var id := ids[i];
        assert ids[..i + 1] == ids[..i] + [id];
        if id == "" {
          continue;
        }
        if id !in jobs.rows {
          return Err(UnknownJob);
        }
        var job := jobs.rows[id].job;
        if !DescriptionEligible(config, job.description) {
          out := out[id := Off];
          continue;
        }
        hashes := hashes[id := config.hash(job)];
      }
      assert ids[..|ids|] == ids;
      forall id | id in ids && id != "" ensures id in jobs.rows {
        assert id in out || id in hashes;
      }
      return Ok((out, hashes));
    }

    predicate ShortText(id: string)
      reads jobs
    {
      id in jobs.rows && !DescriptionEligible(config, jobs.rows[id].job.description)
    }

    predicate LongText(id: string)
      reads jobs
    {
      id in jobs.rows && DescriptionEligible(config, jobs.rows[id].job.description)
    }

    /**
     buildBatchItems: the listed jobs without a verdict, each once, in the order of
     the list, unless some listed job has no key to look its verdict up by.
     */
    method BuildBatchItems(ids: seq<string>, model: string, prompt: int) returns (r: Result<seq<string>, Fault>)
      ensures r.Ok? ==> r.value == Unverdicted(config, jobs.rows, repo.rows, model, prompt, ids)
      ensures r.Ok? <==> forall i :: 0 <= i < |ids| ==> !Unkeyed(config, jobs.rows, model, ids[i])
      ensures r.Err? ==> exists i ::
        && 0 <= i < |ids| && Unkeyed(config, jobs.rows, model, ids[i]) && r.error == KeyFault(jobs.rows, model, ids[i])
        && forall j :: 0 <= j < i ==> !Unkeyed(config, jobs.rows, model, ids[j])
    {
      var submitted: seq<string> := [];
      var seen: set<string> := {};
      for i := 0 to |ids|
        invariant forall id :: id in seen <==> id in ids[..i] && id != ""
        invariant forall j :: 0 <= j < i ==> !Unkeyed(config, jobs.rows, model, ids[j])
        invariant submitted == Unverdicted(config, jobs.rows, repo.rows, model, prompt, ids[..i])
      {
        assert ids[..i + 1][..i] == ids[..i];
        var id := ids[i];
        if id == "" || id in seen {
          continue;
        }
        seen := seen + {id};
        if id !in jobs.rows {
          return Err(UnknownJob);
        }
        var stored := repo.Verdict(id, model, prompt, config.hash(jobs.rows[id].job));
        if stored.Err? {
          return Err(stored.error);
        }
        if stored.value.Some? {
          continue;
        }
        submitted := submitted + [id];
      }
      assert ids[..|ids|] == ids;
      return Ok(submitted);
    }
  }

  /** A listed job whose verdict cannot be looked up: it is not stored, or model or hash is empty. */
  predicate Unkeyed(c: Config, rows: Rows, model: string, id: string) {
    id != "" && (id !in rows || model == "" || c.hash(rows[id].job) == "")
  }

  function KeyFault(rows: Rows, model: string, id: string): Fault {
    if id !in rows then UnknownJob else if model == "" then ModelRequired else HashRequired
  }

  ghost predicate TextsHashed(c: Config, rows: Rows) {
    forall id :: id in rows ==> id != "" && c.hash(rows[id].job) != ""
  }

  function Missing<V>(c: Config, rows: Rows, verdicts: Verdicts<V>, model: string, prompt: int, now: int): set<string> {
    set id | id in rows && IsCandidate(rows[id], Since(c, now), PostedAfter(now))
      && DescriptionEligible(c, rows[id].job.description)
      && !HasVerdict(verdicts, id, prompt, model, c.hash(rows[id].job))
  }

  /** What a job is told about its verdict: none to be had, there, outside the window, or on its way. */
  function StatusOf<V>(c: Config, row: Row, verdicts: Verdicts<V>, id: string, prompt: int, now: int): FactsStatus {
    if !DescriptionEligible(c, row.job.description) then Off
    else if HasVerdict(verdicts, id, prompt, c.model, c.hash(row.job)) then Ready
    else if !WindowEligible(row, Since(c, now), PostedAfter(now)) then Off
    else Pending
  }

  function Unverdicted<V>(
      c: Config, rows: Rows, verdicts: Verdicts<V>, model: string, prompt: int, ids: seq<string>): seq<string>
  {
    if ids == [] then []
    else
      var front, id := Unverdicted(c, rows, verdicts, model, prompt, ids[..|ids| - 1]), ids[|ids| - 1];
      if id == "" || id in ids[..|ids| - 1] || id !in rows || HasVerdict(verdicts, id, prompt, model, c.hash(rows[id].job))
      then front else front + [id]
  }

  /** In the window: open, first seen in its days (thirty by default), and not posted more than thirty days ago. */
  predicate InWindow(row: Row, days: int, now: int) {
    && row.closedAt == None && row.job.firstSeen >= now - (if days > 0 then days else 30) * 86400
    && (row.job.postedAt.Some? ==> row.job.postedAt.value >= now - 30 * 86400)
  }

  /** The text is long enough; without a limit every text is. */
  predicate LongEnough(c: Config, job: Job) {
    c.minDescriptionChars > 0 ==> c.length(job.description) >= c.minDescriptionChars
  }

  /** The missing jobs: in the window, with a text long enough, and without a verdict for this text, prompt version and model. */
  lemma MissingIff<V>(
      c: Config, rows: Rows, verdicts: Verdicts<V>, model: string, prompt: int, now: int, id: string)
    ensures id in Missing(c, rows, verdicts, model, prompt, now) <==>
      && id in rows && InWindow(rows[id], c.windowDays, now) && LongEnough(c, rows[id].job)
      && VerdictKey(id, prompt, model, c.hash(rows[id].job)) !in verdicts
  {
  }

  /** What a stored job is told: READY only with a verdict for its text, PENDING only in the window. */
  lemma StatusIs<V>(c: Config, row: Row, verdicts: Verdicts<V>, id: string, prompt: int, now: int)
    ensures var status := StatusOf(c, row, verdicts, id, prompt, now);
      var there := VerdictKey(id, prompt, c.model, c.hash(row.job)) in verdicts;
      && (status == Ready <==> LongEnough(c, row.job) && there)
      && (status == Pending <==> LongEnough(c, row.job) && !there && InWindow(row, c.windowDays, now))
  {
  }

  /** The query and the predicate choose the same rows, for every window. */
  lemma FiltersAgree(row: Row, since: int, postedAfter: int)
    ensures IsCandidate(row, since, postedAfter) <==> WindowEligible(row, since, postedAfter)
  {
  }

  /** A stored job is pending exactly when it is among the missing ones, at the same time, model and prompt version. */
  lemma PendingIffMissing<V>(c: Config, rows: Rows, verdicts: Verdicts<V>, id: string, prompt: int, now: int)
    requires id in rows
    ensures StatusOf(c, rows[id], verdicts, id, prompt, now) == Pending <==> id in Missing(c, rows, verdicts, c.model, prompt, now)
  {
    FiltersAgree(rows[id], Since(c, now), PostedAfter(now));
  }

  /** A job leaves the missing ones when its verdict is stored, and no other job does. */
  lemma InsertRemovesOne<V>(c: Config, rows: Rows, verdicts: Verdicts<V>, id: string, v: V, model: string, prompt: int, now: int)
    requires id in rows
    ensures var key := VerdictKey(id, prompt, model, c.hash(rows[id].job));
      Missing(c, rows, if key in verdicts then verdicts else verdicts[key := v], model, prompt, now)
        == Missing(c, rows, verdicts, model, prompt, now) - {id}
  {
  }

  /** A verdict for an older text does not count: when the hash changes, the job is missing again. */
  lemma NewTextIsPendingAgain<V>(c: Config, rows: Rows, verdicts: Verdicts<V>, id: string, text: Job, prompt: int, now: int)
    requires id in rows && WindowEligible(rows[id].(job := text), Since(c, now), PostedAfter(now))
    requires DescriptionEligible(c, text.description) && !HasVerdict(verdicts, id, prompt, c.model, c.hash(text))
    ensures StatusOf(c, rows[id].(job := text), verdicts, id, prompt, now) == Pending
    ensures id in Missing(c, rows[id := rows[id].(job := text)], verdicts, c.model, prompt, now)
  {
    var changed := rows[id := rows[id].(job := text)];
    PendingIffMissing(c, changed, verdicts, id, prompt, now);
  }

  /** What is submitted of a list: exactly its stored jobs without a verdict for their current text, each once. */
  lemma {:induction false} UnverdictedIs<V>(
      c: Config, rows: Rows, verdicts: Verdicts<V>, model: string, prompt: int, ids: seq<string>, id: string)
    ensures var out := Unverdicted(c, rows, verdicts, model, prompt, ids);
      && (id in out <==> id in ids && id != "" && id in rows && !HasVerdict(verdicts, id, prompt, model, c.hash(rows[id].job)))
      && (forall i, j :: 0 <= i < j < |out| ==> out[i] != out[j])
    decreases |ids|
  {
    if ids == [] {
    } else {
      var n := |ids| - 1;
      UnverdictedIs(c, rows, verdicts, model, prompt, ids[..n], id);
      UnverdictedIs(c, rows, verdicts, model, prompt, ids[..n], ids[n]);
      assert ids == ids[..n] + [ids[n]];
    }
  }

  /** In the order of the list: what a part from its beginning gives is what the whole list gives first. */
  lemma {:induction false} UnverdictedInOrder<V>(
      c: Config, rows: Rows, verdicts: Verdicts<V>, model: string, prompt: int, ids: seq<string>, n: nat)
    requires n <= |ids|
    ensures Unverdicted(c, rows, verdicts, model, prompt, ids[..n]) <= Unverdicted(c, rows, verdicts, model, prompt, ids)
    decreases |ids|
  {
    if n == |ids| {
      assert ids[..n] == ids;
    } else {
      assert ids[..|ids| - 1][..n] == ids[..n];
      UnverdictedInOrder(c, rows, verdicts, model, prompt, ids[..|ids| - 1], n);
    }
  }

  /** Enrich skips a posting as too old exactly when a scoring run that starts at that time rejects it for its age. */
  lemma SameAgeLimit(postedAt: Option<int>, now: int)
    ensures (postedAt.Some? && postedAt.value < PostedAfter(now)) <==> Stale(postedAt, now)
  {
  }
}
