/**
 The jobs table and the writes on it. A row is a stored vacancy with its close
 columns, the company it refers to and its last sighting on a board. Each write
 is a method of `JobRepository`; its effect is a function on the rows, so that runs
 of writes can be reasoned about. The clock is the parameter `now`, in seconds.
 */
module JobTable {
  import opened Prelude
  import opened Text
  import opened JobMerge
  import opened TextLists

  const DAY: int := 86400
  const POSTED_AT_REJECT_DAYS: int := 30

  datatype ClosedBy = Nobody | ATS | Aggregator

  datatype Fault = JobIDRequired | CompanyKeyRequired

  datatype Row = Row(
    job: Job,
    companyKeyRef: Option<string>,
    closedAt: Option<int>,
    closedBy: ClosedBy,
    boardSeenAt: Option<int>,
    createdAt: int,
    updatedAt: int)

  type Rows = map<string, Row>

  /** A posting date that is known and too old. */
  predicate Stale(postedAt: Option<int>, now: int) {
    postedAt.Some? && postedAt.value < now - POSTED_AT_REJECT_DAYS * DAY
  }

  /** The row an aggregator listing leaves behind. */
  function IngestRow(fold: string -> string, rows: Rows, job: Job, now: int): Row {
    if job.id in rows then
      var was := rows[job.id];
      was.(job := Stored(MergeJob(fold, was.job, job, now)), updatedAt := now)
    else
      Row(Stored(NewJob(fold, job, now)), None, None, Nobody, None, now, now)
  }

  /** The row a board listing leaves behind. */
  function BoardRow(fold: string -> string, rows: Rows, key: string, job: Job, now: int): Row {
    if job.id in rows then
      var was := rows[job.id];
      was.(job := Stored(MergeBoardJob(fold, was.job, job, now)),
           companyKeyRef := Some(key), boardSeenAt := Some(now), updatedAt := now)
    else
      Row(Stored(NewJob(fold, job, now)), Some(key), None, Nobody, Some(now), now, now)
  }

  datatype Upserted = Upserted(rows: Rows, fault: Option<Fault>)

  /** The listings are written one after the other; the first one without an id ends it, and what was written stays. */
  function Upsert(fold: string -> string, rows: Rows, key: string, jobs: seq<Job>, now: int): Upserted {
    if jobs == [] then Upserted(rows, None)
    else
      var before := Upsert(fold, rows, key, jobs[..|jobs| - 1], now);
      var job := jobs[|jobs| - 1];
      if before.fault.Some? then before
      else if job.id == "" then before.(fault := Some(JobIDRequired))
      else if Stale(job.postedAt, now) then before
      else before.(rows := before.rows[job.id := BoardRow(fold, before.rows, key, job, now)])
  }

  predicate ToClose(row: Row, id: string, key: string, seen: seq<string>) {
    row.companyKeyRef == Some(key) && row.closedAt.None? && row.boardSeenAt.Some? && id !in seen
  }

  predicate ToReopen(row: Row, id: string, key: string, seen: seq<string>) {
    row.companyKeyRef == Some(key) && row.closedAt.Some? && id in seen
  }

  predicate ToBackfill(row: Row, key: string, contentKeys: seq<string>) {
    row.job.companyKey in contentKeys && row.companyKeyRef != Some(key)
  }

  function ClosedRows(rows: Rows, key: string, seen: seq<string>, now: int): Rows {
    map id | id in rows ::
      if ToClose(rows[id], id, key, seen) then rows[id].(closedAt := Some(now), closedBy := ATS, updatedAt := now)
      else rows[id]
  }

  function ReopenedRows(rows: Rows, key: string, seen: seq<string>, now: int): Rows {
    map id | id in rows ::
      if ToReopen(rows[id], id, key, seen) then rows[id].(closedAt := None, closedBy := Nobody, updatedAt := now)
      else rows[id]
  }

  function BackfilledRows(rows: Rows, key: string, contentKeys: seq<string>, now: int): Rows {
    map id | id in rows ::
      if ToBackfill(rows[id], key, contentKeys) then rows[id].(companyKeyRef := Some(key), updatedAt := now)
      else rows[id]
  }

  function KeptRows(rows: Rows, cutoff: int): Rows {
    map id | id in rows && rows[id].job.lastSeen >= cutoff :: rows[id]
  }

  class JobRepository {
    const fold: string -> string
    var rows: Rows

    constructor (fold: string -> string)
      ensures this.fold == fold && rows == map[]
    {
      this.fold := fold;
      rows := map[];
    }

    method SaveIngest(job: Job, now: int) returns (r: Result<(), Fault>)
      modifies this`rows
      ensures if job.id == "" then r == Err(JobIDRequired) && rows == old(rows)
        else r == Ok(()) && rows == old(rows)[job.id := IngestRow(fold, old(rows), job, now)]
    {
      if job.id == "" {
        return Err(JobIDRequired);
      }
      if job.id !in rows {
        var row := NewIngestJob(fold, job, now);
        rows := rows[job.id := Row(Stored(row), None, None, Nobody, None, now, now)];
        return Ok(());
      }
      var existing := rows[job.id];
      var merged := MergeIngestJob(fold, existing.job, job, now);
      rows := rows[job.id := Row(Stored(merged), existing.companyKeyRef, existing.closedAt, existing.closedBy,
                                 existing.boardSeenAt, existing.createdAt, now)];
      return Ok(());
    }

    method CloseAbsent(key: string, seen: seq<string>, now: int) returns (r: Result<nat, Fault>)
      modifies this`rows
      ensures key == "" ==> r == Err(CompanyKeyRequired) && rows == old(rows)
      ensures key != "" ==> rows == ClosedRows(old(rows), key, seen, now)
      ensures key != "" ==> r == Ok(|set id | id in old(rows) && ToClose(old(rows)[id], id, key, seen)|)
      ensures key != "" ==> rows.Keys == old(rows).Keys && forall id :: id in rows ==>
        var was := old(rows)[id];
        rows[id] == if was.companyKeyRef == Some(key) && was.closedAt == None && was.boardSeenAt != None && id !in seen
                    then was.(closedAt := Some(now), closedBy := ATS, updatedAt := now) else was
    {
      if key == "" {
        return Err(CompanyKeyRequired);
      }
      var affected := set id | id in rows && ToClose(rows[id], id, key, seen);
      rows := ClosedRows(rows, key, seen, now);
      return Ok(|affected|);
    }

    method ReopenPresent(key: string, seen: seq<string>, now: int) returns (r: Result<nat, Fault>)
      modifies this`rows
      ensures key == "" ==> r == Err(CompanyKeyRequired) && rows == old(rows)
      ensures key != "" ==> rows == ReopenedRows(old(rows), key, seen, now)
      ensures key != "" ==> r == Ok(|set id | id in old(rows) && ToReopen(old(rows)[id], id, key, seen)|)
      ensures key != "" ==> rows.Keys == old(rows).Keys && forall id :: id in rows ==>
        var was := old(rows)[id];
        rows[id] == if was.companyKeyRef == Some(key) && was.closedAt != None && id in seen
                    then was.(closedAt := None, closedBy := Nobody, updatedAt := now) else was
    {
      if key == "" {
        return Err(CompanyKeyRequired);
      }
      var affected := set id | id in rows && ToReopen(rows[id], id, key, seen);
      if |seen| == 0 {
        assert affected == {};
        assert rows == ReopenedRows(rows, key, seen, now);
        return Ok(0);
      }
      rows := ReopenedRows(rows, key, seen, now);
      return Ok(|affected|);
    }

    method UpsertBoardJobs(key: string, jobs: seq<Job>, now: int) returns (r: Result<(), Fault>)
      modifies this`rows
      ensures if key == "" then r == Err(CompanyKeyRequired) && rows == old(rows)
        else var u := Upsert(fold, old(rows), key, jobs, now);
          rows == u.rows && r == (if u.fault.Some? then Err(u.fault.value) else Ok(()))
    {
      if key == "" {
        return Err(CompanyKeyRequired);
      }
      for i := 0 to |jobs|
        invariant Upsert(fold, old(rows), key, jobs[..i], now) == Upserted(rows, None)
      {
        assert jobs[..i + 1][..i] == jobs[..i];
        var job := jobs[i];
        if job.id == "" {
          UpsertStops(fold, old(rows), key, jobs, i + 1, now);
          return Err(JobIDRequired);
        }
        if Stale(job.postedAt, now) {
          continue;
        }
        if job.id !in rows {
          var row := NewIngestJob(fold, job, now);
          rows := rows[job.id := Row(Stored(row), Some(key), None, Nobody, Some(now), now, now)];
          continue;
        }
        var existing := rows[job.id];
        var merged := MergeBoardListing(fold, existing.job, job, now);
        rows := rows[job.id := Row(Stored(merged), Some(key), existing.closedAt, existing.closedBy, Some(now),
                                   existing.createdAt, now)];
      }
      assert jobs[..|jobs|] == jobs;
      return Ok(());
    }

    method BackfillCompanyKeyRef(key: string, contentKeys: seq<string>, now: int) returns (r: Result<nat, Fault>)
      modifies this`rows
      ensures key == "" ==> r == Err(CompanyKeyRequired) && rows == old(rows)
      ensures key != "" ==> rows == BackfilledRows(old(rows), key, Clean(contentKeys), now)
      ensures key != "" ==> r == Ok(|set id | id in old(rows) && ToBackfill(old(rows)[id], key, Clean(contentKeys))|)
    {
      if key == "" {
        return Err(CompanyKeyRequired);
      }
      var keys := CollectTrimmed(contentKeys);
      SameMembers(Clean(contentKeys));
      var affected := set id | id in rows && ToBackfill(rows[id], key, keys);
      assert affected == set id | id in rows && ToBackfill(rows[id], key, Clean(contentKeys));
      rows := BackfilledRows(rows, key, keys, now);
      return Ok(|affected|);
    }

    method DeleteLastSeenBefore(cutoff: int) returns (deleted: nat)
      modifies this`rows
      ensures rows == KeptRows(old(rows), cutoff)
      ensures forall id :: id in rows <==> id in old(rows) && !(old(rows)[id].job.lastSeen < cutoff)
      ensures forall id :: id in rows ==> rows[id] == old(rows)[id]
      ensures deleted == |set id | id in old(rows) && old(rows)[id].job.lastSeen < cutoff|
    {
      deleted := |set id | id in rows && rows[id].job.lastSeen < cutoff|;
      rows := KeptRows(rows, cutoff);
    }
  }

  lemma {:induction false} UpsertStops(fold: string -> string, rows: Rows, key: string, jobs: seq<Job>, n: nat, now: int)
    requires n <= |jobs| && Upsert(fold, rows, key, jobs[..n], now).fault.Some?
    ensures Upsert(fold, rows, key, jobs, now) == Upsert(fold, rows, key, jobs[..n], now)
    decreases |jobs|
  {
    if n == |jobs| {
      assert jobs[..n] == jobs;
    } else {
      assert jobs[..|jobs| - 1][..n] == jobs[..n];
      UpsertStops(fold, rows, key, jobs[..|jobs| - 1], n, now);
    }
  }

  /** One write on the table, with the clock it reads. */
  datatype Write =
    | Ingest(job: Job)
    | Board(key: string, jobs: seq<Job>)
    | Close(key: string, seen: seq<string>)
    | Reopen(key: string, seen: seq<string>)
    | Backfill(key: string, contentKeys: seq<string>)
    | Retain(cutoff: int)

  datatype Event = Event(write: Write, now: int)

  /** The rows after a write, as the methods of `JobRepository` leave them. */
  function Step(fold: string -> string, rows: Rows, e: Event): Rows {
    match e.write
    case Ingest(job) => if job.id == "" then rows else rows[job.id := IngestRow(fold, rows, job, e.now)]
    case Board(key, jobs) => if key == "" then rows else Upsert(fold, rows, key, jobs, e.now).rows
    case Close(key, seen) => if key == "" then rows else ClosedRows(rows, key, seen, e.now)
    case Reopen(key, seen) => if key == "" then rows else ReopenedRows(rows, key, seen, e.now)
    case Backfill(key, contentKeys) =>
      if key == "" then rows else BackfilledRows(rows, key, Clean(contentKeys), e.now)
    case Retain(cutoff) => KeptRows(rows, cutoff)
  }

  function RunFrom(fold: string -> string, rows: Rows, es: seq<Event>): Rows
    decreases |es|
  {
    if es == [] then rows else RunFrom(fold, Step(fold, rows, es[0]), es[1..])
  }

  lemma {:induction false} RunLast(fold: string -> string, rows: Rows, es: seq<Event>, e: Event)
    ensures RunFrom(fold, rows, es + [e]) == Step(fold, RunFrom(fold, rows, es), e)
    decreases |es|
  {
    hide Step;
    var all := es + [e];
    if es == [] {
      assert all[1..] == [];
    } else {
      RunLast(fold, Step(fold, rows, es[0]), es[1..], e);
      assert all[1..] == es[1..] + [e];
    }
  }

  /** A row is closed by ATS or not at all, and a closed row has been seen on a board and refers to a company. */
  predicate Lifecycle(row: Row) {
    && (row.closedAt.Some? <==> row.closedBy == ATS)
    && row.closedBy != Aggregator
    && (row.closedAt.Some? ==> row.boardSeenAt.Some? && row.companyKeyRef.Some?)
    && row.companyKeyRef != Some("")
  }

  ghost predicate Valid(rows: Rows) {
    forall id :: id in rows ==> id != "" && rows[id].job.id == id && Lifecycle(rows[id])
  }

  /** What every write keeps of a row that it does not delete. */
  predicate Continues(a: Row, b: Row) {
    && b.job.id == a.job.id && b.job.firstSeen == a.job.firstSeen && b.job.companyKey == a.job.companyKey
    && b.createdAt == a.createdAt
    && (a.boardSeenAt.Some? ==> b.boardSeenAt.Some?)
    && (a.companyKeyRef.Some? ==> b.companyKeyRef.Some?)
  }

  /** No row goes or changes its close columns, and new rows are open. */
  ghost predicate Keeps(rows: Rows, after: Rows) {
    && (forall id :: id in rows ==> id in after && Continues(rows[id], after[id]) && SameClose(rows[id], after[id]))
    && (forall id :: id in after && id !in rows ==> after[id].closedAt.None?)
  }

  predicate SameClose(a: Row, b: Row) {
    a.closedAt == b.closedAt && a.closedBy == b.closedBy
  }

  lemma BoardRowFacts(fold: string -> string, rows: Rows, key: string, job: Job, now: int)
    ensures var row := BoardRow(fold, rows, key, job, now);
      && (job.id in rows ==> Continues(rows[job.id], row) && SameClose(rows[job.id], row))
      && (job.id in rows && Lifecycle(rows[job.id]) && key != "" ==> Lifecycle(row))
      && (job.id !in rows ==> row.closedAt.None? && row.job.id == job.id && (key != "" ==> Lifecycle(row)))
  {
    hide Stored, NewJob, MergeBoardJob;
    if job.id in rows {
      MergesKeep(fold, rows[job.id].job, job, now);
    } else {
      NewKeeps(fold, job, now);
    }
  }

  lemma BoardRowKeeps(fold: string -> string, rows: Rows, key: string, job: Job, now: int)
    ensures Keeps(rows, rows[job.id := BoardRow(fold, rows, key, job, now)])
    ensures Valid(rows) && key != "" && job.id != "" ==> Valid(rows[job.id := BoardRow(fold, rows, key, job, now)])
  {
    hide BoardRow;
    BoardRowFacts(fold, rows, key, job, now);
    KeepsItself(rows);
  }

  lemma KeepsTransitive(a: Rows, b: Rows, c: Rows)
    requires Keeps(a, b) && Keeps(b, c)
    ensures Keeps(a, c)
  {
  }

  lemma {:induction false} UpsertKeeps(fold: string -> string, rows: Rows, key: string, jobs: seq<Job>, now: int)
    ensures Keeps(rows, Upsert(fold, rows, key, jobs, now).rows)
    ensures Valid(rows) && key != "" ==> Valid(Upsert(fold, rows, key, jobs, now).rows)
    decreases |jobs|
  {
    hide Keeps, Valid, BoardRow, Stale;
    if jobs == [] {
      KeepsItself(rows);
    } else {
      var job := jobs[|jobs| - 1];
      var before := Upsert(fold, rows, key, jobs[..|jobs| - 1], now).rows;
      UpsertKeeps(fold, rows, key, jobs[..|jobs| - 1], now);
      BoardRowKeeps(fold, before, key, job, now);
      KeepsTransitive(rows, before, before[job.id := BoardRow(fold, before, key, job, now)]);
    }
  }

  lemma KeepsItself(rows: Rows)
    ensures Keeps(rows, rows)
  {
  }

  lemma NewKeeps(fold: string -> string, job: Job, now: int)
    ensures Stored(NewJob(fold, job, now)).id == job.id
  {
  }

  lemma MergesKeep(fold: string -> string, existing: Job, job: Job, now: int)
    ensures var a, b := Stored(MergeJob(fold, existing, job, now)), Stored(MergeBoardJob(fold, existing, job, now));
      && a.id == b.id == existing.id && a.firstSeen == b.firstSeen == existing.firstSeen
      && a.companyKey == b.companyKey == existing.companyKey
  {
  }

  lemma StepValid(fold: string -> string, rows: Rows, e: Event)
    requires Valid(rows)
    ensures Valid(Step(fold, rows, e))
  {
    hide Stored, NewJob, MergeBoardJob, MergeJob;
    match e.write
    case Ingest(job) =>
      NewKeeps(fold, job, e.now);
      if job.id in rows {
        MergesKeep(fold, rows[job.id].job, job, e.now);
      }
    case Board(key, jobs) => UpsertKeeps(fold, rows, key, jobs, e.now);
    case _ =>
  }

  /** The lifecycle rules hold after every run of writes, in any order, with any clocks. */
  lemma {:induction false} RunValid(fold: string -> string, rows: Rows, es: seq<Event>)
    requires Valid(rows)
    ensures Valid(RunFrom(fold, rows, es))
    decreases |es|
  {
    if es == [] {
    } else {
      StepValid(fold, rows, es[0]);
      RunValid(fold, Step(fold, rows, es[0]), es[1..]);
    }
  }

  /**
   One write: a row stays the row it is; it closes only by CloseAbsent, for its
   company, when it was seen on a board and is now absent; it reopens only by
   ReopenPresent, for its company, when it is listed again; it goes only by retention.
   */
  lemma StepLifecycle(fold: string -> string, rows: Rows, e: Event, id: string)
    requires id in rows
    ensures var after := Step(fold, rows, e);
      if id in after then
        && Continues(rows[id], after[id])
        && (rows[id].closedAt.None? && after[id].closedAt.Some? <==>
            e.write.Close? && e.write.key != "" && ToClose(rows[id], id, e.write.key, e.write.seen))
        && (rows[id].closedAt.Some? && after[id].closedAt.None? <==>
            e.write.Reopen? && e.write.key != "" && ToReopen(rows[id], id, e.write.key, e.write.seen))
      else e.write.Retain? && rows[id].job.lastSeen < e.write.cutoff
  {
    hide Stored, NewJob, MergeBoardJob, MergeJob;
    match e.write
    case Ingest(job) =>
      if job.id == id {
        MergesKeep(fold, rows[id].job, job, e.now);
      }
    case Board(key, jobs) => UpsertKeeps(fold, rows, key, jobs, e.now);
    case _ =>
  }

  /** A new row is open, whatever wrote it. */
  lemma NewRowsAreOpen(fold: string -> string, rows: Rows, e: Event, id: string)
    requires id !in rows && id in Step(fold, rows, e)
    ensures Step(fold, rows, e)[id].closedAt.None? && (e.write.Ingest? || e.write.Board?)
  {
    if e.write.Board? && e.write.key != "" {
      UpsertKeeps(fold, rows, e.write.key, e.write.jobs, e.now);
    }
  }

  /** The row is there before and after every write of the run. */
  predicate Stays(fold: string -> string, rows: Rows, es: seq<Event>, id: string)
    decreases |es|
  {
    id in rows && (es != [] ==> Stays(fold, Step(fold, rows, es[0]), es[1..], id))
  }

  lemma {:induction false} StaysToTheEnd(fold: string -> string, rows: Rows, es: seq<Event>, id: string)
    requires Stays(fold, rows, es, id)
    ensures id in rows && id in RunFrom(fold, rows, es)
    decreases |es|
  {
    if es == [] {
    } else {
      StaysToTheEnd(fold, Step(fold, rows, es[0]), es[1..], id);
    }
  }

  /** As long as a row stays, its first sighting never moves, and it never loses its company or its board sighting. */
  lemma {:induction false} FirstSeenNeverMoves(fold: string -> string, rows: Rows, es: seq<Event>, id: string)
    requires Stays(fold, rows, es, id) && id in RunFrom(fold, rows, es)
    ensures Continues(rows[id], RunFrom(fold, rows, es)[id])
    decreases |es|
  {
    if es == [] {
    } else {
      StepLifecycle(fold, rows, es[0], id);
      FirstSeenNeverMoves(fold, Step(fold, rows, es[0]), es[1..], id);
    }
  }

  /** A row that was open and is closed at the end of a run was closed by some CloseAbsent of the run that did not list it. */
  lemma {:induction false} SomebodyClosed(fold: string -> string, rows: Rows, es: seq<Event>, id: string)
    requires Stays(fold, rows, es, id) && id in RunFrom(fold, rows, es)
    requires rows[id].closedAt.None? && RunFrom(fold, rows, es)[id].closedAt.Some?
    ensures exists k: nat :: k < |es| && es[k].write.Close? && es[k].write.key != "" && id !in es[k].write.seen
    decreases |es|
  {
    var next := Step(fold, rows, es[0]);
    StepLifecycle(fold, rows, es[0], id);
    if next[id].closedAt.None? {
      SomebodyClosed(fold, next, es[1..], id);
      var k: nat :| k < |es[1..]| && es[1..][k].write.Close? && es[1..][k].write.key != "" && id !in es[1..][k].write.seen;
      assert es[k + 1] == es[1..][k];
    } else {
      assert es[0].write.Close?;
    }
  }
}
