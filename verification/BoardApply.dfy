/**
 What a board poll does to the jobs table: upsert the fresh listings, reopen the
 listed rows and, on a complete board, close the absent ones. Each of the four
 steps reads the clock for itself, so a run of it has four times.
 */
module BoardApply {
  import opened Prelude
  import opened JobMerge
  import opened JobTable

  datatype Clocks = Clocks(filter: int, upsert: int, reopen: int, close: int)

  /** The listings whose posting date is not too old. */
  function Fresh(jobs: seq<Job>, now: int): seq<Job> {
    if jobs == [] then []
    else
      var front, job := Fresh(jobs[..|jobs| - 1], now), jobs[|jobs| - 1];
      if Stale(job.postedAt, now) then front else front + [job]
  }

  function SeenIDs(jobs: seq<Job>): seq<string> {
    if jobs == [] then []
    else
      var front, id := SeenIDs(jobs[..|jobs| - 1]), jobs[|jobs| - 1].id;
      if id == "" then front else front + [id]
  }

  /** The ids a poll takes for the contents of the board. */
  function Listed(jobs: seq<Job>, t: Clocks): seq<string> {
    SeenIDs(Fresh(jobs, t.filter))
  }

  datatype Applied = Applied(upserted: int, closed: int)

  /** The rows when the upsert is over, whether it went through or stopped at a listing without an id. */
  function UpsertedRows(fold: string -> string, rows: Rows, key: string, jobs: seq<Job>, t: Clocks): Rows {
    if key == "" then rows else Upsert(fold, rows, key, Fresh(jobs, t.filter), t.upsert).rows
  }

  /** The rows when the listed ones are open again. */
  function ListedRows(fold: string -> string, rows: Rows, key: string, jobs: seq<Job>, t: Clocks): Rows {
    ReopenedRows(UpsertedRows(fold, rows, key, jobs, t), key, Listed(jobs, t), t.reopen)
  }

  /** The rows after applyJobs, when the upsert meets no listing without an id. */
  function AppliedRows(fold: string -> string, rows: Rows, key: string, jobs: seq<Job>, closeAbsent: bool, t: Clocks): Rows {
    var listed := ListedRows(fold, rows, key, jobs, t);
    if closeAbsent then ClosedRows(listed, key, Listed(jobs, t), t.close) else listed
  }

  /** The ids that the close step closes. */
  function ClosedIDs(fold: string -> string, rows: Rows, key: string, jobs: seq<Job>, t: Clocks): set<string> {
    var listed := ListedRows(fold, rows, key, jobs, t);
    set id | id in listed && ToClose(listed[id], id, key, Listed(jobs, t))
  }

  /** The two numbers applyJobs returns. */
  function AppliedCounts(
      fold: string -> string, rows: Rows, key: string, jobs: seq<Job>, closeAbsent: bool, t: Clocks): Applied
  {
    Applied(|Fresh(jobs, t.filter)|, if closeAbsent then |ClosedIDs(fold, rows, key, jobs, t)| else 0)
  }

  predicate Succeeds(fold: string -> string, rows: Rows, key: string, jobs: seq<Job>, t: Clocks) {
    key != "" && Upsert(fold, rows, key, Fresh(jobs, t.filter), t.upsert).fault.None?
  }

  method ApplyJobs(table: JobRepository, key: string, jobs: seq<Job>, closeAbsent: bool, t: Clocks)
    returns (r: Result<Applied, Fault>)
    modifies table`rows
    ensures r.Ok? <==> Succeeds(table.fold, old(table.rows), key, jobs, t)
    ensures r.Ok? ==> table.rows == AppliedRows(table.fold, old(table.rows), key, jobs, closeAbsent, t)
    ensures r.Ok? ==> r.value == AppliedCounts(table.fold, old(table.rows), key, jobs, closeAbsent, t)
    ensures r.Err? ==> table.rows == UpsertedRows(table.fold, old(table.rows), key, jobs, t)
    ensures r.Err? ==> r.error == if key == "" then CompanyKeyRequired else JobIDRequired
  {
    var recent: seq<Job> := [];
    for i := 0 to |jobs|
      invariant recent == Fresh(jobs[..i], t.filter)
    {
      assert jobs[..i + 1][..i] == jobs[..i];
      if Stale(jobs[i].postedAt, t.filter) {
        continue;
      }
      recent := recent + [jobs[i]];
    }
    assert jobs[..|jobs|] == jobs;
    UpsertFault(table.fold, table.rows, key, recent, t.upsert);
    var upserted := table.UpsertBoardJobs(key, recent, t.upsert);
    if upserted.Err? {
      return Err(upserted.error);
    }
    var seen: seq<string> := [];
    for i := 0 to |recent|
      invariant seen == SeenIDs(recent[..i])
    {
      assert recent[..i + 1][..i] == recent[..i];
      if recent[i].id != "" {
        seen := seen + [recent[i].id];
      }
    }
    assert recent[..|recent|] == recent;
    var reopened := table.ReopenPresent(key, seen, t.reopen);
    var closed := 0;
    if closeAbsent {
      var n := table.CloseAbsent(key, seen, t.close);
      closed := if n.Ok? then n.value else 0;
    }
    return Ok(Applied(|recent|, closed));
  }

  lemma {:induction false} UpsertFault(fold: string -> string, rows: Rows, key: string, jobs: seq<Job>, now: int)
    ensures Upsert(fold, rows, key, jobs, now).fault in [None, Some(JobIDRequired)]
    decreases |jobs|
  {
    if jobs == [] {
    } else {
      UpsertFault(fold, rows, key, jobs[..|jobs| - 1], now);
    }
  }

  /** A poll is three writes on the table, so what every run of writes keeps, every poll keeps. */
  lemma AppliedIsARun(fold: string -> string, rows: Rows, key: string, jobs: seq<Job>, closeAbsent: bool, t: Clocks)
    requires key != ""
    ensures var recent, seen := Fresh(jobs, t.filter), Listed(jobs, t);
      var es := [Event(Board(key, recent), t.upsert), Event(Reopen(key, seen), t.reopen)];
      AppliedRows(fold, rows, key, jobs, closeAbsent, t)
        == RunFrom(fold, rows, if closeAbsent then es + [Event(Close(key, seen), t.close)] else es)
  {
    hide Fresh, SeenIDs, Upsert;
    var recent, seen := Fresh(jobs, t.filter), Listed(jobs, t);
    var board, reopen := Event(Board(key, recent), t.upsert), Event(Reopen(key, seen), t.reopen);
    RunLast(fold, rows, [], board);
    RunLast(fold, rows, [board], reopen);
    RunLast(fold, rows, [board, reopen], Event(Close(key, seen), t.close));
    assert [] + [board] == [board] && [board] + [reopen] == [board, reopen];
  }

  /** The board listing that the upsert writes for this id, if there is one. */
  predicate Written(jobs: seq<Job>, id: string, now: int) {
    exists i :: 0 <= i < |jobs| && jobs[i].id == id && !Stale(jobs[i].postedAt, now)
  }

  lemma {:induction false} UpsertRows(fold: string -> string, rows: Rows, key: string, jobs: seq<Job>, now: int, id: string)
    requires Upsert(fold, rows, key, jobs, now).fault.None?
    ensures var after := Upsert(fold, rows, key, jobs, now).rows;
      if Written(jobs, id, now) then
        id in after && after[id].companyKeyRef == Some(key) && after[id].boardSeenAt == Some(now)
      else (id in after <==> id in rows) && (id in rows ==> after[id] == rows[id])
    decreases |jobs|
  {
    if jobs == [] {
    } else {
      var n := |jobs| - 1;
      UpsertRows(fold, rows, key, jobs[..n], now, id);
      WrittenPrefix(jobs, id, now);
    }
  }

  lemma WrittenPrefix(jobs: seq<Job>, id: string, now: int)
    requires jobs != []
    ensures Written(jobs, id, now) <==>
      Written(jobs[..|jobs| - 1], id, now) || (jobs[|jobs| - 1].id == id && !Stale(jobs[|jobs| - 1].postedAt, now))
  {
    var n := |jobs| - 1;
    if Written(jobs[..n], id, now) {
      var i :| 0 <= i < n && jobs[..n][i].id == id && !Stale(jobs[..n][i].postedAt, now);
      assert jobs[i] == jobs[..n][i];
    }
    if Written(jobs, id, now) {
      var i :| 0 <= i < |jobs| && jobs[i].id == id && !Stale(jobs[i].postedAt, now);
      if i < n {
        assert jobs[..n][i] == jobs[i];
      }
    }
  }

  /** An upsert that succeeds has met an id on every listing, and no other fault is possible. */
  lemma {:induction false} UpsertSucceeds(fold: string -> string, rows: Rows, key: string, jobs: seq<Job>, now: int)
    ensures Upsert(fold, rows, key, jobs, now).fault.None? <==> forall i :: 0 <= i < |jobs| ==> jobs[i].id != ""
    decreases |jobs|
  {
    if jobs == [] {
    } else {
      UpsertSucceeds(fold, rows, key, jobs[..|jobs| - 1], now);
      assert forall i :: 0 <= i < |jobs| - 1 ==> jobs[..|jobs| - 1][i] == jobs[i];
    }
  }

  lemma {:induction false} FreshMember(jobs: seq<Job>, now: int, job: Job)
    ensures job in Fresh(jobs, now) <==> job in jobs && !Stale(job.postedAt, now)
    decreases |jobs|
  {
    if jobs == [] {
    } else {
      var n := |jobs| - 1;
      FreshMember(jobs[..n], now, job);
      assert jobs == jobs[..n] + [jobs[n]];
    }
  }

  lemma {:induction false} SeenMember(jobs: seq<Job>, id: string)
    ensures id in SeenIDs(jobs) <==> id != "" && exists j :: j in jobs && j.id == id
    decreases |jobs|
  {
    if jobs == [] {
    } else {
      var n := |jobs| - 1;
      SeenMember(jobs[..n], id);
      assert jobs == jobs[..n] + [jobs[n]];
    }
  }

  /** Rows of the company that are open and have been seen on a board. */
  function OpenOnBoard(rows: Rows, key: string): set<string> {
    set id | id in rows && rows[id].companyKeyRef == Some(key) && rows[id].closedAt.None? && rows[id].boardSeenAt.Some?
  }

  /** A row the company's board has been seen with before. */
  predicate OnBoardBefore(rows: Rows, key: string, id: string) {
    id in rows && rows[id].companyKeyRef == Some(key) && rows[id].boardSeenAt.Some?
  }

  function ListedSet(jobs: seq<Job>, t: Clocks): set<string> {
    set id | id in Listed(jobs, t)
  }

  lemma WrittenIsListed(jobs: seq<Job>, now: int, id: string)
    requires Written(jobs, id, now) && forall i :: 0 <= i < |jobs| ==> jobs[i].id != ""
    ensures id in SeenIDs(jobs)
  {
    SeenMember(jobs, id);
    var i :| 0 <= i < |jobs| && jobs[i].id == id && !Stale(jobs[i].postedAt, now);
    assert jobs[i] in jobs;
  }

  /** With any clocks: open on the board is what is listed and was either written now or on the board before. */
  lemma OpenAfterComplete(fold: string -> string, rows: Rows, key: string, jobs: seq<Job>, t: Clocks, id: string)
    requires Succeeds(fold, rows, key, jobs, t)
    ensures id in OpenOnBoard(AppliedRows(fold, rows, key, jobs, true, t), key) <==>
      id in ListedSet(jobs, t) && (Written(Fresh(jobs, t.filter), id, t.upsert) || OnBoardBefore(rows, key, id))
  {
    var recent := Fresh(jobs, t.filter);
    UpsertRows(fold, rows, key, recent, t.upsert, id);
    SeenMember(recent, id);
    UpsertSucceeds(fold, rows, key, recent, t.upsert);
    if Written(recent, id, t.upsert) {
      WrittenIsListed(recent, t.upsert, id);
    }
    hide Written, Upsert, Fresh, SeenIDs;
    var upserted := Upsert(fold, rows, key, recent, t.upsert).rows;
    var reopened := ReopenedRows(upserted, key, Listed(jobs, t), t.reopen);
    assert id in reopened <==> id in upserted;
  }

  /**
   After a complete poll the open, board-seen rows of the company are exactly
   the listed ids, if and only if each listed id was written or on the board before.
   */
  lemma CompleteIsExactIff(fold: string -> string, rows: Rows, key: string, jobs: seq<Job>, t: Clocks)
    requires Succeeds(fold, rows, key, jobs, t)
    ensures OpenOnBoard(AppliedRows(fold, rows, key, jobs, true, t), key) == ListedSet(jobs, t) <==>
      forall id :: id in ListedSet(jobs, t) ==> Written(Fresh(jobs, t.filter), id, t.upsert) || OnBoardBefore(rows, key, id)
  {
    var open := OpenOnBoard(AppliedRows(fold, rows, key, jobs, true, t), key);
    var recent := Fresh(jobs, t.filter);
    forall id
      ensures id in open <==> id in ListedSet(jobs, t) && (Written(recent, id, t.upsert) || OnBoardBefore(rows, key, id))
    {
      OpenAfterComplete(fold, rows, key, jobs, t, id);
    }
  }

  /** No listing turns stale between the two readings of the clock. */
  predicate ClocksAgree(jobs: seq<Job>, t: Clocks) {
    forall i :: 0 <= i < |jobs| ==> (Stale(jobs[i].postedAt, t.filter) <==> Stale(jobs[i].postedAt, t.upsert))
  }

  /** When the two cutoffs agree on every listing, the open rows are exactly the non-stale ids on the board. */
  lemma CompleteIsExact(fold: string -> string, rows: Rows, key: string, jobs: seq<Job>, t: Clocks, id: string)
    requires Succeeds(fold, rows, key, jobs, t) && ClocksAgree(jobs, t)
    ensures id in OpenOnBoard(AppliedRows(fold, rows, key, jobs, true, t), key) <==>
      exists j :: j in jobs && j.id == id && !Stale(j.postedAt, t.filter)
  {
    var recent := Fresh(jobs, t.filter);
    OpenAfterComplete(fold, rows, key, jobs, t, id);
    SeenMember(recent, id);
    UpsertSucceeds(fold, rows, key, recent, t.upsert);
    if j :| j in jobs && j.id == id && !Stale(j.postedAt, t.filter) {
      FreshMember(jobs, t.filter, j);
      var i :| 0 <= i < |recent| && recent[i] == j;
      var k :| 0 <= k < |jobs| && jobs[k] == j;
      assert Written(recent, id, t.upsert);
    }
    if id in Listed(jobs, t) {
      var j :| j in recent && j.id == id;
      FreshMember(jobs, t.filter, j);
    }
  }

  /** A vacancy that turns stale between the two readings is listed but never written: the row is missing. */
  lemma GapJobIsLost(fold: string -> string, key: string, job: Job, now: int)
    requires key != "" && job.id != "" && job.postedAt == Some(now - POSTED_AT_REJECT_DAYS * DAY)
    ensures var t := Clocks(now, now + 1, now + 1, now + 1);
      && Succeeds(fold, map[], key, [job], t) && ListedSet([job], t) == {job.id}
      && OpenOnBoard(AppliedRows(fold, map[], key, [job], true, t), key) == {}
  {
    var t := Clocks(now, now + 1, now + 1, now + 1);
    assert [job][..0] == [];
    assert Fresh([job], now) == [job];
    assert SeenIDs([job]) == [job.id];
    UpsertSucceeds(fold, map[], key, [job], now + 1);
    forall id ensures id !in OpenOnBoard(AppliedRows(fold, map[], key, [job], true, t), key) {
      OpenAfterComplete(fold, map[], key, [job], t, id);
    }
  }

  /**
   A row that is not listed stays as it is, unless the board is complete and the
   row refers to the company, is open and was seen on a board. So rows of other
   companies and rows only aggregators know are untouched.
   */
  lemma Untouched(fold: string -> string, rows: Rows, key: string, jobs: seq<Job>, closeAbsent: bool, t: Clocks, id: string)
    requires Succeeds(fold, rows, key, jobs, t) && id !in Listed(jobs, t)
    ensures var after := AppliedRows(fold, rows, key, jobs, closeAbsent, t);
      && (id in after <==> id in rows)
      && (id in rows && !(closeAbsent && id in OpenOnBoard(rows, key)) ==> after[id] == rows[id])
      && (id in rows && closeAbsent && id in OpenOnBoard(rows, key) ==>
            after[id] == rows[id].(closedAt := Some(t.close), closedBy := ATS, updatedAt := t.close))
  {
    var recent := Fresh(jobs, t.filter);
    UpsertRows(fold, rows, key, recent, t.upsert, id);
    SeenMember(recent, id);
    UpsertSucceeds(fold, rows, key, recent, t.upsert);
  }

  /** A listed row of another company that the upsert skips is untouched too. */
  lemma ForeignUntouched(
      fold: string -> string, rows: Rows, key: string, jobs: seq<Job>, closeAbsent: bool, t: Clocks, id: string)
    requires Succeeds(fold, rows, key, jobs, t) && id in rows && rows[id].companyKeyRef != Some(key)
    requires !Written(Fresh(jobs, t.filter), id, t.upsert)
    ensures var after := AppliedRows(fold, rows, key, jobs, closeAbsent, t); id in after && after[id] == rows[id]
  {
    UpsertRows(fold, rows, key, Fresh(jobs, t.filter), t.upsert, id);
  }

  /** A poll that closes nothing only adds open rows. */
  lemma PartialOnlyGrows(fold: string -> string, rows: Rows, key: string, jobs: seq<Job>, t: Clocks, id: string)
    requires Succeeds(fold, rows, key, jobs, t) && id in rows
    ensures var after := AppliedRows(fold, rows, key, jobs, false, t);
      id in after && (rows[id].closedAt.None? ==> after[id].closedAt.None?)
  {
    UpsertKeeps(fold, rows, key, Fresh(jobs, t.filter), t.upsert);
  }

  /** The close step closes exactly the rows that were open on the board and are not listed. */
  lemma ClosedIsExact(fold: string -> string, rows: Rows, key: string, jobs: seq<Job>, t: Clocks)
    requires Succeeds(fold, rows, key, jobs, t)
    ensures ClosedIDs(fold, rows, key, jobs, t) == OpenOnBoard(rows, key) - ListedSet(jobs, t)
    ensures AppliedCounts(fold, rows, key, jobs, true, t).closed == |OpenOnBoard(rows, key) - ListedSet(jobs, t)|
  {
    var recent := Fresh(jobs, t.filter);
    var upserted := UpsertedRows(fold, rows, key, jobs, t);
    UpsertSucceeds(fold, rows, key, recent, t.upsert);
    forall id | id !in Listed(jobs, t) ensures !Written(recent, id, t.upsert)
      && (id in upserted <==> id in rows) && (id in rows ==> upserted[id] == rows[id])
    {
      UpsertRows(fold, rows, key, recent, t.upsert, id);
      SeenMember(recent, id);
    }
    hide Written, Upsert, Fresh, SeenIDs, UpsertedRows;
    var listed := ListedRows(fold, rows, key, jobs, t);
    forall id ensures id in ClosedIDs(fold, rows, key, jobs, t) <==> id in OpenOnBoard(rows, key) - ListedSet(jobs, t) {
      assert id in listed <==> id in upserted;
    }
  }

  /**
   A second poll of the same list, with any clocks: it closes exactly the rows that
   the first one left open and that are listed no more, because they turned stale in between.
   */
  lemma RepeatCloses(fold: string -> string, rows: Rows, key: string, jobs: seq<Job>, t: Clocks, u: Clocks)
    requires Succeeds(fold, rows, key, jobs, t)
    requires Succeeds(fold, AppliedRows(fold, rows, key, jobs, true, t), key, jobs, u)
    ensures var gone := set id | id in ListedSet(jobs, t) - ListedSet(jobs, u)
        && (Written(Fresh(jobs, t.filter), id, t.upsert) || OnBoardBefore(rows, key, id));
      AppliedCounts(fold, AppliedRows(fold, rows, key, jobs, true, t), key, jobs, true, u).closed == |gone|
  {
    var after := AppliedRows(fold, rows, key, jobs, true, t);
    ClosedIsExact(fold, after, key, jobs, u);
    forall id ensures id in OpenOnBoard(after, key) <==>
      id in ListedSet(jobs, t) && (Written(Fresh(jobs, t.filter), id, t.upsert) || OnBoardBefore(rows, key, id))
    {
      OpenAfterComplete(fold, rows, key, jobs, t, id);
    }
    hide Written, AppliedRows, Fresh, OnBoardBefore, OpenOnBoard, AppliedCounts, ListedSet;
    var gone := set id | id in ListedSet(jobs, t) - ListedSet(jobs, u)
      && (Written(Fresh(jobs, t.filter), id, t.upsert) || OnBoardBefore(rows, key, id));
    assert OpenOnBoard(after, key) - ListedSet(jobs, u) == gone;
  }

  /** When no listing turned stale in between, the number the second call returns is zero. */
  lemma RepeatClosesNothing(fold: string -> string, rows: Rows, key: string, jobs: seq<Job>, t: Clocks, u: Clocks)
    requires Succeeds(fold, rows, key, jobs, t) && Fresh(jobs, t.filter) == Fresh(jobs, u.filter)
    ensures Succeeds(fold, AppliedRows(fold, rows, key, jobs, true, t), key, jobs, u)
    ensures AppliedCounts(fold, AppliedRows(fold, rows, key, jobs, true, t), key, jobs, true, u).closed == 0
  {
    var after := AppliedRows(fold, rows, key, jobs, true, t);
    var recent := Fresh(jobs, u.filter);
    UpsertSucceeds(fold, rows, key, recent, t.upsert);
    UpsertSucceeds(fold, after, key, recent, u.upsert);
    RepeatCloses(fold, rows, key, jobs, t, u);
    hide Written, AppliedRows, Fresh, OnBoardBefore, AppliedCounts, SeenIDs;
    assert Listed(jobs, t) == Listed(jobs, u);
    assert (set id | id in ListedSet(jobs, t) - ListedSet(jobs, u)
      && (Written(Fresh(jobs, t.filter), id, t.upsert) || OnBoardBefore(rows, key, id))) == {};
  }
}
