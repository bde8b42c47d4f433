/**
 The statements of the jobs table, interleaved. A save is two of them: a SELECT of
 the row, and a write of every column that is computed from it. The other writes
 are single statements. Any number of callers run at once, so any statement may
 fall between a read and the save that follows it.
 */
module JobInterleaving {
  import opened Prelude
  import opened JobMerge
  import opened JobTable

  /** Who saves: an aggregator's ingest, or the board poll of a company. */
  datatype Origin = FromIngest | FromBoard(key: string)

  /** A caller between the two statements: its listing, the row it read, and its clock. */
  datatype Pending = Pending(job: Job, origin: Origin, read: Option<Row>, now: int)

  datatype World = World(rows: Rows, pending: map<nat, Pending>)

  datatype Event =
    /** Caller `c` selects the row of its listing. */
    | Read(c: nat, job: Job, origin: Origin, now: int)
    /** Caller `c` inserts or saves the row. */
    | Save(c: nat)
    /** A write that nothing interrupts: a single statement, or a save alone on the table. */
    | Whole(write: JobTable.Event)

  function RowOf(rows: Rows, id: string): Option<Row> {
    if id in rows then Some(rows[id]) else None
  }

  /** The listing is refused, or skipped as stale, before anything is read. */
  predicate Refused(job: Job, origin: Origin, now: int) {
    job.id == "" || (origin.FromBoard? && (origin.key == "" || Stale(job.postedAt, now)))
  }

  /** The row that a caller writes: computed from what it read, not from what is there. */
  function SavedRow(fold: string -> string, p: Pending): Row {
    var seen := if p.read.Some? then map[p.job.id := p.read.value] else map[];
    match p.origin
    case FromIngest => IngestRow(fold, seen, p.job, p.now)
    case FromBoard(key) => BoardRow(fold, seen, key, p.job, p.now)
  }

  /** A row that was not found is inserted, which fails when it is there by now; one that was found is saved with all its columns. */
  function Saved(fold: string -> string, rows: Rows, p: Pending): Rows {
    if p.read.None? && p.job.id in rows then rows else rows[p.job.id := SavedRow(fold, p)]
  }

  function Step(fold: string -> string, w: World, e: Event): World {
    match e
    case Read(c, job, origin, now) =>
      if c in w.pending || Refused(job, origin, now) then w
      else w.(pending := w.pending[c := Pending(job, origin, RowOf(w.rows, job.id), now)])
    case Save(c) => if c in w.pending then World(Saved(fold, w.rows, w.pending[c]), w.pending - {c}) else w
    case Whole(write) => w.(rows := JobTable.Step(fold, w.rows, write))
  }

  function Run(fold: string -> string, w: World, es: seq<Event>): World {
    if es == [] then w else Step(fold, Run(fold, w, es[..|es| - 1]), es[|es| - 1])
  }

  /** The world before event `i`. */
  function At(fold: string -> string, w: World, es: seq<Event>, i: nat): World
    requires i <= |es|
  {
    Run(fold, w, es[..i])
  }

  lemma AtNext(fold: string -> string, w: World, es: seq<Event>, i: nat)
    requires i < |es|
    ensures At(fold, w, es, i + 1) == Step(fold, At(fold, w, es, i), es[i])
    ensures At(fold, w, es, 0) == w && At(fold, w, es, |es|) == Run(fold, w, es)
  {
    assert es[..i + 1][..i] == es[..i] && es[..|es|] == es;
  }

  // A save that nothing interrupts.

  /** A read and the save right after it are the ingest of the listing as one write. */
  lemma IngestIsReadAndSave(fold: string -> string, w: World, c: nat, job: Job, now: int)
    requires c !in w.pending && job.id != ""
    ensures Step(fold, Step(fold, w, Read(c, job, FromIngest, now)), Save(c))
      == w.(rows := JobTable.Step(fold, w.rows, JobTable.Event(Ingest(job), now)))
  {
    hide IngestRow;
    IngestReads(fold, w.rows, job, now);
    assert w.pending[c := Pending(job, FromIngest, RowOf(w.rows, job.id), now)] - {c} == w.pending;
  }

  /** What a save writes depends on the row of its listing alone. */
  lemma IngestReads(fold: string -> string, rows: Rows, job: Job, now: int)
    ensures SavedRow(fold, Pending(job, FromIngest, RowOf(rows, job.id), now)) == IngestRow(fold, rows, job, now)
  {
  }

  lemma BoardReads(fold: string -> string, rows: Rows, key: string, job: Job, now: int)
    ensures SavedRow(fold, Pending(job, FromBoard(key), RowOf(rows, job.id), now)) == BoardRow(fold, rows, key, job, now)
  {
  }

  lemma BoardIsReadAndSave(fold: string -> string, w: World, c: nat, key: string, job: Job, now: int)
    requires c !in w.pending && job.id != "" && key != ""
    ensures Step(fold, Step(fold, w, Read(c, job, FromBoard(key), now)), Save(c))
      == w.(rows := if Stale(job.postedAt, now) then w.rows else w.rows[job.id := BoardRow(fold, w.rows, key, job, now)])
  {
    hide BoardRow, SavedRow, Stale;
    BoardReads(fold, w.rows, key, job, now);
    assert w.pending[c := Pending(job, FromBoard(key), RowOf(w.rows, job.id), now)] - {c} == w.pending;
  }

  /** The statements of a board upsert: a read and a save for each listing, all with one clock. */
  function Statements(c: nat, key: string, jobs: seq<Job>, now: int): seq<Event> {
    if jobs == [] then []
    else Statements(c, key, jobs[..|jobs| - 1], now) + [Read(c, jobs[|jobs| - 1], FromBoard(key), now), Save(c)]
  }

  lemma RunTwo(fold: string -> string, w: World, es: seq<Event>, a: Event, b: Event)
    ensures Run(fold, w, es + [a, b]) == Step(fold, Step(fold, Run(fold, w, es), a), b)
  {
    var all := es + [a, b];
    assert all[..|all| - 1] == es + [a] && (es + [a])[..|es|] == es;
  }

  /** When nothing interrupts them, they are the upsert as one write. */
  lemma {:induction false} UpsertIsItsStatements(fold: string -> string, w: World, c: nat, key: string, jobs: seq<Job>, now: int)
    requires c !in w.pending && key != "" && forall i :: 0 <= i < |jobs| ==> jobs[i].id != ""
    ensures Upsert(fold, w.rows, key, jobs, now).fault.None?
    ensures Run(fold, w, Statements(c, key, jobs, now)) == w.(rows := Upsert(fold, w.rows, key, jobs, now).rows)
    decreases |jobs|
  {
    hide BoardRow, Stale, Step;
    if jobs == [] {
    } else {
      var n := |jobs| - 1;
      UpsertIsItsStatements(fold, w, c, key, jobs[..n], now);
      var before := Run(fold, w, Statements(c, key, jobs[..n], now));
      BoardIsReadAndSave(fold, before, c, key, jobs[n], now);
      RunTwo(fold, w, Statements(c, key, jobs[..n], now), Read(c, jobs[n], FromBoard(key), now), Save(c));
    }
  }

  // The rules that every interleaving keeps.

  ghost predicate PendingSound(p: Pending) {
    && p.job.id != "" && (p.origin.FromBoard? ==> p.origin.key != "")
    && (p.read.Some? ==> p.read.value.job.id == p.job.id && Lifecycle(p.read.value))
  }

  ghost predicate Sound(w: World) {
    Valid(w.rows) && forall c :: c in w.pending ==> PendingSound(w.pending[c])
  }

  /** The row a caller writes continues the one it read, and has its close columns. */
  lemma SavedRowFacts(fold: string -> string, p: Pending)
    ensures var row := SavedRow(fold, p);
      if p.read.Some? && p.read.value.job.id == p.job.id then
        Continues(p.read.value, row) && SameClose(p.read.value, row)
        && (p.origin.FromIngest? ==> row.boardSeenAt == p.read.value.boardSeenAt && row.companyKeyRef == p.read.value.companyKeyRef)
        && (p.origin.FromBoard? ==> row.boardSeenAt.Some? && row.companyKeyRef.Some?)
      else p.read.None? ==> row.closedAt.None? && row.closedBy == Nobody && row.job.id == p.job.id
    ensures PendingSound(p) ==> SavedRow(fold, p).job.id == p.job.id && Lifecycle(SavedRow(fold, p))
  {
    hide Stored, NewJob, MergeBoardJob, MergeJob;
    NewKeeps(fold, p.job, p.now);
    if p.read.Some? {
      MergesKeep(fold, p.read.value.job, p.job, p.now);
    }
  }

  lemma StepSound(fold: string -> string, w: World, e: Event)
    requires Sound(w)
    ensures Sound(Step(fold, w, e))
  {
    hide SavedRow, JobTable.Step;
    match e
    case Read(c, job, origin, now) =>
    case Save(c) =>
      if c in w.pending {
        SavedRowFacts(fold, w.pending[c]);
      }
    case Whole(write) => StepValid(fold, w.rows, write);
  }

  /** The lifecycle rules hold after every interleaving of the statements of any number of callers. */
  lemma {:induction false} RunSound(fold: string -> string, w: World, es: seq<Event>)
    requires Sound(w)
    ensures Sound(Run(fold, w, es))
    decreases |es|
  {
    hide Sound, Step;
    if es == [] {
    } else {
      RunSound(fold, w, es[..|es| - 1]);
      StepSound(fold, Run(fold, w, es[..|es| - 1]), es[|es| - 1]);
    }
  }

  // When a row closes and opens.

  /** The event saves row `id` over a row that is there. */
  predicate Overwrites(w: World, e: Event, id: string) {
    e.Save? && e.c in w.pending && w.pending[e.c].job.id == id && w.pending[e.c].read.Some?
  }

  predicate Closes(w: World, e: Event, id: string) {
    && e.Whole? && e.write.write.Close? && e.write.write.key != ""
    && id in w.rows && ToClose(w.rows[id], id, e.write.write.key, e.write.write.seen)
  }

  predicate Reopens(w: World, e: Event, id: string) {
    && e.Whole? && e.write.write.Reopen? && e.write.write.key != ""
    && id in w.rows && ToReopen(w.rows[id], id, e.write.write.key, e.write.write.seen)
  }

  predicate Deletes(w: World, e: Event, id: string) {
    e.Whole? && e.write.write.Retain? && id in w.rows && w.rows[id].job.lastSeen < e.write.write.cutoff
  }

  /**
   One statement: a row goes only by retention; its close columns move only by a
   CloseAbsent, by a ReopenPresent, or by a save that read other ones, which puts
   those back.
   */
  lemma StatementLifecycle(fold: string -> string, w: World, e: Event, id: string)
    requires Sound(w) && id in w.rows
    ensures var after := Step(fold, w, e).rows;
      if id in after then
        && !Deletes(w, e, id)
        && (Closes(w, e, id) ==> after[id].closedAt.Some?) && (Reopens(w, e, id) ==> after[id].closedAt.None?)
        && (Overwrites(w, e, id) ==> SameClose(w.pending[e.c].read.value, after[id]))
        && (!Closes(w, e, id) && !Reopens(w, e, id) && !Overwrites(w, e, id) ==> SameClose(w.rows[id], after[id]))
      else Deletes(w, e, id)
  {
    hide SavedRow;
    match e
    case Read(c, job, origin, now) =>
    case Save(c) =>
      if c in w.pending {
        SavedRowFacts(fold, w.pending[c]);
      }
    case Whole(write) =>
      JobTable.StepLifecycle(fold, w.rows, write, id);
      if id in JobTable.Step(fold, w.rows, write) {
        WholeKeepsClose(fold, w.rows, write, id);
      }
  }

  lemma WholeKeepsClose(fold: string -> string, rows: Rows, e: JobTable.Event, id: string)
    requires Valid(rows) && id in rows && id in JobTable.Step(fold, rows, e)
    ensures !e.write.Retain? || rows[id].job.lastSeen >= e.write.cutoff
    ensures !(e.write.Close? && e.write.key != "" && ToClose(rows[id], id, e.write.key, e.write.seen))
      && !(e.write.Reopen? && e.write.key != "" && ToReopen(rows[id], id, e.write.key, e.write.seen))
      ==> SameClose(rows[id], JobTable.Step(fold, rows, e)[id])
  {
    hide Stored, NewJob, MergeBoardJob, MergeJob, Lifecycle;
    if e.write.Board? && e.write.key != "" {
      UpsertKeeps(fold, rows, e.write.key, e.write.jobs, e.now);
    }
  }

  // Which read a save goes back to.

  /** Event `j` is the read of caller `c` that waits for its save before event `n`. */
  ghost predicate ReadBy(fold: string -> string, w: World, es: seq<Event>, c: nat, j: nat, n: nat) {
    && j < n <= |es| && es[j].Read? && es[j].c == c
    && c !in At(fold, w, es, j).pending && !Refused(es[j].job, es[j].origin, es[j].now)
    && forall k :: j < k < n ==> es[k] != Save(c)
  }

  function PendingOf(rows: Rows, e: Event): Pending
    requires e.Read?
  {
    Pending(e.job, e.origin, RowOf(rows, e.job.id), e.now)
  }

  /** What the caller holds then is the row as it was at the read. */
  lemma {:induction false} ReadWaits(fold: string -> string, w: World, es: seq<Event>, c: nat, j: nat, n: nat)
    requires ReadBy(fold, w, es, c, j, n)
    ensures c in At(fold, w, es, n).pending
    ensures At(fold, w, es, n).pending[c] == PendingOf(At(fold, w, es, j).rows, es[j])
    decreases n
  {
    hide Saved, JobTable.Step, At;
    AtNext(fold, w, es, n - 1);
    if n == j + 1 {
    } else {
      ReadWaits(fold, w, es, c, j, n - 1);
    }
  }

  /** Whoever waits for a save has read. */
  lemma {:induction false} WaitsSince(fold: string -> string, w: World, es: seq<Event>, c: nat, n: nat) returns (j: nat)
    requires w.pending == map[] && n <= |es| && c in At(fold, w, es, n).pending
    ensures ReadBy(fold, w, es, c, j, n)
    decreases n
  {
    hide Saved, JobTable.Step;
    assert es[..0] == [];
    AtNext(fold, w, es, n - 1);
    if c in At(fold, w, es, n - 1).pending {
      j := WaitsSince(fold, w, es, c, n - 1);
    } else {
      j := n - 1;
    }
  }

  // The promise, and exactly when it holds.

  /** Over the whole run the close columns of the row move by CloseAbsent and ReopenPresent only. */
  ghost predicate ClosedByPollsOnly(fold: string -> string, w: World, es: seq<Event>, id: string) {
    forall i: nat :: i < |es| ==> MovesByPoll(fold, At(fold, w, es, i), es[i], id)
  }

  ghost predicate MovesByPoll(fold: string -> string, w: World, e: Event, id: string) {
    var after := Step(fold, w, e).rows;
    id in w.rows && id in after && !SameClose(w.rows[id], after[id]) ==> Closes(w, e, id) || Reopens(w, e, id)
  }

  /** Every save over the row finds the close columns that it read. */
  ghost predicate ReadsHold(fold: string -> string, w: World, es: seq<Event>, id: string) {
    forall j: nat, i: nat :: i < |es| && SaveOfRead(fold, w, es, id, j, i) ==>
      SameClose(At(fold, w, es, j).rows[id], At(fold, w, es, i).rows[id])
  }

  /** Event `i` saves what event `j` read, and the row was there both times. */
  ghost predicate SaveOfRead(fold: string -> string, w: World, es: seq<Event>, id: string, j: nat, i: nat) {
    && i < |es| && es[i].Save? && ReadBy(fold, w, es, es[i].c, j, i) && es[j].job.id == id
    && id in At(fold, w, es, j).rows && id in At(fold, w, es, i).rows
  }

  /** The exact condition: the lifecycle is what the polls make it if and only if no save goes back to another state of the row. */
  lemma ClosedByPollsOnlyIff(fold: string -> string, w: World, es: seq<Event>, id: string)
    requires Sound(w) && w.pending == map[]
    ensures ClosedByPollsOnly(fold, w, es, id) <==> ReadsHold(fold, w, es, id)
  {
    hide MovesByPoll, At, Sound, Step, Run;
    if ClosedByPollsOnly(fold, w, es, id) {
      forall j: nat, i: nat | i < |es| && SaveOfRead(fold, w, es, id, j, i)
        ensures SameClose(At(fold, w, es, j).rows[id], At(fold, w, es, i).rows[id])
      {
        TornSaveMoves(fold, w, es, id, j, i);
      }
    }
    if ReadsHold(fold, w, es, id) {
      forall i: nat | i < |es| ensures MovesByPoll(fold, At(fold, w, es, i), es[i], id) {
        MoveIsTorn(fold, w, es, id, i);
      }
    }
  }

  lemma SoundAt(fold: string -> string, w: World, es: seq<Event>, i: nat)
    requires Sound(w) && i <= |es|
    ensures Sound(At(fold, w, es, i))
  {
    hide Sound;
    RunSound(fold, w, es[..i]);
  }

  lemma TornSaveMoves(fold: string -> string, w: World, es: seq<Event>, id: string, j: nat, i: nat)
    requires Sound(w) && i < |es| && SaveOfRead(fold, w, es, id, j, i) && MovesByPoll(fold, At(fold, w, es, i), es[i], id)
    ensures SameClose(At(fold, w, es, j).rows[id], At(fold, w, es, i).rows[id])
  {
    hide At, Sound, Run, SavedRow;
    SoundAt(fold, w, es, i);
    ReadWaits(fold, w, es, es[i].c, j, i);
    StatementLifecycle(fold, At(fold, w, es, i), es[i], id);
  }

  lemma MoveIsTorn(fold: string -> string, w: World, es: seq<Event>, id: string, i: nat)
    requires Sound(w) && w.pending == map[] && i < |es| && ReadsHold(fold, w, es, id)
    ensures MovesByPoll(fold, At(fold, w, es, i), es[i], id)
  {
    hide At, Sound, Run, SavedRow, ReadBy;
    var now, e := At(fold, w, es, i), es[i];
    SoundAt(fold, w, es, i);
    if id in now.rows {
      StatementLifecycle(fold, now, e, id);
      if Overwrites(now, e, id) {
        var j := WaitsSince(fold, w, es, e.c, i);
        ReadWaits(fold, w, es, e.c, j, i);
        ReadIsEarlier(fold, w, es, e.c, j, i);
        assert SaveOfRead(fold, w, es, id, j, i);
      }
    }
  }

  lemma ReadIsEarlier(fold: string -> string, w: World, es: seq<Event>, c: nat, j: nat, n: nat)
    requires ReadBy(fold, w, es, c, j, n)
    ensures j < n <= |es| && es[j].Read? && es[j].c == c
  {
  }

  /** A guard: between a read of the row and its save no other statement closes, reopens or deletes the row. */
  ghost predicate Undisturbed(fold: string -> string, w: World, es: seq<Event>, id: string) {
    forall j: nat, k: nat, i: nat :: j < k < i < |es| && SaveOfRead(fold, w, es, id, j, i) ==>
      !Disturbs(At(fold, w, es, k), es[k], id)
  }

  predicate Disturbs(w: World, e: Event, id: string) {
    Closes(w, e, id) || Reopens(w, e, id) || Deletes(w, e, id)
  }

  /** Under the guard every save finds the close columns that it read, whatever else is saved in between. */
  lemma UndisturbedIsEnough(fold: string -> string, w: World, es: seq<Event>, id: string)
    requires Sound(w) && w.pending == map[] && Undisturbed(fold, w, es, id)
    ensures ClosedByPollsOnly(fold, w, es, id)
  {
    hide ClosedByPollsOnly, Undisturbed, Sound, SaveOfRead;
    SavesHold(fold, w, es, id, |es|);
    ClosedByPollsOnlyIff(fold, w, es, id);
  }

  lemma {:induction false} SavesHold(fold: string -> string, w: World, es: seq<Event>, id: string, n: nat)
    requires Sound(w) && w.pending == map[] && Undisturbed(fold, w, es, id) && n <= |es|
    ensures forall j: nat, i: nat :: i < n && SaveOfRead(fold, w, es, id, j, i) ==>
      SameClose(At(fold, w, es, j).rows[id], At(fold, w, es, i).rows[id])
    decreases n
  {
    hide Sound, At, Run, Disturbs, Undisturbed;
    if n == 0 {
    } else {
      SavesHold(fold, w, es, id, n - 1);
      forall j: nat | SaveOfRead(fold, w, es, id, j, n - 1)
        ensures SameClose(At(fold, w, es, j).rows[id], At(fold, w, es, n - 1).rows[id])
      {
        ReadIsEarlier(fold, w, es, es[n - 1].c, j, n - 1);
        RowSteady(fold, w, es, id, j, n - 1, n - 1);
      }
    }
  }

  /** From the read on, up to the save at `i`, the row stays and keeps its close columns. */
  lemma {:induction false} RowSteady(fold: string -> string, w: World, es: seq<Event>, id: string, j: nat, m: nat, i: nat)
    requires Sound(w) && w.pending == map[] && Undisturbed(fold, w, es, id)
    requires j < m <= i < |es| && SaveOfRead(fold, w, es, id, j, i)
    requires forall a: nat, b: nat :: b < i && SaveOfRead(fold, w, es, id, a, b) ==>
      SameClose(At(fold, w, es, a).rows[id], At(fold, w, es, b).rows[id])
    ensures id in At(fold, w, es, m).rows && SameClose(At(fold, w, es, j).rows[id], At(fold, w, es, m).rows[id])
    decreases m
  {
    hide Sound, At, Run, ReadBy, Step, Closes, Reopens, Deletes, Overwrites, SaveOfRead, Undisturbed;
    var k := m - 1;
    AtNext(fold, w, es, k);
    if k == j {
      ReadKeepsRows(fold, w, es, id, j, i);
    } else {
      RowSteady(fold, w, es, id, j, k, i);
      assert !Disturbs(At(fold, w, es, k), es[k], id) by {
        Calm(fold, w, es, id, j, k, i);
      }
      StepSteady(fold, w, es, id, k, i);
    }
  }

  lemma Calm(fold: string -> string, w: World, es: seq<Event>, id: string, j: nat, k: nat, i: nat)
    requires Undisturbed(fold, w, es, id) && j < k < i < |es| && SaveOfRead(fold, w, es, id, j, i)
    ensures !Disturbs(At(fold, w, es, k), es[k], id)
  {
  }

  lemma ReadKeepsRows(fold: string -> string, w: World, es: seq<Event>, id: string, j: nat, i: nat)
    requires j < |es| && i < |es| && SaveOfRead(fold, w, es, id, j, i)
    ensures j < |es| && Step(fold, At(fold, w, es, j), es[j]).rows == At(fold, w, es, j).rows && id in At(fold, w, es, j).rows
  {
    hide At;
  }

  lemma StepSteady(fold: string -> string, w: World, es: seq<Event>, id: string, k: nat, i: nat)
    requires Sound(w) && w.pending == map[] && k < i < |es| && id in At(fold, w, es, k).rows
    requires !Disturbs(At(fold, w, es, k), es[k], id)
    requires forall a: nat, b: nat :: b < i && SaveOfRead(fold, w, es, id, a, b) ==>
      SameClose(At(fold, w, es, a).rows[id], At(fold, w, es, b).rows[id])
    ensures var after := Step(fold, At(fold, w, es, k), es[k]).rows;
      id in after && SameClose(At(fold, w, es, k).rows[id], after[id])
  {
    hide At, Sound, Run, Saved, JobTable.Step, Closes, Reopens, Deletes, ReadBy;
    var now, e := At(fold, w, es, k), es[k];
    SoundAt(fold, w, es, k);
    StatementLifecycle(fold, now, e, id);
    if Overwrites(now, e, id) {
      var a := WaitsSince(fold, w, es, e.c, k);
      ReadWaits(fold, w, es, e.c, a, k);
      ReadIsEarlier(fold, w, es, e.c, a, k);
      assert SaveOfRead(fold, w, es, id, a, k);
    }
  }

  // What else a save puts back.

  /** First sighting, content key and creation, which no merge touches. */
  predicate SameOrigin(a: Row, b: Row) {
    b.job.id == a.job.id && b.job.firstSeen == a.job.firstSeen && b.job.companyKey == a.job.companyKey && b.createdAt == a.createdAt
  }

  /** As long as a row is not deleted its origin never moves, in every interleaving. */
  lemma {:induction false} OriginNeverMoves(fold: string -> string, w: World, es: seq<Event>, id: string, n: nat)
    requires Sound(w) && w.pending == map[] && n <= |es| && id in w.rows
    requires forall m: nat :: m <= n ==> id in At(fold, w, es, m).rows
    ensures forall m: nat :: m <= n ==> SameOrigin(w.rows[id], At(fold, w, es, m).rows[id])
    decreases n
  {
    hide At, Sound, Run, Step, SameOrigin;
    AtStart(fold, w, es);
    if n == 0 {
      SameOriginItself(w.rows[id]);
    } else {
      OriginNeverMoves(fold, w, es, id, n - 1);
      AtNext(fold, w, es, n - 1);
      StepOrigin(fold, w, es, id, n - 1);
    }
  }

  lemma AtStart(fold: string -> string, w: World, es: seq<Event>)
    ensures At(fold, w, es, 0) == w
  {
    assert es[..0] == [];
  }

  lemma SameOriginItself(a: Row)
    ensures SameOrigin(a, a)
  {
  }

  lemma StepOrigin(fold: string -> string, w: World, es: seq<Event>, id: string, k: nat)
    requires Sound(w) && w.pending == map[] && k < |es| && id in w.rows
    requires forall m: nat :: m <= k ==> id in At(fold, w, es, m).rows && SameOrigin(w.rows[id], At(fold, w, es, m).rows[id])
    requires id in Step(fold, At(fold, w, es, k), es[k]).rows
    ensures SameOrigin(w.rows[id], Step(fold, At(fold, w, es, k), es[k]).rows[id])
  {
    hide At, Sound, Run, SavedRow, JobTable.Step, ReadBy, Lifecycle;
    var now, e := At(fold, w, es, k), es[k];
    SoundAt(fold, w, es, k);
    match e
    case Read(_, _, _, _) =>
    case Save(c) =>
      if Overwrites(now, e, id) {
        var a := WaitsSince(fold, w, es, c, k);
        ReadWaits(fold, w, es, c, a, k);
        ReadIsEarlier(fold, w, es, c, a, k);
        SavedRowFacts(fold, now.pending[c]);
        SoundWaits(now, c);
      }
    case Whole(write) => JobTable.StepLifecycle(fold, now.rows, write, id);
  }

  lemma SoundWaits(w: World, c: nat)
    requires Sound(w) && c in w.pending
    ensures PendingSound(w.pending[c])
  {
  }

  /** The statement takes a company or a board sighting from the row. */
  predicate LosesSighting(fold: string -> string, w: World, e: Event, id: string) {
    var after := Step(fold, w, e).rows;
    && id in w.rows && id in after
    && ((w.rows[id].boardSeenAt.Some? && after[id].boardSeenAt.None?)
        || (w.rows[id].companyKeyRef.Some? && after[id].companyKeyRef.None?))
  }

  /** Exactly an ingest does that which read the row before it had them. */
  lemma LosesSightingIff(fold: string -> string, w: World, e: Event, id: string)
    requires Sound(w) && id in w.rows
    ensures LosesSighting(fold, w, e, id) <==>
      && Overwrites(w, e, id) && w.pending[e.c].origin.FromIngest?
      && var read := w.pending[e.c].read.value;
         (w.rows[id].boardSeenAt.Some? && read.boardSeenAt.None?) || (w.rows[id].companyKeyRef.Some? && read.companyKeyRef.None?)
  {
    hide SavedRow, JobTable.Step, Lifecycle;
    match e
    case Read(_, _, _, _) =>
    case Save(c) =>
      if c in w.pending {
        SoundWaits(w, c);
        SavedRowFacts(fold, w.pending[c]);
      }
    case Whole(write) => JobTable.StepLifecycle(fold, w.rows, write, id);
  }

  /** A row that appears is open, but for one that a save puts back after it was deleted: it is as closed as it was read. */
  lemma NewRowClosedIff(fold: string -> string, w: World, e: Event, id: string)
    requires Sound(w) && id !in w.rows && id in Step(fold, w, e).rows
    ensures Step(fold, w, e).rows[id].closedAt.Some? <==> Overwrites(w, e, id) && w.pending[e.c].read.value.closedAt.Some?
  {
    hide SavedRow, JobTable.Step, Lifecycle;
    match e
    case Read(_, _, _, _) =>
    case Save(c) =>
      if c in w.pending {
        SoundWaits(w, c);
        SavedRowFacts(fold, w.pending[c]);
      }
    case Whole(write) => NewRowsAreOpen(fold, w.rows, write, id);
  }

  /** In every interleaving a row that was open, or not there, and is closed at the end, was closed by some CloseAbsent of the run. */
  lemma SomebodyClosedIt(fold: string -> string, w: World, es: seq<Event>, id: string)
    requires Sound(w) && w.pending == map[] && (id in w.rows ==> w.rows[id].closedAt.None?)
    requires id in Run(fold, w, es).rows && Run(fold, w, es).rows[id].closedAt.Some?
    ensures exists k: nat :: k < |es| && Closes(At(fold, w, es, k), es[k], id)
  {
    hide Sound, At, Closes;
    if forall k: nat :: k < |es| ==> !Closes(At(fold, w, es, k), es[k], id) {
      StaysOpen(fold, w, es, id, |es|);
      AtEnd(fold, w, es);
    }
  }

  lemma AtEnd(fold: string -> string, w: World, es: seq<Event>)
    ensures At(fold, w, es, |es|) == Run(fold, w, es)
  {
    assert es[..|es|] == es;
  }

  predicate OpenIn(rows: Rows, id: string) {
    id in rows ==> rows[id].closedAt.None?
  }

  lemma {:induction false} StaysOpen(fold: string -> string, w: World, es: seq<Event>, id: string, n: nat)
    requires Sound(w) && w.pending == map[] && n <= |es| && OpenIn(w.rows, id)
    requires forall k: nat :: k < n ==> !Closes(At(fold, w, es, k), es[k], id)
    ensures forall m: nat :: m <= n ==> OpenIn(At(fold, w, es, m).rows, id)
    decreases n
  {
    hide At, Sound, Run, Step, OpenIn, Closes;
    AtStart(fold, w, es);
    if n == 0 {
    } else {
      StaysOpen(fold, w, es, id, n - 1);
      AtNext(fold, w, es, n - 1);
      StepOpen(fold, w, es, id, n - 1);
    }
  }

  lemma StepOpen(fold: string -> string, w: World, es: seq<Event>, id: string, k: nat)
    requires Sound(w) && w.pending == map[] && k < |es| && !Closes(At(fold, w, es, k), es[k], id)
    requires forall m: nat :: m <= k ==> OpenIn(At(fold, w, es, m).rows, id)
    ensures OpenIn(Step(fold, At(fold, w, es, k), es[k]).rows, id)
  {
    hide At, Sound, Run, Saved, JobTable.Step, ReadBy, Closes, Reopens, Deletes, Step;
    var now, e := At(fold, w, es, k), es[k];
    SoundAt(fold, w, es, k);
    if Overwrites(now, e, id) {
      var a := WaitsSince(fold, w, es, e.c, k);
      ReadWaits(fold, w, es, e.c, a, k);
      ReadIsEarlier(fold, w, es, e.c, a, k);
      assert OpenIn(At(fold, w, es, a).rows, id);
    }
    if id in Step(fold, now, e).rows {
      if id in now.rows {
        StatementLifecycle(fold, now, e, id);
        assert OpenIn(now.rows, id);
      } else {
        NewRowClosedIff(fold, now, e, id);
      }
    }
  }

  // Runs from the empty table that break the promise.

  const EMPTY: World := World(map[], map[])

  /** A poll has listed the job; an ingest reads its row, the next poll closes it, and the ingest saves. */
  function TornSave(key: string, job: Job, t: int): seq<Event> {
    [Whole(JobTable.Event(Board(key, [job]), t)), Read(0, job, FromIngest, t), Whole(JobTable.Event(Close(key, []), t)), Save(0)]
  }

  /** The row is closed by the poll and open after the save, though nobody reopened it. */
  lemma TornSaveReopens(fold: string -> string, key: string, job: Job, t: int)
    requires key != "" && job.id != "" && !Stale(job.postedAt, t)
    ensures var es := TornSave(key, job, t);
      && job.id in At(fold, EMPTY, es, 3).rows && At(fold, EMPTY, es, 3).rows[job.id].closedAt == Some(t)
      && job.id in At(fold, EMPTY, es, 4).rows && At(fold, EMPTY, es, 4).rows[job.id].closedAt == None
      && !ClosedByPollsOnly(fold, EMPTY, es, job.id)
  {
    hide At, SavedRow, BoardRow, Run;
    var es := TornSave(key, job, t);
    FirstPoll(fold, key, job, t);
    AtStart(fold, EMPTY, es);
    AtNext(fold, EMPTY, es, 0);
    AtNext(fold, EMPTY, es, 1);
    AtNext(fold, EMPTY, es, 2);
    AtNext(fold, EMPTY, es, 3);
    SavedRowFacts(fold, At(fold, EMPTY, es, 3).pending[0]);
    assert !MovesByPoll(fold, At(fold, EMPTY, es, 3), es[3], job.id);
  }

  lemma FirstPoll(fold: string -> string, key: string, job: Job, t: int)
    requires key != "" && job.id != "" && !Stale(job.postedAt, t)
    ensures JobTable.Step(fold, map[], JobTable.Event(Board(key, [job]), t)) == map[job.id := BoardRow(fold, map[], key, job, t)]
    ensures var row := BoardRow(fold, map[], key, job, t);
      && row.job.id == job.id && row.companyKeyRef == Some(key) && row.boardSeenAt == Some(t) && row.closedAt == None
      && row.job.lastSeen == t
  {
    hide Upsert, Stale;
    PollOne(fold, map[], key, job, t);
  }

  /** An ingest reads the row of an aggregator listing, a poll lists the job, and the ingest saves. */
  function SaveOverSighting(key: string, job: Job, t: int): seq<Event> {
    [Whole(JobTable.Event(Ingest(job), t)), Read(0, job, FromIngest, t), Whole(JobTable.Event(Board(key, [job]), t)), Save(0)]
  }

  /** The row loses the company and the board sighting that the poll wrote. */
  lemma TornSaveLosesSighting(fold: string -> string, key: string, job: Job, t: int)
    requires key != "" && job.id != "" && !Stale(job.postedAt, t)
    ensures var es := SaveOverSighting(key, job, t); LosesSighting(fold, At(fold, EMPTY, es, 3), es[3], job.id)
  {
    hide At, SavedRow, BoardRow, IngestRow, Run;
    var es := SaveOverSighting(key, job, t);
    FirstIngest(fold, key, job, t);
    AtStart(fold, EMPTY, es);
    AtNext(fold, EMPTY, es, 0);
    AtNext(fold, EMPTY, es, 1);
    AtNext(fold, EMPTY, es, 2);
    SavedRowFacts(fold, At(fold, EMPTY, es, 3).pending[0]);
  }

  lemma FirstIngest(fold: string -> string, key: string, job: Job, t: int)
    requires key != "" && job.id != "" && !Stale(job.postedAt, t)
    ensures var row := IngestRow(fold, map[], job, t);
      && row.job.id == job.id && row.boardSeenAt == None && row.companyKeyRef == None
      && JobTable.Step(fold, map[], JobTable.Event(Ingest(job), t)) == map[job.id := row]
      && JobTable.Step(fold, map[job.id := row], JobTable.Event(Board(key, [job]), t))
           == map[job.id := BoardRow(fold, map[job.id := row], key, job, t)]
      && BoardRow(fold, map[job.id := row], key, job, t).boardSeenAt == Some(t)
  {
    hide Stored, NewJob, MergeBoardJob, MergeJob, Stale, Upsert;
    var row := IngestRow(fold, map[], job, t);
    NewKeeps(fold, job, t);
    PollOne(fold, map[job.id := row], key, job, t);
    assert map[job.id := row][job.id := BoardRow(fold, map[job.id := row], key, job, t)]
      == map[job.id := BoardRow(fold, map[job.id := row], key, job, t)];
  }

  lemma PollOne(fold: string -> string, rows: Rows, key: string, job: Job, t: int)
    requires key != "" && job.id != "" && !Stale(job.postedAt, t)
    ensures JobTable.Step(fold, rows, JobTable.Event(Board(key, [job]), t)) == rows[job.id := BoardRow(fold, rows, key, job, t)]
  {
    hide BoardRow, Stale;
    assert [job][..0] == [];
    assert Upsert(fold, rows, key, [], t) == Upserted(rows, None);
  }

  /** An ingest reads the closed row, retention deletes it, and the ingest saves. */
  function SaveAfterRetention(key: string, job: Job, t: int): seq<Event> {
    [Whole(JobTable.Event(Board(key, [job]), t)), Whole(JobTable.Event(Close(key, []), t)), Read(0, job, FromIngest, t),
     Whole(JobTable.Event(Retain(t + 1), t)), Save(0)]
  }

  /** The row is back, closed, though new rows are open. */
  lemma SaveUndoesRetention(fold: string -> string, key: string, job: Job, t: int)
    requires key != "" && job.id != "" && !Stale(job.postedAt, t)
    ensures var es := SaveAfterRetention(key, job, t);
      && job.id !in At(fold, EMPTY, es, 4).rows
      && job.id in At(fold, EMPTY, es, 5).rows && At(fold, EMPTY, es, 5).rows[job.id].closedAt == Some(t)
  {
    hide At, SavedRow, BoardRow, Run;
    var es := SaveAfterRetention(key, job, t);
    FirstPoll(fold, key, job, t);
    AtStart(fold, EMPTY, es);
    AtNext(fold, EMPTY, es, 0);
    AtNext(fold, EMPTY, es, 1);
    AtNext(fold, EMPTY, es, 2);
    AtNext(fold, EMPTY, es, 3);
    AtNext(fold, EMPTY, es, 4);
    SavedRowFacts(fold, At(fold, EMPTY, es, 4).pending[0]);
  }
}
