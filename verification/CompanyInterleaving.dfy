/**
 The statements of the companies table, interleaved. A poll, a failure, a resolve
 attempt, a sighting and a seed row each read a row, and write later what they
 computed from it: the poll columns, the resolution columns, or the whole row.
 Any number of them run at once.
 */
module CompanyInterleaving {
  import opened Prelude
  import opened PollOutcomes
  import opened CompanyTable
  import opened CompanyIdentity
  import opened SeedImport
  import opened CompanyLife

  /** The three statements that write a company: MarkPolled, MarkResolution and Upsert. */
  datatype Statement =
    | Mark(at: int, etag: string, failCount: int, emptyStreak: int, pollState: PollState)
    | Commit(status: Resolution, resolvedBy: Method, ats: ATS, slug: string, boardURL: string, next: Option<int>)
    | Put(row: Company)

  /** A caller between its read and its last write. */
  datatype Caller = Caller(key: string, read: Company, act: Act, todo: seq<Statement>)

  datatype World = World(rows: Companies, callers: map<nat, Caller>)

  datatype Event =
    /** Caller `c` reads the row of `key`, and is going to do `act` to it. */
    | Read(c: nat, key: string, act: Act)
    /** Caller `c` has found no row, and is going to create one. */
    | Missed(c: nat, born: Company)
    /** Caller `c` runs its next statement. */
    | Write(c: nat)

  /** MarkPolled with the poll columns of `d`. */
  function Marking(d: Company): Statement {
    Mark(if d.lastPolledAt.Some? then d.lastPolledAt.value else 0, d.etag, d.failCount, d.emptyStreak, d.pollState)
  }

  /** MarkResolution with the resolution columns of `d`. */
  function Committing(d: Company): Statement {
    Commit(d.status, d.resolvedBy, d.ats, d.slug, d.boardURL, d.nextResolveAt)
  }

  /** What a caller that has read row `c` is going to write. */
  function StatementsOf(c: Company, a: Act): seq<Statement> {
    match a
    case Answer(outcome, etag, now) =>
      if !CanPoll(c) then []
      else if outcome.DeadSlug? && c.failCount + 1 >= DEAD_STREAK_TO_PENDING then
        [Marking(Apply(c, a)), Committing(Apply(c, a))]
      else [Marking(Apply(c, a))]
    case Transport(_) => [Marking(Apply(c, a))]
    case Resolution(_, _) => if c.status == Pending then [Committing(Apply(c, a))] else []
    case Sight(_, _, _, _, _) => [Put(Apply(c, a))]
    case Import(_, _, _, _, _) => [Put(Apply(c, a))]
    case Overwrite(born) => [Put(born)]
    case Idle => []
  }

  function Execute(rows: Companies, key: string, st: Statement): Companies {
    match st
    case Mark(at, etag, failCount, emptyStreak, pollState) =>
      if key in rows then rows[key := Polled(rows[key], at, etag, failCount, emptyStreak, pollState)] else rows
    case Commit(status, resolvedBy, ats, slug, boardURL, next) =>
      if key in rows then rows[key := Committed(rows[key], status, resolvedBy, ats, slug, boardURL, next)] else rows
    case Put(row) => Upserted(rows, row)
  }

  function Step(w: World, e: Event): World {
    match e
    case Read(c, key, act) =>
      if c in w.callers || key !in w.rows then w
      else w.(callers := w.callers[c := Caller(key, w.rows[key], act, StatementsOf(w.rows[key], act))])
    case Missed(c, born) =>
      if c in w.callers then w else w.(callers := w.callers[c := Caller(born.key, born, Overwrite(born), [Put(born)])])
    case Write(c) =>
      if c !in w.callers || w.callers[c].todo == [] then w
      else
        var p := w.callers[c];
        World(Execute(w.rows, p.key, p.todo[0]), w.callers[c := p.(todo := p.todo[1..])])
  }

  function Run(w: World, es: seq<Event>): World {
    if es == [] then w else Step(Run(w, es[..|es| - 1]), es[|es| - 1])
  }

  // A caller that nothing interrupts.

  /** Its statements, one after the other, do to the row what the act does. */
  function ExecuteAll(rows: Companies, key: string, sts: seq<Statement>): Companies
    decreases |sts|
  {
    if sts == [] then rows else ExecuteAll(Execute(rows, key, sts[0]), key, sts[1..])
  }

  lemma ExecuteFew(rows: Companies, key: string, sts: seq<Statement>)
    ensures |sts| == 0 ==> ExecuteAll(rows, key, sts) == rows
    ensures |sts| == 1 ==> ExecuteAll(rows, key, sts) == Execute(rows, key, sts[0])
    ensures |sts| == 2 ==> ExecuteAll(rows, key, sts) == Execute(Execute(rows, key, sts[0]), key, sts[1])
  {
    hide Execute;
    if |sts| == 2 {
      assert sts[1..][1..] == [];
      assert ExecuteAll(Execute(rows, key, sts[0]), key, sts[1..]) == Execute(Execute(rows, key, sts[0]), key, sts[1]);
    }
  }

  lemma StatementsAreTheAct(rows: Companies, key: string, a: Act)
    requires CompanyTable.Valid(rows) && key in rows && (a.Overwrite? ==> a.born.key == key)
    ensures ExecuteAll(rows, key, StatementsOf(rows[key], a)) == rows[key := Apply(rows[key], a)]
  {
    hide ExecuteAll, Apply;
    var c := rows[key];
    ExecuteFew(rows, key, StatementsOf(c, a));
    ApplyKeepsKey(c, a);
    assert rows[key := c] == rows;
    ActColumns(c, a);
    if (a.Answer? && CanPoll(c)) || a.Transport? {
      PollColumns(c, a);
    }
  }

  /** Each act changes the columns that its statements write, and nothing else. */
  lemma ActColumns(c: Company, a: Act)
    ensures (a.Answer? && !CanPoll(c)) || a.Idle? || (a.Resolution? && c.status != Pending) ==> Apply(c, a) == c
    ensures a.Resolution? && c.status == Pending ==>
      Apply(c, a) == Committed(c, Apply(c, a).status, Apply(c, a).resolvedBy, Apply(c, a).ats, Apply(c, a).slug,
                               Apply(c, a).boardURL, Apply(c, a).nextResolveAt)
    ensures a.Overwrite? ==> Apply(c, a) == a.born.(firstSeen := c.firstSeen)
  {
    hide WithSighting, Seeded;
  }

  lemma PollColumns(c: Company, a: Act)
    requires (a.Answer? && CanPoll(c)) || a.Transport?
    ensures var d := Apply(c, a);
      && d.lastPolledAt.Some?
      && var polled := Polled(c, d.lastPolledAt.value, d.etag, d.failCount, d.emptyStreak, d.pollState);
         if a.Answer? && a.outcome.DeadSlug? && c.failCount + 1 >= DEAD_STREAK_TO_PENDING
         then d == Committed(polled, d.status, d.resolvedBy, d.ats, d.slug, d.boardURL, d.nextResolveAt)
         else d == polled
  {
  }

  // What every interleaving keeps.

  ghost predicate StatementSound(key: string, st: Statement) {
    match st
    case Mark(_, _, failCount, emptyStreak, pollState) =>
      failCount >= 0 && emptyStreak >= 0 && (pollState == Active ==> emptyStreak < EMPTY_STREAK_TO_INACTIVE)
    case Commit(status, _, ats, slug, _, _) => status == Resolved ==> Pollable(ats) && slug != ""
    case Put(row) => Sound(row) && row.key == key != ""
  }

  /** What is left to do is the rest of what the act of the row that was read needs. */
  predicate OnItsWay(p: Caller) {
    var all := StatementsOf(p.read, p.act);
    p.read.key == p.key && |p.todo| <= |all| && p.todo == all[|all| - |p.todo|..]
  }

  ghost predicate CallerSound(p: Caller) {
    && OnItsWay(p)
    && forall i :: 0 <= i < |p.todo| ==> StatementSound(p.key, p.todo[i])
  }

  ghost predicate WorldSound(w: World) {
    TableSound(w.rows) && forall c :: c in w.callers ==> CallerSound(w.callers[c])
  }

  /** What is read is an act of the service: a board found has a slug, and a new row is sound and has its key. */
  ghost predicate EventSound(e: Event) {
    match e
    case Read(_, key, act) => SoundAct(act) && (act.Overwrite? ==> act.born.key == key)
    case Missed(_, born) => Sound(born) && born.key != ""
    case Write(_) => true
  }

  lemma StatementsSound(c: Company, a: Act, key: string)
    requires Sound(c) && c.key == key != "" && SoundAct(a) && (a.Overwrite? ==> a.born.key == key)
    ensures forall i :: 0 <= i < |StatementsOf(c, a)| ==> StatementSound(key, StatementsOf(c, a)[i])
  {
    hide Apply, NoRepeats;
    ApplySound(c, a);
    ApplyKeepsKey(c, a);
  }

  lemma ExecuteSound(rows: Companies, key: string, st: Statement)
    requires TableSound(rows) && StatementSound(key, st)
    ensures TableSound(Execute(rows, key, st))
    ensures forall k :: k in rows ==> k in Execute(rows, key, st) && Execute(rows, key, st)[k].firstSeen == rows[k].firstSeen
  {
    hide NoRepeats;
  }

  lemma StepSound(w: World, e: Event)
    requires WorldSound(w) && EventSound(e)
    ensures WorldSound(Step(w, e))
    ensures forall k :: k in w.rows ==> k in Step(w, e).rows && Step(w, e).rows[k].firstSeen == w.rows[k].firstSeen
  {
    hide Sound, StatementSound, StatementsOf, Execute;
    match e
    case Read(c, key, act) =>
      if key in w.rows {
        StatementsSound(w.rows[key], act, key);
      }
    case Missed(c, born) => BornStatement(born);
    case Write(c) =>
      if c in w.callers && w.callers[c].todo != [] {
        assert CallerSound(w.callers[c]);
        ExecuteSound(w.rows, w.callers[c].key, w.callers[c].todo[0]);
      }
  }

  lemma BornStatement(born: Company)
    requires Sound(born) && born.key != ""
    ensures CallerSound(Caller(born.key, born, Overwrite(born), [Put(born)]))
  {
    hide Sound, Apply, CanPoll, OnItsWay;
    BornOnItsWay(born);
  }

  lemma BornOnItsWay(born: Company)
    ensures OnItsWay(Caller(born.key, born, Overwrite(born), [Put(born)]))
  {
    hide Apply, CanPoll;
    assert StatementsOf(born, Overwrite(born)) == [Put(born)];
    assert [Put(born)][0..] == [Put(born)];
  }

  /**
   Over every interleaving of the statements of polls, failures, resolve attempts,
   sightings and seed rows: ACTIVE means a streak below five, RESOLVED means a
   pollable board with a slug, no alias is listed twice, keys and first sightings
   never change, and no row goes. Lost updates break none of these.
   */
  lemma {:induction false} RunSound(w: World, es: seq<Event>)
    requires WorldSound(w) && forall i :: 0 <= i < |es| ==> EventSound(es[i])
    ensures WorldSound(Run(w, es))
    ensures forall k :: k in w.rows ==> k in Run(w, es).rows && Run(w, es).rows[k].firstSeen == w.rows[k].firstSeen
    decreases |es|
  {
    hide WorldSound, EventSound, Step;
    if es == [] {
    } else {
      RunSound(w, es[..|es| - 1]);
      StepSound(Run(w, es[..|es| - 1]), es[|es| - 1]);
    }
  }

  // What a merge puts back.

  /** The event is the write of a sighting or of a seed row over the row of `k`. */
  predicate Merges(w: World, e: Event, k: string) {
    && e.Write? && e.c in w.callers && w.callers[e.c].key == k && k in w.rows && w.callers[e.c].todo != []
    && (w.callers[e.c].act.Sight? || w.callers[e.c].act.Import?)
  }

  lemma MergeIsWhole(w: World, e: Event, k: string)
    requires WorldSound(w) && Merges(w, e, k)
    ensures var p := w.callers[e.c]; p.read.key == k && p.todo == [Put(Apply(p.read, p.act))]
  {
    hide Apply, Sound, StatementSound;
    assert CallerSound(w.callers[e.c]);
  }

  /** The poll columns but for a wake, which clears the streak of an INACTIVE row. */
  predicate SamePolls(a: Company, b: Company) {
    a.failCount == b.failCount && a.lastPolledAt == b.lastPolledAt && a.etag == b.etag
  }

  /** The exact condition: a merge leaves the failures and the poll time alone if and only if no poll wrote since it read. */
  lemma MergeKeepsPollsIff(w: World, e: Event, k: string)
    requires WorldSound(w) && Merges(w, e, k)
    ensures k in Step(w, e).rows
    ensures SamePolls(w.rows[k], Step(w, e).rows[k]) <==> SamePolls(w.rows[k], w.callers[e.c].read)
  {
    hide AppendAlias, WorldSound;
    MergeIsWhole(w, e, k);
    var p := w.callers[e.c];
    ApplyKeepsKey(p.read, p.act);
    if p.act.Import? {
      SeedPolls(WithSighting(p.read, p.act.name, SeedSighting(p.act.row), p.act.otherForm, p.act.needsReview, p.act.now), p.act.row);
    }
  }

  lemma SeedPolls(c: Company, row: SeedRow)
    ensures SamePolls(c, Seeded(c, row))
  {
  }

  /** And a sighting leaves the resolution alone if and only if it is as the sighting read it. */
  lemma SightingKeepsStatusIff(w: World, e: Event, k: string)
    requires WorldSound(w) && Merges(w, e, k) && w.callers[e.c].act.Sight?
    ensures k in Step(w, e).rows
    ensures SameBoard(w.rows[k], Step(w, e).rows[k]) <==> SameBoard(w.rows[k], w.callers[e.c].read)
  {
    hide AppendAlias, WorldSound;
    MergeIsWhole(w, e, k);
    ApplyKeepsKey(w.callers[e.c].read, w.callers[e.c].act);
  }

  predicate SameBoard(a: Company, b: Company) {
    a.status == b.status && a.ats == b.ats && a.slug == b.slug && a.nextResolveAt == b.nextResolveAt
  }

  /** A sighting reads a PENDING company, a resolve attempt finds nothing and makes it UNRESOLVED, and the sighting writes. */
  function LateSighting(key: string, sight: Act, retryAt: int): seq<Event> {
    [Read(0, key, sight), Read(1, key, Resolution(None, retryAt)), Write(1), Write(0)]
  }

  /** The company is PENDING again, though neither a seed row nor a rewrite reached it. */
  lemma LateSightingRevives(c: Company, sight: Act, retryAt: int)
    requires c.key != "" && c.status == Pending && sight.Sight?
    ensures var w, es := World(map[c.key := c], map[]), LateSighting(c.key, sight, retryAt);
      && c.key in Run(w, es[..3]).rows && Run(w, es[..3]).rows[c.key].status == Unresolved
      && c.key in Run(w, es).rows && Run(w, es).rows[c.key].status == Pending
  {
    hide Apply, Run;
    SightColumns(c, sight);
    ResolvesToNothing(c, retryAt);
    FourSteps(World(map[c.key := c], map[]), LateSighting(c.key, sight, retryAt));
    ApplyKeepsKey(c, sight);
  }

  lemma SightColumns(c: Company, a: Act)
    requires a.Sight?
    ensures Apply(c, a).failCount == c.failCount && Apply(c, a).status == c.status
  {
  }

  lemma ResolvesToNothing(c: Company, retryAt: int)
    requires c.status == Pending
    ensures Apply(c, Resolution(None, retryAt)).status == Unresolved
  {
  }

  lemma FailureCounts(c: Company, now: int)
    ensures Apply(c, Transport(now)).failCount == c.failCount + 1
  {
  }

  lemma FourSteps(w: World, es: seq<Event>)
    requires |es| == 4
    ensures Run(w, es[..3]) == Step(Step(Step(w, es[0]), es[1]), es[2]) && Run(w, es) == Step(Run(w, es[..3]), es[3])
  {
    hide Step;
    assert es[..3][..2] == es[..2] && es[..2][..1] == es[..1] && es[..1][..0] == [];
    assert Run(w, []) == w;
    assert Run(w, es[..1]) == Step(w, es[0]);
    assert Run(w, es[..2]) == Step(Run(w, es[..1]), es[1]);
  }

  /** A sighting reads a company, a transport failure is counted, and the sighting writes. */
  function LateSightingOverFailure(key: string, sight: Act, now: int): seq<Event> {
    [Read(0, key, sight), Read(1, key, Transport(now)), Write(1), Write(0)]
  }

  /** The failure is lost: the count is what it was before. */
  lemma LateSightingLosesFailure(c: Company, sight: Act, now: int)
    requires c.key != "" && sight.Sight?
    ensures var w, es := World(map[c.key := c], map[]), LateSightingOverFailure(c.key, sight, now);
      && c.key in Run(w, es[..3]).rows && Run(w, es[..3]).rows[c.key].failCount == c.failCount + 1
      && c.key in Run(w, es).rows && Run(w, es).rows[c.key].failCount == c.failCount
  {
    hide Apply, Run;
    SightColumns(c, sight);
    FailureCounts(c, now);
    FourSteps(World(map[c.key := c], map[]), LateSightingOverFailure(c.key, sight, now));
    ApplyKeepsKey(c, sight);
  }
}
