/**
 The matches of all profiles over a history: runs start and are scored, job rows
 are written and deleted, verdicts are stored, jobs are rescored, and users set
 statuses, in any order. A score pass and a rescore read first, all at once, and
 then write one match after the other; anything may happen in between.
 */
module ScoreHistory {
  import opened Prelude
  import opened FactSignals
  import opened JobMerge
  import opened JobTable
  import opened Scoring

  /** What a pass is going to write on a match. */
  datatype Due = Due(outcome: Outcome, runID: nat)

  /** A score pass, or a rescore, with the matches it has still to write. */
  datatype Pass = Pass(scoring: bool, todo: map<MatchKey, Due>)

  datatype World = World(store: Store, matches: Matches, passes: map<nat, Pass>)

  datatype Event =
    /** A run row is written with its start. */
    | Started(runID: nat, at: int)
    /** Pass `p` reads the jobs, the run and the verdicts of a score. */
    | ScoreRead(p: nat, profile: string, runID: nat)
    /** Pass `p` lists the matches of some jobs with their runs, and reads jobs and verdicts. */
    | RescoreRead(p: nat, ids: seq<string>)
    /** Pass `p` upserts match `k`. */
    | Written(p: nat, k: MatchKey)
    /** A job row is written; `ready` is the verdict stored for its text, if there is one. */
    | Saved(id: string, row: Row, ready: Option<Facts>)
    /** A job row is deleted, and its matches and verdicts with it. */
    | Deleted(id: string)
    /** Verdicts are stored. One that is there already stays. */
    | Stored(news: map<string, Facts>)
    | StatusSet(key: MatchKey, status: UserStatus)

  /** Every match belongs to a known profile, a stored job and a started run, and so does what a pass is going to write. */
  ghost predicate Linked(w: World) {
    && StoreValid(w.store)
    && (forall k :: k in w.matches ==>
          k.profile in w.store.profiles && k.job in w.store.rows && w.matches[k].runID in w.store.starts)
    && forall p, k :: p in w.passes && k in w.passes[p].todo ==>
         k.profile in w.store.profiles && w.passes[p].todo[k].runID in w.store.starts
  }

  function StatusIn(matches: Matches, k: MatchKey): UserStatus {
    if k in matches then matches[k].userStatus else New
  }

  function ScoreTodo(s: Store, profile: string, runID: nat): (todo: map<MatchKey, Due>)
    requires profile in s.profiles && runID in s.starts
    ensures forall k :: k in todo ==> k.profile == profile && todo[k].runID == runID
  {
    var hit := set id | id in s.rows && Eligible(s.rows[id], s.starts[runID]) :: MatchKey(profile, id);
    map k | k in hit :: Due(Worth(s, k, runID), runID)
  }

  function RescoreTodo(s: Store, matches: Matches, ids: seq<string>): map<MatchKey, Due>
    requires forall k :: k in matches ==> k.profile in s.profiles && k.job in s.rows && matches[k].runID in s.starts
  {
    map k | k in matches && k.job in ids :: Due(Worth(s, k, matches[k].runID), matches[k].runID)
  }

  function SavedStore(s: Store, id: string, row: Row, ready: Option<Facts>): Store {
    s.(rows := s.rows[id := row], verdicts := if ready.Some? then s.verdicts[id := ready.value] else s.verdicts - {id})
  }

  function AfterDelete(w: World, id: string): (after: World)
    requires Linked(w)
    ensures Linked(after)
  {
    World(w.store.(rows := w.store.rows - {id}, verdicts := w.store.verdicts - {id}),
          map k | k in w.matches && k.job != id :: w.matches[k], w.passes)
  }

  function AfterRow(w: World, id: string, row: Row, ready: Option<Facts>): (after: World)
    requires Linked(w)
    ensures Linked(after)
  {
    if id == "" || row.job.id != id then w else w.(store := SavedStore(w.store, id, row, ready))
  }

  function AfterStored(w: World, news: map<string, Facts>): (after: World)
    requires Linked(w)
    ensures Linked(after)
  {
    w.(store := w.store.(verdicts := (map id | id in news && id in w.store.rows :: news[id]) + w.store.verdicts))
  }

  function AfterStatus(w: World, k: MatchKey, status: UserStatus): (after: World)
    requires Linked(w)
    ensures Linked(after)
  {
    if k in w.matches then w.(matches := w.matches[k := w.matches[k].(userStatus := status)]) else w
  }

  function AfterStart(w: World, runID: nat, at: int): (after: World)
    requires Linked(w)
    ensures Linked(after)
  {
    if runID in w.store.starts then w else w.(store := w.store.(starts := w.store.starts[runID := at]))
  }

  /** The pass has the match still to write, and its job is still stored. */
  predicate Writes(w: World, e: Event, k: MatchKey) {
    e.Written? && e.k == k && e.p in w.passes && k in w.passes[e.p].todo && k.job in w.store.rows
  }

  function AfterWrite(w: World, p: nat, k: MatchKey): (after: World)
    requires Linked(w) && Writes(w, Written(p, k), k)
    ensures Linked(after)
  {
    var due := w.passes[p].todo[k];
    World(w.store, w.matches[k := Match(due.outcome, due.runID, StatusIn(w.matches, k))],
          w.passes[p := w.passes[p].(todo := w.passes[p].todo - {k})])
  }

  /** The event is the read of a new pass that can do its work. */
  predicate Reads(w: World, e: Event) {
    || (e.ScoreRead? && e.p !in w.passes && e.profile in w.store.profiles && e.runID in w.store.starts)
    || (e.RescoreRead? && e.p !in w.passes)
  }

  function PassOf(w: World, e: Event): (r: Pass)
    requires Linked(w) && Reads(w, e)
    ensures forall k :: k in r.todo ==> k.profile in w.store.profiles && r.todo[k].runID in w.store.starts
  {
    hide Evaluate, Eligible, Worth;
    if e.ScoreRead? then Pass(true, ScoreTodo(w.store, e.profile, e.runID)) else Pass(false, RescoreTodo(w.store, w.matches, e.ids))
  }

  function AfterRead(w: World, e: Event): (after: World)
    requires Linked(w) && Reads(w, e)
    ensures Linked(after)
  {
    hide PassOf;
    w.(passes := w.passes[e.p := PassOf(w, e)])
  }

  /** A refused call leaves everything as it was. */
  function Step(w: World, e: Event): (after: World)
    requires Linked(w)
    ensures Linked(after)
  {
    hide Linked;
    match e
    case Started(runID, at) => AfterStart(w, runID, at)
    case ScoreRead(_, _, _) => if Reads(w, e) then AfterRead(w, e) else w
    case RescoreRead(_, _) => if Reads(w, e) then AfterRead(w, e) else w
    case Written(p, k) => if Writes(w, e, k) then AfterWrite(w, p, k) else w
    case Saved(id, row, ready) => AfterRow(w, id, row, ready)
    case Deleted(id) => AfterDelete(w, id)
    case Stored(news) => AfterStored(w, news)
    case StatusSet(key, status) => AfterStatus(w, key, status)
  }

  function Run(w: World, es: seq<Event>): (after: World)
    requires Linked(w)
    ensures Linked(after)
  {
    if es == [] then w else Step(Run(w, es[..|es| - 1]), es[|es| - 1])
  }

  /** The world before event `i`. */
  function At(w: World, es: seq<Event>, i: nat): (r: World)
    requires Linked(w) && i <= |es|
    ensures Linked(r)
  {
    Run(w, es[..i])
  }

  lemma AtStart(w: World, es: seq<Event>)
    requires Linked(w)
    ensures At(w, es, 0) == w && At(w, es, |es|) == Run(w, es)
  {
    assert es[..0] == [] && es[..|es|] == es;
  }

  lemma AtNext(w: World, es: seq<Event>, i: nat)
    requires Linked(w) && i < |es|
    ensures At(w, es, i + 1) == Step(At(w, es, i), es[i])
  {
    assert es[..i + 1][..i] == es[..i];
  }

  // A pass that nothing interrupts.

  function ScoredMatches(s: Store, matches: Matches, profile: string, runID: nat): Matches
    requires profile in s.profiles && runID in s.starts
  {
    var todo := ScoreTodo(s, profile, runID);
    map k | k in matches.Keys + todo.Keys ::
      if k in todo then Match(todo[k].outcome, todo[k].runID, StatusIn(matches, k)) else matches[k]
  }

  function RescoredMatches(s: Store, matches: Matches, ids: seq<string>): Matches
    requires forall k :: k in matches ==> k.profile in s.profiles && k.job in s.rows && matches[k].runID in s.starts
  {
    map k | k in matches :: if k.job in ids then matches[k].(outcome := Worth(s, k, matches[k].runID)) else matches[k]
  }

  lemma TodoIsScored(s: Store, profile: string, runID: nat, k: MatchKey)
    requires profile in s.profiles && runID in s.starts
    ensures k in ScoreTodo(s, profile, runID) <==> Scores(s, k, profile, runID)
  {
    hide Evaluate, Eligible, Worth;
    if Scores(s, k, profile, runID) {
      assert k == MatchKey(profile, k.job);
    }
  }

  /** The score method of the service has this effect. */
  lemma ScoreIsStep(s: Store, m0: Matches, m1: Matches, profile: string, runID: nat)
    requires profile in s.profiles && runID in s.starts && IsScored(s, m0, m1, profile, runID)
    ensures m1 == ScoredMatches(s, m0, profile, runID)
  {
    hide Evaluate, Eligible, Worth, Scores;
    var t := ScoredMatches(s, m0, profile, runID);
    forall k ensures k in m1 <==> k in t {
      TodoIsScored(s, profile, runID, k);
    }
    forall k | k in m1 ensures m1[k] == t[k] {
      TodoIsScored(s, profile, runID, k);
    }
  }

  /** And the rescore method this one. */
  lemma RescoreIsStep(w: World, m1: Matches, ids: seq<string>)
    requires Linked(w) && IsRescored(w.store, w.matches, m1, ids)
    ensures m1 == RescoredMatches(w.store, w.matches, ids)
  {
    hide Evaluate, Eligible, Worth;
  }

  function Writing(p: nat, ks: seq<MatchKey>): seq<Event> {
    seq(|ks|, i requires 0 <= i < |ks| => Written(p, ks[i]))
  }

  predicate Distinct(ks: seq<MatchKey>) {
    forall i, j :: 0 <= i < j < |ks| ==> ks[i] != ks[j]
  }

  /** The writes of some of a pass's matches, in any order, with nothing in between. */
  lemma {:induction false} WritesTogether(w: World, p: nat, ks: seq<MatchKey>)
    requires Linked(w) && p in w.passes && Distinct(ks)
    requires forall k :: k in ks ==> k in w.passes[p].todo && k.job in w.store.rows
    ensures var after := Run(w, Writing(p, ks));
      && after.store == w.store && p in after.passes
      && (forall k :: k in after.matches <==> k in w.matches || k in ks)
      && (forall k :: k in after.matches && k !in ks ==> after.matches[k] == w.matches[k])
      && (forall k :: k in ks ==>
            k in after.matches && after.matches[k] ==
            Match(w.passes[p].todo[k].outcome, w.passes[p].todo[k].runID, StatusIn(w.matches, k)))
      && (forall k :: k in after.passes[p].todo <==> k in w.passes[p].todo && k !in ks)
      && (forall k :: k in after.passes[p].todo ==> after.passes[p].todo[k] == w.passes[p].todo[k])
    decreases |ks|
  {
    hide Linked, Step;
    if ks == [] {
      assert Writing(p, ks) == [];
    } else {
      var n := |ks| - 1;
      assert ks == ks[..n] + [ks[n]];
      assert ks[n] !in ks[..n];
      WritesTogether(w, p, ks[..n]);
      assert Writing(p, ks)[..n] == Writing(p, ks[..n]);
      OneWrite(Run(w, Writing(p, ks[..n])), p, ks[n]);
    }
  }

  lemma OneWrite(w: World, p: nat, k: MatchKey)
    requires Linked(w) && Writes(w, Written(p, k), k)
    ensures var after, due := Step(w, Written(p, k)), w.passes[p].todo[k];
      && after.store == w.store && after.passes == w.passes[p := Pass(w.passes[p].scoring, w.passes[p].todo - {k})]
      && after.matches == w.matches[k := Match(due.outcome, due.runID, StatusIn(w.matches, k))]
  {
    hide Linked;
  }

  /** A score pass that nothing interrupts leaves the matches of the score method. */
  lemma ScoreIsItsStatements(w: World, p: nat, profile: string, runID: nat, ks: seq<MatchKey>)
    requires Linked(w) && Reads(w, ScoreRead(p, profile, runID)) && Distinct(ks)
    requires forall k :: k in ks <==> Scores(w.store, k, profile, runID)
    ensures Run(Step(w, ScoreRead(p, profile, runID)), Writing(p, ks)).matches == ScoredMatches(w.store, w.matches, profile, runID)
  {
    hide Linked, Evaluate, Worth, Eligible, ScoreTodo, Run;
    forall k ensures k in ScoreTodo(w.store, profile, runID) <==> k in ks {
      TodoIsScored(w.store, profile, runID, k);
    }
    WritesTogether(Step(w, ScoreRead(p, profile, runID)), p, ks);
  }

  /** And so does a rescore. */
  lemma RescoreIsItsStatements(w: World, p: nat, ids: seq<string>, ks: seq<MatchKey>)
    requires Linked(w) && p !in w.passes && Distinct(ks)
    requires forall k :: k in ks <==> k in w.matches && k.job in ids
    ensures Run(Step(w, RescoreRead(p, ids)), Writing(p, ks)).matches == RescoredMatches(w.store, w.matches, ids)
  {
    hide Evaluate, Worth, Eligible, Run, Writing;
    var read := Step(w, RescoreRead(p, ids));
    var after := Run(read, Writing(p, ks));
    WritesTogether(read, p, ks);
    hide Linked;
    forall k | k in after.matches ensures after.matches[k] == RescoredMatches(w.store, w.matches, ids)[k] {
    }
  }

  // What a write goes back to.

  /** Event `j` is the read of pass `p`. */
  ghost predicate ReadOf(w: World, es: seq<Event>, p: nat, j: nat)
    requires Linked(w)
  {
    j < |es| && Reads(At(w, es, j), es[j]) && es[j].p == p
  }

  /** Whatever a pass has still to write it read, at one point of the history. */
  lemma {:induction false} PassWasRead(w: World, es: seq<Event>, p: nat, n: nat) returns (j: nat)
    requires Linked(w) && w.passes == map[] && n <= |es| && p in At(w, es, n).passes
    ensures j < n && ReadOf(w, es, p, j)
    ensures var pass, read := At(w, es, n).passes[p], PassOf(At(w, es, j), es[j]);
      pass.scoring == read.scoring && forall k :: k in pass.todo ==> k in read.todo && pass.todo[k] == read.todo[k]
    decreases n
  {
    hide Linked, Run, At, PassOf;
    AtStart(w, es);
    AtNext(w, es, n - 1);
    if p in At(w, es, n - 1).passes {
      j := PassWasRead(w, es, p, n - 1);
    } else {
      j := n - 1;
    }
  }

  /** A pass reads once. */
  lemma {:induction false} PassStays(w: World, es: seq<Event>, p: nat, j: nat, n: nat)
    requires Linked(w) && ReadOf(w, es, p, j) && j < n <= |es|
    ensures p in At(w, es, n).passes
    decreases n
  {
    hide Linked, Run, At, PassOf;
    AtNext(w, es, n - 1);
    if n - 1 == j {
    } else {
      PassStays(w, es, p, j, n - 1);
    }
  }

  lemma ReadOnce(w: World, es: seq<Event>, p: nat, j: nat, k: nat)
    requires Linked(w) && ReadOf(w, es, p, j) && ReadOf(w, es, p, k)
    ensures j == k
  {
    hide At, Linked;
    if j < k {
      PassStays(w, es, p, j, k);
    } else if k < j {
      PassStays(w, es, p, k, j);
    }
  }

  /** Event `i` writes match `k`, and event `j` is the read of its pass. */
  ghost predicate WriteOfRead(w: World, es: seq<Event>, k: MatchKey, j: nat, i: nat)
    requires Linked(w)
  {
    j < i < |es| && Writes(At(w, es, i), es[i], k) && ReadOf(w, es, es[i].p, j)
  }

  /** The match has the outcome it was worth when event `e` read it, and the run that the pass took it for. */
  ghost predicate ValuedAt(read: World, e: Event, k: MatchKey, m: Match)
    requires Linked(read)
  {
    && k.profile in read.store.profiles && k.job in read.store.rows && m.runID in read.store.starts
    && m.outcome == Worth(read.store, k, m.runID)
    && (e.ScoreRead? ==> m.runID == e.runID && k.profile == e.profile)
    && (e.RescoreRead? ==> k in read.matches && m.runID == read.matches[k].runID)
  }

  lemma TodoIsValued(read: World, e: Event, k: MatchKey, status: UserStatus)
    requires Linked(read) && Reads(read, e) && k in PassOf(read, e).todo
    ensures var due := PassOf(read, e).todo[k]; ValuedAt(read, e, k, Match(due.outcome, due.runID, status))
  {
    hide Evaluate, Eligible;
  }

  lemma WriteIsValued(w: World, es: seq<Event>, k: MatchKey, i: nat) returns (j: nat)
    requires Linked(w) && w.passes == map[] && i < |es| && Writes(At(w, es, i), es[i], k)
    ensures WriteOfRead(w, es, k, j, i)
    ensures k in At(w, es, i + 1).matches && ValuedAt(At(w, es, j), es[j], k, At(w, es, i + 1).matches[k])
  {
    hide Linked, At, PassOf, ValuedAt;
    j := PassWasRead(w, es, es[i].p, i);
    AtNext(w, es, i);
    TodoIsValued(At(w, es, j), es[j], k, StatusIn(At(w, es, i).matches, k));
  }

  /** Before event `n`, event `i` is the last one that writes match `k`, and event `j` is the read of its pass. */
  ghost predicate LastWrite(w: World, es: seq<Event>, k: MatchKey, j: nat, i: nat, n: nat)
    requires Linked(w)
  {
    && i < n <= |es| && WriteOfRead(w, es, k, j, i)
    && forall m: nat :: i < m < n ==> !Writes(At(w, es, m), es[m], k)
  }

  /** The match is what its last write took from the read of its pass. */
  ghost predicate WrittenFrom(w: World, es: seq<Event>, k: MatchKey, j: nat, i: nat, n: nat)
    requires Linked(w) && n <= |es| && k in At(w, es, n).matches
  {
    LastWrite(w, es, k, j, i, n) && ValuedAt(At(w, es, j), es[j], k, At(w, es, n).matches[k])
  }

  ghost predicate NotWritten(w: World, es: seq<Event>, k: MatchKey, n: nat)
    requires Linked(w) && n <= |es|
  {
    forall m: nat :: m < n ==> !Writes(At(w, es, m), es[m], k)
  }

  predicate SameOutcome(a: Match, b: Match) {
    a.outcome == b.outcome && a.runID == b.runID
  }

  lemma OthersKeepOutcome(w: World, e: Event, k: MatchKey)
    requires Linked(w) && !Writes(w, e, k) && k in Step(w, e).matches
    ensures k in w.matches && SameOutcome(w.matches[k], Step(w, e).matches[k])
  {
    hide PassOf, Linked, SavedStore, Reads;
  }

  /**
   Over every history: a match that some event wrote has the outcome and the run
   that its last write took from the read of its pass; one that none wrote is as it
   was at first.
   */
  lemma {:induction false} OutcomeIsTheLastWrite(w: World, es: seq<Event>, k: MatchKey, n: nat)
    requires Linked(w) && w.passes == map[] && n <= |es| && k in At(w, es, n).matches
    ensures (NotWritten(w, es, k, n) && k in w.matches && SameOutcome(w.matches[k], At(w, es, n).matches[k]))
      || exists j: nat, i: nat :: WrittenFrom(w, es, k, j, i, n)
    decreases n
  {
    hide Linked, At, Step, Writes, WriteOfRead, ValuedAt;
    AtStart(w, es);
    if n == 0 {
    } else {
      AtNext(w, es, n - 1);
      if Writes(At(w, es, n - 1), es[n - 1], k) {
        var j := WriteIsValued(w, es, k, n - 1);
        assert LastWrite(w, es, k, j, n - 1, n) && WrittenFrom(w, es, k, j, n - 1, n);
      } else {
        OthersKeepOutcome(At(w, es, n - 1), es[n - 1], k);
        OutcomeIsTheLastWrite(w, es, k, n - 1);
        var before := n - 1;
        if j: nat, i: nat :| WrittenFrom(w, es, k, j, i, before) {
          StillWrittenFrom(w, es, k, j, i, before);
        }
      }
    }
  }

  lemma StillWrittenFrom(w: World, es: seq<Event>, k: MatchKey, j: nat, i: nat, n: nat)
    requires Linked(w) && n < |es| && k in At(w, es, n).matches && k in At(w, es, n + 1).matches
    requires WrittenFrom(w, es, k, j, i, n) && !Writes(At(w, es, n), es[n], k)
    requires SameOutcome(At(w, es, n).matches[k], At(w, es, n + 1).matches[k])
    ensures WrittenFrom(w, es, k, j, i, n + 1)
  {
    hide At, Linked, Writes, ValuedAt, ReadOf;
    SameValued(At(w, es, j), es[j], k, At(w, es, n).matches[k], At(w, es, n + 1).matches[k]);
  }

  lemma SameValued(read: World, e: Event, k: MatchKey, a: Match, b: Match)
    requires Linked(read) && ValuedAt(read, e, k, a) && SameOutcome(a, b)
    ensures ValuedAt(read, e, k, b)
  {
  }

  // Up to date.

  /** What a match is evaluated on: its job and the verdict for it. */
  function Inputs(s: Store, id: string): Option<(Job, Option<Facts>)> {
    if id in s.rows then Some((s.rows[id].job, VerdictFor(s, id))) else None
  }

  ghost predicate Changes(w: World, e: Event, id: string)
    requires Linked(w)
  {
    Inputs(w.store, id) != Inputs(Step(w, e).store, id)
  }

  /** Only these events do: a write or a deletion of the job's row, and the first verdict stored for its text. */
  lemma ChangesOnlyBy(w: World, e: Event, id: string)
    requires Linked(w) && Changes(w, e, id)
    ensures ((e.Saved? || e.Deleted?) && e.id == id)
      || (e.Stored? && id in e.news && id in w.store.rows && VerdictFor(w.store, id).None? && VerdictFor(Step(w, e).store, id).Some?)
  {
    hide PassOf, Linked, Reads, Writes;
  }

  /** What a match is worth now, by its own run. */
  ghost predicate Fresh(w: World, k: MatchKey)
    requires Linked(w) && k in w.matches
  {
    w.matches[k].outcome == Worth(w.store, k, w.matches[k].runID)
  }

  ghost predicate Unchanged(w: World, es: seq<Event>, id: string, a: nat, b: nat)
    requires Linked(w) && b <= |es|
  {
    forall c: nat :: a <= c < b ==> !Changes(At(w, es, c), es[c], id)
  }

  /** Profiles never change, and a run keeps its start. */
  ghost predicate Grows(s: Store, t: Store) {
    && t.phrases == s.phrases && t.profiles == s.profiles
    && forall runID :: runID in s.starts ==> runID in t.starts && t.starts[runID] == s.starts[runID]
  }

  lemma StoreGrows(w: World, e: Event)
    requires Linked(w)
    ensures Grows(w.store, Step(w, e).store)
  {
    hide PassOf, Linked;
  }

  lemma {:induction false} Between(w: World, es: seq<Event>, id: string, a: nat, b: nat)
    requires Linked(w) && a <= b <= |es|
    ensures Grows(At(w, es, a).store, At(w, es, b).store)
    ensures Unchanged(w, es, id, a, b) ==> Inputs(At(w, es, a).store, id) == Inputs(At(w, es, b).store, id)
    decreases b
  {
    hide Linked, At, Step, Inputs;
    if a == b {
    } else {
      Between(w, es, id, a, b - 1);
      AtNext(w, es, b - 1);
      StoreGrows(At(w, es, b - 1), es[b - 1]);
      if Unchanged(w, es, id, a, b) {
        assert Unchanged(w, es, id, a, b - 1);
        assert !Changes(At(w, es, b - 1), es[b - 1], id);
      }
    }
  }

  lemma SameWorth(s: Store, t: Store, k: MatchKey, runID: nat)
    requires Grows(s, t) && k.profile in s.profiles && runID in s.starts && k.job in s.rows && Inputs(s, k.job) == Inputs(t, k.job)
    ensures k.job in t.rows && Worth(s, k, runID) == Worth(t, k, runID)
  {
    hide Evaluate;
  }

  /** A match is up to date unless its job or the verdict for it changed since its pass read them. */
  lemma FreshUnlessChanged(w: World, es: seq<Event>, k: MatchKey, j: nat)
    requires Linked(w) && j <= |es| && k in Run(w, es).matches && Inputs(At(w, es, j).store, k.job) == Inputs(Run(w, es).store, k.job)
    requires var past, m := At(w, es, j).store, Run(w, es).matches[k];
      && k.profile in past.profiles && k.job in past.rows && m.runID in past.starts && m.outcome == Worth(past, k, m.runID)
    ensures Fresh(Run(w, es), k)
  {
    hide Linked, At, Worth, Inputs, Run;
    AtStart(w, es);
    Between(w, es, k.job, j, |es|);
    SameWorth(At(w, es, j).store, Run(w, es).store, k, Run(w, es).matches[k].runID);
  }

  /** While the job's row is neither written nor deleted, a verdict for it never goes. */
  lemma {:induction false} VerdictsStay(w: World, es: seq<Event>, id: string, a: nat, b: nat)
    requires Linked(w) && a <= b <= |es| && id in At(w, es, a).store.rows
    requires forall c :: a <= c < b ==> !((es[c].Saved? || es[c].Deleted?) && es[c].id == id)
    ensures id in At(w, es, b).store.rows && At(w, es, b).store.rows[id].job == At(w, es, a).store.rows[id].job
    ensures VerdictFor(At(w, es, a).store, id).Some? ==> VerdictFor(At(w, es, b).store, id) == VerdictFor(At(w, es, a).store, id)
    decreases b
  {
    hide Linked, At, Step, VerdictFor;
    if a == b {
    } else {
      VerdictsStay(w, es, id, a, b - 1);
      AtNext(w, es, b - 1);
      ChangeOfVerdict(At(w, es, b - 1), es[b - 1], id);
    }
  }

  lemma ChangeOfVerdict(w: World, e: Event, id: string)
    requires Linked(w) && id in w.store.rows && !((e.Saved? || e.Deleted?) && e.id == id)
    ensures var after := Step(w, e).store;
      && id in after.rows && after.rows[id].job == w.store.rows[id].job
      && (VerdictFor(w.store, id).Some? ==> VerdictFor(after, id) == VerdictFor(w.store, id))
  {
    hide PassOf, Linked, Reads, Writes;
  }

  /** So the inputs of two moments agree exactly when no verdict arrived in between. */
  lemma SameInputsIff(w: World, es: seq<Event>, id: string, a: nat, b: nat)
    requires Linked(w) && a <= b <= |es| && id in At(w, es, a).store.rows
    requires forall c :: a <= c < b ==> !((es[c].Saved? || es[c].Deleted?) && es[c].id == id)
    ensures Inputs(At(w, es, a).store, id) == Inputs(At(w, es, b).store, id) <==> Unchanged(w, es, id, a, b)
  {
    hide Linked, At, Step;
    Between(w, es, id, a, b);
    forall c: nat | a <= c < b && Changes(At(w, es, c), es[c], id)
      ensures Inputs(At(w, es, a).store, id) != Inputs(At(w, es, b).store, id)
    {
      ChangesOnlyBy(At(w, es, c), es[c], id);
      AtNext(w, es, c);
      VerdictsStay(w, es, id, a, c);
      VerdictsStay(w, es, id, a, c + 1);
      VerdictsStay(w, es, id, c + 1, b);
    }
  }

  // Histories in which the verdicts that are stored are followed up.

  /** Every match that event `m` reads is written by its pass later. */
  ghost predicate Completes(w: World, es: seq<Event>, m: nat)
    requires Linked(w) && m < |es| && Reads(At(w, es, m), es[m])
  {
    forall k :: k in PassOf(At(w, es, m), es[m]).todo ==> CompletesOne(w, es, m, k)
  }

  ghost predicate CompletesOne(w: World, es: seq<Event>, m: nat, k: MatchKey)
    requires Linked(w) && m < |es| && Reads(At(w, es, m), es[m])
  {
    exists n: nat :: m < n < |es| && Writes(At(w, es, n), es[n], k)
  }

  ghost predicate RescuedAt(w: World, es: seq<Event>, id: string, m: nat)
    requires Linked(w)
  {
    && m < |es| && es[m].RescoreRead? && Reads(At(w, es, m), es[m]) && id in es[m].ids && Completes(w, es, m)
  }

  /** Some rescore of the job begins after event `c` and writes all it reads. */
  ghost predicate RescuedAfter(w: World, es: seq<Event>, id: string, c: nat)
    requires Linked(w)
  {
    exists m: nat :: c < m && RescuedAt(w, es, id, m)
  }

  /** No job row is written or deleted, and each job with a stored verdict is rescored some time later. */
  ghost predicate Enriching(w: World, es: seq<Event>)
    requires Linked(w)
  {
    forall c: nat :: c < |es| ==> !es[c].Saved? && !es[c].Deleted? && (es[c].Stored? ==> FollowedUp(w, es, c))
  }

  ghost predicate FollowedUp(w: World, es: seq<Event>, c: nat)
    requires Linked(w) && c < |es| && es[c].Stored?
  {
    forall id :: id in es[c].news ==> RescuedAfter(w, es, id, c)
  }

  /** A match stays where its job is not deleted. */
  lemma {:induction false} StaysWithJob(w: World, es: seq<Event>, k: MatchKey, i: nat, n: nat)
    requires Linked(w) && i <= n <= |es| && k in At(w, es, i).matches
    requires forall j :: i <= j < n ==> !(es[j].Deleted? && es[j].id == k.job)
    ensures k in At(w, es, n).matches
    decreases n
  {
    hide Linked, At, Step;
    if i == n {
    } else {
      StaysWithJob(w, es, k, i, n - 1);
      AtNext(w, es, n - 1);
      MatchStays(At(w, es, n - 1), es[n - 1], k);
    }
  }

  lemma MatchStays(w: World, e: Event, k: MatchKey)
    requires Linked(w) && k in w.matches && !(e.Deleted? && e.id == k.job)
    ensures k in Step(w, e).matches
  {
    hide PassOf, Linked, Reads, SavedStore;
  }

  /** A verdict that arrives when the match is there is followed by a write of the match. */
  lemma ChangeIsFollowed(w: World, es: seq<Event>, k: MatchKey, c: nat)
    requires Linked(w) && Enriching(w, es) && c < |es| && k in At(w, es, c).matches && Changes(At(w, es, c), es[c], k.job)
    ensures exists n: nat :: c < n < |es| && Writes(At(w, es, n), es[n], k)
  {
    hide At, Linked, Step, Writes, Reads, Changes, Completes;
    ChangesOnlyBy(At(w, es, c), es[c], k.job);
    assert FollowedUp(w, es, c) && RescuedAfter(w, es, k.job, c);
    var m: nat :| c < m && RescuedAt(w, es, k.job, m);
    StaysWithJob(w, es, k, c, m);
    ReadsIt(w, es, k, m);
    var n: nat :| m < n < |es| && Writes(At(w, es, n), es[n], k);
  }

  lemma ReadsIt(w: World, es: seq<Event>, k: MatchKey, m: nat)
    requires Linked(w) && m < |es| && RescuedAt(w, es, k.job, m) && k in At(w, es, m).matches
    ensures exists n: nat :: m < n < |es| && Writes(At(w, es, n), es[n], k)
  {
    hide At, Worth, Writes, Linked;
    assert k in PassOf(At(w, es, m), es[m]).todo;
    assert CompletesOne(w, es, m, k);
  }

  /**
   The exact condition: in such a history a match is based on the verdict of now if
   and only if no verdict for its job arrived between the read and the write of its
   last pass.
   */
  lemma BasedOnNowIff(w: World, es: seq<Event>, k: MatchKey, j: nat, i: nat)
    requires Linked(w) && w.passes == map[] && Enriching(w, es) && LastWrite(w, es, k, j, i, |es|)
    ensures Inputs(At(w, es, j).store, k.job) == Inputs(Run(w, es).store, k.job) <==> Unchanged(w, es, k.job, j, i)
  {
    hide At, Linked, Step, Changes, Enriching, Reads;
    AtStart(w, es);
    WrittenThere(w, es, k, j, i);
    NoRowWrites(w, es);
    SameInputsIff(w, es, k.job, j, |es|);
    if Unchanged(w, es, k.job, j, i) {
      forall c: nat | j <= c < |es| ensures !Changes(At(w, es, c), es[c], k.job) {
        if c >= i && Changes(At(w, es, c), es[c], k.job) {
          WriteChangesNothing(w, es, k, i);
          StaysWithJob(w, es, k, i + 1, c);
          ChangeIsFollowed(w, es, k, c);
        }
      }
    }
  }

  lemma NoRowWrites(w: World, es: seq<Event>)
    requires Linked(w) && Enriching(w, es)
    ensures forall c :: 0 <= c < |es| ==> !es[c].Saved? && !es[c].Deleted?
  {
  }

  lemma WriteChangesNothing(w: World, es: seq<Event>, k: MatchKey, i: nat)
    requires Linked(w) && i < |es| && Writes(At(w, es, i), es[i], k)
    ensures k in At(w, es, i + 1).matches && !Changes(At(w, es, i), es[i], k.job)
  {
    hide At, Linked;
    AtNext(w, es, i);
  }

  lemma WrittenThere(w: World, es: seq<Event>, k: MatchKey, j: nat, i: nat)
    requires Linked(w) && w.passes == map[] && WriteOfRead(w, es, k, j, i)
    ensures j < i < |es| && Writes(At(w, es, i), es[i], k) && k.job in At(w, es, j).store.rows
    ensures k in At(w, es, i + 1).matches && ValuedAt(At(w, es, j), es[j], k, At(w, es, i + 1).matches[k])
  {
    hide At, Linked, Worth;
    var a := WriteIsValued(w, es, k, i);
    ReadOnce(w, es, es[i].p, a, j);
  }

  /** No verdict for the job arrives between the read and the write of the match's last pass. */
  ghost predicate NoneArrives(w: World, es: seq<Event>, k: MatchKey)
    requires Linked(w)
  {
    forall j: nat, i: nat :: LastWrite(w, es, k, j, i, |es|) ==> Unchanged(w, es, k.job, j, i)
  }

  /** Then every match of every run stays what that run would write now. */
  lemma EnrichingKeepsUpToDate(w: World, es: seq<Event>)
    requires Linked(w) && w.passes == map[] && UpToDate(w.store, w.matches) && Enriching(w, es)
    requires forall k :: k in Run(w, es).matches ==> NoneArrives(w, es, k)
    ensures UpToDate(Run(w, es).store, Run(w, es).matches)
  {
    hide Step, Worth, Enriching, Run, NoneArrives;
    forall k | k in Run(w, es).matches ensures Fresh(Run(w, es), k) {
      StaysFresh(w, es, k);
    }
  }

  lemma StaysFresh(w: World, es: seq<Event>, k: MatchKey)
    requires Linked(w) && w.passes == map[] && Enriching(w, es) && k in Run(w, es).matches && (k in w.matches ==> Fresh(w, k))
    requires NoneArrives(w, es, k)
    ensures Fresh(Run(w, es), k)
  {
    hide Step, Changes, Worth, Writes, LastWrite, Linked, Run, Enriching, At, Inputs, Unchanged;
    AtStart(w, es);
    OutcomeIsTheLastWrite(w, es, k, |es|);
    if j: nat, i: nat :| WrittenFrom(w, es, k, j, i, |es|) {
      assert j < i < |es| by {
        Earlier(w, es, k, j, i);
      }
      BasedOnNowIff(w, es, k, j, i);
      FreshUnlessChanged(w, es, k, j);
    } else {
      NeverChanged(w, es, k);
      Between(w, es, k.job, 0, |es|);
      KeptFresh(w, es, k);
    }
  }

  lemma Earlier(w: World, es: seq<Event>, k: MatchKey, j: nat, i: nat)
    requires Linked(w) && LastWrite(w, es, k, j, i, |es|)
    ensures j < i < |es|
  {
  }

  lemma KeptFresh(w: World, es: seq<Event>, k: MatchKey)
    requires Linked(w) && k in w.matches && Fresh(w, k) && k in Run(w, es).matches && SameOutcome(w.matches[k], Run(w, es).matches[k])
    requires Inputs(w.store, k.job) == Inputs(Run(w, es).store, k.job)
    ensures Fresh(Run(w, es), k)
  {
    hide At, Worth, Run, Inputs;
    AtStart(w, es);
    FreshUnlessChanged(w, es, k, 0);
  }

  lemma NeverChanged(w: World, es: seq<Event>, k: MatchKey)
    requires Linked(w) && Enriching(w, es) && k in w.matches && NotWritten(w, es, k, |es|)
    ensures Unchanged(w, es, k.job, 0, |es|)
  {
    hide At, Linked, Step, Changes, Enriching, Writes;
    AtStart(w, es);
    NoRowWrites(w, es);
    forall c: nat | c < |es| ensures !Changes(At(w, es, c), es[c], k.job) {
      if Changes(At(w, es, c), es[c], k.job) {
        StaysWithJob(w, es, k, 0, c);
        ChangeIsFollowed(w, es, k, c);
      }
    }
  }

  // Which run a match belongs to.

  /** The event writes match `k` for a score pass. */
  predicate ScoreWrites(w: World, e: Event, k: MatchKey) {
    Writes(w, e, k) && w.passes[e.p].scoring
  }

  /** The run of the last score pass that wrote match `k` before event `n`. */
  ghost function LastScored(w: World, es: seq<Event>, k: MatchKey, n: nat): Option<nat>
    requires Linked(w) && n <= |es|
    decreases n
  {
    if n == 0 then None
    else
      var before, e := At(w, es, n - 1), es[n - 1];
      if ScoreWrites(before, e, k) then Some(before.passes[e.p].todo[k].runID) else LastScored(w, es, k, n - 1)
  }

  /** At every point of the history the match belongs to the last run that scored it. */
  ghost predicate FollowsScores(w: World, es: seq<Event>, k: MatchKey)
    requires Linked(w)
  {
    forall n: nat :: n <= |es| ==> OfLastScore(w, es, k, n)
  }

  ghost predicate OfLastScore(w: World, es: seq<Event>, k: MatchKey, n: nat)
    requires Linked(w) && n <= |es|
  {
    k in At(w, es, n).matches ==> LastScored(w, es, k, n) == Some(At(w, es, n).matches[k].runID)
  }

  /** Event `i` writes match `k` for a rescore that read it at event `j`. */
  ghost predicate RescoreOfRead(w: World, es: seq<Event>, k: MatchKey, j: nat, i: nat)
    requires Linked(w)
  {
    j < i < |es| && WriteOfRead(w, es, k, j, i) && !At(w, es, i).passes[es[i].p].scoring
  }

  /** Every rescore writes a match under the last run that had scored it when the rescore read it. */
  ghost predicate RescoresHold(w: World, es: seq<Event>, k: MatchKey)
    requires Linked(w)
  {
    forall j: nat, i: nat :: RescoreOfRead(w, es, k, j, i) ==> i < |es| && LastScored(w, es, k, j) == LastScored(w, es, k, i)
  }

  /** What a rescore writes is the run that the match had at its read. */
  lemma RescoreRun(w: World, es: seq<Event>, k: MatchKey, j: nat, i: nat)
    requires Linked(w) && w.passes == map[] && RescoreOfRead(w, es, k, j, i)
    ensures j < i < |es| && k in At(w, es, j).matches && k in At(w, es, i + 1).matches
    ensures At(w, es, i + 1).matches[k].runID == At(w, es, j).matches[k].runID
    ensures LastScored(w, es, k, i + 1) == LastScored(w, es, k, i)
  {
    hide At, Linked, Worth, PassOf;
    WrittenThere(w, es, k, j, i);
    RescoreHasRescoreRead(w, es, k, j, i);
  }

  lemma RescoreHasRescoreRead(w: World, es: seq<Event>, k: MatchKey, j: nat, i: nat)
    requires Linked(w) && w.passes == map[] && RescoreOfRead(w, es, k, j, i)
    ensures j < |es| && es[j].RescoreRead?
  {
    hide At, Linked, ScoreTodo, RescoreTodo;
    var a := PassWasRead(w, es, es[i].p, i);
    ReadOnce(w, es, es[i].p, a, j);
  }

  /**
   The exact condition: a match belongs to the last run that scored it, at every
   point, if and only if no rescore writes it that read it under an earlier run.
   */
  lemma FollowsScoresIff(w: World, es: seq<Event>, k: MatchKey)
    requires Linked(w) && w.passes == map[] && w.matches == map[]
    ensures FollowsScores(w, es, k) <==> RescoresHold(w, es, k)
  {
    hide At, Linked, WriteOfRead, LastScored;
    if FollowsScores(w, es, k) {
      forall j: nat, i: nat | RescoreOfRead(w, es, k, j, i) ensures i < |es| && LastScored(w, es, k, j) == LastScored(w, es, k, i) {
        RescoreRun(w, es, k, j, i);
        assert OfLastScore(w, es, k, j) && OfLastScore(w, es, k, i + 1);
      }
    }
    if RescoresHold(w, es, k) {
      ScoresFollowed(w, es, k, |es|);
    }
  }

  lemma {:induction false} ScoresFollowed(w: World, es: seq<Event>, k: MatchKey, n: nat)
    requires Linked(w) && w.passes == map[] && w.matches == map[] && n <= |es| && RescoresHold(w, es, k)
    ensures forall m: nat :: m <= n ==> OfLastScore(w, es, k, m)
    decreases n
  {
    hide At, Linked, OfLastScore, LastScored, RescoresHold;
    if n == 0 {
      FollowedAtStart(w, es, k);
    } else {
      ScoresFollowed(w, es, k, n - 1);
      FollowedStep(w, es, k, n - 1);
    }
  }

  lemma FollowedAtStart(w: World, es: seq<Event>, k: MatchKey)
    requires Linked(w) && w.matches == map[]
    ensures OfLastScore(w, es, k, 0)
  {
    AtStart(w, es);
  }

  lemma FollowedStep(w: World, es: seq<Event>, k: MatchKey, i: nat)
    requires Linked(w) && w.passes == map[] && i < |es| && RescoresHold(w, es, k)
    requires forall m: nat :: m <= i ==> OfLastScore(w, es, k, m)
    ensures OfLastScore(w, es, k, i + 1)
  {
    hide At, Linked, WriteOfRead, PassOf, ValuedAt, RescoreOfRead, Step;
    AtNext(w, es, i);
    var now, e := At(w, es, i), es[i];
    assert OfLastScore(w, es, k, i);
    if ScoreWrites(now, e, k) {
      OneWrite(now, e.p, k);
    } else if Writes(now, e, k) {
      var j := WriteIsValued(w, es, k, i);
      ARescore(w, es, k, j, i);
      RescoreRun(w, es, k, j, i);
      assert OfLastScore(w, es, k, j);
    } else if k in Step(now, e).matches {
      OthersKeepOutcome(now, e, k);
    }
  }

  lemma ARescore(w: World, es: seq<Event>, k: MatchKey, j: nat, i: nat)
    requires Linked(w) && WriteOfRead(w, es, k, j, i) && !At(w, es, i).passes[es[i].p].scoring
    ensures RescoreOfRead(w, es, k, j, i)
  {
  }

  /** A guard: no score writes the match between the read and the write of a rescore. */
  lemma NoScoreBetween(w: World, es: seq<Event>, k: MatchKey, j: nat, i: nat)
    requires Linked(w) && j <= i <= |es| && forall c: nat :: j <= c < i ==> !ScoreWrites(At(w, es, c), es[c], k)
    ensures LastScored(w, es, k, j) == LastScored(w, es, k, i)
    decreases i
  {
    hide At, Linked, ScoreWrites;
    if j == i {
    } else {
      NoScoreBetween(w, es, k, j, i - 1);
    }
  }

  // Whose the status is.

  predicate SetsStatus(e: Event, k: MatchKey) {
    e.StatusSet? && e.key == k
  }

  /** Event `i` sets the status of match `k`; none does later before event `n`, and the match is not deleted since. */
  ghost predicate LastStatus(w: World, es: seq<Event>, k: MatchKey, i: nat, n: nat)
    requires Linked(w)
  {
    && i < n <= |es| && SetsStatus(es[i], k) && k in At(w, es, i).matches
    && forall j :: i < j < n ==> !SetsStatus(es[j], k) && !(es[j].Deleted? && es[j].id == k.job)
  }

  /** No score and no rescore touches the status of a match: it is the one the user set last, or New. */
  lemma {:induction false} StatusIsTheUsers(w: World, es: seq<Event>, k: MatchKey, n: nat)
    requires Linked(w) && w.matches == map[] && n <= |es| && k in At(w, es, n).matches
    ensures forall i: nat :: LastStatus(w, es, k, i, n) ==> i < |es| && es[i].StatusSet? && At(w, es, n).matches[k].userStatus == es[i].status
    ensures At(w, es, n).matches[k].userStatus == New || exists i: nat :: LastStatus(w, es, k, i, n)
    decreases n
  {
    hide Step, Linked, At;
    AtStart(w, es);
    AtNext(w, es, n - 1);
    var before, e := At(w, es, n - 1), es[n - 1];
    StatusStep(before, e, k);
    if SetsStatus(e, k) {
      assert LastStatus(w, es, k, n - 1, n);
    } else if k in before.matches {
      StatusIsTheUsers(w, es, k, n - 1);
      forall i: nat ensures LastStatus(w, es, k, i, n) <==> LastStatus(w, es, k, i, n - 1) {
      }
      if before.matches[k].userStatus != New {
        var past := n - 1;
        var i: nat :| LastStatus(w, es, k, i, past);
        assert LastStatus(w, es, k, i, n);
      }
    } else {
      forall i: nat ensures !LastStatus(w, es, k, i, n) {
        if LastStatus(w, es, k, i, n) {
          StaysWithJob(w, es, k, i, n - 1);
        }
      }
    }
  }

  lemma StatusStep(w: World, e: Event, k: MatchKey)
    requires Linked(w) && k in Step(w, e).matches
    ensures k in w.matches ==> !(e.Deleted? && e.id == k.job)
    ensures k in w.matches ==>
      Step(w, e).matches[k].userStatus == if SetsStatus(e, k) then e.status else w.matches[k].userStatus
    ensures k !in w.matches ==> Step(w, e).matches[k].userStatus == New && !SetsStatus(e, k)
  {
    hide PassOf, Linked, Reads, SavedStore;
  }

  // Runs that break the two promises.

  /** A store in which two runs of a profile score the job, and no verdict is there for it. */
  ghost predicate Stage(s: Store, k: MatchKey, first: nat, second: nat) {
    && StoreValid(s) && k.profile in s.profiles && first in s.starts && second in s.starts && first != second
    && k.job in s.rows && Scores(s, k, k.profile, first) && Scores(s, k, k.profile, second) && VerdictFor(s, k.job).None?
  }

  /** A rescore reads a match of the first run, the second run scores it, and the rescore writes it. */
  function LateRescore(k: MatchKey, first: nat, second: nat): seq<Event> {
    [ScoreRead(0, k.profile, first), Written(0, k), RescoreRead(1, [k.job]), ScoreRead(2, k.profile, second), Written(2, k), Written(1, k)]
  }

  /** The match is back with the first run, though the second one scored it last. */
  lemma LateRescoreUndoesRun(s: Store, k: MatchKey, first: nat, second: nat)
    requires Stage(s, k, first, second)
    ensures var w, es := World(s, map[], map[]), LateRescore(k, first, second);
      && Linked(w) && k in Run(w, es).matches && Run(w, es).matches[k].runID == first
      && LastScored(w, es, k, |es|) == Some(second) && !FollowsScores(w, es, k)
  {
    hide Linked, Evaluate, Worth, Eligible, Scores, ScoreTodo, RescoreTodo, Run, At;
    var w, es := World(s, map[], map[]), LateRescore(k, first, second);
    StartLinked(s);
    LateRescoreStates(s, k, first, second);
    AtStart(w, es);
    assert !OfLastScore(w, es, k, 6);
  }

  lemma StartLinked(s: Store)
    requires StoreValid(s)
    ensures Linked(World(s, map[], map[]))
  {
  }

  /** What a new score pass has to write of the match. */
  lemma ScoreDue(w: World, p: nat, k: MatchKey, runID: nat)
    requires Linked(w) && p !in w.passes && k.profile in w.store.profiles && runID in w.store.starts
    requires Scores(w.store, k, k.profile, runID)
    ensures var after := Step(w, ScoreRead(p, k.profile, runID));
      && after.store == w.store && after.matches == w.matches && p in after.passes && after.passes == w.passes[p := after.passes[p]]
      && after.passes[p].scoring && k in after.passes[p].todo
      && after.passes[p].todo[k] == Due(Worth(w.store, k, runID), runID)
  {
    hide Evaluate, Worth, Eligible, Linked;
    TodoIsScored(w.store, k.profile, runID, k);
  }

  /** What a new rescore has to write of the match. */
  lemma RescoreDue(w: World, p: nat, k: MatchKey)
    requires Linked(w) && p !in w.passes
    ensures var after := Step(w, RescoreRead(p, [k.job]));
      && after.store == w.store && after.matches == w.matches && p in after.passes && after.passes == w.passes[p := after.passes[p]]
      && !after.passes[p].scoring && (k in after.passes[p].todo <==> k in w.matches)
      && (k in w.matches ==> after.passes[p].todo[k].runID == w.matches[k].runID)
  {
    hide Evaluate, Worth, Eligible;
  }

  lemma LateRescoreStates(s: Store, k: MatchKey, first: nat, second: nat)
    requires Stage(s, k, first, second) && Linked(World(s, map[], map[]))
    ensures var w, es := World(s, map[], map[]), LateRescore(k, first, second);
      && k in At(w, es, 6).matches && At(w, es, 6).matches[k].runID == first && LastScored(w, es, k, 6) == Some(second)
  {
    hide Linked, Worth, Scores, Run, At, Step;
    var w, es := World(s, map[], map[]), LateRescore(k, first, second);
    AtStart(w, es);
    AtNext(w, es, 0);
    ScoreDue(w, 0, k, first);
    var w1 := At(w, es, 1);
    AtNext(w, es, 1);
    OneWrite(w1, 0, k);
    var w2 := At(w, es, 2);
    AtNext(w, es, 2);
    RescoreDue(w2, 1, k);
    var w3 := At(w, es, 3);
    AtNext(w, es, 3);
    ScoreDue(w3, 2, k, second);
    var w4 := At(w, es, 4);
    AtNext(w, es, 4);
    OneWrite(w4, 2, k);
    var w5 := At(w, es, 5);
    AtNext(w, es, 5);
    OneWrite(w5, 1, k);
    assert LastScored(w, es, k, 5) == Some(second);
  }

  /** A score reads before the verdict is stored; the rescore finds no match yet; then the score writes. */
  function LateScore(k: MatchKey, first: nat, verdict: Facts): seq<Event> {
    [ScoreRead(0, k.profile, first), Stored(map[k.job := verdict]), RescoreRead(1, [k.job]), Written(0, k)]
  }

  /** The verdict is stored and followed up, and the match keeps the outcome it has without it. */
  lemma LateScoreMissesVerdict(s: Store, k: MatchKey, first: nat, second: nat, verdict: Facts)
    requires Stage(s, k, first, second)
    ensures var w, es := World(s, map[], map[]), LateScore(k, first, verdict);
      && Linked(w) && Enriching(w, es)
      && var after := Run(w, es);
         && k in after.matches && after.matches[k].outcome == Worth(s, k, first)
         && VerdictFor(after.store, k.job) == Some(verdict) && Inputs(s, k.job) != Inputs(after.store, k.job)
  {
    hide Worth, Scores, Run, At, Step, Enriching, Linked;
    var w, es := World(s, map[], map[]), LateScore(k, first, verdict);
    StartLinked(s);
    LateScoreStates(s, k, first, second, verdict);
    AtStart(w, es);
    LateScoreIsEnriching(s, k, first, verdict);
  }

  lemma LateScoreStates(s: Store, k: MatchKey, first: nat, second: nat, verdict: Facts)
    requires Stage(s, k, first, second) && Linked(World(s, map[], map[]))
    ensures var w, es := World(s, map[], map[]), LateScore(k, first, verdict);
      && At(w, es, 2).matches == map[] && At(w, es, 2).passes.Keys == {0}
      && k in At(w, es, 4).matches && At(w, es, 4).matches[k].outcome == Worth(s, k, first)
      && VerdictFor(At(w, es, 4).store, k.job) == Some(verdict)
  {
    hide Worth, Scores, Run, At, Step, Linked, VerdictFor;
    var w, es := World(s, map[], map[]), LateScore(k, first, verdict);
    AtStart(w, es);
    AtNext(w, es, 0);
    ScoreDue(w, 0, k, first);
    var w1 := At(w, es, 1);
    AtNext(w, es, 1);
    StoreNew(w1, k.job, verdict);
    var w2 := At(w, es, 2);
    AtNext(w, es, 2);
    RescoreDue(w2, 1, k);
    var w3 := At(w, es, 3);
    AtNext(w, es, 3);
    OneWrite(w3, 0, k);
  }

  /** Nothing is there for the rescore to write, so it completes. */
  lemma LateScoreIsEnriching(s: Store, k: MatchKey, first: nat, verdict: Facts)
    requires Linked(World(s, map[], map[]))
    requires var w, es := World(s, map[], map[]), LateScore(k, first, verdict);
      At(w, es, 2).matches == map[] && At(w, es, 2).passes.Keys == {0}
    ensures Enriching(World(s, map[], map[]), LateScore(k, first, verdict))
  {
    hide Run, At, Step, Linked, Worth;
    var w, es := World(s, map[], map[]), LateScore(k, first, verdict);
    assert PassOf(At(w, es, 2), es[2]).todo == map[];
    assert RescuedAt(w, es, k.job, 2);
    assert RescuedAfter(w, es, k.job, 1);
  }

  lemma StoreNew(w: World, id: string, verdict: Facts)
    requires Linked(w) && id in w.store.rows && VerdictFor(w.store, id).None?
    ensures var after := Step(w, Stored(map[id := verdict]));
      && after.matches == w.matches && after.passes == w.passes && after.store.rows == w.store.rows
      && VerdictFor(after.store, id) == Some(verdict)
  {
  }
}
