/**
 Scoring one job for one profile, and the matches a run writes and a rescore
 updates. The phrase, salary and experience signals are functions of profile,
 job and clock; the posted-at cut, the fact signals and the choice of the bucket
 are modelled here. A zero time is `None`.
 */
module Scoring {
  import opened Prelude
  import opened KeyedList
  import opened TextLists
  import opened FactSignals
  import opened JobMerge
  import opened JobTable
  import Enrich

  const SCORE_WINDOW_DAYS: int := 10

  datatype Bucket = Top | Review | Rejected

  datatype Domain = Architecture | OtherDomain

  datatype Profile = Profile(id: string, domain: Domain, top: int, rules: FactSignals.Rules)

  /** The parts of the evaluation that this model leaves open; each is a function. */
  datatype Phrases = Phrases(
    letters: Letters,
    gates: (Profile, Job, int) -> seq<Signal>,
    location: (Profile, Job) -> seq<Signal>,
    points: (Profile, Job, int) -> seq<Signal>,
    mapped: Job -> (string -> bool))

  datatype Outcome = Outcome(bucket: Bucket, score: int, signals: seq<Signal>)

  /** postedAtCut, with the threshold that holds for every profile. */
  function PostedAtCut(job: Job, now: int): seq<Signal> {
    if Stale(job.postedAt, now) then [Signal(CutPostedAt, "posted_at", "", "", 0, 0)] else []
  }

  function PhraseSignals(p: Phrases, profile: Profile, job: Job, now: int): seq<Signal> {
    p.gates(profile, job, now) + (p.location(profile, job) + PostedAtCut(job, now)) + p.points(profile, job, now)
  }

  predicate IsGate(s: Signal) {
    s.code.GateRole? || s.code.GateHard? || s.code.CutLocation? || s.code.CutTimezone? || s.code.CutPostedAt?
  }

  predicate IsFactCut(s: Signal) {
    s.code.GateHard? && "facts." <= s.rule
  }

  predicate IsFactHardReject(s: Signal) {
    s.rule == "facts.hiring_scope" || s.rule == "facts.work_authorization"
  }

  /** The signal rejects by itself. */
  predicate Rejects(s: Signal) {
    IsGate(s) && (IsFactCut(s) ==> IsFactHardReject(s))
  }

  predicate HasTitlePlus(ss: seq<Signal>) {
    exists i :: 0 <= i < |ss| && ss[i].code.Plus? && "signals_plus.title" <= ss[i].rule
  }

  predicate AnyRejects(ss: seq<Signal>) {
    exists i :: 0 <= i < |ss| && Rejects(ss[i])
  }

  predicate AnyFactCut(ss: seq<Signal>) {
    exists i :: 0 <= i < |ss| && IsGate(ss[i]) && IsFactCut(ss[i])
  }

  /** The bucket, by what the signals hold rather than by the order they come in. */
  function BucketOf(profile: Profile, score: int, ss: seq<Signal>): Bucket {
    if AnyRejects(ss) then Rejected
    else if AnyFactCut(ss) || score < profile.top then Review
    else if profile.domain.Architecture? && !HasTitlePlus(ss) then Review
    else Top
  }

  /** chooseBucket: one pass over the signals that stops at the first one that rejects. */
  method ChooseBucket(profile: Profile, score: int, ss: seq<Signal>) returns (b: Bucket)
    ensures b == BucketOf(profile, score, ss)
  {
    var factReview := false;
    for i := 0 to |ss|
      invariant forall k :: 0 <= k < i ==> !Rejects(ss[k])
      invariant factReview <==> exists k :: 0 <= k < i && IsGate(ss[k]) && IsFactCut(ss[k])
    {
      if !IsGate(ss[i]) {
        continue;
      }
      if IsFactCut(ss[i]) {
        if IsFactHardReject(ss[i]) {
          assert Rejects(ss[i]);
          return Rejected;
        }
        factReview := true;
        continue;
      }
      assert Rejects(ss[i]);
      return Rejected;
    }
    if factReview {
      return Review;
    }
    if score >= profile.top {
      var title := false;
      for i := 0 to |ss|
        invariant title <==> exists k :: 0 <= k < i && ss[k].code.Plus? && "signals_plus.title" <= ss[k].rule
      {
        if ss[i].code.Plus? && "signals_plus.title" <= ss[i].rule {
          title := true;
        }
      }
      return if profile.domain.Architecture? && !title then Review else Top;
    }
    return Review;
  }

  function FactsOf(p: Phrases, profile: Profile, job: Job, verdict: Option<Facts>): seq<Signal> {
    if verdict.None? then [] else FactSignalsOf(p.letters, p.mapped(job), profile.rules, verdict.value)
  }

  /** evaluateAt. No verdict means pending: only the phrase signals count. */
  function Evaluate(p: Phrases, profile: Profile, job: Job, now: int, verdict: Option<Facts>): Outcome {
    var ss := PhraseSignals(p, profile, job, now) + FactsOf(p, profile, job, verdict);
    Outcome(BucketOf(profile, Sum(ss), ss), Sum(ss), ss)
  }

  lemma AnyRejectsConcat(a: seq<Signal>, b: seq<Signal>)
    ensures AnyRejects(a + b) <==> AnyRejects(a) || AnyRejects(b)
    ensures AnyFactCut(a + b) <==> AnyFactCut(a) || AnyFactCut(b)
  {
    if i :| 0 <= i < |a| && Rejects(a[i]) {
      assert (a + b)[i] == a[i];
    }
    if i :| 0 <= i < |b| && Rejects(b[i]) {
      assert (a + b)[|a| + i] == b[i];
    }
    if i :| 0 <= i < |a| && IsGate(a[i]) && IsFactCut(a[i]) {
      assert (a + b)[i] == a[i];
    }
    if i :| 0 <= i < |b| && IsGate(b[i]) && IsFactCut(b[i]) {
      assert (a + b)[|a| + i] == b[i];
    }
  }

  /** Of the fact signals only the hiring scope and the work authorization reject; the other cuts ask for a review. */
  lemma FactsRejectIff(p: Phrases, profile: Profile, job: Job, f: Facts)
    ensures var ss := FactSignalsOf(p.letters, p.mapped(job), profile.rules, f);
      && (AnyRejects(ss) <==> HardCutFires(p.letters, profile.rules, f))
      && (SoftCutFires(p.letters, profile.rules, f) ==> AnyFactCut(ss))
  {
    hide FactSignalsOf, HardCutFires, SoftCutFires;
    FactKinds(p.letters, p.mapped(job), profile.rules, f);
    KindsDecide(FactSignalsOf(p.letters, p.mapped(job), profile.rules, f),
                SoftCutFires(p.letters, profile.rules, f), HardCutFires(p.letters, profile.rules, f));
  }

  lemma KindsDecide(ss: seq<Signal>, soft: bool, hard: bool)
    requires Kinds(ss, soft, hard)
    ensures (AnyRejects(ss) <==> hard) && (soft ==> AnyFactCut(ss))
  {
    FactRules();
    hide Name;
    forall i | 0 <= i < |ss| ensures Rejects(ss[i]) <==> IsHardCut(ss[i]) {
      assert ss[i].code.GateHard? ==> IsSoftCut(ss[i]) || IsHardCut(ss[i]);
    }
    if i :| 0 <= i < |ss| && IsSoftCut(ss[i]) {
      assert IsGate(ss[i]) && IsFactCut(ss[i]);
    }
  }

  lemma FactRules()
    ensures forall x: Field :: "facts." <= "facts." + Name(x)
    ensures "facts." + Name(ScopeFact) == "facts.hiring_scope"
    ensures "facts." + Name(AuthFact) == "facts.work_authorization"
    ensures forall x: Field :: "facts." + Name(x) == "facts.hiring_scope" ==> x.ScopeFact?
    ensures forall x: Field :: "facts." + Name(x) == "facts.work_authorization" ==> x.AuthFact?
  {
    assert "facts." + Name(ScopeFact) == "facts.hiring_scope";
    assert "facts." + Name(AuthFact) == "facts.work_authorization";
    hide Name;
    forall x: Field
      ensures "facts." + Name(x) == "facts." + Name(ScopeFact) ==> x.ScopeFact?
      ensures "facts." + Name(x) == "facts." + Name(AuthFact) ==> x.AuthFact?
    {
      NamesDiffer(x, ScopeFact);
      NamesDiffer(x, AuthFact);
    }
  }

  /**
   A ready verdict never rescues: with it the job is rejected exactly when it was
   rejected without it, or the verdict's scope or authorization cut fires.
   */
  lemma VerdictRejectsIff(p: Phrases, profile: Profile, job: Job, now: int, f: Facts)
    ensures Evaluate(p, profile, job, now, Some(f)).bucket == Rejected <==>
      Evaluate(p, profile, job, now, None).bucket == Rejected || HardCutFires(p.letters, profile.rules, f)
  {
    hide PhraseSignals, FactSignalsOf, HardCutFires, AnyRejects, AnyFactCut, HasTitlePlus, Sum;
    var ss := PhraseSignals(p, profile, job, now);
    assert ss + [] == ss;
    FactsRejectIff(p, profile, job, f);
    AnyRejectsConcat(ss, FactSignalsOf(p.letters, p.mapped(job), profile.rules, f));
  }

  /** With a soft cut the score has no say: the job goes to review, unless something rejects it. */
  lemma SoftCutsGoToReview(p: Phrases, profile: Profile, job: Job, now: int, f: Facts)
    requires SoftCutFires(p.letters, profile.rules, f)
    ensures Evaluate(p, profile, job, now, Some(f)).bucket ==
      if Evaluate(p, profile, job, now, None).bucket == Rejected || HardCutFires(p.letters, profile.rules, f) then Rejected else Review
  {
    hide PhraseSignals, FactSignalsOf, SoftCutFires, HardCutFires, AnyRejects, AnyFactCut, HasTitlePlus, Sum;
    FactsRejectIff(p, profile, job, f);
    VerdictRejectsIff(p, profile, job, now, f);
    AnyRejectsConcat(PhraseSignals(p, profile, job, now), FactSignalsOf(p.letters, p.mapped(job), profile.rules, f));
  }

  /** The signal is a gate or a cut. */
  predicate StopsIt(s: Signal) {
    s.code == GateRole || s.code == GateHard || s.code == CutLocation || s.code == CutTimezone || s.code == CutPostedAt
  }

  predicate TitlePoints(s: Signal) {
    s.code == Plus && |s.rule| >= 18 && s.rule[..18] == "signals_plus.title"
  }

  /** A cut from a verdict that only asks for a review. */
  predicate OnlyReviews(s: Signal) {
    && s.code == GateHard && |s.rule| >= 6 && s.rule[..6] == "facts."
    && s.rule != "facts.hiring_scope" && s.rule != "facts.work_authorization"
  }

  function Points(ss: seq<Signal>): int {
    if ss == [] then 0 else ss[0].delta + Points(ss[1..])
  }

  lemma {:induction false} PointsAre(ss: seq<Signal>)
    ensures Sum(ss) == Points(ss)
    decreases |ss|
  {
    if ss == [] {
    } else {
      SumConcat([ss[0]], ss[1..]);
      assert [ss[0]] + ss[1..] == ss && [ss[0]][..0] == [];
      PointsAre(ss[1..]);
    }
  }

  /**
   The exact bucket: TOP for a score at the profile's threshold without any gate or
   cut, and for architecture with a point for the title; REJECTED for a gate or a cut
   that does not only ask for a review; REVIEW otherwise.
   */
  lemma BucketIff(p: Phrases, profile: Profile, job: Job, now: int, verdict: Option<Facts>)
    ensures var out := Evaluate(p, profile, job, now, verdict);
      && out.score == Points(out.signals)
      && (out.bucket == Top <==>
            && out.score >= profile.top && (forall i :: 0 <= i < |out.signals| ==> !StopsIt(out.signals[i]))
            && (profile.domain == Architecture ==> exists i :: 0 <= i < |out.signals| && TitlePoints(out.signals[i])))
      && (out.bucket == Rejected <==>
            exists i :: 0 <= i < |out.signals| && StopsIt(out.signals[i]) && !OnlyReviews(out.signals[i]))
  {
    hide PhraseSignals, FactsOf, Sum, Points;
    var out := Evaluate(p, profile, job, now, verdict);
    PointsAre(out.signals);
    forall s: Signal
      ensures (IsGate(s) <==> StopsIt(s)) && (Rejects(s) <==> StopsIt(s) && !OnlyReviews(s))
      ensures s.code.Plus? && "signals_plus.title" <= s.rule <==> TitlePoints(s)
    {
      SignalIs(s);
    }
  }

  lemma SignalIs(s: Signal)
    ensures (IsGate(s) <==> StopsIt(s)) && (Rejects(s) <==> StopsIt(s) && !OnlyReviews(s))
    ensures s.code.Plus? && "signals_plus.title" <= s.rule <==> TitlePoints(s)
  {
    assert |"signals_plus.title"| == 18 && |"facts."| == 6;
  }

  /** The signals: those of the phrases, with a cut exactly for a posting that is too old, and those of the verdict if there is one. */
  lemma SignalsAre(p: Phrases, profile: Profile, job: Job, now: int, verdict: Option<Facts>)
    ensures var cut := if job.postedAt.Some? && job.postedAt.value < now - 30 * 86400
        then [Signal(CutPostedAt, "posted_at", "", "", 0, 0)] else [];
      Evaluate(p, profile, job, now, verdict).signals ==
      p.gates(profile, job, now) + (p.location(profile, job) + cut) + p.points(profile, job, now)
      + (if verdict.Some? then FactSignalsOf(p.letters, p.mapped(job), profile.rules, verdict.value) else [])
  {
    hide FactSignalsOf;
  }

  /** A posting that is too old at `t` is too old at every later time. */
  lemma StaleStays(postedAt: Option<int>, t: int, u: int)
    requires Stale(postedAt, t) && t <= u
    ensures Stale(postedAt, u)
  {
  }

  /**
   An open job that enrich's query skips at `t` though it was first seen in the
   window is rejected by every run that starts at `t` or later, whatever verdict
   it might have got.
   */
  lemma SkippedByEnrichIsRejected(
      p: Phrases, profile: Profile, row: Row, since: int, t: int, started: int, verdict: Option<Facts>)
    requires row.closedAt == None && row.job.firstSeen >= since && t <= started
    requires !Enrich.IsCandidate(row, since, Enrich.PostedAfter(t))
    ensures Evaluate(p, profile, row.job, started, verdict).bucket == Rejected
  {
    hide FactSignalsOf, HasTitlePlus, Sum;
    var job := row.job;
    Enrich.SameAgeLimit(job.postedAt, t);
    StaleStays(job.postedAt, t, started);
    var cut := PostedAtCut(job, started);
    assert Rejects(cut[0]);
    var early := p.gates(profile, job, started);
    AnyRejectsConcat(p.location(profile, job), cut);
    AnyRejectsConcat(early, p.location(profile, job) + cut);
    AnyRejectsConcat(early + (p.location(profile, job) + cut), p.points(profile, job, started));
    AnyRejectsConcat(PhraseSignals(p, profile, job, started), FactsOf(p, profile, job, verdict));
  }

  /** A term of the body list: its weight and whether it stands in the text. */
  datatype Term = Term(phrase: string, weight: int, hits: nat)

  /** The points the terms get, in order, and what is left of the cap. */
  function Awards(terms: seq<Term>, cap: int): (seq<int>, int) {
    if terms == [] then ([], cap)
    else
      var (given, left) := Awards(terms[..|terms| - 1], cap);
      var t := terms[|terms| - 1];
      if t.hits == 0 then (given, left)
      else if t.weight <= 0 then (given + [t.weight], left)
      else if left <= 0 then (given + [0], left)
      else if t.weight > left then (given + [left], 0)
      else (given + [t.weight], left - t.weight)
  }

  function Positive(ds: seq<int>): int {
    if ds == [] then 0 else Positive(ds[..|ds| - 1]) + (if ds[|ds| - 1] > 0 then ds[|ds| - 1] else 0)
  }

  /** The positive weight of the terms that fire. */
  function Offered(terms: seq<Term>): int {
    if terms == [] then 0
    else
      var front, t := Offered(terms[..|terms| - 1]), terms[|terms| - 1];
      if t.hits > 0 && t.weight > 0 then front + t.weight else front
  }

  /** The loop of matchTermSignals with its cap: clipBodyAward updates `remaining`. */
  method ClippedAwards(terms: seq<Term>, cap: int) returns (given: seq<int>)
    ensures given == Awards(terms, cap).0
  {
    given := [];
    var remaining := cap;
    for i := 0 to |terms|
      invariant Awards(terms[..i], cap) == (given, remaining)
    {
      assert terms[..i + 1][..i] == terms[..i];
      var t := terms[i];
      if t.hits == 0 {
        continue;
      }
      var awarded := t.weight;
      if awarded > 0 {
        if remaining <= 0 {
          awarded := 0;
        } else {
          if awarded > remaining {
            awarded := remaining;
          }
          remaining := remaining - awarded;
        }
      }
      given := given + [awarded];
    }
    assert terms[..|terms|] == terms;
  }

  /** The body bonus is the offered weight or the cap, whichever is less, and never below zero. */
  lemma {:induction false} AwardsFillTheCap(terms: seq<Term>, cap: int)
    ensures var (given, left) := Awards(terms, cap);
      && Offered(terms) >= 0
      && Positive(given) == (if cap <= 0 then 0 else if Offered(terms) <= cap then Offered(terms) else cap)
      && left == (if cap <= 0 then cap else cap - Positive(given))
    decreases |terms|
  {
    if terms == [] {
    } else {
      var n := |terms| - 1;
      AwardsFillTheCap(terms[..n], cap);
      var given := Awards(terms[..n], cap).0;
      var all := Awards(terms, cap).0;
      assert |all| > |given| ==> all[..|all| - 1] == given;
    }
  }

  datatype UserStatus = New | Hidden

  datatype MatchKey = MatchKey(profile: string, job: string)

  datatype Match = Match(outcome: Outcome, runID: nat, userStatus: UserStatus)

  type Matches = map<MatchKey, Match>

  datatype Fault = UnknownProfile | UnknownRun | UnknownJob

  /** Jobs first seen in the window before the start, and jobs whose posting date is too old. */
  predicate Eligible(row: Row, started: int) {
    row.job.firstSeen >= started - SCORE_WINDOW_DAYS * DAY || Stale(row.job.postedAt, started)
  }

  /** What the score service reads: profiles, run starts, jobs, and the verdicts that are ready for the current texts. */
  datatype Store = Store(
    phrases: Phrases, profiles: map<string, Profile>, starts: map<nat, int>, rows: Rows, verdicts: map<string, Facts>)

  function VerdictFor(s: Store, id: string): Option<Facts> {
    if id in s.verdicts then Some(s.verdicts[id]) else None
  }

  /** What a job is worth to a profile in a run. */
  function Worth(s: Store, key: MatchKey, runID: nat): Outcome
    requires key.profile in s.profiles && key.job in s.rows && runID in s.starts
  {
    Evaluate(s.phrases, s.profiles[key.profile], s.rows[key.job].job, s.starts[runID], VerdictFor(s, key.job))
  }

  ghost predicate StoreValid(s: Store) {
    forall id :: id in s.rows ==> s.rows[id].job.id == id && id != ""
  }

  predicate Scores(s: Store, key: MatchKey, profileID: string, runID: nat)
    requires runID in s.starts
  {
    key.profile == profileID && key.job in s.rows && Eligible(s.rows[key.job], s.starts[runID])
  }

  /** The matches are those of before, with every eligible job of the run scored and nothing else touched. */
  ghost predicate IsScored(s: Store, before: Matches, after: Matches, profileID: string, runID: nat)
    requires profileID in s.profiles && runID in s.starts
  {
    && (forall k :: k in after <==> k in before || Scores(s, k, profileID, runID))
    && (forall k :: k in before && !Scores(s, k, profileID, runID) ==> k in after && after[k] == before[k])
    && (forall k :: Scores(s, k, profileID, runID) ==>
          k in after && after[k] == Match(Worth(s, k, runID), runID, if k in before then before[k].userStatus else New))
  }

  /** The matches after a rescore of some jobs: each of their matches is evaluated at its own run's start. */
  ghost predicate IsRescored(s: Store, before: Matches, after: Matches, ids: seq<string>) {
    && after.Keys == before.Keys
    && forall k :: k in before ==>
         if k.job !in ids then after[k] == before[k]
         else && k.profile in s.profiles && k.job in s.rows && before[k].runID in s.starts
              && after[k] == before[k].(outcome := Worth(s, k, before[k].runID))
  }

  function JobKey(j: Job): string {
    j.id
  }

  class Scorer {
    const store: Store
    var matches: Matches

    constructor (store: Store)
      ensures this.store == store && matches == map[]
    {
      this.store := store;
      matches := map[];
    }

    /** A query on the jobs table: its answer in some order. */
    method ListFirstSeenSince(since: int) returns (jobs: seq<Job>)
      requires StoreValid(store)
      ensures forall j :: j in jobs <==> j.id in store.rows && j == store.rows[j.id].job && j.firstSeen >= since
    {
      var rest := store.rows.Keys;
      jobs := [];
      while rest != {}
        invariant rest <= store.rows.Keys
        invariant forall j :: j in jobs <==>
          j.id in store.rows && j.id !in rest && j == store.rows[j.id].job && j.firstSeen >= since
        decreases |rest|
      {
        var id :| id in rest;
        rest := rest - {id};
        if store.rows[id].job.firstSeen >= since {
          jobs := jobs + [store.rows[id].job];
        }
      }
    }

    method ListPostedBefore(cutoff: int) returns (jobs: seq<Job>)
      requires StoreValid(store)
      ensures forall j :: j in jobs <==>
        j.id in store.rows && j == store.rows[j.id].job && j.postedAt.Some? && j.postedAt.value < cutoff
    {
      var rest := store.rows.Keys;
      jobs := [];
      while rest != {}
        invariant rest <= store.rows.Keys
        invariant forall j :: j in jobs <==>
          j.id in store.rows && j.id !in rest && j == store.rows[j.id].job && j.postedAt.Some? && j.postedAt.value < cutoff
        decreases |rest|
      {
        var id :| id in rest;
        rest := rest - {id};
        if store.rows[id].job.postedAt.Some? && store.rows[id].job.postedAt.value < cutoff {
          jobs := jobs + [store.rows[id].job];
        }
      }
    }

    /** The jobs a run scores: each eligible job once. */
    method JobsToScore(started: int) returns (jobs: seq<Job>)
      requires StoreValid(store)
      ensures forall j :: j in jobs <==> j.id in store.rows && j == store.rows[j.id].job && Eligible(store.rows[j.id], started)
      ensures forall j :: j in jobs <==>
        && j.id in store.rows && j == store.rows[j.id].job
        && (j.firstSeen >= started - 10 * 86400 || (j.postedAt.Some? && j.postedAt.value < started - 30 * 86400))
      ensures forall i, k :: 0 <= i < k < |jobs| ==> jobs[i].id != jobs[k].id
    {
      var since := started - SCORE_WINDOW_DAYS * DAY;
      var listed := ListFirstSeenSince(since);
      var stale := ListPostedBefore(started - POSTED_AT_REJECT_DAYS * DAY);
      jobs := KeepFirst(JobKey, listed + stale);
      DedupDistinct(JobKey, listed + stale);
      DedupKeys(JobKey, listed + stale);
      forall j | j in listed + stale ensures j in jobs {
        InKeys(JobKey, listed + stale, j);
        var i :| 0 <= i < |jobs| && JobKey(jobs[i]) == j.id;
        assert jobs[i] in listed + stale;
      }
    }

    method Score(profileID: string, runID: nat) returns (r: Result<nat, Fault>)
      requires StoreValid(store)
      modifies this`matches
      ensures r.Ok? <==> profileID in store.profiles && runID in store.starts
      ensures r.Ok? ==> IsScored(store, old(matches), matches, profileID, runID)
      ensures r.Ok? ==> r.value == |set id | id in store.rows && Eligible(store.rows[id], store.starts[runID])|
      ensures r.Err? ==> matches == old(matches)
    {
      if profileID !in store.profiles {
        return Err(UnknownProfile);
      }
      if runID !in store.starts {
        return Err(UnknownRun);
      }
      var toScore := JobsToScore(store.starts[runID]);
      ScoreAll(toScore, profileID, runID);
      AllScored(toScore, store.starts[runID]);
      SoFarIsScored(old(matches), matches, profileID, runID, Keys(JobKey, toScore));
      DistinctCount(toScore);
      return Ok(|toScore|);
    }

    method ScoreAll(jobs: seq<Job>, profileID: string, runID: nat)
      requires StoreValid(store) && profileID in store.profiles && runID in store.starts
      requires forall j :: j in jobs ==> j.id in store.rows && j == store.rows[j.id].job
      requires forall i, k :: 0 <= i < k < |jobs| ==> jobs[i].id != jobs[k].id
      modifies this`matches
      ensures ScoredSoFar(old(matches), matches, profileID, runID, Keys(JobKey, jobs))
    {
      hide Evaluate, Eligible;
      for i := 0 to |jobs|
        invariant ScoredSoFar(old(matches), matches, profileID, runID, Keys(JobKey, jobs[..i]))
      {
        hide ScoredSoFar;
        assert jobs[i] in jobs;
        NotYet(jobs, i);
        ScoreOne(jobs[i], profileID, runID, old(matches), Keys(JobKey, jobs[..i]));
      }
      assert jobs[..|jobs|] == jobs;
    }

    lemma NotYet(jobs: seq<Job>, i: nat)
      requires i < |jobs| && forall i, k :: 0 <= i < k < |jobs| ==> jobs[i].id != jobs[k].id
      ensures jobs[i].id !in Keys(JobKey, jobs[..i])
      ensures Keys(JobKey, jobs[..i + 1]) == Keys(JobKey, jobs[..i]) + {jobs[i].id}
    {
      KeysAppend(JobKey, jobs[..i], jobs[i]);
      assert jobs[..i + 1] == jobs[..i] + [jobs[i]];
    }

    lemma {:induction false} DistinctCount(jobs: seq<Job>)
      requires forall i, k :: 0 <= i < k < |jobs| ==> jobs[i].id != jobs[k].id
      ensures |Keys(JobKey, jobs)| == |jobs|
      decreases |jobs|
    {
      if jobs == [] {
      } else {
        var n := |jobs| - 1;
        DistinctCount(jobs[..n]);
        NotYet(jobs, n);
        assert jobs[..n + 1] == jobs;
      }
    }

    lemma SoFarIsScored(before: Matches, after: Matches, profileID: string, runID: nat, done: set<string>)
      requires profileID in store.profiles && runID in store.starts
      requires done == set id | id in store.rows && Eligible(store.rows[id], store.starts[runID])
      requires ScoredSoFar(before, after, profileID, runID, done)
      ensures IsScored(store, before, after, profileID, runID)
    {
      hide Evaluate, Eligible;
      forall k | Scores(store, k, profileID, runID) ensures k == MatchKey(profileID, k.job) && k.job in done {
      }
    }

    method ScoreOne(job: Job, profileID: string, runID: nat, ghost before: Matches, ghost done: set<string>)
      requires profileID in store.profiles && runID in store.starts && job.id in store.rows && job == store.rows[job.id].job
      requires job.id !in done && ScoredSoFar(before, matches, profileID, runID, done)
      modifies this`matches
      ensures ScoredSoFar(before, matches, profileID, runID, done + {job.id})
    {
      hide Evaluate;
      var out := Evaluate(store.phrases, store.profiles[profileID], job, store.starts[runID], VerdictFor(store, job.id));
      var key := MatchKey(profileID, job.id);
      assert key in matches <==> key in before;
      matches := matches[key := Match(out, runID, if key in matches then matches[key].userStatus else New)];
    }

    lemma AllScored(jobs: seq<Job>, started: int)
      requires forall j :: j in jobs <==> j.id in store.rows && j == store.rows[j.id].job && Eligible(store.rows[j.id], started)
      requires StoreValid(store)
      ensures Keys(JobKey, jobs) == set id | id in store.rows && Eligible(store.rows[id], started)
    {
      hide Eligible;
      forall id | id in store.rows && Eligible(store.rows[id], started) ensures id in Keys(JobKey, jobs) {
        InKeys(JobKey, jobs, store.rows[id].job);
      }
      forall id | id in Keys(JobKey, jobs) ensures id in store.rows && Eligible(store.rows[id], started) {
        var k :| 0 <= k < |jobs| && JobKey(jobs[k]) == id;
        assert jobs[k] in jobs;
      }
    }

    ghost predicate ScoredSoFar(before: Matches, after: Matches, profileID: string, runID: nat, done: set<string>)
      requires profileID in store.profiles && runID in store.starts
    {
      && done <= store.rows.Keys
      && (forall k :: k in after <==> k in before || (k.profile == profileID && k.job in done))
      && (forall k :: k in before && !(k.profile == profileID && k.job in done) ==> k in after && after[k] == before[k])
      && (forall id :: id in done ==>
            var k := MatchKey(profileID, id);
            k in after && after[k] == Match(Worth(store, k, runID), runID, if k in before then before[k].userStatus else New))
    }

    /** RescoreJobs: every match of the listed jobs is evaluated again, with the verdicts of now, at its own run's start. */
    method RescoreJobs(ids: seq<string>) returns (r: Result<(), Fault>)
      requires StoreValid(store)
      modifies this`matches
      ensures r.Ok? ==> IsRescored(store, old(matches), matches, ids)
      ensures r.Ok? <==> forall k :: k in old(matches) && k.job in ids ==>
        k.job in store.rows && k.profile in store.profiles && old(matches)[k].runID in store.starts
      ensures r == Err(UnknownJob) <==> exists k :: k in old(matches) && k.job in ids && k.job !in store.rows
      ensures r == Err(UnknownJob) ==> matches == old(matches)
      ensures r.Err? ==> PartlyRescored(old(matches), matches, ids)
    {
      hide Evaluate;
      var hit := set k | k in matches && k.job in ids;
      if exists k :: k in hit && k.job !in store.rows {
        return Err(UnknownJob);
      }
      var rest := hit;
      while rest != {}
        invariant rest <= hit && matches.Keys == old(matches).Keys
        invariant forall k :: k in old(matches) && (k !in hit || k in rest) ==> matches[k] == old(matches)[k]
        invariant forall k :: k in hit && k !in rest ==> RescoredOne(old(matches), matches, k)
        decreases |rest|
      {
        var m :| m in rest;
        rest := rest - {m};
        if m.profile !in store.profiles {
          return Err(UnknownProfile);
        }
        if matches[m].runID !in store.starts {
          return Err(UnknownRun);
        }
        var out := Evaluate(store.phrases, store.profiles[m.profile], store.rows[m.job].job, store.starts[matches[m].runID],
                            VerdictFor(store, m.job));
        matches := matches[m := Match(out, matches[m].runID, matches[m].userStatus)];
      }
      return Ok(());
    }

    /** A rescore that stopped on an error: some matches of the listed jobs are evaluated again, the rest are as before. */
    ghost predicate PartlyRescored(before: Matches, after: Matches, ids: seq<string>) {
      && after.Keys == before.Keys
      && forall k :: k in before ==> after[k] == before[k] || (k.job in ids && RescoredOne(before, after, k))
    }

    ghost predicate RescoredOne(before: Matches, after: Matches, k: MatchKey) {
      && k in before && k in after && k.profile in store.profiles && k.job in store.rows && before[k].runID in store.starts
      && after[k] == before[k].(outcome := Worth(store, k, before[k].runID))
    }
  }

  /** First seen in the ten days before the start of the run, or posted more than thirty days before it. */
  predicate InRun(row: Row, started: int) {
    || row.job.firstSeen >= started - 10 * 86400
    || (row.job.postedAt.Some? && row.job.postedAt.value < started - 30 * 86400)
  }

  /** What a job is worth in a run that starts then, with the verdict that is there. */
  function WorthAt(s: Store, profile: string, job: string, started: int): Outcome
    requires profile in s.profiles && job in s.rows
  {
    var verdict := if job in s.verdicts then Some(s.verdicts[job]) else None;
    Evaluate(s.phrases, s.profiles[profile], s.rows[job].job, started, verdict)
  }

  /**
   One match after a score: of the profile and a job in the run, it is new or
   overwritten and keeps its user's status; any other is as before.
   */
  lemma ScoredMatch(s: Store, before: Matches, after: Matches, profileID: string, runID: nat, k: MatchKey)
    requires profileID in s.profiles && runID in s.starts && IsScored(s, before, after, profileID, runID)
    ensures if k.profile == profileID && k.job in s.rows && InRun(s.rows[k.job], s.starts[runID]) then
        && k in after && after[k].runID == runID && after[k].outcome == WorthAt(s, profileID, k.job, s.starts[runID])
        && after[k].userStatus == (if k in before then before[k].userStatus else New)
      else (k in after <==> k in before) && (k in before ==> after[k] == before[k])
  {
    hide Evaluate;
  }

  /** One match after a rescore: that of a listed job is what it is worth now at the start of its own run. */
  lemma RescoredMatch(s: Store, before: Matches, after: Matches, ids: seq<string>, k: MatchKey)
    requires IsRescored(s, before, after, ids)
    ensures (k in after <==> k in before) && (k in before && k.job !in ids ==> after[k] == before[k])
    ensures k in before && k.job in ids ==>
      && k.profile in s.profiles && k.job in s.rows && before[k].runID in s.starts
      && after[k].runID == before[k].runID && after[k].userStatus == before[k].userStatus
      && after[k].outcome == WorthAt(s, k.profile, k.job, s.starts[before[k].runID])
  {
    hide Evaluate;
  }

  /** The same store with other verdicts. */
  function WithVerdicts(s: Store, verdicts: map<string, Facts>): Store {
    s.(verdicts := verdicts)
  }

  /** The two verdict tables agree on every job that is not listed. */
  ghost predicate AgreeOff(v: map<string, Facts>, w: map<string, Facts>, ids: seq<string>) {
    forall id :: id !in ids ==> (id in v <==> id in w) && (id in v ==> v[id] == w[id])
  }

  /**
   Incremental scoring is scoring from scratch: a run scored with the verdicts of
   then, and rescored when verdicts for some jobs arrive, has the matches it
   would have if it had been scored with all the verdicts of now.
   */
  lemma RescoreIsScoring(
      s: Store, w: map<string, Facts>, m0: Matches, m1: Matches, m2: Matches, profileID: string, runID: nat,
      ids: seq<string>, k: MatchKey)
    requires profileID in s.profiles && runID in s.starts && AgreeOff(s.verdicts, w, ids)
    requires IsScored(s, m0, m1, profileID, runID) && IsRescored(WithVerdicts(s, w), m1, m2, ids)
    requires Scores(s, k, profileID, runID)
    ensures k in m2
    ensures m2[k] == Match(Worth(WithVerdicts(s, w), k, runID), runID, if k in m0 then m0[k].userStatus else New)
  {
    hide Evaluate, Eligible;
    assert k in m1;
  }

  /** Every match is what its own run would write with these verdicts. */
  ghost predicate UpToDate(s: Store, matches: Matches) {
    forall k :: k in matches ==>
      && k.profile in s.profiles && k.job in s.rows && matches[k].runID in s.starts
      && matches[k].outcome == Worth(s, k, matches[k].runID)
  }
}
