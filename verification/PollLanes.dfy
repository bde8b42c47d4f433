/**
 PollCompaniesWorkflow: one coroutine for each due company, one semaphore for
 each ATS, and counters shared under a mutex. Every wait of a coroutine is a
 step, so a run is any interleaving of the steps below. Activity results are
 chosen by the environment. Cancellation is not part of this model: without it
 neither the semaphore nor the mutex returns an error.
 */
module PollLanes {
  import opened PollOutcomes
  import opened Prelude

  /** What the poll activity returns after its own retries. */
  datatype PollReply =
    | Polled(outcome: Outcome, upserted: int, closed: int)
    | Skipped
    | BusinessSkip
    | TransportError

  datatype Counters = Counters(
    polled: int, notModified: int, partials: int, failures: int, upserted: int, closed: int)

  const ZERO: Counters := Counters(0, 0, 0, 0, 0, 0)

  function Plus(a: Counters, b: Counters): Counters {
    Counters(a.polled + b.polled, a.notModified + b.notModified, a.partials + b.partials,
             a.failures + b.failures, a.upserted + b.upserted, a.closed + b.closed)
  }

  /** ATSCountersFromPoll. */
  function CountersFromPoll(r: PollReply): Counters {
    match r
    case Polled(outcome, upserted, closed) =>
      Counters(1,
               if outcome == NotModified then 1 else 0,
               if outcome == Partial then 1 else 0,
               if outcome == DeadSlug then 1 else 0,
               upserted, closed)
    case _ => ZERO
  }

  /** What a target adds to the result: its poll's counters, or one failure for an exhausted transport error. */
  function Delta(r: PollReply): Counters {
    if r.TransportError? then ZERO.(failures := 1) else CountersFromPoll(r)
  }

  datatype Target = Target(companyKey: string, ats: string)

  /** The targets of one ATS, in list order. */
  function LaneOf(targets: seq<Target>, ats: string): seq<Target> {
    if targets == [] then [] else LaneOf(targets[..|targets| - 1], ats) + Chosen(targets[|targets| - 1], ats)
  }

  function Chosen(t: Target, ats: string): seq<Target> {
    if t.ats == ats then [t] else []
  }

  lemma {:induction false} LaneMembers(targets: seq<Target>, ats: string, t: Target)
    ensures t in LaneOf(targets, ats) <==> t in targets && t.ats == ats
    ensures |LaneOf(targets, ats)| <= |targets|
    decreases |targets|
  {
    if targets == [] {
    } else {
      var n := |targets| - 1;
      LaneMembers(targets[..n], ats, t);
      assert targets == targets[..n] + [targets[n]];
    }
  }

  /** A lane for each ATS that occurs, and no other; each holds its targets in list order. */
  ghost predicate AreLanes(targets: seq<Target>, lanes: map<string, seq<Target>>) {
    && (forall ats :: ats in lanes <==> LaneOf(targets, ats) != [])
    && (forall ats :: ats in lanes ==> lanes[ats] == LaneOf(targets, ats))
  }

  lemma AddTarget(targets: seq<Target>, t: Target, lanes: map<string, seq<Target>>)
    requires AreLanes(targets, lanes)
    ensures AreLanes(targets + [t], lanes[t.ats := (if t.ats in lanes then lanes[t.ats] else []) + [t]])
  {
    assert (targets + [t])[..|targets|] == targets;
    forall ats ensures LaneOf(targets + [t], ats) == LaneOf(targets, ats) + Chosen(t, ats) {
    }
  }

  /** The loop that sorts the due targets into lanes. */
  method BuildLanes(targets: seq<Target>) returns (lanes: map<string, seq<Target>>)
    ensures AreLanes(targets, lanes)
  {
    lanes := map[];
    for i := 0 to |targets|
      invariant AreLanes(targets[..i], lanes)
    {
      hide AreLanes;
      AddTarget(targets[..i], targets[i], lanes);
      assert targets[..i + 1] == targets[..i] + [targets[i]];
      var t := targets[i];
      var lane := if t.ats in lanes then lanes[t.ats] else [];
      lanes := lanes[t.ats := lane + [t]];
    }
    assert targets[..|targets|] == targets;
  }

  /** The width of each lane: the configured one, or five. */
  function Concurrency(configured: int): (n: nat)
    ensures n >= 1
  {
    if configured < 1 then 5 else configured
  }

  /** Where a coroutine stands. From `Polling` to `Leaving` it holds a permit of its lane. */
  datatype Phase =
    | Waiting
    | Polling
    | Recording
    | WantsLock(reply: PollReply)
    | HasLock(reply: PollReply)
    | Leaving
    | Done

  datatype State = State(
    phases: seq<Phase>,
    replies: seq<Option<PollReply>>,
    polls: seq<nat>,
    permits: map<string, nat>,
    locked: bool,
    out: Counters)

  predicate InLane(p: Phase) {
    !p.Waiting? && !p.Done?
  }

  /** How many coroutines of `ats` hold a permit. */
  function Busy(targets: seq<Target>, phases: seq<Phase>, ats: string): nat
    requires |targets| == |phases|
  {
    if targets == [] then 0
    else (if targets[0].ats == ats && InLane(phases[0]) then 1 else 0) + Busy(targets[1..], phases[1..], ats)
  }

  function Holders(phases: seq<Phase>): nat {
    if phases == [] then 0 else (if phases[0].HasLock? then 1 else 0) + Holders(phases[1..])
  }

  /** The coroutine has added what it had to add, or had nothing to add. */
  predicate Settled(p: Phase) {
    p.Leaving? || p.Done?
  }

  function SettledDelta(p: Phase, r: Option<PollReply>): Counters {
    if Settled(p) && r.Some? then Delta(r.value) else ZERO
  }

  /** The counters of all coroutines that have settled, in list order. */
  function SettledSum(phases: seq<Phase>, replies: seq<Option<PollReply>>): Counters
    requires |phases| == |replies|
  {
    if phases == [] then ZERO
    else Plus(SettledDelta(phases[0], replies[0]), SettledSum(phases[1..], replies[1..]))
  }

  function Start(targets: seq<Target>, concurrency: nat): State {
    State(seq(|targets|, _ => Waiting), seq(|targets|, _ => None), seq(|targets|, _ => 0),
          map i | 0 <= i < |targets| :: targets[i].ats := concurrency, false, ZERO)
  }

  /** A step of coroutine `i`. `reply` is what the environment answers when a poll ends. */
  datatype Event = Event(i: nat, reply: PollReply)

  function Move(s: State, i: nat, p: Phase): State
    requires i < |s.phases|
  {
    s.(phases := s.phases[i := p])
  }

  ghost predicate Shaped(targets: seq<Target>, s: State) {
    && |s.phases| == |s.replies| == |s.polls| == |targets|
    && forall i :: 0 <= i < |targets| ==> targets[i].ats in s.permits
  }

  /** Coroutine `e.i` can move: it waits for no permit and no lock that is taken. */
  predicate Enabled(targets: seq<Target>, s: State, e: Event)
    requires Shaped(targets, s)
  {
    && e.i < |targets|
    && match s.phases[e.i]
       case Waiting => s.permits[targets[e.i].ats] > 0
       case WantsLock(_) => !s.locked
       case Done => false
       case _ => true
  }

  function Step(targets: seq<Target>, s: State, e: Event): State
    requires Shaped(targets, s) && Enabled(targets, s, e)
  {
    var ats := targets[e.i].ats;
    match s.phases[e.i]
    case Waiting =>
      Move(s, e.i, Polling).(permits := s.permits[ats := s.permits[ats] - 1])
    case Polling =>
      Move(s, e.i, match e.reply
                   case Polled(_, _, _) => WantsLock(e.reply)
                   case TransportError => Recording
                   case _ => Leaving)
      .(replies := s.replies[e.i := Some(e.reply)], polls := s.polls[e.i := s.polls[e.i] + 1])
    case Recording => Move(s, e.i, WantsLock(TransportError))
    case WantsLock(r) => Move(s, e.i, HasLock(r)).(locked := true)
    case HasLock(r) => Move(s, e.i, Leaving).(locked := false, out := Plus(s.out, Delta(r)))
    case Leaving => Move(s, e.i, Done).(permits := s.permits[ats := s.permits[ats] + 1])
    case Done => s
  }

  /** What each coroutine's own record says. */
  ghost predicate OwnRecord(p: Phase, r: Option<PollReply>, polls: nat) {
    && polls == (if p.Waiting? || p.Polling? then 0 else 1)
    && (r.None? <==> p.Waiting? || p.Polling?)
    && (p.Recording? ==> r == Some(TransportError))
    && (p.WantsLock? || p.HasLock? ==> r == Some(p.reply) && (p.reply.Polled? || p.reply.TransportError?))
  }

  ghost predicate Records(s: State) {
    && |s.phases| == |s.replies| == |s.polls|
    && forall i :: 0 <= i < |s.phases| ==> OwnRecord(s.phases[i], s.replies[i], s.polls[i])
  }

  /** Free permits and busy coroutines of a lane add up to its concurrency. */
  ghost predicate Permits(targets: seq<Target>, concurrency: nat, s: State)
    requires |targets| == |s.phases|
  {
    forall ats :: ats in s.permits ==> s.permits[ats] + Busy(targets, s.phases, ats) == concurrency
  }

  ghost predicate Inv(targets: seq<Target>, concurrency: nat, s: State) {
    && Shaped(targets, s)
    && Records(s)
    && Permits(targets, concurrency, s)
    && Holders(s.phases) == (if s.locked then 1 else 0)
    && s.out == SettledSum(s.phases, s.replies)
  }

  lemma {:induction false} BusyUpdate(targets: seq<Target>, phases: seq<Phase>, i: nat, p: Phase, ats: string)
    requires |targets| == |phases| && i < |phases|
    ensures Busy(targets, phases[i := p], ats)
      + (if targets[i].ats == ats && InLane(phases[i]) then 1 else 0)
      == Busy(targets, phases, ats) + (if targets[i].ats == ats && InLane(p) then 1 else 0)
    decreases |phases|
  {
    if i == 0 {
      assert phases[i := p][1..] == phases[1..];
    } else {
      BusyUpdate(targets[1..], phases[1..], i - 1, p, ats);
      assert phases[i := p][1..] == phases[1..][i - 1 := p];
    }
  }

  lemma {:induction false} HoldersUpdate(phases: seq<Phase>, i: nat, p: Phase)
    requires i < |phases|
    ensures Holders(phases[i := p]) + (if phases[i].HasLock? then 1 else 0)
      == Holders(phases) + (if p.HasLock? then 1 else 0)
    decreases |phases|
  {
    if i == 0 {
      assert phases[i := p][1..] == phases[1..];
    } else {
      HoldersUpdate(phases[1..], i - 1, p);
      assert phases[i := p][1..] == phases[1..][i - 1 := p];
    }
  }

  lemma PlusLaws(a: Counters, b: Counters, c: Counters)
    ensures Plus(Plus(a, b), c) == Plus(a, Plus(b, c)) == Plus(Plus(c, b), a)
  {
  }

  lemma {:induction false} SumUpdate(
      phases: seq<Phase>, replies: seq<Option<PollReply>>, i: nat, p: Phase, r: Option<PollReply>)
    requires |phases| == |replies| && i < |phases|
    ensures Plus(SettledSum(phases[i := p], replies[i := r]), SettledDelta(phases[i], replies[i]))
      == Plus(SettledSum(phases, replies), SettledDelta(p, r))
    decreases |phases|
  {
    hide Plus, SettledDelta;
    if i == 0 {
      assert phases[i := p][1..] == phases[1..] && replies[i := r][1..] == replies[1..];
      PlusLaws(SettledDelta(p, r), SettledSum(phases[1..], replies[1..]), SettledDelta(phases[0], replies[0]));
    } else {
      SumUpdate(phases[1..], replies[1..], i - 1, p, r);
      assert phases[i := p][1..] == phases[1..][i - 1 := p];
      assert replies[i := r][1..] == replies[1..][i - 1 := r];
      var head := SettledDelta(phases[0], replies[0]);
      PlusLaws(head, SettledSum(phases[i := p][1..], replies[i := r][1..]), SettledDelta(phases[i], replies[i]));
      PlusLaws(head, SettledSum(phases[1..], replies[1..]), SettledDelta(p, r));
    }
  }

  lemma {:induction false} StartInv(targets: seq<Target>, concurrency: nat)
    ensures Inv(targets, concurrency, Start(targets, concurrency))
  {
    StartShape(targets, concurrency);
    var s := Start(targets, concurrency);
    IdlePermits(targets, concurrency, s);
    IdleCounts(targets, s.phases, s.replies, "");
    IdleRecords(s);
  }

  lemma {:induction false} StartShape(targets: seq<Target>, concurrency: nat)
    ensures var s := Start(targets, concurrency);
      && Shaped(targets, s)
      && (forall i :: 0 <= i < |targets| ==> s.phases[i] == Waiting)
      && (forall i :: 0 <= i < |targets| ==> s.replies[i] == None)
      && (forall i :: 0 <= i < |targets| ==> s.polls[i] == 0)
      && (forall ats :: ats in s.permits ==> s.permits[ats] == concurrency)
      && !s.locked && s.out == ZERO
  {
  }

  lemma {:induction false} IdleRecords(s: State)
    requires |s.phases| == |s.replies| == |s.polls|
    requires forall i :: 0 <= i < |s.phases| ==> s.phases[i] == Waiting && s.replies[i] == None && s.polls[i] == 0
    ensures Records(s)
  {
  }

  lemma {:induction false} IdlePermits(targets: seq<Target>, concurrency: nat, s: State)
    requires |targets| == |s.phases| == |s.replies| && forall i :: 0 <= i < |s.phases| ==> s.phases[i] == Waiting
    requires forall ats :: ats in s.permits ==> s.permits[ats] == concurrency
    ensures Permits(targets, concurrency, s)
  {
    forall ats | ats in s.permits ensures s.permits[ats] + Busy(targets, s.phases, ats) == concurrency {
      IdleCounts(targets, s.phases, s.replies, ats);
    }
  }

  lemma {:induction false} IdleCounts(targets: seq<Target>, phases: seq<Phase>, replies: seq<Option<PollReply>>, ats: string)
    requires |targets| == |phases| == |replies| && forall i :: 0 <= i < |phases| ==> phases[i] == Waiting
    ensures Busy(targets, phases, ats) == 0 && Holders(phases) == 0 && SettledSum(phases, replies) == ZERO
    decreases |phases|
  {
    if phases == [] {
    } else {
      IdleCounts(targets[1..], phases[1..], replies[1..], ats);
    }
  }

  lemma {:induction false} StepRecords(targets: seq<Target>, s: State, e: Event)
    requires Shaped(targets, s) && Records(s) && Enabled(targets, s, e)
    ensures Records(Step(targets, s, e))
  {
    assert OwnRecord(s.phases[e.i], s.replies[e.i], s.polls[e.i]);
  }

  lemma {:induction false} StepPermits(targets: seq<Target>, concurrency: nat, s: State, e: Event)
    requires Shaped(targets, s) && Permits(targets, concurrency, s) && Enabled(targets, s, e)
    ensures Permits(targets, concurrency, Step(targets, s, e))
  {
    var t := Step(targets, s, e);
    forall ats | ats in t.permits ensures t.permits[ats] + Busy(targets, t.phases, ats) == concurrency {
      BusyUpdate(targets, s.phases, e.i, t.phases[e.i], ats);
      assert t.phases == s.phases[e.i := t.phases[e.i]];
    }
  }

  lemma {:induction false} StepLock(targets: seq<Target>, s: State, e: Event)
    requires Shaped(targets, s) && Enabled(targets, s, e) && Holders(s.phases) == (if s.locked then 1 else 0)
    ensures var t := Step(targets, s, e); Holders(t.phases) == (if t.locked then 1 else 0)
  {
    var t := Step(targets, s, e);
    HoldersUpdate(s.phases, e.i, t.phases[e.i]);
    assert t.phases == s.phases[e.i := t.phases[e.i]];
  }

  lemma {:induction false} StepSum(targets: seq<Target>, s: State, e: Event)
    requires Shaped(targets, s) && Enabled(targets, s, e) && OwnRecord(s.phases[e.i], s.replies[e.i], s.polls[e.i])
    requires s.out == SettledSum(s.phases, s.replies)
    ensures var t := Step(targets, s, e); t.out == SettledSum(t.phases, t.replies)
  {
    StepTouchesOne(targets, s, e);
    DeltaOfStep(targets, s, e);
    var t := Step(targets, s, e);
    OneSettles(s.phases, s.replies, e.i, t.phases[e.i], t.replies[e.i], t.out);
  }

  lemma {:induction false} StepTouchesOne(targets: seq<Target>, s: State, e: Event)
    requires Shaped(targets, s) && Enabled(targets, s, e)
    ensures var t := Step(targets, s, e);
      && |t.phases| == |t.replies| == |s.phases|
      && t.phases == s.phases[e.i := t.phases[e.i]] && t.replies == s.replies[e.i := t.replies[e.i]]
  {
  }

  lemma {:induction false} OneSettles(
      phases: seq<Phase>, replies: seq<Option<PollReply>>, i: nat, p: Phase, r: Option<PollReply>, out: Counters)
    requires |phases| == |replies| && i < |phases|
    requires var before, after := SettledDelta(phases[i], replies[i]), SettledDelta(p, r);
      || (before == ZERO && out == Plus(SettledSum(phases, replies), after))
      || (before == after && out == SettledSum(phases, replies))
    ensures out == SettledSum(phases[i := p], replies[i := r])
  {
    SumUpdate(phases, replies, i, p, r);
    Balance(SettledSum(phases[i := p], replies[i := r]), SettledSum(phases, replies),
            SettledDelta(phases[i], replies[i]), SettledDelta(p, r));
  }

  /** Only the coroutine that holds the lock settles with something to add. */
  lemma {:induction false} DeltaOfStep(targets: seq<Target>, s: State, e: Event)
    requires Shaped(targets, s) && Enabled(targets, s, e) && OwnRecord(s.phases[e.i], s.replies[e.i], s.polls[e.i])
    ensures var t := Step(targets, s, e);
      var before, after := SettledDelta(s.phases[e.i], s.replies[e.i]), SettledDelta(t.phases[e.i], t.replies[e.i]);
      if s.phases[e.i].HasLock? then before == ZERO && after == Delta(s.phases[e.i].reply) && t.out == Plus(s.out, after)
      else before == after && t.out == s.out
  {
  }

  lemma {:induction false} Balance(a: Counters, b: Counters, before: Counters, after: Counters)
    requires Plus(a, before) == Plus(b, after)
    ensures before == ZERO ==> a == Plus(b, after)
    ensures before == after ==> a == b
  {
  }

  lemma {:induction false} StepInv(targets: seq<Target>, concurrency: nat, s: State, e: Event)
    requires Inv(targets, concurrency, s) && Enabled(targets, s, e)
    ensures Inv(targets, concurrency, Step(targets, s, e))
  {
    StepRecords(targets, s, e);
    StepPermits(targets, concurrency, s, e);
    StepLock(targets, s, e);
    StepSum(targets, s, e);
  }

  /** A schedule: every event is enabled when it comes. */
  ghost predicate Schedule(targets: seq<Target>, s: State, es: seq<Event>)
    decreases |es|
  {
    && Shaped(targets, s)
    && (es != [] ==> Enabled(targets, s, es[0]) && Schedule(targets, Step(targets, s, es[0]), es[1..]))
  }

  ghost function RunOf(targets: seq<Target>, s: State, es: seq<Event>): (t: State)
    requires Schedule(targets, s, es)
    ensures Shaped(targets, t) && t.permits.Keys == s.permits.Keys
    decreases |es|
  {
    if es == [] then s else RunOf(targets, Step(targets, s, es[0]), es[1..])
  }

  lemma {:induction false} RunInv(targets: seq<Target>, concurrency: nat, s: State, es: seq<Event>)
    requires Inv(targets, concurrency, s) && Schedule(targets, s, es)
    ensures Inv(targets, concurrency, RunOf(targets, s, es))
    decreases |es|
  {
    if es == [] {
    } else {
      StepInv(targets, concurrency, s, es[0]);
      RunInv(targets, concurrency, Step(targets, s, es[0]), es[1..]);
    }
  }

  /** In every schedule at most as many targets of one ATS are at work as the lane is wide. */
  lemma {:induction false} LaneBound(targets: seq<Target>, configured: int, es: seq<Event>, ats: string)
    requires Schedule(targets, Start(targets, Concurrency(configured)), es)
    ensures Busy(targets, RunOf(targets, Start(targets, Concurrency(configured)), es).phases, ats)
      <= if configured > 0 then configured else 5
  {
    var concurrency := Concurrency(configured);
    var s := RunOf(targets, Start(targets, concurrency), es);
    StartInv(targets, concurrency);
    RunInv(targets, concurrency, Start(targets, concurrency), es);
    if ats !in s.permits {
      StrangerIdle(targets, s.phases, ats);
    }
  }

  lemma {:induction false} StrangerIdle(targets: seq<Target>, phases: seq<Phase>, ats: string)
    requires |targets| == |phases| && forall i :: 0 <= i < |targets| ==> targets[i].ats != ats
    ensures Busy(targets, phases, ats) == 0
    decreases |targets|
  {
    if targets == [] {
    } else {
      StrangerIdle(targets[1..], phases[1..], ats);
    }
  }

  lemma {:induction false} BusyMember(targets: seq<Target>, phases: seq<Phase>, ats: string) returns (i: nat)
    requires |targets| == |phases| && Busy(targets, phases, ats) > 0
    ensures i < |phases| && InLane(phases[i])
    decreases |phases|
  {
    if targets[0].ats == ats && InLane(phases[0]) {
      i := 0;
    } else {
      var k := BusyMember(targets[1..], phases[1..], ats);
      i := k + 1;
    }
  }

  lemma {:induction false} LockMember(phases: seq<Phase>) returns (i: nat)
    requires Holders(phases) > 0
    ensures i < |phases| && phases[i].HasLock?
    decreases |phases|
  {
    if phases[0].HasLock? {
      i := 0;
    } else {
      var k := LockMember(phases[1..]);
      i := k + 1;
    }
  }

  /** No deadlock: until every target is done, some coroutine can move, whatever its poll answers. */
  lemma {:induction false} SomeStepEnabled(targets: seq<Target>, concurrency: nat, s: State, i: nat) returns (k: nat)
    requires Inv(targets, concurrency, s) && concurrency >= 1
    requires i < |targets| && !s.phases[i].Done?
    ensures Enabled(targets, s, Event(k, Skipped)) && forall r :: Enabled(targets, s, Event(k, r))
  {
    k := i;
    if s.phases[k].Waiting? && s.permits[targets[k].ats] == 0 {
      k := BusyMember(targets, s.phases, targets[k].ats);
    }
    if s.phases[k].WantsLock? && s.locked {
      k := LockMember(s.phases);
    }
  }

  /** How many steps a coroutine may still take. */
  function Left(p: Phase): nat {
    match p
    case Waiting => 6
    case Polling => 5
    case Recording => 4
    case WantsLock(_) => 3
    case HasLock(_) => 2
    case Leaving => 1
    case Done => 0
  }

  function AllLeft(phases: seq<Phase>): nat {
    if phases == [] then 0 else Left(phases[0]) + AllLeft(phases[1..])
  }

  lemma {:induction false} LeftUpdate(phases: seq<Phase>, i: nat, p: Phase)
    requires i < |phases|
    ensures AllLeft(phases[i := p]) + Left(phases[i]) == AllLeft(phases) + Left(p)
    decreases |phases|
  {
    if i == 0 {
      assert phases[i := p][1..] == phases[1..];
    } else {
      LeftUpdate(phases[1..], i - 1, p);
      assert phases[i := p][1..] == phases[1..][i - 1 := p];
    }
  }

  lemma {:induction false} SchedulesEnd(targets: seq<Target>, s: State, es: seq<Event>)
    requires Schedule(targets, s, es)
    ensures |es| <= AllLeft(s.phases)
    decreases |es|
  {
    if es == [] {
    } else {
      var t := Step(targets, s, es[0]);
      LeftUpdate(s.phases, es[0].i, t.phases[es[0].i]);
      assert t.phases == s.phases[es[0].i := t.phases[es[0].i]];
      SchedulesEnd(targets, t, es[1..]);
    }
  }

  lemma {:induction false} AllWaitingLeft(phases: seq<Phase>)
    requires forall i :: 0 <= i < |phases| ==> phases[i] == Waiting
    ensures AllLeft(phases) == 6 * |phases|
    decreases |phases|
  {
    if phases == [] {
    } else {
      AllWaitingLeft(phases[1..]);
    }
  }

  /** The sum of what the replies are worth, in list order. */
  function ReplySum(replies: seq<Option<PollReply>>): Counters {
    if replies == [] then ZERO
    else Plus(if replies[0].Some? then Delta(replies[0].value) else ZERO, ReplySum(replies[1..]))
  }

  lemma {:induction false} DoneSum(phases: seq<Phase>, replies: seq<Option<PollReply>>)
    requires |phases| == |replies| && forall i :: 0 <= i < |phases| ==> phases[i].Done?
    ensures SettledSum(phases, replies) == ReplySum(replies)
    decreases |phases|
  {
    if phases == [] {
    } else {
      DoneSum(phases[1..], replies[1..]);
    }
  }

  /**
   Every schedule is finite, and one that cannot be continued has polled each
   target exactly once, given every permit back, and counted each target's
   reply once, whatever the order in which the coroutines ran.
   */
  lemma {:induction false} FinishedRun(targets: seq<Target>, configured: int, es: seq<Event>)
    requires Schedule(targets, Start(targets, Concurrency(configured)), es)
    ensures |es| <= 6 * |targets|
    ensures var s := RunOf(targets, Start(targets, Concurrency(configured)), es);
      Shaped(targets, s) && ((forall e :: !Enabled(targets, s, e)) ==>
        && (forall i :: 0 <= i < |targets| ==> s.phases[i] == Done && s.polls[i] == 1 && s.replies[i].Some?)
        && (forall ats :: ats in s.permits ==> s.permits[ats] == Concurrency(configured))
        && s.out == ReplySum(s.replies))
  {
    hide Step, Enabled, Plus, Delta, Holders, Records;
    var concurrency := Concurrency(configured);
    var s0 := Start(targets, concurrency);
    var s := RunOf(targets, s0, es);
    AllWaitingLeft(s0.phases);
    SchedulesEnd(targets, s0, es);
    StartInv(targets, concurrency);
    RunInv(targets, concurrency, s0, es);
    if forall e :: !Enabled(targets, s, e) {
      StuckIsDone(targets, concurrency, s);
      DoneSum(s.phases, s.replies);
      forall ats | ats in s.permits ensures s.permits[ats] == Concurrency(configured) {
        DoneIdle(targets, s.phases, ats);
      }
    }
  }

  lemma {:induction false} StuckIsDone(targets: seq<Target>, concurrency: nat, s: State)
    requires Inv(targets, concurrency, s) && concurrency >= 1 && forall e :: !Enabled(targets, s, e)
    ensures forall i :: 0 <= i < |targets| ==> s.phases[i] == Done && s.polls[i] == 1 && s.replies[i].Some?
  {
    forall i | 0 <= i < |targets| ensures s.phases[i] == Done && s.polls[i] == 1 && s.replies[i].Some? {
      assert OwnRecord(s.phases[i], s.replies[i], s.polls[i]);
      if !s.phases[i].Done? {
        var _ := SomeStepEnabled(targets, concurrency, s, i);
      }
    }
  }

  lemma {:induction false} DoneIdle(targets: seq<Target>, phases: seq<Phase>, ats: string)
    requires |targets| == |phases| && forall i :: 0 <= i < |phases| ==> phases[i].Done?
    ensures Busy(targets, phases, ats) == 0
    decreases |phases|
  {
    if phases == [] {
    } else {
      DoneIdle(targets[1..], phases[1..], ats);
    }
  }

  /** Two finished runs with the same replies end with the same counters. */
  lemma {:induction false} OrderDoesNotMatter(targets: seq<Target>, c: int, d: int, es: seq<Event>, fs: seq<Event>)
    requires Schedule(targets, Start(targets, Concurrency(c)), es) && Schedule(targets, Start(targets, Concurrency(d)), fs)
    requires var s, t := RunOf(targets, Start(targets, Concurrency(c)), es), RunOf(targets, Start(targets, Concurrency(d)), fs);
      && Shaped(targets, s) && Shaped(targets, t)
      && (forall e :: !Enabled(targets, s, e)) && (forall e :: !Enabled(targets, t, e)) && s.replies == t.replies
    ensures RunOf(targets, Start(targets, Concurrency(c)), es).out == RunOf(targets, Start(targets, Concurrency(d)), fs).out
  {
    FinishedRun(targets, c, es);
    FinishedRun(targets, d, fs);
  }

  /** How many of the targets were answered with this outcome. */
  function Answers(replies: seq<Option<PollReply>>, outcome: Outcome): nat {
    if replies == [] then 0
    else
      var r := replies[0];
      (if r.Some? && r.value.Polled? && r.value.outcome == outcome then 1 else 0) + Answers(replies[1..], outcome)
  }

  /** How many polls failed for good in transport. */
  function Exhausted(replies: seq<Option<PollReply>>): nat {
    if replies == [] then 0 else (if replies[0] == Some(TransportError) then 1 else 0) + Exhausted(replies[1..])
  }

  /** The jobs that the polls report as written, and as closed. */
  function JobsWritten(replies: seq<Option<PollReply>>): int {
    if replies == [] then 0
    else (if replies[0].Some? && replies[0].value.Polled? then replies[0].value.upserted else 0) + JobsWritten(replies[1..])
  }

  function JobsClosed(replies: seq<Option<PollReply>>): int {
    if replies == [] then 0
    else (if replies[0].Some? && replies[0].value.Polled? then replies[0].value.closed else 0) + JobsClosed(replies[1..])
  }

  lemma {:induction false} ReplySumIs(replies: seq<Option<PollReply>>)
    ensures var out := ReplySum(replies);
      && out.polled == Answers(replies, Complete) + Answers(replies, Partial) + Answers(replies, Empty)
           + Answers(replies, NotModified) + Answers(replies, DeadSlug)
      && out.notModified == Answers(replies, NotModified) && out.partials == Answers(replies, Partial)
      && out.failures == Answers(replies, DeadSlug) + Exhausted(replies)
      && out.upserted == JobsWritten(replies) && out.closed == JobsClosed(replies)
    decreases |replies|
  {
    if replies == [] {
    } else {
      ReplySumIs(replies[1..]);
    }
  }

  /**
   The counters of a finished run, by the replies: polled are the answered targets
   of all five outcomes, failures the DEAD_SLUG answers and the exhausted transports.
   */
  lemma CountersAre(targets: seq<Target>, configured: int, es: seq<Event>)
    requires Schedule(targets, Start(targets, Concurrency(configured)), es)
    requires var s := RunOf(targets, Start(targets, Concurrency(configured)), es);
      Shaped(targets, s) && forall e :: !Enabled(targets, s, e)
    ensures var s := RunOf(targets, Start(targets, Concurrency(configured)), es);
      && s.out.polled == Answers(s.replies, Complete) + Answers(s.replies, Partial) + Answers(s.replies, Empty)
           + Answers(s.replies, NotModified) + Answers(s.replies, DeadSlug)
      && s.out.notModified == Answers(s.replies, NotModified) && s.out.partials == Answers(s.replies, Partial)
      && s.out.failures == Answers(s.replies, DeadSlug) + Exhausted(s.replies)
      && s.out.upserted == JobsWritten(s.replies) && s.out.closed == JobsClosed(s.replies)
  {
    hide Enabled, RunOf, Schedule;
    FinishedRun(targets, configured, es);
    ReplySumIs(RunOf(targets, Start(targets, Concurrency(configured)), es).replies);
  }
}
