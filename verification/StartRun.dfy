/**
 The idempotent start of a profile run. `World` is any number of `StartRun`
 calls at once over one run table and one workflow server: every query, insert,
 update and workflow request of a call is one step. Failures of the database
 and of the workflow client are chosen by the environment.
 */
module StartRun {
  import opened Prelude

  /** An idempotency key; zero is the nil UUID. */
  type Key = nat

  datatype Status = Running | Succeeded | Failed

  /** A row of profile_runs. Its id is its place in the table. */
  datatype Run = Run(profile: string, key: Key, status: Status)

  datatype Found = Found(id: nat, run: Run)

  /** `Storage` is any other error of a repository call, its argument checks included. */
  datatype Fault =
    | UnknownProfile
    | Storage
    | RunNotFound
    | KeyConflict
    | AlreadyRunning
    | StarterMissing
    | StartFailed
    | FinishFailed
    | DuplicateKey
    | Stopped

  /** How far a call has come. */
  datatype Stage =
    | Asked
    | Known
    | Missed
    | Cleared
    | Duplicate
    | Created(id: nat)
    | Failing(id: nat, cause: Fault)
    | Returned(result: Result<Found, Fault>)

  datatype Call = Call(profile: string, key: Key, stage: Stage)

  /**
   The workflow client's reply to a start request. `Reject`: an error, nothing
   started. `LostReply`: an error although the server took the request.
   `Join`: an open workflow of that id is handed back without an error.
   */
  datatype StartReply = NoStarter | Accept | Reject | LostReply | Join

  /** The fate of a database command: `NotDone` was not carried out, `Lost` was, but both are errors to the caller. */
  datatype StorageReply = Done | NotDone | Lost

  /** What the environment decides about one step. */
  datatype Env = Env(known: bool, storage: StorageReply, start: StartReply)

  /**
   `open`: the run of each profile's open workflow. `abandoned`: the rows whose
   call ended without having started a workflow for them or closed them.
   */
  datatype World = World(rows: seq<Run>, open: map<string, nat>, abandoned: set<nat>, calls: map<nat, Call>)

  datatype Event =
    | Ask(c: nat, profile: string, key: Key)
    | Advance(c: nat, env: Env)
    /** The process of the call ends before the call does. */
    | Stop(c: nat)
    | Mark(profile: string, status: Status)
    | Close(profile: string)

  const EMPTY: World := World([], map[], {}, map[])

  /** The newest row that has the key. */
  function ByKey(rows: seq<Run>, key: Key): Option<nat> {
    if rows == [] then None
    else if rows[|rows| - 1].key == key then Some(|rows| - 1)
    else ByKey(rows[..|rows| - 1], key)
  }

  lemma {:induction false} ByKeyFinds(rows: seq<Run>, key: Key)
    ensures match ByKey(rows, key)
      case Some(i) => i < |rows| && rows[i].key == key
      case None => forall i :: 0 <= i < |rows| ==> rows[i].key != key
    decreases |rows|
  {
    if rows == [] || rows[|rows| - 1].key == key {
    } else {
      var front := rows[..|rows| - 1];
      ByKeyFinds(front, key);
      if ByKey(front, key).None? {
        assert forall i :: 0 <= i < |front| ==> rows[i] == front[i];
      }
    }
  }

  predicate HasRunning(rows: seq<Run>, profile: string) {
    exists i :: 0 <= i < |rows| && rows[i].profile == profile && rows[i].status == Running
  }

  function SetStatus(rows: seq<Run>, i: nat, status: Status): (out: seq<Run>)
    ensures |out| == |rows|
  {
    if i < |rows| then rows[i := rows[i].(status := status)] else rows
  }

  /** The run of this key; `none` when there is no such row. */
  function Replay(rows: seq<Run>, profile: string, key: Key, storageFails: bool, none: Stage): Stage {
    if storageFails || key == 0 then Returned(Err(Storage))
    else match ByKey(rows, key)
         case None => none
         case Some(i) =>
           ByKeyFinds(rows, key);
           if rows[i].profile != profile then Returned(Err(KeyConflict)) else Returned(Ok(Found(i, rows[i])))
  }

  /** Call `c` goes on to `stage`. */
  function Put(w: World, c: nat, stage: Stage): World
    requires c in w.calls
  {
    w.(calls := w.calls[c := w.calls[c].(stage := stage)])
  }

  function Launch(w: World, c: nat, id: nat, reply: StartReply): World
    requires c in w.calls && id < |w.rows|
  {
    var profile := w.calls[c].profile;
    var created := Returned(Ok(Found(id, w.rows[id])));
    if reply == NoStarter then Put(w, c, Returned(Err(StarterMissing))).(abandoned := w.abandoned + {id})
    else if reply == Reject then Put(w, c, Failing(id, StartFailed))
    else if profile in w.open then
      if reply == Join then Put(w, c, created).(abandoned := w.abandoned + {id}) else Put(w, c, Failing(id, AlreadyRunning))
    else Put(w, c, if reply == LostReply then Failing(id, StartFailed) else created).(open := w.open[profile := id])
  }

  function Next(w: World, c: nat, env: Env): World
    requires c in w.calls
  {
    var profile, key := w.calls[c].profile, w.calls[c].key;
    match w.calls[c].stage
    case Asked => Put(w, c, if env.known then Known else Returned(Err(UnknownProfile)))
    case Known => Put(w, c, Replay(w.rows, profile, key, !env.storage.Done?, Missed))
    case Missed =>
      Put(w, c,
          if !env.storage.Done? || profile == "" then Returned(Err(Storage))
          else if HasRunning(w.rows, profile) then Returned(Err(AlreadyRunning))
          else Cleared)
    case Cleared =>
      if env.storage.NotDone? then Put(w, c, Returned(Err(Storage)))
      else if ByKey(w.rows, key).Some? then Put(w, c, if env.storage.Lost? then Returned(Err(Storage)) else Duplicate)
      else
        var inserted := w.(rows := w.rows + [Run(profile, key, Running)]);
        if env.storage.Lost? then Put(inserted, c, Returned(Err(Storage))).(abandoned := w.abandoned + {|w.rows|})
        else Put(inserted, c, Created(|w.rows|))
    case Duplicate => Put(w, c, Replay(w.rows, profile, key, !env.storage.Done?, Returned(Err(RunNotFound))))
    case Created(id) => if id < |w.rows| then Launch(w, c, id, env.start) else w
    case Failing(id, cause) =>
      if env.storage.NotDone? then Put(w, c, Returned(Err(FinishFailed))).(abandoned := w.abandoned + {id})
      else Put(w, c, Returned(Err(if env.storage.Lost? then FinishFailed else cause))).(rows := SetStatus(w.rows, id, Failed))
    case Returned(_) => w
  }

  /** The call is gone; a row that it still had to close, or to hand over, stays as it is. */
  function Halt(w: World, c: nat): World
    requires c in w.calls
  {
    if w.calls[c].stage.Returned? then w
    else Put(w, c, Returned(Err(Stopped))).(abandoned := w.abandoned + if Holds(w.calls[c]) then {w.calls[c].stage.id} else {})
  }

  /** One step of one call, or of one workflow. */
  function Step(w: World, e: Event): World {
    match e
    case Ask(c, profile, key) => if c in w.calls then w else w.(calls := w.calls[c := Call(profile, key, Asked)])
    case Advance(c, env) => if c in w.calls then Next(w, c, env) else w
    case Stop(c) => if c in w.calls then Halt(w, c) else w
    case Mark(profile, status) =>
      if profile in w.open && status != Running then w.(rows := SetStatus(w.rows, w.open[profile], status)) else w
    case Close(profile) => w.(open := w.open - {profile})
  }

  function RunFrom(w: World, es: seq<Event>): World
    decreases |es|
  {
    if es == [] then w else RunFrom(Step(w, es[0]), es[1..])
  }

  /** The call still has to close, or to hand over, the row it created. */
  predicate Holds(c: Call) {
    c.stage.Created? || c.stage.Failing?
  }

  ghost predicate Held(w: World, i: nat) {
    exists c :: c in w.calls && Holds(w.calls[c]) && w.calls[c].stage.id == i
  }

  /** The row belongs to its profile's open workflow. */
  predicate Owned(w: World, i: nat) {
    i < |w.rows| && w.rows[i].profile in w.open && w.open[w.rows[i].profile] == i
  }

  predicate Abandoned(w: World, i: nat) {
    i in w.abandoned
  }

  ghost predicate KeysUnique(rows: seq<Run>) {
    forall i, j :: 0 <= i < j < |rows| ==> rows[i].key != rows[j].key
  }

  predicate SameIdentity(rows: seq<Run>, i: nat, profile: string, key: Key) {
    i < |rows| && rows[i].profile == profile && rows[i].key == key
  }

  /** A call's own row, and the row it returned, have the call's profile and key. */
  ghost predicate CallSound(rows: seq<Run>, c: Call) {
    && (Holds(c) ==> SameIdentity(rows, c.stage.id, c.profile, c.key))
    && (c.stage.Returned? && c.stage.result.Ok? ==> Own(rows, c, c.stage.result.value))
  }

  predicate Own(rows: seq<Run>, c: Call, found: Found) {
    && SameIdentity(rows, found.id, c.profile, c.key)
    && found.run.profile == c.profile && found.run.key == c.key
  }

  ghost predicate CallsSound(w: World) {
    forall c :: c in w.calls ==> CallSound(w.rows, w.calls[c])
  }

  ghost predicate OneHolder(w: World) {
    forall c, d :: c in w.calls && d in w.calls && Holds(w.calls[c]) && Holds(w.calls[d]) && c != d ==>
      w.calls[c].stage.id != w.calls[d].stage.id
  }

  ghost predicate OpenSound(w: World) {
    && (forall p :: p in w.open ==> w.open[p] < |w.rows| && w.rows[w.open[p]].profile == p)
    && (forall c :: c in w.calls && w.calls[c].stage.Created? ==> !Owned(w, w.calls[c].stage.id))
  }

  /** Every RUNNING row has somebody who will close it, or was abandoned. */
  ghost predicate RunningCovered(w: World) {
    forall i: nat :: i < |w.rows| && w.rows[i].status == Running ==> Owned(w, i) || Held(w, i) || Abandoned(w, i)
  }

  /** An abandoned row is held by nobody. */
  ghost predicate AbandonedFree(w: World) {
    forall i :: i in w.abandoned ==> i < |w.rows| && !Held(w, i)
  }

  ghost predicate Inv(w: World) {
    KeysUnique(w.rows) && CallsSound(w) && OneHolder(w) && OpenSound(w) && RunningCovered(w) && AbandonedFree(w)
  }

  /** The one thing the protocol asks of a workflow: it marks its run finished before it closes. */
  predicate Orderly(w: World, e: Event) {
    e.Close? && e.profile in w.open && w.open[e.profile] < |w.rows| ==> w.rows[w.open[e.profile]].status != Running
  }

  /**
   The call of this step ends and leaves row `i` as it is: the row is inserted but
   the reply is lost, no starter is configured, FinishRun fails, the client hands
   back an open workflow, or the process stops while the call holds the row.
   */
  predicate GivesUp(w: World, e: Event, i: nat) {
    || (e.Advance? && e.c in w.calls && Forsakes(w, w.calls[e.c], e.env, i))
    || (e.Stop? && e.c in w.calls && Holds(w.calls[e.c]) && w.calls[e.c].stage.id == i)
  }

  predicate Forsakes(w: World, call: Call, env: Env, i: nat) {
    match call.stage
    case Cleared => i == |w.rows| && env.storage.Lost? && ByKey(w.rows, call.key).None?
    case Created(id) => id == i < |w.rows| && (env.start == NoStarter || (env.start == Join && call.profile in w.open))
    case Failing(id, _) => id == i && env.storage.NotDone?
    case _ => false
  }

  /** What one step of a call may do, whatever its stage. */
  ghost predicate Advances(w: World, x: World, c: nat)
    requires c in w.calls
  {
    && c in x.calls
    && var p, q := w.calls[c], x.calls[c];
    && q.profile == p.profile && q.key == p.key && x.calls == w.calls[c := q]
    && (x.rows == w.rows
        || (p.stage.Cleared? && ByKey(w.rows, p.key).None? && x.rows == w.rows + [Run(p.profile, p.key, Running)]
            && (q.stage == Created(|w.rows|) || |w.rows| in x.abandoned))
        || (p.stage.Failing? && x.rows == SetStatus(w.rows, p.stage.id, Failed)))
    && (x.open == w.open
        || (p.stage.Created? && !q.stage.Created? && p.profile !in w.open && x.open == w.open[p.profile := p.stage.id]))
    && w.abandoned <= x.abandoned
  }

  lemma NextAdvances(w: World, c: nat, env: Env)
    requires c in w.calls
    ensures Advances(w, Next(w, c, env), c)
  {
  }

  /** A call goes on holding its row, or starts with the row it inserts. */
  lemma NextHolds(w: World, c: nat, env: Env)
    requires c in w.calls && CallSound(w.rows, w.calls[c])
    ensures c in Next(w, c, env).calls
    ensures var x := Next(w, c, env);
      && (Holds(x.calls[c]) && Holds(w.calls[c]) ==> x.calls[c].stage.id == w.calls[c].stage.id)
      && (Holds(x.calls[c]) && !Holds(w.calls[c]) ==> x.calls[c].stage.id == |w.rows| && |x.rows| == |w.rows| + 1)
      && (x.calls[c].stage.Created? ==> !Holds(w.calls[c]))
  {
  }

  /** A call lets go of its row only when it is closed, owned by the workflow, or given up. */
  lemma NextReleases(w: World, c: nat, env: Env)
    requires c in w.calls && CallSound(w.rows, w.calls[c]) && Holds(w.calls[c])
    ensures var x := Next(w, c, env); var i := w.calls[c].stage.id;
      c in x.calls && (Holds(x.calls[c]) || Owned(x, i) || Abandoned(x, i) || (i < |x.rows| && x.rows[i].status != Running))
  {
  }

  lemma NextAbandons(w: World, c: nat, env: Env, i: nat)
    requires c in w.calls
    ensures i in Next(w, c, env).abandoned <==> i in w.abandoned || GivesUp(w, Advance(c, env), i)
    ensures GivesUp(w, Advance(c, env), i) ==> c in Next(w, c, env).calls && !Holds(Next(w, c, env).calls[c])
    ensures GivesUp(w, Advance(c, env), i) && CallSound(w.rows, w.calls[c]) ==> i < |Next(w, c, env).rows|
  {
  }

  /** Exactly the rows a step gives up are abandoned by it. */
  lemma StepAbandons(w: World, e: Event, i: nat)
    ensures i in Step(w, e).abandoned <==> i in w.abandoned || GivesUp(w, e, i)
  {
    hide Next;
    if e.Advance? && e.c in w.calls {
      NextAbandons(w, e.c, e.env, i);
    }
  }

  /** A replay finds no row, fails, or returns a row of the call's own key and profile. */
  lemma ReplayOwn(rows: seq<Run>, c: Call, storageFails: bool, none: Stage)
    ensures var stage := Replay(rows, c.profile, c.key, storageFails, none);
      stage == none || (stage.Returned? && (stage.result.Ok? ==> Own(rows, c, stage.result.value)))
  {
    ByKeyFinds(rows, c.key);
  }

  /** What a successful call returns is its own row. */
  lemma NextReturns(w: World, c: nat, env: Env)
    requires c in w.calls && CallSound(w.rows, w.calls[c])
    ensures var x := Next(w, c, env); c in x.calls && CallSound(x.rows, x.calls[c])
  {
    hide Replay, ByKey;
    ReplayOwn(w.rows, w.calls[c], !env.storage.Done?, Missed);
    ReplayOwn(w.rows, w.calls[c], !env.storage.Done?, Returned(Err(RunNotFound)));
  }

  /** Rows are never removed, and only their status changes. */
  lemma StepRows(w: World, e: Event)
    ensures |w.rows| <= |Step(w, e).rows|
    ensures forall i :: 0 <= i < |w.rows| ==>
      Step(w, e).rows[i].profile == w.rows[i].profile && Step(w, e).rows[i].key == w.rows[i].key
  {
    hide Next;
    if e.Advance? && e.c in w.calls {
      NextAdvances(w, e.c, e.env);
    }
  }

  lemma StepKeys(w: World, e: Event)
    requires KeysUnique(w.rows)
    ensures KeysUnique(Step(w, e).rows)
  {
    hide Next;
    if e.Advance? && e.c in w.calls {
      NextAdvances(w, e.c, e.env);
      ByKeyFinds(w.rows, w.calls[e.c].key);
    }
  }

  lemma StepCallsSound(w: World, e: Event)
    requires CallsSound(w)
    ensures CallsSound(Step(w, e))
  {
    hide Next;
    StepRows(w, e);
    var x := Step(w, e);
    if e.Advance? && e.c in w.calls {
      NextAdvances(w, e.c, e.env);
      NextReturns(w, e.c, e.env);
    }
    forall c | c in x.calls ensures CallSound(x.rows, x.calls[c]) {
      assert c in w.calls ==> CallSound(w.rows, w.calls[c]);
    }
  }

  lemma StepOneHolder(w: World, e: Event)
    requires CallsSound(w) && OneHolder(w)
    ensures OneHolder(Step(w, e))
  {
    hide Next;
    if e.Advance? && e.c in w.calls {
      NextAdvances(w, e.c, e.env);
      NextHolds(w, e.c, e.env);
      forall c | c in w.calls && Holds(w.calls[c]) ensures w.calls[c].stage.id < |w.rows| {
        assert CallSound(w.rows, w.calls[c]);
      }
    }
  }

  lemma StepOpen(w: World, e: Event)
    requires CallsSound(w) && OneHolder(w) && OpenSound(w)
    ensures OpenSound(Step(w, e))
  {
    hide Next;
    StepRows(w, e);
    if e.Advance? && e.c in w.calls {
      NextAdvances(w, e.c, e.env);
      NextHolds(w, e.c, e.env);
      forall c | c in w.calls ensures CallSound(w.rows, w.calls[c]) {
      }
    }
    StepOpenCreated(w, e);
  }

  lemma StepOpenCreated(w: World, e: Event)
    requires CallsSound(w) && OneHolder(w) && OpenSound(w)
    ensures var x := Step(w, e); forall c :: c in x.calls && x.calls[c].stage.Created? ==> !Owned(x, x.calls[c].stage.id)
  {
    hide Next;
    StepRows(w, e);
    var x := Step(w, e);
    if e.Advance? && e.c in w.calls {
      NextAdvances(w, e.c, e.env);
      NextHolds(w, e.c, e.env);
    }
    forall c | c in x.calls && x.calls[c].stage.Created? ensures !Owned(x, x.calls[c].stage.id) {
      if c in w.calls {
        assert CallSound(w.rows, w.calls[c]);
        if e.Advance? && e.c in w.calls {
          assert CallSound(w.rows, w.calls[e.c]);
        }
      }
    }
  }

  lemma StepCovered(w: World, e: Event)
    requires Inv(w) && Orderly(w, e)
    ensures RunningCovered(Step(w, e))
  {
    hide Next;
    var x := Step(w, e);
    StepRows(w, e);
    forall i: nat | i < |x.rows| && x.rows[i].status == Running ensures Owned(x, i) || Held(x, i) || Abandoned(x, i) {
      if i < |w.rows| {
        StayRunning(w, e, i);
        StayCovered(w, e, i);
      } else {
        NextAdvances(w, e.c, e.env);
        assert Abandoned(x, i) || (Holds(x.calls[e.c]) && x.calls[e.c].stage.id == i);
      }
    }
  }

  lemma StayRunning(w: World, e: Event, i: nat)
    requires i < |w.rows| && i < |Step(w, e).rows| && Step(w, e).rows[i].status == Running
    ensures w.rows[i].status == Running
  {
    hide Next;
    if e.Advance? && e.c in w.calls {
      NextAdvances(w, e.c, e.env);
    }
  }

  lemma StayCovered(w: World, e: Event, i: nat)
    requires Inv(w) && Orderly(w, e) && i < |w.rows| && w.rows[i].status == Running
    requires i < |Step(w, e).rows| && Step(w, e).rows[i].status == Running
    ensures var x := Step(w, e); Owned(x, i) || Held(x, i) || Abandoned(x, i)
  {
    hide Next;
    var x := Step(w, e);
    StepRows(w, e);
    if e.Advance? && e.c in w.calls {
      NextAdvances(w, e.c, e.env);
    }
    if Held(w, i) {
      var c :| c in w.calls && Holds(w.calls[c]) && w.calls[c].stage.id == i;
      assert CallSound(w.rows, w.calls[c]);
      if e.Advance? && e.c == c {
        NextReleases(w, c, e.env);
        NextHolds(w, c, e.env);
      }
      assert c in x.calls && (Holds(x.calls[c]) ==> x.calls[c].stage.id == i);
    }
  }

  lemma StepInv(w: World, e: Event)
    requires Inv(w) && Orderly(w, e)
    ensures Inv(Step(w, e))
  {
    StepKeys(w, e);
    StepCallsSound(w, e);
    StepOneHolder(w, e);
    StepOpen(w, e);
    StepCovered(w, e);
    StepAbandonedFree(w, e);
  }

  lemma StepAbandonedFree(w: World, e: Event)
    requires CallsSound(w) && OneHolder(w) && AbandonedFree(w)
    ensures AbandonedFree(Step(w, e))
  {
    hide Next;
    var x := Step(w, e);
    StepRows(w, e);
    forall i | i in x.abandoned ensures i < |x.rows| && !Held(x, i) {
      StepAbandons(w, e, i);
      if e.Advance? && e.c in w.calls {
        NextAdvances(w, e.c, e.env);
        NextFresh(w, e.c, e.env);
        NextAbandons(w, e.c, e.env, i);
        assert CallSound(w.rows, w.calls[e.c]);
      }
      forall c | c in x.calls && Holds(x.calls[c]) ensures x.calls[c].stage.id != i {
        assert i in w.abandoned ==> !Held(w, i);
      }
    }
  }

  ghost predicate AllOrderly(w: World, es: seq<Event>)
    decreases |es|
  {
    es == [] || (Orderly(w, es[0]) && AllOrderly(Step(w, es[0]), es[1..]))
  }

  /** Every interleaving of any number of calls keeps the invariant. */
  lemma {:induction false} RunInv(w: World, es: seq<Event>)
    requires Inv(w) && AllOrderly(w, es)
    ensures Inv(RunFrom(w, es))
    decreases |es|
  {
    if es == [] {
    } else {
      StepInv(w, es[0]);
      RunInv(Step(w, es[0]), es[1..]);
    }
  }

  /** No two rows share a key, whatever the workflow server does. */
  lemma {:induction false} OneRowPerKey(w: World, es: seq<Event>, i: nat, j: nat)
    requires KeysUnique(w.rows)
    requires var x := RunFrom(w, es); i < |x.rows| && j < |x.rows| && x.rows[i].key == x.rows[j].key
    ensures i == j
    decreases |es|
  {
    if es == [] {
    } else {
      StepKeys(w, es[0]);
      OneRowPerKey(Step(w, es[0]), es[1..], i, j);
    }
  }

  /** A call that succeeds returns a row of its own key and profile, whatever the workflow server does. */
  lemma {:induction false} ReturnsOwnRow(w: World, es: seq<Event>, c: nat)
    requires CallsSound(w)
    requires var x := RunFrom(w, es); c in x.calls && x.calls[c].stage.Returned? && x.calls[c].stage.result.Ok?
    ensures var x := RunFrom(w, es); Own(x.rows, x.calls[c], x.calls[c].stage.result.value)
    decreases |es|
  {
    if es == [] {
      assert CallSound(w.rows, w.calls[c]);
    } else {
      StepCallsSound(w, es[0]);
      ReturnsOwnRow(Step(w, es[0]), es[1..], c);
    }
  }

  /** Two successful calls with one key get the same row: the second start is a replay. */
  lemma SameKeySameRow(es: seq<Event>, c: nat, d: nat)
    requires var x := RunFrom(EMPTY, es);
      && c in x.calls && x.calls[c].stage.Returned? && x.calls[c].stage.result.Ok?
      && d in x.calls && x.calls[d].stage.Returned? && x.calls[d].stage.result.Ok? && x.calls[c].key == x.calls[d].key
    ensures var x := RunFrom(EMPTY, es);
      x.calls[c].stage.result.value.id == x.calls[d].stage.result.value.id && x.calls[c].profile == x.calls[d].profile
  {
    var x := RunFrom(EMPTY, es);
    ReturnsOwnRow(EMPTY, es, c);
    ReturnsOwnRow(EMPTY, es, d);
    OneRowPerKey(EMPTY, es, x.calls[c].stage.result.value.id, x.calls[d].stage.result.value.id);
  }

  // What the replay of a known key answers.

  /** The call of a known key: on its way to the answer, or answered with the row, or with a conflict for another profile. */
  predicate OnReplay(w: World, c: nat, i: nat, profile: string) {
    && i < |w.rows| && c in w.calls && w.calls[c].profile == profile && w.calls[c].key == w.rows[i].key
    && match w.calls[c].stage
       case Asked => true
       case Known => true
       case Returned(Ok(found)) =>
         profile == w.rows[i].profile && found.id == i && found.run.profile == profile && found.run.key == w.rows[i].key
       case Returned(Err(fault)) => profile != w.rows[i].profile && fault == KeyConflict
       case _ => false
  }

  /** The event does the call no harm: it meets a known profile and no storage error, and is not stopped. */
  predicate Harmless(e: Event, c: nat) {
    (e.Advance? && e.c == c ==> e.env.known && e.env.storage.Done?) && e != Stop(c)
  }

  /** How many turns the call gets. */
  function Turns(es: seq<Event>, c: nat): nat {
    if es == [] then 0 else Turns(es[..|es| - 1], c) + (if es[|es| - 1].Advance? && es[|es| - 1].c == c then 1 else 0)
  }

  lemma OnlyRow(rows: seq<Run>, i: nat)
    requires KeysUnique(rows) && i < |rows|
    ensures ByKey(rows, rows[i].key) == Some(i)
  {
    ByKeyFinds(rows, rows[i].key);
  }

  lemma StepOnReplay(w: World, e: Event, c: nat, i: nat, profile: string)
    requires KeysUnique(w.rows) && OnReplay(w, c, i, profile) && w.rows[i].key != 0 && Harmless(e, c)
    ensures OnReplay(Step(w, e), c, i, profile)
    ensures w.calls[c].stage.Returned? ==> Step(w, e).calls[c] == w.calls[c]
    ensures e.Advance? && e.c == c ==>
      match w.calls[c].stage
      case Asked => Step(w, e).calls[c].stage.Known?
      case Known => Step(w, e).calls[c].stage ==
        Returned(if profile == w.rows[i].profile then Ok(Found(i, w.rows[i])) else Err(KeyConflict))
      case _ => true
    ensures !(e.Advance? && e.c == c) ==> Step(w, e).calls[c] == w.calls[c]
  {
    OnlyRow(w.rows, i);
    StepRows(w, e);
    hide ByKey, Launch, HasRunning, SetStatus;
    if e.Advance? && e.c in w.calls {
      NextAdvances(w, e.c, e.env);
    }
  }

  /**
   Over every interleaving: a call with the key of a row that is there, whatever the
   row's status, that has two turns and meets no harm, returns that row; a call of
   another profile returns a conflict.
   */
  lemma {:induction false} ReplayAnswers(w: World, es: seq<Event>, c: nat, i: nat, profile: string)
    requires KeysUnique(w.rows) && i < |w.rows| && w.rows[i].key != 0 && c !in w.calls
    requires forall k :: 0 <= k < |es| ==> Harmless(es[k], c)
    ensures var x := RunFrom(w, [Ask(c, profile, w.rows[i].key)] + es);
      && KeysUnique(x.rows) && i < |x.rows| && x.rows[i].key == w.rows[i].key && x.rows[i].profile == w.rows[i].profile
      && OnReplay(x, c, i, profile)
      && (Turns(es, c) >= 1 ==> !x.calls[c].stage.Asked?) && (Turns(es, c) >= 2 ==> x.calls[c].stage.Returned?)
    decreases |es|
  {
    hide Next, OnReplay;
    var ask := Ask(c, profile, w.rows[i].key);
    var all := [ask] + es;
    if es == [] {
      RunOne(w, ask);
      assert all == [ask];
      AskOnReplay(w, c, i, profile);
    } else {
      var n := |es| - 1;
      ReplayAnswers(w, es[..n], c, i, profile);
      RunConcat(w, [ask] + es[..n], [es[n]]);
      assert all == ([ask] + es[..n]) + [es[n]];
      var x := RunFrom(w, [ask] + es[..n]);
      RunOne(x, es[n]);
      StepKeys(x, es[n]);
      StepRows(x, es[n]);
      StepOnReplay(x, es[n], c, i, profile);
      TurnsTaken(x, es, c, i, profile);
    }
  }

  lemma AskOnReplay(w: World, c: nat, i: nat, profile: string)
    requires i < |w.rows| && c !in w.calls
    ensures OnReplay(Step(w, Ask(c, profile, w.rows[i].key)), c, i, profile)
  {
  }

  lemma TurnsTaken(x: World, es: seq<Event>, c: nat, i: nat, profile: string)
    requires es != [] && KeysUnique(x.rows) && OnReplay(x, c, i, profile) && x.rows[i].key != 0 && Harmless(es[|es| - 1], c)
    requires Turns(es[..|es| - 1], c) >= 1 ==> !x.calls[c].stage.Asked?
    requires Turns(es[..|es| - 1], c) >= 2 ==> x.calls[c].stage.Returned?
    ensures var y := Step(x, es[|es| - 1]);
      && c in y.calls
      && (Turns(es, c) >= 1 ==> !y.calls[c].stage.Asked?) && (Turns(es, c) >= 2 ==> y.calls[c].stage.Returned?)
  {
    hide Step;
    StepOnReplay(x, es[|es| - 1], c, i, profile);
  }

  /** The world when the `k`-th event of a run comes. */
  function At(w: World, es: seq<Event>, k: nat): World
    requires k <= |es|
  {
    RunFrom(w, es[..k])
  }

  lemma AtNext(w: World, es: seq<Event>, k: nat)
    requires es != [] && k < |es|
    ensures At(Step(w, es[0]), es[1..], k) == At(w, es, k + 1)
  {
    assert es[..k + 1][1..] == es[1..][..k];
  }

  /** The abandoned rows are those that some step of the run gave up. */
  lemma {:induction false} AbandonedByRun(w: World, es: seq<Event>, i: nat)
    ensures i in RunFrom(w, es).abandoned <==>
      i in w.abandoned || exists k: nat :: k < |es| && GivesUp(At(w, es, k), es[k], i)
    decreases |es|
  {
    if es == [] {
    } else {
      var next, rest := Step(w, es[0]), es[1..];
      StepAbandons(w, es[0], i);
      AbandonedByRun(next, rest, i);
      assert At(w, es, 0) == w;
      forall k: nat | k < |rest| ensures At(next, rest, k) == At(w, es, k + 1) && rest[k] == es[k + 1] {
        AtNext(w, es, k);
      }
      if k: nat :| k < |es| && GivesUp(At(w, es, k), es[k], i) {
        assert k > 0 ==> GivesUp(At(next, rest, k - 1), rest[k - 1], i);
      }
      if k: nat :| k < |rest| && GivesUp(At(next, rest, k), rest[k], i) {
        assert GivesUp(At(w, es, k + 1), es[k + 1], i);
      }
    }
  }

  /**
   From the empty table, under the one assumption that a workflow marks its run
   before closing: a RUNNING row that no step gave up owns its profile's open
   workflow or belongs to a call between create and finish.
   */
  lemma RunningHasAnOwner(es: seq<Event>, i: nat)
    requires AllOrderly(EMPTY, es)
    requires var w := RunFrom(EMPTY, es); i < |w.rows| && w.rows[i].status == Running
    requires forall k: nat :: k < |es| ==> !GivesUp(At(EMPTY, es, k), es[k], i)
    ensures var w := RunFrom(EMPTY, es); Owned(w, i) || Held(w, i)
  {
    RunInv(EMPTY, es);
    AbandonedByRun(EMPTY, es, i);
    assert !Abandoned(RunFrom(EMPTY, es), i);
  }

  /** Once no call holds a row of the profile and no workflow is open, only an abandoned row blocks the next start. */
  lemma QuietProfileIsFree(w: World, profile: string)
    requires Inv(w) && profile !in w.open && HasRunning(w.rows, profile)
    requires forall c :: c in w.calls && Holds(w.calls[c]) ==> w.calls[c].profile != profile
    ensures exists i :: i in w.abandoned && i < |w.rows| && w.rows[i].profile == profile && w.rows[i].status == Running
  {
    var i :| 0 <= i < |w.rows| && w.rows[i].profile == profile && w.rows[i].status == Running;
    forall c | c in w.calls && Holds(w.calls[c]) ensures w.calls[c].stage.id != i {
      assert CallSound(w.rows, w.calls[c]);
    }
    assert !Held(w, i) && Abandoned(w, i);
  }

  /** A RUNNING row that no call holds and no workflow owns. */
  ghost predicate Dead(w: World, i: nat) {
    && i < |w.rows| && w.rows[i].status == Running && !Held(w, i)
    && forall p :: p in w.open ==> w.open[p] != i
  }

  lemma NextFresh(w: World, c: nat, env: Env)
    requires c in w.calls
    ensures var x := Next(w, c, env); c in x.calls && (Holds(x.calls[c]) ==>
      x.calls[c].stage.id == |w.rows| || (Holds(w.calls[c]) && x.calls[c].stage.id == w.calls[c].stage.id))
  {
  }

  lemma StepKeepsDead(w: World, e: Event, i: nat)
    requires Dead(w, i)
    ensures Dead(Step(w, e), i) && Step(w, e).rows[i] == w.rows[i]
  {
    hide Next;
    var x := Step(w, e);
    if e.Advance? && e.c in w.calls {
      NextAdvances(w, e.c, e.env);
      NextFresh(w, e.c, e.env);
    }
    forall c | c in x.calls && Holds(x.calls[c]) ensures x.calls[c].stage.id != i {
    }
  }

  /** A dead row stays RUNNING for ever, whatever happens afterwards. */
  lemma {:induction false} DeadForever(w: World, es: seq<Event>, i: nat)
    requires Dead(w, i)
    ensures Dead(RunFrom(w, es), i) && RunFrom(w, es).rows[i] == w.rows[i]
    decreases |es|
  {
    if es == [] {
    } else {
      StepKeepsDead(w, es[0], i);
      DeadForever(Step(w, es[0]), es[1..], i);
    }
  }

  /** A dead row refuses every later start of its profile under a new key. */
  lemma DeadRowBlocksProfile(w: World, es: seq<Event>, i: nat, c: nat, env: Env)
    requires Dead(w, i)
    requires var x := RunFrom(w, es);
      c in x.calls && x.calls[c].stage.Missed? && x.calls[c].profile == w.rows[i].profile != "" && env.storage.Done?
    ensures var x := RunFrom(w, es); Step(x, Advance(c, env)) == Put(x, c, Returned(Err(AlreadyRunning)))
  {
    DeadForever(w, es, i);
    var x := RunFrom(w, es);
    assert x.rows[i].profile == x.calls[c].profile && x.rows[i].status == Running;
  }

  /** The step gives up a row that is RUNNING and not owned by a workflow, or one that it inserts itself. */
  predicate Kills(w: World, e: Event, i: nat) {
    GivesUp(w, e, i) && (i < |w.rows| ==> w.rows[i].status == Running && !Owned(w, i))
  }

  /** In a world of the protocol a row is dead exactly when it is RUNNING, abandoned and not owned. */
  lemma DeadIsAbandoned(w: World, i: nat)
    requires Inv(w)
    ensures Dead(w, i) <==> i < |w.rows| && w.rows[i].status == Running && Abandoned(w, i) && !Owned(w, i)
  {
    if Dead(w, i) {
      assert Owned(w, i) || Held(w, i) || Abandoned(w, i);
    }
  }

  /** A step makes a row dead exactly when it kills it. */
  lemma StepDeadIff(w: World, e: Event, i: nat)
    requires Inv(w) && Orderly(w, e)
    ensures Dead(Step(w, e), i) <==> Dead(w, i) || Kills(w, e, i)
  {
    hide Next, Dead;
    StepInv(w, e);
    DeadIsAbandoned(w, i);
    DeadIsAbandoned(Step(w, e), i);
    StepAbandons(w, e, i);
    StepRows(w, e);
    if Dead(w, i) {
      StepKeepsDead(w, e, i);
    } else if Kills(w, e, i) {
      KillLeaves(w, e, i);
    } else if Dead(Step(w, e), i) {
      DeadHadCause(w, e, i);
    }
  }

  /** A step that kills a row touches neither the row, unless it inserts it, nor the open workflows. */
  lemma KillLeaves(w: World, e: Event, i: nat)
    requires Kills(w, e, i) && CallsSound(w)
    ensures var x := Step(w, e); i < |x.rows| && x.rows[i].status == Running && x.open == w.open
    ensures i < |w.rows| ==> Step(w, e).rows[i] == w.rows[i]
  {
  }

  lemma DeadHadCause(w: World, e: Event, i: nat)
    requires Inv(w) && Orderly(w, e) && Dead(Step(w, e), i)
    ensures i < |w.rows| ==> w.rows[i].status == Running && !Owned(w, i)
  {
    hide Next;
    var x := Step(w, e);
    StepRows(w, e);
    if e.Advance? && e.c in w.calls {
      NextAdvances(w, e.c, e.env);
    }
    if i < |w.rows| {
      StayRunning(w, e, i);
      if Owned(w, i) {
        OwnedStays(w, e, i);
      }
    }
  }

  lemma OwnedStays(w: World, e: Event, i: nat)
    requires Orderly(w, e) && Owned(w, i) && w.rows[i].status == Running
    ensures Owned(Step(w, e), i)
  {
    hide Next;
    StepRows(w, e);
    if e.Advance? && e.c in w.calls {
      NextAdvances(w, e.c, e.env);
    }
  }

  /**
   The exact condition: over every orderly run from the empty table a row is dead
   at the end if and only if some step of the run gave it up when it was RUNNING
   and not owned. So all RUNNING rows have an owner exactly when no step did that.
   */
  lemma {:induction false} DeadIff(w: World, es: seq<Event>, i: nat)
    requires Inv(w) && AllOrderly(w, es)
    ensures Dead(RunFrom(w, es), i) <==> Dead(w, i) || exists k: nat :: k < |es| && Kills(At(w, es, k), es[k], i)
    decreases |es|
  {
    hide Step, Dead, Kills;
    if es == [] {
    } else {
      var next, rest := Step(w, es[0]), es[1..];
      StepInv(w, es[0]);
      StepDeadIff(w, es[0], i);
      DeadIff(next, rest, i);
      assert At(w, es, 0) == w;
      forall k: nat | k < |rest| ensures At(next, rest, k) == At(w, es, k + 1) && rest[k] == es[k + 1] {
        AtNext(w, es, k);
      }
      if k: nat :| k < |es| && Kills(At(w, es, k), es[k], i) {
        assert k > 0 ==> Kills(At(next, rest, k - 1), rest[k - 1], i);
      }
      if k: nat :| k < |rest| && Kills(At(next, rest, k), rest[k], i) {
        assert Kills(At(w, es, k + 1), es[k + 1], i);
      }
    }
  }

  lemma OwnersIff(es: seq<Event>)
    requires AllOrderly(EMPTY, es)
    ensures (forall i: nat :: var w := RunFrom(EMPTY, es);
        i < |w.rows| && w.rows[i].status == Running ==> Owned(w, i) || Held(w, i))
      <==> forall i: nat, k: nat :: k < |es| ==> !Kills(At(EMPTY, es, k), es[k], i)
  {
    hide Kills;
    var w := RunFrom(EMPTY, es);
    RunInv(EMPTY, es);
    forall i: nat ensures Dead(w, i) <==> i < |w.rows| && w.rows[i].status == Running && !Owned(w, i) && !Held(w, i) {
      DeadIsAbandoned(w, i);
    }
    forall i: nat ensures Dead(w, i) <==> exists k: nat :: k < |es| && Kills(At(EMPTY, es, k), es[k], i) {
      DeadIff(EMPTY, es, i);
    }
    if forall i: nat :: !Dead(w, i) {
      forall i: nat, k: nat | k < |es| ensures !Kills(At(EMPTY, es, k), es[k], i) {
        assert !Dead(w, i);
      }
    }
    if forall i: nat, k: nat :: k < |es| ==> !Kills(At(EMPTY, es, k), es[k], i) {
      forall i: nat ensures !Dead(w, i) {
      }
    }
  }

  const FINE: Env := Env(true, Done, Accept)

  /** The steps of a call up to the insert of its row, when nothing fails. */
  function Admission(c: nat, profile: string, key: Key): seq<Event> {
    [Ask(c, profile, key), Advance(c, FINE), Advance(c, FINE), Advance(c, FINE), Advance(c, FINE)]
  }

  lemma {:induction false} RunConcat(w: World, es: seq<Event>, fs: seq<Event>)
    ensures RunFrom(w, es + fs) == RunFrom(RunFrom(w, es), fs)
    decreases |es|
  {
    hide Step;
    if es == [] {
      assert es + fs == fs;
    } else {
      RunConcat(Step(w, es[0]), es[1..], fs);
      assert (es + fs)[1..] == es[1..] + fs;
    }
  }

  lemma RunOne(w: World, e: Event)
    ensures RunFrom(w, [e]) == Step(w, e) && (AllOrderly(w, [e]) <==> Orderly(w, e))
  {
    assert [e][1..] == [];
  }

  lemma RunFirst(w: World, es: seq<Event>, k: nat)
    requires k < |es|
    ensures RunFrom(w, es[k..]) == RunFrom(Step(w, es[k]), es[k + 1..])
    ensures AllOrderly(w, es[k..]) <==> Orderly(w, es[k]) && AllOrderly(Step(w, es[k]), es[k + 1..])
  {
    assert es[k..][1..] == es[k + 1..];
  }

  /** A call with a new key for a profile without a RUNNING row gets its row. */
  lemma AdmissionRun(w: World, c: nat, profile: string, key: Key)
    requires c !in w.calls && profile != "" && key != 0 && ByKey(w.rows, key).None? && !HasRunning(w.rows, profile)
    ensures RunFrom(w, Admission(c, profile, key)) ==
      w.(rows := w.rows + [Run(profile, key, Running)], calls := w.calls[c := Call(profile, key, Created(|w.rows|))])
    ensures AllOrderly(w, Admission(c, profile, key))
  {
    hide ByKey, HasRunning;
    var es := Admission(c, profile, key);
    var w1 := Step(w, es[0]);
    var w2 := Step(w1, es[1]);
    var w3 := Step(w2, es[2]);
    var w4 := Step(w3, es[3]);
    var w5 := Step(w4, es[4]);
    assert w1 == w.(calls := w.calls[c := Call(profile, key, Asked)]);
    assert w2 == w.(calls := w.calls[c := Call(profile, key, Known)]);
    assert w3 == w.(calls := w.calls[c := Call(profile, key, Missed)]);
    assert w4 == w.(calls := w.calls[c := Call(profile, key, Cleared)]);
    assert w5 == w.(rows := w.rows + [Run(profile, key, Running)], calls := w.calls[c := Call(profile, key, Created(|w.rows|))]);
    assert es == es[0..];
    RunFirst(w, es, 0);
    RunFirst(w1, es, 1);
    RunFirst(w2, es, 2);
    RunFirst(w3, es, 3);
    RunFirst(w4, es, 4);
  }

  /** From the empty table: a call without a starter leaves a row that is RUNNING for ever. */
  lemma MissingStarterKillsRow(profile: string, key: Key)
    requires profile != "" && key != 0
    ensures var es := Admission(0, profile, key) + [Advance(0, Env(true, Done, NoStarter))];
      AllOrderly(EMPTY, es) && Dead(RunFrom(EMPTY, es), 0)
  {
    var e := Advance(0, Env(true, Done, NoStarter));
    AdmissionRun(EMPTY, 0, profile, key);
    RunConcat(EMPTY, Admission(0, profile, key), [e]);
    RunOne(RunFrom(EMPTY, Admission(0, profile, key)), e);
    OrderlyConcat(EMPTY, Admission(0, profile, key), [e]);
  }

  /** From the empty table: an insert that is carried out but whose reply is lost does the same. */
  lemma LostInsertKillsRow(profile: string, key: Key)
    requires profile != "" && key != 0
    ensures var es := Admission(0, profile, key)[..4] + [Advance(0, Env(true, Lost, Accept))];
      AllOrderly(EMPTY, es) && Dead(RunFrom(EMPTY, es), 0)
  {
    var es := Admission(0, profile, key)[..4] + [Advance(0, Env(true, Lost, Accept))];
    var w1 := Step(EMPTY, es[0]);
    var w2 := Step(w1, es[1]);
    var w3 := Step(w2, es[2]);
    var w4 := Step(w3, es[3]);
    assert w4 == EMPTY.(calls := map[0 := Call(profile, key, Cleared)]);
    assert es == es[0..] && es[5..] == [];
    RunFirst(EMPTY, es, 0);
    RunFirst(w1, es, 1);
    RunFirst(w2, es, 2);
    RunFirst(w3, es, 3);
    RunFirst(w4, es, 4);
  }

  /** From the empty table: a process that stops between the insert and the start does the same. */
  lemma StoppedCallKillsRow(profile: string, key: Key)
    requires profile != "" && key != 0
    ensures var es := Admission(0, profile, key) + [Stop(0)]; AllOrderly(EMPTY, es) && Dead(RunFrom(EMPTY, es), 0)
  {
    AdmissionRun(EMPTY, 0, profile, key);
    RunConcat(EMPTY, Admission(0, profile, key), [Stop(0)]);
    RunOne(RunFrom(EMPTY, Admission(0, profile, key)), Stop(0));
    OrderlyConcat(EMPTY, Admission(0, profile, key), [Stop(0)]);
  }

  lemma {:induction false} OrderlyConcat(w: World, es: seq<Event>, fs: seq<Event>)
    ensures AllOrderly(w, es + fs) <==> AllOrderly(w, es) && AllOrderly(RunFrom(w, es), fs)
    decreases |es|
  {
    hide Step, Orderly;
    if es == [] {
      assert es + fs == fs;
    } else {
      OrderlyConcat(Step(w, es[0]), es[1..], fs);
      assert (es + fs)[1..] == es[1..] + fs;
    }
  }

  /** From the empty table: a rejected start whose FinishRun fails does the same. */
  lemma FailedFinishKillsRow(profile: string, key: Key)
    requires profile != "" && key != 0
    ensures var es := Admission(0, profile, key) + [Advance(0, Env(true, Done, Reject)), Advance(0, Env(true, NotDone, Reject))];
      AllOrderly(EMPTY, es) && Dead(RunFrom(EMPTY, es), 0)
  {
    var start, finish := Advance(0, Env(true, Done, Reject)), Advance(0, Env(true, NotDone, Reject));
    var w := RunFrom(EMPTY, Admission(0, profile, key));
    AdmissionRun(EMPTY, 0, profile, key);
    RunConcat(EMPTY, Admission(0, profile, key), [start, finish]);
    OrderlyConcat(EMPTY, Admission(0, profile, key), [start, finish]);
    assert [start, finish][1..] == [finish] && [finish][1..] == [];
    RunOne(Step(w, start), finish);
    assert RunFrom(w, [start, finish]) == RunFrom(Step(w, start), [finish]);
  }

  /**
   From the empty table: a start between the mark and the close of the previous
   workflow, with a client that hands back that workflow, does the same.
   */
  lemma JoinedStartKillsRow(profile: string, key: Key, other: Key)
    requires profile != "" && key != 0 && other != 0 && key != other
    ensures var first := Admission(0, profile, key) + [Advance(0, FINE), Mark(profile, Succeeded)];
      var es := first + (Admission(1, profile, other) + [Advance(1, Env(true, Done, Join))]);
      AllOrderly(EMPTY, es) && Dead(RunFrom(EMPTY, es), 1)
  {
    hide AllOrderly, RunFrom;
    var start, mark, join := Advance(0, FINE), Mark(profile, Succeeded), Advance(1, Env(true, Done, Join));
    var first := Admission(0, profile, key) + [start, mark];
    AdmissionRun(EMPTY, 0, profile, key);
    RunConcat(EMPTY, Admission(0, profile, key), [start, mark]);
    OrderlyConcat(EMPTY, Admission(0, profile, key), [start, mark]);
    var w := RunFrom(EMPTY, Admission(0, profile, key));
    FirstMarked(w, profile, key);
    var marked := RunFrom(EMPTY, first);
    ByKeyFinds(marked.rows, other);
    AdmissionRun(marked, 1, profile, other);
    var second := Admission(1, profile, other) + [join];
    RunConcat(EMPTY, first, second);
    OrderlyConcat(EMPTY, first, second);
    RunConcat(marked, Admission(1, profile, other), [join]);
    OrderlyConcat(marked, Admission(1, profile, other), [join]);
    JoinDies(RunFrom(marked, Admission(1, profile, other)), profile, join);
  }

  lemma FirstMarked(w: World, profile: string, key: Key)
    requires w == World([Run(profile, key, Running)], map[], {}, map[0 := Call(profile, key, Created(0))])
    ensures var es := [Advance(0, FINE), Mark(profile, Succeeded)];
      var x := RunFrom(w, es);
      && AllOrderly(w, es) && x.rows == [Run(profile, key, Succeeded)] && x.open == map[profile := 0] && x.abandoned == {}
      && x.calls.Keys == {0} && !Holds(x.calls[0])
  {
    var start, mark := Advance(0, FINE), Mark(profile, Succeeded);
    assert [start, mark][1..] == [mark] && [mark][1..] == [];
    assert RunFrom(w, [start, mark]) == RunFrom(Step(w, start), [mark]);
    assert RunFrom(Step(w, start), [mark]) == Step(Step(w, start), mark);
  }

  lemma JoinDies(w: World, profile: string, join: Event)
    requires |w.rows| == 2 && w.rows[1].status == Running && w.open == map[profile := 0]
    requires w.calls.Keys == {0, 1} && !Holds(w.calls[0]) && w.calls[1].stage == Created(1) && w.calls[1].profile == profile
    requires join == Advance(1, Env(true, Done, Join))
    ensures AllOrderly(w, [join]) && Dead(RunFrom(w, [join]), 1)
  {
    RunOne(w, join);
    assert [join][1..] == [];
  }

  /** A table and a server with a single call, which nothing interrupts. */
  ghost function Alone(rows: seq<Run>, open: map<string, nat>, gone: set<nat>, profile: string, key: Key, stage: Stage): World {
    World(rows, open, gone, map[0 := Call(profile, key, stage)])
  }

  /** The call looks its key up, checks for a running row and inserts its own. */
  function SoloAdmit(w: World, envs: seq<Env>): World
    requires |envs| == 6
  {
    var w1 := Step(w, Advance(0, envs[0]));
    var w2 := Step(w1, Advance(0, envs[1]));
    var w3 := Step(w2, Advance(0, envs[2]));
    Step(w3, Advance(0, envs[3]))
  }

  /** The call starts its workflow, or closes its row again. Steps after its return change nothing. */
  function SoloSettle(w: World, envs: seq<Env>): World
    requires |envs| == 6
  {
    Step(Step(w, Advance(0, envs[4])), Advance(0, envs[5]))
  }

  function Solo(rows: seq<Run>, open: map<string, nat>, profile: string, key: Key, envs: seq<Env>): World
    requires |envs| == 6
  {
    SoloSettle(SoloAdmit(World(rows, open, {}, map[0 := Call(profile, key, Asked)]), envs), envs)
  }

  /** Row `i` is the newest one with the key. */
  predicate Newest(rows: seq<Run>, key: Key, i: nat) {
    i < |rows| && rows[i].key == key && forall j :: i < j < |rows| ==> rows[j].key != key
  }

  predicate NoneWith(rows: seq<Run>, key: Key) {
    forall j :: 0 <= j < |rows| ==> rows[j].key != key
  }

  lemma {:induction false} ByKeyIs(rows: seq<Run>, key: Key)
    ensures forall i: nat :: Newest(rows, key, i) ==> ByKey(rows, key) == Some(i)
    ensures NoneWith(rows, key) <==> ByKey(rows, key) == None
    decreases |rows|
  {
    if rows == [] {
    } else {
      var front := rows[..|rows| - 1];
      ByKeyIs(front, key);
      assert forall j :: 0 <= j < |front| ==> front[j] == rows[j];
      forall i: nat | Newest(rows, key, i) ensures ByKey(rows, key) == Some(i) {
        assert i < |front| ==> Newest(front, key, i);
      }
    }
  }

  /** A call of a known profile, with the key of a row: the row, whatever its status, or a conflict. Nothing changes. */
  lemma KnownKeyAnswer(rows: seq<Run>, open: map<string, nat>, profile: string, key: Key, envs: seq<Env>, i: nat)
    requires |envs| == 6 && envs[0].known && envs[1].storage.Done? && key != 0 && Newest(rows, key, i)
    ensures var w := Solo(rows, open, profile, key, envs);
      && w.rows == rows && w.open == open && 0 in w.calls
      && w.calls[0].stage == Returned(if rows[i].profile == profile then Ok(Found(i, rows[i])) else Err(KeyConflict))
  {
    hide ByKey, HasRunning, Launch, SetStatus;
    ByKeyIs(rows, key);
    var w0 := World(rows, open, {}, map[0 := Call(profile, key, Asked)]);
    var w1 := Step(w0, Advance(0, envs[0]));
    var w2 := Step(w1, Advance(0, envs[1]));
    hide Next;
    ReturnedStays(w2, envs[2]);
    ReturnedStays(w2, envs[3]);
    ReturnedStays(w2, envs[4]);
    ReturnedStays(w2, envs[5]);
  }

  lemma ReturnedStays(w: World, env: Env)
    requires 0 in w.calls && w.calls[0].stage.Returned?
    ensures Step(w, Advance(0, env)) == w
  {
  }

  /** What a call with a new key does, when the database works: refused while a run of the profile is RUNNING, otherwise as the client answers. */
  lemma NewKeyAnswer(rows: seq<Run>, open: map<string, nat>, profile: string, key: Key, envs: seq<Env>)
    requires |envs| == 6 && envs[0].known && (forall j :: 1 <= j < 6 ==> envs[j].storage.Done?)
    requires key != 0 && profile != "" && NoneWith(rows, key)
    ensures var w := Solo(rows, open, profile, key, envs);
      var run, failed := Run(profile, key, Running), Run(profile, key, Failed);
      var start := envs[4].start;
      && 0 in w.calls
      && if exists j :: 0 <= j < |rows| && rows[j].profile == profile && rows[j].status == Running then
           w.rows == rows && w.open == open && w.calls[0].stage == Returned(Err(AlreadyRunning))
         else if start == Accept && profile !in open then
           && w.rows == rows + [run] && w.open == open[profile := |rows|]
           && w.calls[0].stage == Returned(Ok(Found(|rows|, run)))
         else if start == Reject || start == LostReply then
           && w.rows == rows + [failed] && w.calls[0].stage ==
              Returned(Err(if start == LostReply && profile in open then AlreadyRunning else StartFailed))
         else if start == NoStarter then
           w.rows == rows + [run] && w.open == open && w.calls[0].stage == Returned(Err(StarterMissing))
         else start == Accept ==>
           w.rows == rows + [failed] && w.open == open && w.calls[0].stage == Returned(Err(AlreadyRunning))
  {
    hide ByKey;
    ByKeyIs(rows, key);
    var w0 := World(rows, open, {}, map[0 := Call(profile, key, Asked)]);
    var w1 := Step(w0, Advance(0, envs[0]));
    var w2 := Step(w1, Advance(0, envs[1]));
    var w3 := Step(w2, Advance(0, envs[2]));
    assert w2 == w0.(calls := map[0 := Call(profile, key, Missed)]);
    if HasRunning(rows, profile) {
      hide Next;
      ReturnedStays(w3, envs[3]);
      ReturnedStays(w3, envs[4]);
      ReturnedStays(w3, envs[5]);
    } else {
      var w4 := Step(w3, Advance(0, envs[3]));
      assert w4 == World(rows + [Run(profile, key, Running)], open, {}, map[0 := Call(profile, key, Created(|rows|))]);
      SettlesAs(w4, profile, key, |rows|, envs);
    }
  }

  lemma SettlesAs(w: World, profile: string, key: Key, id: nat, envs: seq<Env>)
    requires |envs| == 6 && envs[4].storage.Done? && envs[5].storage.Done?
    requires |w.rows| == id + 1 && w.rows[id] == Run(profile, key, Running) && w.calls == map[0 := Call(profile, key, Created(id))]
    ensures var x := SoloSettle(w, envs);
      var start, failed := envs[4].start, w.rows[id := Run(profile, key, Failed)];
      && 0 in x.calls
      && if start == Accept && profile !in w.open then
           x.rows == w.rows && x.open == w.open[profile := id] && x.calls[0].stage == Returned(Ok(Found(id, w.rows[id])))
         else if start == Reject || start == LostReply then
           && x.rows == failed && x.calls[0].stage ==
              Returned(Err(if start == LostReply && profile in w.open then AlreadyRunning else StartFailed))
         else if start == NoStarter then
           x.rows == w.rows && x.open == w.open && x.calls[0].stage == Returned(Err(StarterMissing))
         else start == Accept ==> x.rows == failed && x.open == w.open && x.calls[0].stage == Returned(Err(AlreadyRunning))
  {
  }

  /** The scoring service with the run table and the workflow server behind it. */
  class Service {
    var rows: seq<Run>
    var open: map<string, nat>

    constructor ()
      ensures rows == [] && open == map[]
    {
      rows, open := [], map[];
    }

    method RunByIdempotencyKey(key: Key, storageFails: bool) returns (r: Result<Found, Fault>)
      ensures if storageFails || key == 0 then r == Err(Storage)
        else if ByKey(rows, key).None? then r == Err(RunNotFound)
        else r.Ok? && r.value.id < |rows| && ByKey(rows, key) == Some(r.value.id) && r.value.run == rows[r.value.id]
    {
      if storageFails || key == 0 {
        return Err(Storage);
      }
      var i := |rows|;
      assert rows[..i] == rows;
      while i > 0
        invariant 0 <= i <= |rows| && ByKey(rows, key) == ByKey(rows[..i], key)
      {
        i := i - 1;
        assert rows[..i + 1][..i] == rows[..i];
        if rows[i].key == key {
          return Ok(Found(i, rows[i]));
        }
      }
      return Err(RunNotFound);
    }

    method RunReplay(profile: string, key: Key, storageFails: bool) returns (r: Result<Found, Fault>)
      ensures Returned(r) == Replay(rows, profile, key, storageFails, Returned(Err(RunNotFound)))
      ensures r == Err(RunNotFound) <==> !storageFails && key != 0 && ByKey(rows, key) == None
    {
      r := RunByIdempotencyKey(key, storageFails);
      if r.Ok? && r.value.run.profile != profile {
        return Err(KeyConflict);
      }
    }

    method RunningRun(profile: string, storageFails: bool) returns (r: Result<Found, Fault>)
      ensures if storageFails || profile == "" then r == Err(Storage)
        else if HasRunning(rows, profile) then r.Ok? else r == Err(RunNotFound)
    {
      if storageFails || profile == "" {
        return Err(Storage);
      }
      var i := |rows|;
      while i > 0
        invariant 0 <= i <= |rows|
        invariant forall k :: i <= k < |rows| ==> !(rows[k].profile == profile && rows[k].status == Running)
      {
        i := i - 1;
        if rows[i].profile == profile && rows[i].status == Running {
          return Ok(Found(i, rows[i]));
        }
      }
      return Err(RunNotFound);
    }

    method FinishRun(id: nat, status: Status, storage: StorageReply) returns (ok: bool)
      modifies this`rows
      ensures ok == storage.Done?
      ensures rows == if storage.NotDone? then old(rows) else SetStatus(old(rows), id, status)
    {
      if storage.NotDone? {
        return false;
      }
      if id < |rows| {
        rows := rows[id := rows[id].(status := status)];
      }
      return storage.Done?;
    }

    method CreateRun(profile: string, key: Key, storage: StorageReply) returns (r: Result<nat, Fault>)
      modifies this`rows
      ensures r ==
        if !storage.Done? then Err(Storage)
        else if ByKey(old(rows), key).Some? then Err(DuplicateKey)
        else Ok(|old(rows)|)
      ensures rows ==
        if storage.NotDone? || ByKey(old(rows), key).Some? then old(rows) else old(rows) + [Run(profile, key, Running)]
    {
      if storage.NotDone? {
        return Err(Storage);
      }
      ByKeyFinds(rows, key);
      if exists i :: 0 <= i < |rows| && rows[i].key == key {
        return Err(if storage.Lost? then Storage else DuplicateKey);
      }
      r := if storage.Lost? then Err(Storage) else Ok(|rows|);
      rows := rows + [Run(profile, key, Running)];
    }

    /** `gone` is the row whose insert was carried out but not reported, if there is one. */
    method Admit(profile: string, key: Key, envs: seq<Env>) returns (stage: Stage, ghost gone: set<nat>)
      requires |envs| == 6
      modifies this`rows
      ensures SoloAdmit(Alone(old(rows), open, {}, profile, key, Asked), envs) == Alone(rows, open, gone, profile, key, stage)
      ensures stage.Returned? || stage == Duplicate || (stage.Created? && stage.id < |rows|)
    {
      hide ByKey, HasRunning, Launch, SetStatus;
      gone := {};
      if !envs[0].known {
        stage := Returned(Err(UnknownProfile));
        return;
      }
      var r := RunReplay(profile, key, !envs[1].storage.Done?);
      if r != Err(RunNotFound) {
        stage := Returned(r);
        return;
      }
      var running := RunningRun(profile, !envs[2].storage.Done?);
      if running.Ok? {
        stage := Returned(Err(AlreadyRunning));
        return;
      }
      if running != Err(RunNotFound) {
        stage := Returned(running);
        return;
      }
      ghost var before := rows;
      var created := CreateRun(profile, key, envs[3].storage);
      if created == Err(DuplicateKey) {
        stage := Duplicate;
        return;
      }
      gone := if envs[3].storage.Lost? && ByKey(before, key).None? then {|before|} else {};
      stage := if created.Ok? then Created(created.value) else Returned(Err(Storage));
    }

    method Settle(profile: string, key: Key, stage: Stage, envs: seq<Env>, ghost gone: set<nat>) returns (r: Result<Found, Fault>)
      requires |envs| == 6
      requires stage.Returned? || stage == Duplicate || (stage.Created? && stage.id < |rows|)
      modifies this
      ensures var w := SoloSettle(Alone(old(rows), old(open), gone, profile, key, stage), envs);
        rows == w.rows && open == w.open && 0 in w.calls && w.calls[0] == Call(profile, key, Returned(r))
    {
      match stage
      case Returned(result) => r := result;
      case Duplicate => r := RunReplay(profile, key, !envs[4].storage.Done?);
      case Created(id) =>
        var reply := envs[4].start;
        r := Ok(Found(id, rows[id]));
        var failed := reply == Reject || reply == LostReply;
        var cause := StartFailed;
        if reply == NoStarter {
          return Err(StarterMissing);
        }
        if reply != Reject {
          if profile !in open {
            open := open[profile := id];
          } else if reply != Join {
            failed, cause := true, AlreadyRunning;
          }
        }
        if failed {
          var ok := FinishRun(id, Failed, envs[5].storage);
          r := Err(if ok then cause else FinishFailed);
        }
    }

    /** StartRun, as one caller sees it: exactly the steps of an uninterrupted call. */
    method StartRun(profile: string, key: Key, envs: seq<Env>) returns (r: Result<Found, Fault>)
      requires |envs| == 6
      modifies this
      ensures var w := SoloSettle(SoloAdmit(Alone(old(rows), old(open), {}, profile, key, Asked), envs), envs);
        rows == w.rows && open == w.open && 0 in w.calls && w.calls[0] == Call(profile, key, Returned(r))
      ensures envs[0].known && envs[1].storage.Done? && key != 0 ==> forall i: nat :: Newest(old(rows), key, i) ==>
        && rows == old(rows) && open == old(open)
        && r == if old(rows)[i].profile == profile then Ok(Found(i, old(rows)[i])) else Err(KeyConflict)
    {
      hide SoloAdmit, SoloSettle, ByKey;
      if envs[0].known && envs[1].storage.Done? && key != 0 {
        forall i: nat | Newest(rows, key, i)
          ensures var w := Solo(rows, open, profile, key, envs);
            && w.rows == rows && w.open == open && 0 in w.calls
            && w.calls[0].stage == Returned(if rows[i].profile == profile then Ok(Found(i, rows[i])) else Err(KeyConflict))
        {
          KnownKeyAnswer(rows, open, profile, key, envs, i);
        }
      }
      var stage, gone := Admit(profile, key, envs);
      r := Settle(profile, key, stage, envs, gone);
    }
  }
}
