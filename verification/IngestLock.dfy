/**
 The ingest lock and cooldown kept in Redis.

 `RedisCoordinator` is the code as one caller sees it. `World` is any number of
 workers running it at once: every Redis command is one step, so a step of one
 worker may fall between the cooldown check and the lock command of another.
 Time passes only in `Tick`. Lower-casing is the parameter `lower`.
 */
module IngestLock {
  import opened Prelude
  import opened Text

  datatype Fault = EmptySourceID | CooldownActive | LockHeld | RedisError

  /** How a Redis command ends: `Failed` was not carried out, `Lost` was, but both are errors to the caller. */
  datatype Reply = Works | Failed | Lost

  /** A normalized source id and query segment. */
  datatype Target = Target(id: string, segment: string)

  datatype Config = Config(lockTTL: nat, cooldownTTL: nat)

  const SECOND: nat := 1
  const ARCHITECTURE_TTL: nat := 43200 * SECOND
  const CATALOG: string := "catalog"
  const ARCHITECTURE_IDS: set<string> := {
    "bestjobs", "hipo", "ejobs", "dezeen_jobs", "riba_jobs", "landscape_institute",
    "archgee", "archinect", "competitionline", "baunetz", "bdla", "world_architects"}

  /** A non-positive override selects the package default. */
  function NewConfig(lockTTLSec: int, cooldownTTLSec: int): (c: Config)
    ensures c.lockTTL > 0 && c.cooldownTTL > 0
  {
    Config(
      if lockTTLSec > 0 then lockTTLSec * SECOND else 600 * SECOND,
      if cooldownTTLSec > 0 then cooldownTTLSec * SECOND else 3600 * SECOND)
  }

  function Normalize(lower: string -> string, s: string): string {
    lower(Trim(s))
  }

  function TargetOf(lower: string -> string, sourceID: string, query: string): Target {
    var q := Normalize(lower, query);
    Target(Normalize(lower, sourceID), if q == "" then CATALOG else q)
  }

  function LockKey(t: Target): string {
    "ingest:lock:" + t.id + ":" + t.segment
  }

  function CooldownKey(t: Target): string {
    "ingest:cooldown:" + t.id + ":" + t.segment
  }

  function CooldownTTL(c: Config, t: Target): nat {
    if t.id in ARCHITECTURE_IDS then ARCHITECTURE_TTL else c.cooldownTTL
  }

  /** A key is there until its expiry. */
  predicate Live(keys: map<string, nat>, now: nat, key: string) {
    key in keys && now < keys[key]
  }

  /** The keys of two targets agree exactly when the joined texts do. */
  lemma SameKeys(a: Target, b: Target)
    ensures LockKey(a) == LockKey(b) <==> a.id + ":" + a.segment == b.id + ":" + b.segment
    ensures CooldownKey(a) == CooldownKey(b) <==> a.id + ":" + a.segment == b.id + ":" + b.segment
    ensures LockKey(a) != CooldownKey(b)
  {
    var x, y := a.id + ":" + a.segment, b.id + ":" + b.segment;
    assert LockKey(a) == "ingest:lock:" + x && LockKey(b) == "ingest:lock:" + y;
    assert LockKey(a)[12..] == x && LockKey(b)[12..] == y;
    assert CooldownKey(a) == "ingest:cooldown:" + x && CooldownKey(b) == "ingest:cooldown:" + y;
    assert CooldownKey(a)[16..] == x && CooldownKey(b)[16..] == y;
    assert LockKey(a)[7] == 'l' && CooldownKey(b)[7] == 'c';
  }

  /** One id and a colon begin the other id. */
  predicate Collide(p: string, q: string) {
    p + ":" <= q || q + ":" <= p
  }

  /** Two targets of ids that do not collide share a key only if they are the same. */
  lemma KeysMeet(a: Target, b: Target)
    requires a.id != b.id ==> !Collide(a.id, b.id)
    ensures LockKey(a) == LockKey(b) <==> a == b
    ensures CooldownKey(a) == CooldownKey(b) <==> a == b
  {
    SameKeys(a, b);
    if a.id + ":" + a.segment == b.id + ":" + b.segment {
      JoinedAgree(a.id, a.segment, b.id, b.segment);
    }
  }

  lemma JoinedAgree(p: string, s: string, q: string, t: string)
    requires p + ":" + s == q + ":" + t
    ensures if p == q then s == t else Collide(p, q)
  {
    var x := p + ":" + s;
    assert x[|p| + 1..] == s && x[|q| + 1..] == t;
    assert x[..|p|] == p && x[..|q|] == q;
    if |p| < |q| {
      assert x[..|p| + 1] == p + ":" && x[..|p| + 1] == q[..|p| + 1];
    } else if |q| < |p| {
      assert x[..|q| + 1] == q + ":" && x[..|q| + 1] == p[..|q| + 1];
    }
  }

  /** What the theorems below need of a lower-casing: one character for each, white space kept as it is, once is enough. */
  ghost predicate Lowers(lower: string -> string) {
    && (forall s :: |lower(s)| == |s|)
    && (forall s, i :: 0 <= i < |s| ==> lower(s)[i] == Low(lower, s[i]))
    && (forall c :: Low(lower, Low(lower, c)) == Low(lower, c))
    && (forall c :: IsSpace(Low(lower, c)) <==> IsSpace(c))
    && lower(":" + CATALOG) == ":" + CATALOG
  }

  function Low(lower: string -> string, c: char): char {
    var s := lower([c]);
    if s == [] then c else s[0]
  }

  /** Normalizing trims, and a text without white space at its ends that is lower-case already stays as it is. */
  lemma NormalizedIs(lower: string -> string, s: string)
    requires Lowers(lower)
    ensures IsTrimmed(Normalize(lower, s)) && lower(Normalize(lower, s)) == Normalize(lower, s)
    ensures IsTrimmed(s) && lower(s) == s ==> Normalize(lower, s) == s
  {
    hide Trim;
    TrimIsTrimmed(s);
  }

  /** The segment of a query is trimmed and not empty. */
  lemma SegmentIs(lower: string -> string, sourceID: string, query: string)
    requires Lowers(lower)
    ensures var s := TargetOf(lower, sourceID, query).segment; s != "" && !IsSpace(s[0])
  {
    hide Trim;
    NormalizedIs(lower, query);
  }

  /**
   One id and a colon begin the other id, and what follows there, if anything, is
   not white space: a segment can begin with it.
   */
  predicate Extends(p: string, q: string) {
    p + ":" <= q && (|q| > |p| + 1 ==> !IsSpace(q[|p| + 1]))
  }

  predicate Meet(p: string, q: string) {
    Extends(p, q) || Extends(q, p)
  }

  /** The exact condition, for the targets that are built: some queries of two sources share a key if and only if the ids meet. */
  lemma KeysCollideIff(lower: string -> string, a: string, b: string)
    requires Lowers(lower) && Normalize(lower, a) != Normalize(lower, b)
    ensures (exists x, y :: LockKey(TargetOf(lower, a, x)) == LockKey(TargetOf(lower, b, y)))
      <==> Meet(Normalize(lower, a), Normalize(lower, b))
    ensures (exists x, y :: CooldownKey(TargetOf(lower, a, x)) == CooldownKey(TargetOf(lower, b, y)))
      <==> Meet(Normalize(lower, a), Normalize(lower, b))
  {
    hide LockKey, CooldownKey, Normalize, TargetOf, Extends, Lowers;
    if Meet(Normalize(lower, a), Normalize(lower, b)) {
      if Extends(Normalize(lower, a), Normalize(lower, b)) {
        SharedKey(lower, a, b);
      } else {
        SharedKey(lower, b, a);
      }
    } else {
      forall x, y
        ensures LockKey(TargetOf(lower, a, x)) != LockKey(TargetOf(lower, b, y))
        ensures CooldownKey(TargetOf(lower, a, x)) != CooldownKey(TargetOf(lower, b, y))
      {
        KeysMeetOnly(lower, a, b, x, y);
      }
    }
  }

  lemma KeysMeetOnly(lower: string -> string, a: string, b: string, x: string, y: string)
    requires Lowers(lower) && Normalize(lower, a) != Normalize(lower, b)
    ensures var s, t := TargetOf(lower, a, x), TargetOf(lower, b, y);
      LockKey(s) == LockKey(t) || CooldownKey(s) == CooldownKey(t) ==> Meet(Normalize(lower, a), Normalize(lower, b))
  {
    hide LockKey, CooldownKey, Normalize, Lowers, IsSpace;
    var s, t := TargetOf(lower, a, x), TargetOf(lower, b, y);
    SameKeys(s, t);
    SegmentIs(lower, a, x);
    SegmentIs(lower, b, y);
    if s.id + ":" + s.segment == t.id + ":" + t.segment {
      JoinedAgree(s.id, s.segment, t.id, t.segment);
      if s.id + ":" <= t.id {
        BeginsSegment(s.id, s.segment, t.id, t.segment);
      } else {
        BeginsSegment(t.id, t.segment, s.id, s.segment);
      }
    }
  }

  lemma BeginsSegment(p: string, s: string, q: string, t: string)
    requires p + ":" + s == q + ":" + t && s != "" && p + ":" <= q
    ensures |q| > |p| + 1 ==> q[|p| + 1] == s[0]
  {
    var x := p + ":" + s;
    if |q| > |p| + 1 {
      assert x[|p| + 1] == s[0] && x[|p| + 1] == (q + ":" + t)[|p| + 1] == q[|p| + 1];
    }
  }

  /** The query that makes the key of the shorter id the key of the longer one's catalog. */
  function CatalogQuery(p: string, q: string): string
    requires p + ":" <= q
  {
    q[|p| + 1..] + ":" + CATALOG
  }

  lemma SharedKey(lower: string -> string, a: string, b: string)
    requires Lowers(lower) && Extends(Normalize(lower, a), Normalize(lower, b))
    ensures var s := TargetOf(lower, a, CatalogQuery(Normalize(lower, a), Normalize(lower, b)));
      var t := TargetOf(lower, b, "");
      LockKey(s) == LockKey(t) && CooldownKey(s) == CooldownKey(t)
  {
    hide LockKey, CooldownKey, Normalize, Lowers, Extends, IsTrimmed;
    var p, q := Normalize(lower, a), Normalize(lower, b);
    ColonFirst(p, q);
    var query := CatalogQuery(p, q);
    NormalizedIs(lower, b);
    QueryIsNormal(lower, p, q);
    NormalizedIs(lower, query);
    NormalizedIs(lower, "");
    NormalEmpty(lower);
    assert TargetOf(lower, a, query) == Target(p, query) && TargetOf(lower, b, "") == Target(q, CATALOG);
    SameKeys(Target(p, query), Target(q, CATALOG));
    assert q == p + ":" + q[|p| + 1..];
    assert p + ":" + query == q + ":" + CATALOG;
  }

  lemma ColonFirst(p: string, q: string)
    requires Extends(p, q)
    ensures p + ":" <= q
  {
  }

  lemma NormalEmpty(lower: string -> string)
    requires Lowers(lower)
    ensures Normalize(lower, "") == ""
  {
  }

  lemma LowerText(lower: string -> string, s: string)
    requires Lowers(lower)
    ensures |lower(s)| == |s| && forall i :: 0 <= i < |s| ==> lower(s)[i] == Low(lower, s[i])
  {
  }

  lemma LowerCatalog(lower: string -> string)
    requires Lowers(lower)
    ensures lower(":" + CATALOG) == ":" + CATALOG
  {
  }

  lemma QueryIsNormal(lower: string -> string, p: string, q: string)
    requires Lowers(lower) && Extends(p, q) && lower(q) == q
    ensures var query := CatalogQuery(p, q); IsTrimmed(query) && lower(query) == query && query != ""
  {
    hide Lowers, Low;
    var rest, end, query := q[|p| + 1..], ":" + CATALOG, CatalogQuery(p, q);
    assert query == rest + end;
    assert !IsSpace(':') && !IsSpace('g');
    LowerText(lower, q);
    LowerText(lower, end);
    LowerText(lower, query);
    LowerCatalog(lower);
    forall i | 0 <= i < |query| ensures lower(query)[i] == query[i] {
      if i < |rest| {
        assert query[i] == q[|p| + 1 + i] == lower(q)[|p| + 1 + i];
      } else {
        assert query[i] == end[i - |rest|] == lower(end)[i - |rest|];
      }
    }
  }

  /** Two sources: "remote" asked for "eu:catalog", and "remote:eu" asked for nothing. */
  lemma RealTargetsCollide(lower: string -> string)
    requires Lowers(lower) && lower("remote") == "remote" && lower("remote:eu") == "remote:eu"
    ensures var s, t := TargetOf(lower, "remote", "eu:catalog"), TargetOf(lower, "remote:eu", "");
      s != t && LockKey(s) == LockKey(t) && CooldownKey(s) == CooldownKey(t)
  {
    hide LockKey, CooldownKey, Normalize, Lowers;
    NormalizedIs(lower, "remote");
    NormalizedIs(lower, "remote:eu");
    assert "remote:eu"[7..] == "eu";
    assert CatalogQuery("remote", "remote:eu") == "eu:catalog";
    SharedKey(lower, "remote", "remote:eu");
  }

  /** Distinct pairs never share a key when source ids hold no colon. */
  lemma KeysInjective(a: Target, b: Target)
    requires ':' !in a.id && ':' !in b.id
    ensures LockKey(a) == LockKey(b) <==> a == b
    ensures CooldownKey(a) == CooldownKey(b) <==> a == b
  {
    assert (a.id + ":")[|a.id|] == ':' && (b.id + ":")[|b.id|] == ':';
    KeysMeet(a, b);
  }

  /** The coordinator with the Redis keys it reads and writes. */
  class RedisCoordinator {
    const config: Config
    const lower: string -> string
    var now: nat
    var keys: map<string, nat>

    constructor (lower: string -> string, lockTTLSec: int, cooldownTTLSec: int)
      ensures config.lockTTL == (if lockTTLSec > 0 then lockTTLSec else 600)
      ensures config.cooldownTTL == (if cooldownTTLSec > 0 then cooldownTTLSec else 3600)
      ensures this.lower == lower && keys == map[]
    {
      config := NewConfig(lockTTLSec, cooldownTTLSec);
      this.lower := lower;
      now := 0;
      keys := map[];
    }

    method Exists(key: string, reply: Reply) returns (r: Result<nat, Fault>)
      ensures r == if !reply.Works? then Err(RedisError) else Ok(if Live(keys, now, key) then 1 else 0)
    {
      if !reply.Works? {
        return Err(RedisError);
      }
      r := Ok(if Live(keys, now, key) then 1 else 0);
    }

    /** SET key NX with a TTL: writes only when the key is absent. */
    method SetNX(key: string, ttl: nat, reply: Reply) returns (r: Result<(), Fault>)
      modifies this`keys
      ensures r == if !reply.Works? then Err(RedisError) else if Live(old(keys), now, key) then Err(LockHeld) else Ok(())
      ensures keys == if reply.Failed? || Live(old(keys), now, key) then old(keys) else old(keys)[key := now + ttl]
    {
      if reply.Failed? {
        return Err(RedisError);
      }
      var free := !Live(keys, now, key);
      if free {
        keys := keys[key := now + ttl];
      }
      r := if reply.Lost? then Err(RedisError) else if free then Ok(()) else Err(LockHeld);
    }

    /** On success the result is the target whose lock `Release` will delete. `existsReply` and `setReply` are the fates of the two commands. */
    method Begin(sourceID: string, query: string, explicitRefresh: bool, existsReply: Reply, setReply: Reply)
      returns (r: Result<Target, Fault>)
      modifies this`keys
      ensures r == BeginResult(old(keys), now, TargetOf(lower, sourceID, query), explicitRefresh, existsReply, setReply)
      ensures var x := SoloBegin(config, now, old(keys), TargetOf(lower, sourceID, query), explicitRefresh, existsReply, setReply);
        keys == x.keys && (r.Ok? <==> PhaseOf(x, 0).Holding?)
      ensures existsReply.Works? && setReply.Works? ==>
        var id, asked := lower(Trim(sourceID)), lower(Trim(query));
        var segment := if asked == "" then "catalog" else asked;
        var lock, cooldown := "ingest:lock:" + id + ":" + segment, "ingest:cooldown:" + id + ":" + segment;
        && r == (if id == "" then Err(EmptySourceID)
                 else if !explicitRefresh && cooldown in old(keys) && now < old(keys)[cooldown] then Err(CooldownActive)
                 else if lock in old(keys) && now < old(keys)[lock] then Err(LockHeld)
                 else Ok(Target(id, segment)))
        && keys == if r.Ok? then old(keys)[lock := now + config.lockTTL] else old(keys)
    {
      hide SoloBegin;
      var t := TargetOf(lower, sourceID, query);
      SoloBeginKeys(config, now, keys, t, explicitRefresh, existsReply, setReply);
      var id := Normalize(lower, sourceID);
      if id == "" {
        return Err(EmptySourceID);
      }
      if !explicitRefresh {
        var n := Exists(CooldownKey(t), existsReply);
        if n.Err? {
          return Err(n.error);
        }
        if n.value > 0 {
          return Err(CooldownActive);
        }
      }
      var taken := SetNX(LockKey(t), config.lockTTL, setReply);
      if taken.Err? {
        return Err(taken.error);
      }
      return Ok(t);
    }

    method Release(t: Target, reply: Reply) returns (r: Result<(), Fault>)
      modifies this`keys
      ensures r == if reply.Works? then Ok(()) else Err(RedisError)
      ensures keys == if reply.Failed? then old(keys) else old(keys) - {LockKey(t)}
      ensures forall until :: keys == Step(config, World(now, old(keys), map[0 := Holding(t, until)]), Event.Release(0, reply)).keys
      ensures reply.Works? ==> keys == old(keys) - {"ingest:lock:" + t.id + ":" + t.segment}
    {
      if !reply.Failed? {
        keys := keys - {LockKey(t)};
      }
      r := if reply.Works? then Ok(()) else Err(RedisError);
    }

    method RecordSuccessfulIngest(sourceID: string, query: string, reply: Reply) returns (r: Result<(), Fault>)
      modifies this`keys
      ensures var t := TargetOf(lower, sourceID, query);
        && r == (if t.id == "" then Err(EmptySourceID) else if reply.Works? then Ok(()) else Err(RedisError))
        && keys == (if t.id == "" || reply.Failed? then old(keys) else old(keys)[CooldownKey(t) := now + CooldownTTL(config, t)])
        && keys == Step(config, World(now, old(keys), map[]), Record(t, reply)).keys
      ensures lower(Trim(sourceID)) != "" && reply.Works? ==>
        var id, asked := lower(Trim(sourceID)), lower(Trim(query));
        var twelveHours := id in ["bestjobs", "hipo", "ejobs", "dezeen_jobs", "riba_jobs", "landscape_institute",
                                  "archgee", "archinect", "competitionline", "baunetz", "bdla", "world_architects"];
        && r == Ok(())
        && keys == old(keys)["ingest:cooldown:" + id + ":" + (if asked == "" then "catalog" else asked) :=
                             now + if twelveHours then 12 * 60 * 60 else config.cooldownTTL]
    {
      var id := Normalize(lower, sourceID);
      if id == "" {
        return Err(EmptySourceID);
      }
      var ttl := config.cooldownTTL;
      if id in ARCHITECTURE_IDS {
        ttl := ARCHITECTURE_TTL;
      }
      if reply.Failed? {
        return Err(RedisError);
      }
      keys := keys[CooldownKey(TargetOf(lower, sourceID, query)) := now + ttl];
      r := if reply.Works? then Ok(()) else Err(RedisError);
    }
  }

  /** What Begin returns: the first obstacle on the way to the lock. */
  function BeginResult(
      keys: map<string, nat>, now: nat, t: Target, explicitRefresh: bool, existsReply: Reply, setReply: Reply): Result<Target, Fault>
  {
    if t.id == "" then Err(EmptySourceID)
    else if !explicitRefresh && !existsReply.Works? then Err(RedisError)
    else if !explicitRefresh && Live(keys, now, CooldownKey(t)) then Err(CooldownActive)
    else if !setReply.Works? then Err(RedisError)
    else if Live(keys, now, LockKey(t)) then Err(LockHeld)
    else Ok(t)
  }

  /** Where a worker stands. `Holding` lasts until it calls the release function, `Released` afterwards. */
  datatype Phase =
    | Idle
    | Checked(target: Target)
    | Holding(target: Target, until: nat)
    | Released(target: Target)

  datatype World = World(now: nat, keys: map<string, nat>, workers: map<nat, Phase>)

  datatype Event =
    | Tick(d: nat)
    | Check(w: nat, target: Target, explicitRefresh: bool, reply: Reply)
    | Acquire(w: nat, reply: Reply)
    | Release(w: nat, reply: Reply)
    | Record(target: Target, reply: Reply)

  function PhaseOf(x: World, w: nat): Phase {
    if w in x.workers then x.workers[w] else Idle
  }

  /** One Redis command of one worker, or the passing of time. */
  function Step(c: Config, x: World, e: Event): World {
    match e
    case Tick(d) => x.(now := x.now + d)
    case Check(w, t, explicitRefresh, reply) =>
      if PhaseOf(x, w).Holding? || t.id == "" then x
      else if !explicitRefresh && (!reply.Works? || Live(x.keys, x.now, CooldownKey(t))) then x.(workers := x.workers[w := Idle])
      else x.(workers := x.workers[w := Checked(t)])
    case Acquire(w, reply) => (
      match PhaseOf(x, w)
      case Checked(t) =>
        var free := !Live(x.keys, x.now, LockKey(t)) && !reply.Failed?;
        x.(keys := if free then x.keys[LockKey(t) := x.now + c.lockTTL] else x.keys,
           workers := x.workers[w := if free && reply.Works? then Holding(t, x.now + c.lockTTL) else Idle])
      case _ => x)
    case Release(w, reply) => (
      match PhaseOf(x, w)
      case Holding(t, _) => x.(keys := Deleted(x.keys, LockKey(t), reply), workers := x.workers[w := Released(t)])
      case Released(t) => x.(keys := Deleted(x.keys, LockKey(t), reply))
      case _ => x)
    case Record(t, reply) =>
      if t.id == "" || reply.Failed? then x else x.(keys := x.keys[CooldownKey(t) := x.now + CooldownTTL(c, t)])
  }

  function Deleted(keys: map<string, nat>, key: string, reply: Reply): map<string, nat> {
    if reply.Failed? then keys else keys - {key}
  }

  /**
   The use the coordinator asks for: a release function is called at most once,
   and while its holder's lock is still alive.
   */
  predicate Timely(x: World, e: Event) {
    && (e.Tick? ==> forall w :: w in x.workers && x.workers[w].Holding? ==> x.now + e.d < x.workers[w].until)
    && (e.Release? ==> !PhaseOf(x, e.w).Released?)
  }

  function RunFrom(c: Config, x: World, es: seq<Event>): World
    decreases |es|
  {
    if es == [] then x else RunFrom(c, Step(c, x, es[0]), es[1..])
  }

  lemma RunOne(c: Config, x: World, es: seq<Event>, k: nat)
    requires k < |es|
    ensures RunFrom(c, x, es[k..]) == RunFrom(c, Step(c, x, es[k]), es[k + 1..])
  {
    assert es[k..][1..] == es[k + 1..];
  }

  /** The two steps of a worker that nothing interrupts. */
  function SoloBegin(
      c: Config, now: nat, keys: map<string, nat>, t: Target, explicitRefresh: bool, existsReply: Reply, setReply: Reply): World
  {
    Step(c, Step(c, World(now, keys, map[]), Check(0, t, explicitRefresh, existsReply)), Acquire(0, setReply))
  }

  lemma SoloBeginKeys(
      c: Config, now: nat, keys: map<string, nat>, t: Target, explicitRefresh: bool, existsReply: Reply, setReply: Reply)
    ensures var x := SoloBegin(c, now, keys, t, explicitRefresh, existsReply, setReply);
      var r := BeginResult(keys, now, t, explicitRefresh, existsReply, setReply);
      && (PhaseOf(x, 0).Holding? <==> r.Ok?)
      && x.keys == (if r.Ok? || (r == Err(RedisError) && Reaches(keys, now, t, explicitRefresh, existsReply) && setReply.Lost?
                                 && !Live(keys, now, LockKey(t)))
                    then keys[LockKey(t) := now + c.lockTTL] else keys)
  {
    hide LockKey, CooldownKey;
  }

  /** The call gets as far as its second command. */
  predicate Reaches(keys: map<string, nat>, now: nat, t: Target, explicitRefresh: bool, existsReply: Reply) {
    t.id != "" && (explicitRefresh || (existsReply.Works? && !Live(keys, now, CooldownKey(t))))
  }

  predicate AllTimely(c: Config, x: World, es: seq<Event>)
    decreases |es|
  {
    es == [] || (Timely(x, es[0]) && AllTimely(c, Step(c, x, es[0]), es[1..]))
  }

  const START: World := World(0, map[], map[])

  /** Every holder's key is alive until the holder's deadline, and no two holders share a key. */
  ghost predicate Exclusive(x: World) {
    && (forall w :: w in x.workers && x.workers[w].Holding? ==>
          var t := x.workers[w].target;
          LockKey(t) in x.keys && x.keys[LockKey(t)] == x.workers[w].until && x.now < x.workers[w].until)
    && forall v, w ::
         v in x.workers && w in x.workers && x.workers[v].Holding? && x.workers[w].Holding? && v != w ==>
         LockKey(x.workers[v].target) != LockKey(x.workers[w].target)
  }

  lemma StepExclusive(c: Config, x: World, e: Event)
    requires c.lockTTL > 0 && Exclusive(x) && Timely(x, e)
    ensures Exclusive(Step(c, x, e))
  {
    if e.Record? {
      forall w | w in x.workers && x.workers[w].Holding? ensures LockKey(x.workers[w].target) != CooldownKey(e.target) {
        SameKeys(x.workers[w].target, e.target);
      }
    }
  }

  /**
   Mutual exclusion. In every interleaving of any number of workers, if every
   step is timely, at most one worker holds a given source and segment.
   */
  lemma {:induction false} AtMostOneHolder(c: Config, x: World, es: seq<Event>, v: nat, w: nat)
    requires c.lockTTL > 0 && Exclusive(x) && AllTimely(c, x, es)
    requires var y := RunFrom(c, x, es);
      PhaseOf(y, v).Holding? && PhaseOf(y, w).Holding? && PhaseOf(y, v).target == PhaseOf(y, w).target
    ensures v == w
    decreases |es|
  {
    if es == [] {
    } else {
      StepExclusive(c, x, es[0]);
      AtMostOneHolder(c, Step(c, x, es[0]), es[1..], v, w);
    }
  }

  /** The property from the empty store: it needs nothing but the timely use. */
  lemma LockExcludes(c: Config, es: seq<Event>, v: nat, w: nat)
    requires c.lockTTL > 0 && AllTimely(c, START, es) && v != w
    ensures var y := RunFrom(c, START, es);
      PhaseOf(y, v).Holding? && PhaseOf(y, w).Holding? ==> PhaseOf(y, v).target != PhaseOf(y, w).target
  {
    var y := RunFrom(c, START, es);
    if PhaseOf(y, v).Holding? && PhaseOf(y, w).Holding? && PhaseOf(y, v).target == PhaseOf(y, w).target {
      AtMostOneHolder(c, START, es, v, w);
    }
  }

  /** Two workers hold the same target when one keeps it past the TTL. */
  lemma LateHolderBreaksExclusion(c: Config, t: Target)
    requires t.id != ""
    ensures var y := RunFrom(c, START, [Check(0, t, true, Works), Acquire(0, Works), Tick(c.lockTTL), Check(1, t, true, Works), Acquire(1, Works)]);
      PhaseOf(y, 0) == Holding(t, c.lockTTL) && PhaseOf(y, 1).Holding? && PhaseOf(y, 1).target == t
  {
    var es := [Check(0, t, true, Works), Acquire(0, Works), Tick(c.lockTTL), Check(1, t, true, Works), Acquire(1, Works)];
    var x1 := Step(c, START, es[0]);
    var x2 := Step(c, x1, es[1]);
    var x3 := Step(c, x2, es[2]);
    var x4 := Step(c, x3, es[3]);
    var x5 := Step(c, x4, es[4]);
    assert es == es[0..];
    RunOne(c, START, es, 0);
    RunOne(c, x1, es, 1);
    RunOne(c, x2, es, 2);
    RunOne(c, x3, es, 3);
    RunOne(c, x4, es, 4);
  }

  /** Worker 0 releases twice; worker 1 takes the lock in between, worker 2 afterwards. */
  function TwiceReleased(t: Target): seq<Event> {
    [Check(0, t, true, Works), Acquire(0, Works), Release(0, Works), Check(1, t, true, Works), Acquire(1, Works), Release(0, Works), Check(2, t, true, Works), Acquire(2, Works)]
  }

  /** Two workers hold the same target when a release function runs twice, however early. */
  lemma DoubleReleaseBreaksExclusion(c: Config, t: Target)
    requires t.id != "" && c.lockTTL > 0
    ensures var y := RunFrom(c, START, TwiceReleased(t));
      y.now == 0 && PhaseOf(y, 1) == PhaseOf(y, 2) == Holding(t, c.lockTTL)
  {
    hide LockKey, CooldownKey, Step, RunFrom;
    var es := TwiceReleased(t);
    assert es == es[0..];
    var x1 := Take(c, START, es, 0, t);
    var x2 := Free(c, x1, es, 2, t);
    var x3 := Take(c, x2, es, 3, t);
    var x4 := Free(c, x3, es, 5, t);
    var x5 := Take(c, x4, es, 6, t);
    assert es[8..] == [];
    RunNone(c, x5);
  }

  lemma RunNone(c: Config, x: World)
    ensures RunFrom(c, x, []) == x
  {
  }

  /** A release, the first or a second one, deletes the key. */
  lemma Free(c: Config, x: World, es: seq<Event>, k: nat, t: Target) returns (y: World)
    requires k < |es| && es[k].Release? && es[k] == Release(es[k].w, Works)
    requires PhaseOf(x, es[k].w) == Released(t) || (PhaseOf(x, es[k].w).Holding? && PhaseOf(x, es[k].w).target == t)
    ensures y == World(x.now, x.keys - {LockKey(t)}, x.workers[es[k].w := Released(t)])
    ensures RunFrom(c, x, es[k..]) == RunFrom(c, y, es[k + 1..])
  {
    hide LockKey, CooldownKey;
    y := Step(c, x, es[k]);
    RunOne(c, x, es, k);
  }

  /** A worker that is not holding checks and acquires, and finds no key in its way. */
  lemma Take(c: Config, x: World, es: seq<Event>, k: nat, t: Target) returns (y: World)
    requires k + 2 <= |es| && t.id != "" && es[k].Check? && es[k] == Check(es[k].w, t, true, Works) && es[k + 1] == Acquire(es[k].w, Works)
    requires !Live(x.keys, x.now, LockKey(t)) && !PhaseOf(x, es[k].w).Holding?
    ensures y == World(x.now, x.keys[LockKey(t) := x.now + c.lockTTL], x.workers[es[k].w := Holding(t, x.now + c.lockTTL)])
    ensures RunFrom(c, x, es[k..]) == RunFrom(c, y, es[k + 2..])
  {
    hide LockKey, CooldownKey;
    var x1 := Step(c, x, es[k]);
    y := Step(c, x1, es[k + 1]);
    RunOne(c, x, es, k);
    RunOne(c, x1, es, k + 1);
    assert y.workers == x.workers[es[k].w := Holding(t, x.now + c.lockTTL)];
  }

  /** No other source that records an ingest has an id that collides with `id`. */
  predicate NoCollisions(id: string, es: seq<Event>) {
    forall i :: 0 <= i < |es| && es[i].Record? && es[i].target.id != id ==> !Collide(id, es[i].target.id)
  }

  /** The cooldown key of `t` is alive at least until `until`. */
  predicate Cooling(x: World, t: Target, until: nat) {
    CooldownKey(t) in x.keys && until <= x.keys[CooldownKey(t)]
  }

  lemma StepKeepsCooling(c: Config, x: World, e: Event, t: Target, until: nat)
    requires Cooling(x, t, until) && until <= x.now + CooldownTTL(c, t)
    requires e.Record? && e.target.id != t.id ==> !Collide(t.id, e.target.id)
    ensures Cooling(Step(c, x, e), t, until)
    ensures until <= Step(c, x, e).now + CooldownTTL(c, t)
  {
    match e
    case Acquire(w, _) =>
      if PhaseOf(x, w).Checked? {
        SameKeys(PhaseOf(x, w).target, t);
      }
    case Release(w, _) =>
      if PhaseOf(x, w).Holding? || PhaseOf(x, w).Released? {
        SameKeys(PhaseOf(x, w).target, t);
      }
    case Record(other, _) => KeysMeet(t, other);
    case _ =>
  }

  lemma {:induction false} RunKeepsCooling(c: Config, x: World, es: seq<Event>, t: Target, until: nat)
    requires Cooling(x, t, until) && until <= x.now + CooldownTTL(c, t) && NoCollisions(t.id, es)
    ensures Cooling(RunFrom(c, x, es), t, until)
    decreases |es|
  {
    if es == [] {
    } else {
      StepKeepsCooling(c, x, es[0], t, until);
      assert forall i :: 0 <= i < |es[1..]| ==> es[1..][i] == es[i + 1];
      RunKeepsCooling(c, Step(c, x, es[0]), es[1..], t, until);
    }
  }

  /**
   After a successful ingest is recorded, whatever any worker does, timely or
   not, no Begin without explicit refresh passes its check before the TTL is
   over, as long as no source with a colliding id records an ingest.
   */
  lemma CooldownBlocks(c: Config, x: World, es: seq<Event>, t: Target, w: nat, reply: Reply)
    requires t.id != "" && NoCollisions(t.id, es)
    requires var y := RunFrom(c, Step(c, x, Record(t, Works)), es);
      y.now < x.now + CooldownTTL(c, t) && !PhaseOf(y, w).Holding?
    ensures var y := RunFrom(c, Step(c, x, Record(t, Works)), es);
      Step(c, y, Check(w, t, false, reply)) == y.(workers := y.workers[w := Idle])
  {
    RunKeepsCooling(c, Step(c, x, Record(t, Works)), es, t, x.now + CooldownTTL(c, t));
  }

  /** Source `q` records an ingest right after source `p`, and `p`'s cooldown is over `d` seconds later, too early. */
  predicate CutsCooldown(c: Config, p: Target, q: Target, d: nat) {
    var y := RunFrom(c, Step(c, START, Record(p, Works)), [Record(q, Works), Tick(d)]);
    d < CooldownTTL(c, p) && !Live(y.keys, y.now, CooldownKey(p))
  }

  lemma CutsCooldownRun(c: Config, p: Target, q: Target, d: nat)
    requires p.id != "" && q.id != ""
    ensures CutsCooldown(c, p, q, d) <==> CooldownKey(p) == CooldownKey(q) && CooldownTTL(c, q) <= d < CooldownTTL(c, p)
  {
    hide CooldownKey, CooldownTTL, NewConfig;
    var x1 := Step(c, START, Record(p, Works));
    var es := [Record(q, Works), Tick(d)];
    assert es == es[0..] && es[2..] == [];
    RunOne(c, x1, es, 0);
    RunOne(c, Step(c, x1, es[0]), es, 1);
  }

  /**
   One source can cut another one's cooldown short, with some queries, exactly when
   their ids meet and its own TTL is the shorter one.
   */
  lemma CollidingSourceCutsCooldown(c: Config, lower: string -> string, a: string, b: string)
    requires Lowers(lower) && Normalize(lower, a) != Normalize(lower, b)
    requires Normalize(lower, a) != "" && Normalize(lower, b) != ""
    ensures (exists x, y, d: nat :: CutsCooldown(c, TargetOf(lower, a, x), TargetOf(lower, b, y), d)) <==>
      && Meet(Normalize(lower, a), Normalize(lower, b))
      && CooldownTTL(c, TargetOf(lower, b, "")) < CooldownTTL(c, TargetOf(lower, a, ""))
  {
    hide CutsCooldown, CooldownKey, Meet, Lowers, Normalize;
    forall x, y, d: nat ensures
      CutsCooldown(c, TargetOf(lower, a, x), TargetOf(lower, b, y), d) <==>
      && CooldownKey(TargetOf(lower, a, x)) == CooldownKey(TargetOf(lower, b, y))
      && CooldownTTL(c, TargetOf(lower, b, "")) <= d < CooldownTTL(c, TargetOf(lower, a, ""))
    {
      CutsCooldownRun(c, TargetOf(lower, a, x), TargetOf(lower, b, y), d);
    }
    KeysCollideIff(lower, a, b);
    if Meet(Normalize(lower, a), Normalize(lower, b))
      && CooldownTTL(c, TargetOf(lower, b, "")) < CooldownTTL(c, TargetOf(lower, a, "")) {
      var x, y :| CooldownKey(TargetOf(lower, a, x)) == CooldownKey(TargetOf(lower, b, y));
      assert CutsCooldown(c, TargetOf(lower, a, x), TargetOf(lower, b, y), CooldownTTL(c, TargetOf(lower, b, "")));
    }
  }

  /** An ingest of "ejobs:ro" ends the cooldown of "ejobs", asked for "ro:catalog", as soon as its own is over. */
  lemma ArchitectureCooldownIsCut(c: Config, lower: string -> string)
    requires Lowers(lower) && lower("ejobs") == "ejobs" && lower("ejobs:ro") == "ejobs:ro" && c.cooldownTTL < ARCHITECTURE_TTL
    ensures CutsCooldown(c, TargetOf(lower, "ejobs", "ro:catalog"), TargetOf(lower, "ejobs:ro", ""), c.cooldownTTL)
  {
    hide CutsCooldown, CooldownKey, Normalize, Lowers;
    NormalizedIs(lower, "ejobs");
    NormalizedIs(lower, "ejobs:ro");
    assert "ejobs:ro"[6..] == "ro";
    assert CatalogQuery("ejobs", "ejobs:ro") == "ro:catalog";
    SharedKey(lower, "ejobs", "ejobs:ro");
    assert "ejobs:ro"[5] == ':';
    NoArchitectureColon("ejobs:ro");
    CutsCooldownRun(c, TargetOf(lower, "ejobs", "ro:catalog"), TargetOf(lower, "ejobs:ro", ""), c.cooldownTTL);
  }

  lemma NoArchitectureColon(id: string)
    requires |id| > 5 && id[..5] == "ejobs"
    ensures id !in ARCHITECTURE_IDS
  {
    assert id[0] == id[..5][0] == 'e' && id[1] == id[..5][1] == 'j';
  }
}
