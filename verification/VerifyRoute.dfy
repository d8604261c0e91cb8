/** The verify route as it runs, with other requests at work between its read and its script. */
module VerifyRoute {
  import opened Domain
  import opened Rounding
  import opened SessionStore
  import opened AtomicSession
  import opened StoreServer
  import EventHub
  import SystemInvariant
  import SystemProofs

  /** The Redis server as a value: the keys, the clock, and everything published so far. */
  datatype Server = Server(db: Db, now: real, published: seq<(string, Event)>)

  function View(redis: Redis): Server
    reads redis
  {
    Server(redis.db, redis.now, redis.published)
  }

  /** What others do to the server meanwhile. */
  datatype Command =
    | OtherCreate(sid: SessionId, challenge: Challenge)
    | OtherScript(sid: SessionId, request: BobRequest, score: real, passed: bool)
    | OtherDelete(sid: SessionId)
    | Time(d: real)

  /** Session ids are fresh, and time goes forward. */
  predicate Fair(sid: SessionId, cmds: seq<Command>) {
    forall i :: 0 <= i < |cmds| ==>
      (cmds[i].OtherCreate? ==> cmds[i].sid != sid) && (cmds[i].Time? ==> cmds[i].d > 0.0)
  }

  /** The script with the updates and the announcement for this score. */
  function Script(s: Server, sid: SessionId, request: BobRequest, score: real, passed: bool): Server {
    var r := SessionStore.Finalize(s.db, sid, Fields(Updates(request, score, passed)), Announcement(request, score, passed));
    Server(r.db, s.now, if r.published.Some? then s.published + [(EventHub.Channel(sid), r.published.value)] else s.published)
  }

  function Execute(s: Server, ttl: int, cmd: Command): Server {
    match cmd
    case OtherCreate(sid, ch) => s.(db := SessionStore.Create(s.db, sid, ch, s.now, ttl))
    case OtherScript(sid, request, score, passed) => Script(s, sid, request, score, passed)
    case OtherDelete(sid) => s.(db := s.db - {sid})
    case Time(d) => s.(db := Evict(s.db, s.now + d), now := s.now + d)
  }

  function ExecuteAll(s: Server, ttl: int, cmds: seq<Command>): Server {
    if cmds == [] then s
    else Execute(ExecuteAll(s, ttl, cmds[..|cmds| - 1]), ttl, cmds[|cmds| - 1])
  }

  /** The score against a stored hash; None is any exception on the way. */
  function ScoreIn(cfg: Config, hash: Hash, v: seq<real>): Option<real> {
    if AnswerEmbedding in hash && hash[AnswerEmbedding].VectorJson? then cfg.score(hash[AnswerEmbedding].vector, v) else None
  }

  /** What Bob is told when the script has run; a key that does not decode is an exception. */
  function Verdict(hash: Hash, score: real, passed: bool): Response {
    if !passed then Fail(LivePercent(score))
    else if AlicePubkey in hash && hash[AlicePubkey].KeyJson? then Pass(LivePercent(score), hash[AlicePubkey].key)
    else Fault
  }

  /**
   The specification: the whole route in one instant, on the server as it is at that instant. In
   particular the score is taken against the embedding stored there and then.
   */
  function AtOnce(cfg: Config, s: Server, sid: SessionId, request: BobRequest, v: seq<real>): (Server, Response) {
    if sid !in s.db then (s, NotFound)
    else
      var hash := s.db[sid].hash;
      match PhaseIn(hash)
      case None => (s, Fault)
      case Some(WaitingForBob) =>
        (match ScoreIn(cfg, hash, v)
         case None => (s, Fault)
         case Some(score) =>
           var passed := score >= cfg.threshold;
           (Script(s, sid, request, score, passed), Verdict(hash, score, passed)))
      case Some(_) => (s, Completed)
  }

  /** The message that goes with a response: its own percentage, and Bob's name and key if he passed. */
  function NewsOf(sid: SessionId, request: BobRequest, response: Response): seq<(string, Event)> {
    match response
    case Pass(percent, _) => [("session:" + sid + ":events", VerifiedEvent(request.bobName, request.bobKey, percent))]
    case Fail(percent) => [("session:" + sid + ":events", FailedEvent(percent))]
    case _ => []
  }

  /** A response with a result comes from a score: it passes from the threshold on, and shows the nearest percentage. */
  ghost predicate IsResultOf(cfg: Config, response: Response, score: real) {
    if score >= cfg.threshold then response.Pass? && NearestEven(score * 100.0, response.percent)
    else response.Fail? && NearestEven(score * 100.0, response.percent)
  }

  lemma AtOncePublishes(cfg: Config, s: Server, sid: SessionId, request: BobRequest, v: seq<real>)
    ensures var (t, response) := AtOnce(cfg, s, sid, request, v);
      && (!response.Fault? ==> t.published == s.published + NewsOf(sid, request, response))
      && (Won(response) ==>
            && sid in s.db
            && var score := ScoreIn(cfg, s.db[sid].hash, v); score.Some? && IsResultOf(cfg, response, score.value))
  {
    assert EventHub.Channel(sid) == "session:" + sid + ":events";
  }

  predicate Waiting(s: Server, sid: SessionId) {
    sid in s.db && PhaseIn(s.db[sid].hash) == Some(WaitingForBob)
  }

  /** The parts of a hash that the route takes from its snapshot. */
  predicate SameSecrets(a: Hash, b: Hash) {
    && (AnswerEmbedding in a <==> AnswerEmbedding in b) && (AnswerEmbedding in a ==> a[AnswerEmbedding] == b[AnswerEmbedding])
    && (AlicePubkey in a <==> AlicePubkey in b) && (AlicePubkey in a ==> a[AlicePubkey] == b[AlicePubkey])
  }

  /** No command of others touches the embedding or the key of a session that is there, or takes its phase away. */
  lemma {:induction false} OthersKeep(s: Server, ttl: int, sid: SessionId, cmds: seq<Command>)
    requires Fair(sid, cmds)
    ensures var t := ExecuteAll(s, ttl, cmds);
      sid in t.db ==>
        && sid in s.db && SameSecrets(s.db[sid].hash, t.db[sid].hash)
        && (PhaseIn(s.db[sid].hash).Some? ==> PhaseIn(t.db[sid].hash).Some?)
    decreases |cmds|
  {
    if cmds != [] {
      OthersKeep(s, ttl, sid, cmds[..|cmds| - 1]);
      OneKeeps(ExecuteAll(s, ttl, cmds[..|cmds| - 1]), ttl, sid, cmds[|cmds| - 1]);
    }
  }

  lemma OneKeeps(s: Server, ttl: int, sid: SessionId, cmd: Command)
    requires cmd.OtherCreate? ==> cmd.sid != sid
    ensures var t := Execute(s, ttl, cmd);
      sid in t.db ==>
        && sid in s.db && SameSecrets(s.db[sid].hash, t.db[sid].hash)
        && (PhaseIn(s.db[sid].hash).Some? ==> PhaseIn(t.db[sid].hash).Some?)
  {
    if cmd.OtherScript? && cmd.sid == sid && sid in s.db {
      var m := UpdatedFields(cmd.request, cmd.score, cmd.passed);
    }
  }

  method Others(redis: Redis, ttl: int, sid: SessionId, cmds: seq<Command>)
    requires Fair(sid, cmds)
    modifies redis
    ensures View(redis) == ExecuteAll(old(View(redis)), ttl, cmds)
  {
    var i := 0;
    while i < |cmds|
      invariant 0 <= i <= |cmds|
      invariant View(redis) == ExecuteAll(old(View(redis)), ttl, cmds[..i])
    {
      match cmds[i] {
        case OtherCreate(other, ch) => redis.Create(other, ch, ttl);
        case OtherScript(other, request, score, passed) =>
          var code := redis.Finalize(other, Updates(request, score, passed), Announcement(request, score, passed));
        case OtherDelete(other) => var deleted := redis.Delete(other);
        case Time(d) => redis.Lapse(d);
      }
      i := i + 1;
      assert cmds[..i][..i - 1] == cmds[..i - 1];
    }
    assert cmds[..i] == cmds;
  }

  /** The route from the score on: the script, then the response from the snapshot. */
  function Concluded(s: Server, sid: SessionId, request: BobRequest, snapshot: Hash, score: real, passed: bool): (Server, Response) {
    if sid !in s.db then (s, NotFound)
    else if !Waiting(s, sid) then (s, Completed)
    else (Script(s, sid, request, score, passed), Verdict(snapshot, score, passed))
  }

  /** A stale snapshot is as good as a fresh one. */
  lemma ScoreNow(cfg: Config, s: Server, sid: SessionId, request: BobRequest, v: seq<real>, snapshot: Hash, score: real)
    requires ScoreIn(cfg, snapshot, v) == Some(score)
    requires sid in s.db ==> SameSecrets(snapshot, s.db[sid].hash) && PhaseIn(s.db[sid].hash).Some?
    ensures AtOnce(cfg, s, sid, request, v) == Concluded(s, sid, request, snapshot, score, score >= cfg.threshold)
  {
  }

  lemma SameScore(cfg: Config, s: Server, sid: SessionId, v: seq<real>, snapshot: Hash)
    requires sid in s.db ==> SameSecrets(snapshot, s.db[sid].hash)
    ensures sid in s.db ==> ScoreIn(cfg, s.db[sid].hash, v) == ScoreIn(cfg, snapshot, v)
  {
  }

  method Prepare(request: BobRequest, score: real, passed: bool) returns (updates: seq<(Field, Text)>, event: Event)
    ensures updates == Updates(request, score, passed) && event == Announcement(request, score, passed)
  {
    var percent := LivePercent(score);
    if passed {
      updates := [(PhaseField, PhaseName(Verified)), (BobName, Str(request.bobName)),
                  (BobPubkey, KeyJson(request.bobKey)), (SimilarityScore, Decimal(Stored(score)))];
      event := VerifiedEvent(request.bobName, request.bobKey, percent);
    } else {
      updates := [(PhaseField, PhaseName(Failed)), (SimilarityScore, Decimal(Stored(score)))];
      event := FailedEvent(percent);
    }
  }

  method RunScript(redis: Redis, sid: SessionId, request: BobRequest, score: real, passed: bool) returns (code: int)
    modifies redis
    ensures View(redis) == Script(old(View(redis)), sid, request, score, passed)
    ensures code == if sid !in old(redis.db) then -1 else if !old(Waiting(View(redis), sid)) then 0 else 1
    ensures code != 1 ==> View(redis) == old(View(redis))
    ensures code == 1 ==>
      exists percent :: NearestEven(score * 100.0, percent) &&
        redis.published == old(redis.published) +
          [("session:" + sid + ":events", if passed then VerifiedEvent(request.bobName, request.bobKey, percent) else FailedEvent(percent))]
  {
    assert EventHub.Channel(sid) == "session:" + sid + ":events";
    assert NearestEven(score * 100.0, LivePercent(score));
    var updates, event := Prepare(request, score, passed);
    code := redis.Finalize(sid, updates, event);
  }

  method Conclude(redis: Redis, sid: SessionId, request: BobRequest, snapshot: Hash, score: real, passed: bool)
    returns (response: Response)
    modifies redis
    ensures (View(redis), response) == Concluded(old(View(redis)), sid, request, snapshot, score, passed)
  {
    var code := RunScript(redis, sid, request, score, passed);
    if code == -1 {
      return NotFound;
    }
    if code == 0 {
      return Completed;
    }
    if !passed {
      return Fail(LivePercent(score));
    }
    if AlicePubkey !in snapshot || !snapshot[AlicePubkey].KeyJson? {
      return Fault;
    }
    response := Pass(LivePercent(score), snapshot[AlicePubkey].key);
  }

  /**
   The route. Whatever others do while the answer is being embedded, the hashes, the messages and the
   response come out as if everything had happened at once: at the read for an early 404 or 409, else at
   the script, although the score was taken against the snapshot. A 503 and a 500 leave the server to
   the others.
   */
  method Verify(redis: Redis, cfg: Config, sid: SessionId, request: BobRequest, embedding: Option<seq<real>>, meanwhile: seq<Command>)
    returns (response: Response)
    requires Fair(sid, meanwhile)
    modifies redis
    ensures var s0 := old(View(redis)); var s1 := ExecuteAll(s0, cfg.ttl, meanwhile);
      if !Waiting(s0, sid) then forall v :: (View(redis), response) == AtOnce(cfg, s0, sid, request, v)
      else if embedding.None? then View(redis) == s1 && response == Busy
      else if ScoreIn(cfg, s0.db[sid].hash, embedding.value).None? then View(redis) == s1 && response == Fault
      else (View(redis), response) == AtOnce(cfg, s1, sid, request, embedding.value)
    ensures Won(response) ==>
      && View(redis).published == ExecuteAll(old(View(redis)), cfg.ttl, meanwhile).published + NewsOf(sid, request, response)
      && embedding.Some? && sid in old(redis.db)
      && var score := ScoreIn(cfg, old(redis.db)[sid].hash, embedding.value); score.Some? && IsResultOf(cfg, response, score.value)
  {
    var session := redis.Get(sid);
    if session.None? {
      return NotFound;
    }
    var phase := PhaseIn(session.value);
    if phase.None? {
      return Fault;
    }
    if phase.value != WaitingForBob {
      return Completed;
    }
    OthersKeep(View(redis), cfg.ttl, sid, meanwhile);
    Others(redis, cfg.ttl, sid, meanwhile);
    if embedding.None? {
      return Busy;
    }
    var score := ScoreIn(cfg, session.value, embedding.value);
    if score.None? {
      return Fault;
    }
    ScoreNow(cfg, View(redis), sid, request, embedding.value, session.value, score.value);
    AtOncePublishes(cfg, View(redis), sid, request, embedding.value);
    SameScore(cfg, View(redis), sid, embedding.value, session.value);
    response := Conclude(redis, sid, request, session.value, score.value, score.value >= cfg.threshold);
  }

  /**
   On a server that represents an atomic object, the route at once is the object's verify, and it
   publishes once exactly when it decides the session: the percentage of its response, with Bob's name and key
   if he passed, on the session's channel.
   */
  lemma AtOnceIsAtomic(cfg: Config, s: Server, o: Object, call: nat, sid: SessionId, request: BobRequest, v: seq<real>)
    requires SystemInvariant.Represents(s.db, o)
    ensures var (t, response) := AtOnce(cfg, s, sid, request, v);
      var (p, r) := ApplyVerify(cfg, o, call, sid, request, Vector(v));
      && response == r && SystemInvariant.Represents(t.db, p) && t.now == s.now
      && t.published == s.published + NewsOf(sid, request, r)
  {
    AtOncePublishes(cfg, s, sid, request, v);
    if sid in s.db {
      var ses := o.sessions[sid];
      SystemProofs.PhaseOf(ses);
      if ses.outcome.None? && cfg.score(ses.challenge.vector, v).Some? {
        SystemProofs.ScriptRepresents(cfg, s.db, o, call, sid, request, v, cfg.score(ses.challenge.vector, v).value);
      }
    }
  }
}
