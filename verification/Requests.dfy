/**
 One request after another on a real store object: whatever the requests, the responses are those of the
 atomic sessions, the hashes represent them, and the messages are the news of the winners.
 */
module Requests {
  import opened Domain
  import opened SessionStore
  import opened AtomicSession
  import opened StoreServer
  import opened SystemInvariant
  import opened VerifyRoute
  import Contents
  import SystemProofs

  datatype Request =
    | ToCreate(sid: SessionId, challenge: Challenge)
    | ToVerify(call: nat, sid: SessionId, request: BobRequest, embedding: Option<seq<real>>)
    | ToDelete(sid: SessionId)
    | ToWait(d: real)

  /** The atomic operation that a request is, where the object stands at o. */
  function OpOf(o: Object, r: Request): Op {
    match r
    case ToCreate(sid, ch) => CreateOp(sid, ch)
    case ToDelete(sid) => DeleteOp(sid)
    case ToWait(d) => TimeOp(d)
    case ToVerify(c, sid, request, Some(v)) => VerifyOp(c, sid, request, Vector(v))
    case ToVerify(c, sid, request, None) =>
      VerifyOp(c, sid, request, if !Gone(o, sid) && o.sessions[sid].outcome.None? then NoEmbedding else Unasked)
  }

  /** The requests as a log of the atomic object. */
  function Log(cfg: Config, requests: seq<Request>): (log: seq<LogEntry>)
    ensures |log| == |requests|
  {
    if requests == [] then []
    else
      var init := Log(cfg, requests[..|requests| - 1]);
      var o := Replay(cfg, init);
      var op := OpOf(o, requests[|requests| - 1]);
      init + [LogEntry(op, Apply(cfg, o, op).1)]
  }

  /** What an operation publishes: what goes with its response, if it is a verify. */
  function Published(cfg: Config, o: Object, op: Op): seq<(string, Event)> {
    if op.VerifyOp? then NewsOf(op.sid, op.request, Apply(cfg, o, op).1) else []
  }

  function News(cfg: Config, requests: seq<Request>): seq<(string, Event)> {
    if requests == [] then []
    else
      var init := requests[..|requests| - 1];
      var o := Replay(cfg, Log(cfg, init));
      News(cfg, init) + Published(cfg, o, OpOf(o, requests[|requests| - 1]))
  }

  /** The sessions that requests create. */
  function Ids(requests: seq<Request>): set<SessionId> {
    if requests == [] then {}
    else
      var r := requests[|requests| - 1];
      Ids(requests[..|requests| - 1]) + (if r.ToCreate? then {r.sid} else {})
  }

  /** Session ids are fresh, and time goes forward. */
  predicate Proper(requests: seq<Request>) {
    forall i :: 0 <= i < |requests| ==>
      && (requests[i].ToWait? ==> requests[i].d > 0.0)
      && (requests[i].ToCreate? ==> requests[i].sid !in Ids(requests[..i]))
  }

  /** The store where the log, the news and the ids in use stand so. */
  ghost predicate At(cfg: Config, s: Server, log: seq<LogEntry>, news: seq<(string, Event)>, ids: set<SessionId>) {
    var o := Replay(cfg, log);
    && Represents(s.db, o) && s.now == o.now && ObjectOk(cfg, o) && Legal(cfg, log)
    && s.published == news && o.sessions.Keys <= ids
  }

  ghost predicate InStep(cfg: Config, s: Server, requests: seq<Request>) {
    At(cfg, s, Log(cfg, requests), News(cfg, requests), Ids(requests))
  }

  function ResponsesOf(log: seq<LogEntry>): seq<Response> {
    seq(|log|, i requires 0 <= i < |log| => log[i].response)
  }

  /** The store handles one request: the new state and the response. */
  ghost predicate Handled(cfg: Config, s: Server, r: Request, t: Server, response: Response, o: Object) {
    var (p, expected) := Apply(cfg, o, OpOf(o, r));
    response == expected && Represents(t.db, p) && t.now == p.now && t.published == s.published + Published(cfg, o, OpOf(o, r))
  }

  lemma OneMore(cfg: Config, requests: seq<Request>, i: nat)
    requires i < |requests|
    ensures var o := Replay(cfg, Log(cfg, requests[..i])); var op := OpOf(o, requests[i]);
      && Log(cfg, requests[..i + 1]) == Log(cfg, requests[..i]) + [LogEntry(op, Apply(cfg, o, op).1)]
      && News(cfg, requests[..i + 1]) == News(cfg, requests[..i]) + Published(cfg, o, op)
      && Ids(requests[..i + 1]) == Ids(requests[..i]) + (if requests[i].ToCreate? then {requests[i].sid} else {})
  {
    assert requests[..i + 1][..i] == requests[..i];
  }

  lemma OnlyCreateUses(cfg: Config, o: Object, op: Op)
    ensures Apply(cfg, o, op).0.sessions.Keys <= o.sessions.Keys + (if op.CreateOp? then {op.sid} else {})
  {
  }

  lemma LogStepsOn(cfg: Config, s: Server, log: seq<LogEntry>, news: seq<(string, Event)>, ids: set<SessionId>, r: Request,
                   t: Server, response: Response)
    requires At(cfg, s, log, news, ids) && Handled(cfg, s, r, t, response, Replay(cfg, log)) && (r.ToWait? ==> r.d > 0.0)
    ensures var op := OpOf(Replay(cfg, log), r);
      At(cfg, t, log + [LogEntry(op, response)], news + Published(cfg, Replay(cfg, log), op),
         ids + (if r.ToCreate? then {r.sid} else {}))
  {
    var op := OpOf(Replay(cfg, log), r);
    LogGrows(cfg, s, log, news, ids, op, t, response, if r.ToCreate? then {r.sid} else {});
  }

  lemma LogGrows(cfg: Config, s: Server, log: seq<LogEntry>, news: seq<(string, Event)>, ids: set<SessionId>, op: Op,
                 t: Server, response: Response, created: set<SessionId>)
    requires At(cfg, s, log, news, ids) && Sane(op) && (op.CreateOp? ==> op.sid in created)
    requires var (p, expected) := Apply(cfg, Replay(cfg, log), op);
      && response == expected && Represents(t.db, p) && t.now == p.now
      && t.published == s.published + Published(cfg, Replay(cfg, log), op)
    ensures At(cfg, t, log + [LogEntry(op, response)], news + Published(cfg, Replay(cfg, log), op), ids + created)
  {
    var o := Replay(cfg, log);
    ReplayOneMore(cfg, log, LogEntry(op, response));
    ApplyForward(cfg, o, op);
    OnlyCreateUses(cfg, o, op);
  }

  lemma StepsOn(cfg: Config, s: Server, requests: seq<Request>, i: nat, t: Server, response: Response)
    requires i < |requests| && Proper(requests) && InStep(cfg, s, requests[..i])
    requires Handled(cfg, s, requests[i], t, response, Replay(cfg, Log(cfg, requests[..i])))
    ensures InStep(cfg, t, requests[..i + 1])
    ensures ResponsesOf(Log(cfg, requests[..i + 1])) == ResponsesOf(Log(cfg, requests[..i])) + [response]
  {
    var log := Log(cfg, requests[..i]);
    OneMore(cfg, requests, i);
    LogStepsOn(cfg, s, log, News(cfg, requests[..i]), Ids(requests[..i]), requests[i], t, response);
    OneMoreResponse(log, LogEntry(OpOf(Replay(cfg, log), requests[i]), response));
  }

  lemma OneMoreResponse(log: seq<LogEntry>, e: LogEntry)
    ensures ResponsesOf(log + [e]) == ResponsesOf(log) + [e.response]
  {
  }

  method HandleVerify(redis: Redis, cfg: Config, r: Request, ghost o: Object) returns (response: Response)
    requires r.ToVerify? && Represents(redis.db, o) && redis.now == o.now
    modifies redis
    ensures Handled(cfg, old(View(redis)), r, View(redis), response, o)
  {
    ghost var s := View(redis);
    assert ExecuteAll(s, cfg.ttl, []) == s;
    response := Verify(redis, cfg, r.sid, r.request, r.embedding, []);
    WaitingInStep(s, o, r.sid);
    AtOnceIsAtomic(cfg, s, o, r.call, r.sid, r.request, if r.embedding.Some? then r.embedding.value else []);
  }

  lemma WaitingInStep(s: Server, o: Object, sid: SessionId)
    requires Represents(s.db, o)
    ensures Waiting(s, sid) <==> !Gone(o, sid) && o.sessions[sid].outcome.None?
    ensures Waiting(s, sid) ==> s.db[sid].hash == NewHash(o.sessions[sid].challenge, o.sessions[sid].createdAt)
  {
    if !Gone(o, sid) {
      SystemProofs.PhaseOf(o.sessions[sid]);
    }
  }

  method Handle(redis: Redis, cfg: Config, r: Request, ghost o: Object) returns (response: Response)
    requires Represents(redis.db, o) && redis.now == o.now && ObjectOk(cfg, o)
    requires (r.ToCreate? ==> r.sid !in o.sessions) && (r.ToWait? ==> r.d > 0.0)
    modifies redis
    ensures Handled(cfg, old(View(redis)), r, View(redis), response, o)
  {
    match r {
      case ToCreate(sid, ch) =>
        SystemProofs.CreateRepresents(cfg, redis.db, o, sid, ch);
        redis.Create(sid, ch, cfg.ttl);
        response := Created;
      case ToDelete(sid) =>
        SystemProofs.DeleteRepresents(redis.db, o, sid);
        var deleted := redis.Delete(sid);
        response := Deleted;
      case ToWait(d) =>
        SystemProofs.TimeRepresents(cfg, redis.db, o, d);
        redis.Lapse(d);
        response := Nothing;
      case ToVerify(_, _, _, _) =>
        response := HandleVerify(redis, cfg, r, o);
    }
  }

  method HandleNext(redis: Redis, cfg: Config, requests: seq<Request>, i: nat) returns (response: Response)
    requires i < |requests| && Proper(requests) && InStep(cfg, View(redis), requests[..i])
    modifies redis
    ensures InStep(cfg, View(redis), requests[..i + 1])
    ensures ResponsesOf(Log(cfg, requests[..i + 1])) == ResponsesOf(Log(cfg, requests[..i])) + [response]
  {
    ghost var s, o := View(redis), Replay(cfg, Log(cfg, requests[..i]));
    response := Handle(redis, cfg, requests[i], o);
    StepsOn(cfg, s, requests, i, View(redis), response);
  }

  /**
   Any sequence of requests on a new store: the log that they make with their responses is a legal log of
   the atomic object, the store represents the object's sessions at the end, and it has published with each
   result, in order, what goes with that response, and nothing else.
   */
  method Serve(cfg: Config, requests: seq<Request>) returns (redis: Redis, responses: seq<Response>)
    requires Proper(requests)
    ensures Legal(cfg, Log(cfg, requests)) && responses == ResponsesOf(Log(cfg, requests))
    ensures Represents(redis.db, Replay(cfg, Log(cfg, requests)))
    ensures redis.published == News(cfg, requests)
  {
    redis := new Redis();
    responses := [];
    var i := 0;
    while i < |requests|
      invariant 0 <= i <= |requests| && fresh(redis)
      invariant InStep(cfg, View(redis), requests[..i])
      invariant responses == ResponsesOf(Log(cfg, requests[..i]))
    {
      var response := HandleNext(redis, cfg, requests, i);
      responses := responses + [response];
      i := i + 1;
    }
    assert requests[..i] == requests;
  }

  /** A late or reconnecting stream, and GET, read the atomic object off the store. */
  method ReadBack(redis: Redis, cfg: Config, ghost o: Object, sid: SessionId) returns (check: Check, data: Option<Hash>)
    requires Represents(redis.db, o)
    ensures check ==
      if Gone(o, sid) then Found(ExpiredEvent)
      else if o.sessions[sid].outcome.None? then StillWaiting
      else Found(RebuiltEvent(o.sessions[sid].outcome.value))
    ensures data == if Gone(o, sid) then None else Some(HashOf(o.sessions[sid]))
    ensures data.Some? ==>
      && HoldsChallenge(data.value, o.sessions[sid].challenge, o.sessions[sid].createdAt)
      && match o.sessions[sid].outcome
         case None => HoldsNoResult(data.value)
         case Some(w) => HoldsResult(data.value, w.request, w.score, w.passed)
  {
    check := redis.TerminalEvent(sid);
    data := redis.Get(sid);
    SystemProofs.TerminalEventOf(redis.db, o, sid);
    if !Gone(o, sid) {
      Contents.HashHolds(o.sessions[sid]);
    }
  }
}
