/**
 The specification: a table of one-shot sessions on which every operation happens in one instant.
 Nothing is forgotten here; a session that Redis has dropped keeps its record, marked with the
 instant at which it went.
 */
module AtomicSession {
  import opened Domain
  import opened Rounding

  /** score is cosine_similarity, None where np.dot raises; ttl is SESSION_TTL_SECONDS. */
  datatype Config = Config(score: (seq<real>, seq<real>) -> Option<real>, threshold: real, ttl: int)

  datatype Outcome = Outcome(call: nat, request: BobRequest, score: real, passed: bool, at: real)

  datatype Session = Session(
    challenge: Challenge, createdAt: real, expiresAt: real, outcome: Option<Outcome>, goneAt: Option<real>)

  datatype Object = Object(now: real, sessions: map<SessionId, Session>)

  /** How far a verify call got before it answered. */
  datatype Answer =
    | Unasked                  // left before the embedding
    | NoEmbedding              // the embedding service gave nothing
    | Crashed                  // an exception between the read and the script
    | Vector(v: seq<real>)     // ran the script

  datatype Op =
    | CreateOp(sid: SessionId, challenge: Challenge)
    | VerifyOp(call: nat, sid: SessionId, request: BobRequest, answer: Answer)
    | DeleteOp(sid: SessionId)
    | TimeOp(d: real)

  datatype Response =
    | Created | Deleted | Nothing
    | NotFound                                // 404
    | Completed                               // 409
    | Busy                                    // 503
    | Fault                                   // 500
    | Pass(percent: int, aliceKey: Jwk)       // 200
    | Fail(percent: int)                      // 200

  const EMPTY := Object(0.0, map[])

  predicate Gone(o: Object, sid: SessionId) {
    sid !in o.sessions || o.sessions[sid].goneAt.Some?
  }

  function Aged(ses: Session, now: real): Session {
    if ses.goneAt.None? && ses.expiresAt <= now then ses.(goneAt := Some(ses.expiresAt)) else ses
  }

  function WinResponse(ses: Session): Response
    requires ses.outcome.Some?
  {
    var w := ses.outcome.value;
    if w.passed then Pass(LivePercent(w.score), ses.challenge.aliceKey) else Fail(LivePercent(w.score))
  }

  function ApplyCreate(cfg: Config, o: Object, sid: SessionId, ch: Challenge): Object {
    if sid in o.sessions then o
    else
      o.(sessions := o.sessions[sid :=
        Session(ch, o.now, o.now + cfg.ttl as real, None, if cfg.ttl <= 0 then Some(o.now) else None)])
  }

  function ApplyVerify(cfg: Config, o: Object, call: nat, sid: SessionId, request: BobRequest, answer: Answer)
    : (Object, Response)
  {
    if answer.NoEmbedding? then (o, Busy)
    else if answer.Crashed? then (o, Fault)
    else if Gone(o, sid) then (o, NotFound)
    else if o.sessions[sid].outcome.Some? then (o, Completed)
    else if answer.Unasked? then (o, Busy)
    else
      match cfg.score(o.sessions[sid].challenge.vector, answer.v)
      case None => (o, Fault)
      case Some(score) =>
        var ses := o.sessions[sid].(outcome := Some(Outcome(call, request, score, score >= cfg.threshold, o.now)));
        (o.(sessions := o.sessions[sid := ses]), WinResponse(ses))
  }

  function ApplyDelete(o: Object, sid: SessionId): Object {
    if Gone(o, sid) then o
    else o.(sessions := o.sessions[sid := o.sessions[sid].(goneAt := Some(o.now))])
  }

  function ApplyTime(o: Object, d: real): Object {
    Object(o.now + d, map sid | sid in o.sessions :: Aged(o.sessions[sid], o.now + d))
  }

  function Apply(cfg: Config, o: Object, op: Op): (Object, Response) {
    match op
    case CreateOp(sid, ch) => (ApplyCreate(cfg, o, sid, ch), Created)
    case VerifyOp(c, sid, request, answer) => ApplyVerify(cfg, o, c, sid, request, answer)
    case DeleteOp(sid) => (ApplyDelete(o, sid), Deleted)
    case TimeOp(d) => (ApplyTime(o, d), Nothing)
  }

  /** An operation together with the response that its caller really got. */
  datatype LogEntry = LogEntry(op: Op, response: Response)

  function Replay(cfg: Config, log: seq<LogEntry>): Object {
    if log == [] then EMPTY
    else Apply(cfg, Replay(cfg, log[..|log| - 1]), log[|log| - 1].op).0
  }

  /** Every response in the log is the one that the atomic object gives at that place. */
  ghost predicate Legal(cfg: Config, log: seq<LogEntry>) {
    forall i :: 0 <= i < |log| ==> log[i].response == Apply(cfg, Replay(cfg, log[..i]), log[i].op).1
  }

  lemma ReplayOneMore(cfg: Config, log: seq<LogEntry>, e: LogEntry)
    ensures Replay(cfg, log + [e]) == Apply(cfg, Replay(cfg, log), e.op).0
    ensures Legal(cfg, log) && e.response == Apply(cfg, Replay(cfg, log), e.op).1 ==> Legal(cfg, log + [e])
  {
    var more := log + [e];
    assert more[..|more| - 1] == log;
    if Legal(cfg, log) && e.response == Apply(cfg, Replay(cfg, log), e.op).1 {
      forall i | 0 <= i < |more|
        ensures more[i].response == Apply(cfg, Replay(cfg, more[..i]), more[i].op).1
      {
        if i < |log| {
          assert more[..i] == log[..i];
        }
      }
    }
  }

  /** An early 404 or 409 is what the same call would have got with any answer at all, and it changes nothing. */
  lemma EarlyExitForEveryAnswer(cfg: Config, o: Object, call: nat, sid: SessionId, request: BobRequest, v: seq<real>)
    requires ApplyVerify(cfg, o, call, sid, request, Unasked).1 in {NotFound, Completed}
    ensures ApplyVerify(cfg, o, call, sid, request, Vector(v)) == ApplyVerify(cfg, o, call, sid, request, Unasked)
    ensures ApplyVerify(cfg, o, call, sid, request, Unasked).0 == o
  {
  }

  predicate Won(response: Response) {
    response.Pass? || response.Fail?
  }

  /** The log without the verify calls that did not win. */
  function Effective(log: seq<LogEntry>): seq<LogEntry> {
    if log == [] then []
    else
      var e := log[|log| - 1];
      Effective(log[..|log| - 1]) + (if e.op.VerifyOp? && !Won(e.response) then [] else [e])
  }

  lemma LegalPrefix(cfg: Config, log: seq<LogEntry>)
    requires Legal(cfg, log) && log != []
    ensures var init, e := log[..|log| - 1], log[|log| - 1];
      Legal(cfg, init) && e.response == Apply(cfg, Replay(cfg, init), e.op).1
  {
    var init := log[..|log| - 1];
    forall i | 0 <= i < |init|
      ensures init[i].response == Apply(cfg, Replay(cfg, init[..i]), init[i].op).1
    {
      assert init[..i] == log[..i];
    }
  }

  lemma LosersChangeNothing(cfg: Config, o: Object, op: Op)
    requires op.VerifyOp? && !Won(Apply(cfg, o, op).1)
    ensures Apply(cfg, o, op).0 == o
  {
  }

  /** A call answered with 404, 409, 500 or 503 might as well not have been made: Bob can simply retry. */
  lemma {:induction false} OnlyWinnersMatter(cfg: Config, log: seq<LogEntry>)
    requires Legal(cfg, log)
    ensures Replay(cfg, Effective(log)) == Replay(cfg, log)
    ensures Legal(cfg, Effective(log))
    decreases |log|
  {
    if log != [] {
      var init, e := log[..|log| - 1], log[|log| - 1];
      LegalPrefix(cfg, log);
      OnlyWinnersMatter(cfg, init);
      if e.op.VerifyOp? && !Won(e.response) {
        LosersChangeNothing(cfg, Replay(cfg, init), e.op);
        assert Effective(log) == Effective(init);
      } else {
        ReplayOneMore(cfg, Effective(init), e);
      }
    }
  }

  // ---- How sessions evolve ----

  function Finish(ses: Session): Option<real> {
    if ses.outcome.Some? then Some(ses.outcome.value.at) else ses.goneAt
  }

  ghost predicate SessionOk(cfg: Config, ses: Session, now: real) {
    && ses.createdAt <= now
    && ses.expiresAt == ses.createdAt + cfg.ttl as real
    && (ses.goneAt.None? ==> now < ses.expiresAt)
    && (ses.goneAt.Some? ==> ses.createdAt <= ses.goneAt.value <= now)
    && (ses.outcome.Some? ==>
          var w := ses.outcome.value;
          && ses.createdAt <= w.at <= now && w.at < ses.expiresAt
          && (w.passed <==> w.score >= cfg.threshold)
          && (ses.goneAt.Some? ==> w.at <= ses.goneAt.value))
  }

  ghost predicate ObjectOk(cfg: Config, o: Object) {
    forall sid :: sid in o.sessions ==> SessionOk(cfg, o.sessions[sid], o.now)
  }

  /** b is a later state of a: the challenge stays, a result stays, gone stays gone and takes the result with it. */
  ghost predicate Later(a: Session, b: Session, now: real) {
    && a.challenge == b.challenge && a.createdAt == b.createdAt && a.expiresAt == b.expiresAt
    && (a.outcome.Some? || a.goneAt.Some? ==> b.outcome == a.outcome)
    && (a.goneAt.Some? ==> b.goneAt == a.goneAt)
    && (a.outcome.None? && b.outcome.Some? ==> now <= b.outcome.value.at)
    && (a.goneAt.None? && b.goneAt.Some? ==> now <= b.goneAt.value)
  }

  ghost predicate Forward(o: Object, p: Object) {
    && o.now <= p.now
    && forall sid :: sid in o.sessions ==> sid in p.sessions && Later(o.sessions[sid], p.sessions[sid], o.now)
  }

  predicate Sane(op: Op) {
    op.TimeOp? ==> op.d > 0.0
  }

  /** Only the session named by an operation changes, and it only moves on. */
  lemma UpdateForward(cfg: Config, o: Object, sid: SessionId, ses: Session)
    requires ObjectOk(cfg, o) && SessionOk(cfg, ses, o.now)
    requires sid in o.sessions ==> Later(o.sessions[sid], ses, o.now)
    ensures ObjectOk(cfg, o.(sessions := o.sessions[sid := ses]))
    ensures Forward(o, o.(sessions := o.sessions[sid := ses]))
  {
  }

  lemma VerifyForward(cfg: Config, o: Object, call: nat, sid: SessionId, request: BobRequest, answer: Answer)
    requires ObjectOk(cfg, o)
    ensures var p := ApplyVerify(cfg, o, call, sid, request, answer).0;
      ObjectOk(cfg, p) && Forward(o, p)
  {
    var p := ApplyVerify(cfg, o, call, sid, request, answer).0;
    if p != o {
      assert SessionOk(cfg, o.sessions[sid], o.now);
      UpdateForward(cfg, o, sid, p.sessions[sid]);
    }
  }

  lemma TimeForward(cfg: Config, o: Object, d: real)
    requires ObjectOk(cfg, o) && d > 0.0
    ensures ObjectOk(cfg, ApplyTime(o, d)) && Forward(o, ApplyTime(o, d))
  {
  }

  lemma ApplyForward(cfg: Config, o: Object, op: Op)
    requires ObjectOk(cfg, o) && Sane(op)
    ensures ObjectOk(cfg, Apply(cfg, o, op).0)
    ensures Forward(o, Apply(cfg, o, op).0)
  {
    match op
    case CreateOp(sid, ch) =>
      if sid !in o.sessions {
        UpdateForward(cfg, o, sid, ApplyCreate(cfg, o, sid, ch).sessions[sid]);
      }
    case VerifyOp(c, sid, request, answer) => VerifyForward(cfg, o, c, sid, request, answer);
    case DeleteOp(sid) =>
      if !Gone(o, sid) {
        UpdateForward(cfg, o, sid, ApplyDelete(o, sid).sessions[sid]);
      }
    case TimeOp(d) => TimeForward(cfg, o, d);
  }
}
