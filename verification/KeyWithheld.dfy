/**
 Alice's public key reaches nobody but a Bob who passed. Replace her key in a run by any other: the
 run is still possible, and everything that anyone can see stays the same, down to the last event and
 response, except for the PASS responses of her own session.
 */
module KeyWithheld {
  import opened Domain
  import opened SessionStore
  import opened AtomicSession
  import opened System
  import SystemInvariant
  import SystemProofs
  import opened Guarantees

  /** Whose key is replaced, and by what. */
  datatype Swap = Swap(sid: SessionId, key: Jwk)

  function InHash(x: Swap, h: Hash): Hash {
    if AlicePubkey in h && h[AlicePubkey].KeyJson? then h[AlicePubkey := KeyJson(x.key)] else h
  }

  function InDb(x: Swap, db: Db): Db {
    if x.sid in db then db[x.sid := Entry(InHash(x, db[x.sid].hash), db[x.sid].expiresAt)] else db
  }

  function InResponse(x: Swap, r: Response): Response {
    if r.Pass? then Pass(r.percent, x.key) else r
  }

  function InPc(x: Swap, pc: CallPc): CallPc {
    match pc
    case Reading => pc
    case Embedding(h) => Embedding(InHash(x, h))
    case Finalizing(h, v, score) => Finalizing(InHash(x, h), v, score)
    case Replied(r, at) => Replied(InResponse(x, r), at)
  }

  function InCall(x: Swap, call: Call): Call {
    if call.sid == x.sid then call.(pc := InPc(x, call.pc)) else call
  }

  function InCalls(x: Swap, calls: map<nat, Call>): map<nat, Call> {
    map c | c in calls :: InCall(x, calls[c])
  }

  function InChallenge(x: Swap, sid: SessionId, ch: Challenge): Challenge {
    if sid == x.sid then ch.(aliceKey := x.key) else ch
  }

  function InEntry(x: Swap, e: LogEntry): LogEntry {
    match e.op
    case CreateOp(sid, ch) => e.(op := CreateOp(sid, InChallenge(x, sid, ch)))
    case VerifyOp(_, sid, _, _) => if sid == x.sid then e.(response := InResponse(x, e.response)) else e
    case _ => e
  }

  function InLog(x: Swap, log: seq<LogEntry>): seq<LogEntry> {
    seq(|log|, i requires 0 <= i < |log| => InEntry(x, log[i]))
  }

  function InStep(x: Swap, step: Step): Step {
    match step
    case CreateStep(sid, ch) => CreateStep(sid, InChallenge(x, sid, ch))
    case _ => step
  }

  function InSteps(x: Swap, steps: seq<Step>): seq<Step> {
    if steps == [] then [] else [InStep(x, steps[0])] + InSteps(x, steps[1..])
  }

  /** The state s with the other key. */
  function InSys(x: Swap, s: Sys): Sys {
    s.(db := InDb(x, s.db), calls := InCalls(x, s.calls), log := InLog(x, s.log))
  }

  // ---- One command at a time ----

  lemma HashUpdates(x: Swap, h: Hash, request: BobRequest, score: real, passed: bool)
    ensures var m := Fields(Updates(request, score, passed));
      InHash(x, h + m) == InHash(x, h) + m
  {
    var m := UpdatedFields(request, score, passed);
  }

  lemma FinalizeBlind(x: Swap, db: Db, sid: SessionId, request: BobRequest, score: real, passed: bool, e: Event)
    ensures var m := Fields(Updates(request, score, passed));
      var r, r' := Finalize(db, sid, m, e), Finalize(InDb(x, db), sid, m, e);
      r' == r.(db := InDb(x, r.db))
  {
    if sid in db {
      HashUpdates(x, db[sid].hash, request, score, passed);
    }
  }

  lemma CreateBlind(x: Swap, db: Db, sid: SessionId, ch: Challenge, now: real, ttl: int)
    requires sid !in db
    ensures Create(InDb(x, db), sid, InChallenge(x, sid, ch), now, ttl) == InDb(x, Create(db, sid, ch, now, ttl))
  {
    assert InHash(x, NewHash(ch, now)) == NewHash(ch.(aliceKey := x.key), now);
  }

  lemma EvictBlind(x: Swap, db: Db, now: real)
    ensures Evict(InDb(x, db), now) == InDb(x, Evict(db, now))
  {
  }

  lemma ReadsBlind(x: Swap, db: Db, sid: SessionId)
    ensures GetPhase(InDb(x, db), sid) == GetPhase(db, sid)
    ensures TerminalEvent(InDb(x, db), sid) == TerminalEvent(db, sid)
  {
  }

  lemma LogBlind(x: Swap, log: seq<LogEntry>, e: LogEntry)
    ensures InLog(x, log + [e]) == InLog(x, log) + [InEntry(x, e)]
  {
  }

  lemma CallsBlind(x: Swap, calls: map<nat, Call>, c: nat, call: Call)
    ensures InCalls(x, calls[c := call]) == InCalls(x, calls)[c := InCall(x, call)]
  {
  }

  lemma ReplyBlind(x: Swap, s: Sys, c: nat, answer: Answer, r: Response)
    requires c in s.calls
    ensures var r' := if s.calls[c].sid == x.sid then InResponse(x, r) else r;
      InSys(x, Reply(s, c, answer, r)) == Reply(InSys(x, s), c, answer, r')
  {
    var call := s.calls[c];
    var e := LogEntry(VerifyOp(c, call.sid, call.request, answer), r);
    LogBlind(x, s.log, e);
    var t, t' := InSys(x, Reply(s, c, answer, r)), Reply(InSys(x, s), c, answer, if call.sid == x.sid then InResponse(x, r) else r);
    assert t.calls == t'.calls;
    assert t.log == t'.log;
  }

  lemma MoveBlind(x: Swap, s: Sys, c: nat, pc: CallPc)
    requires c in s.calls
    ensures var pc' := if s.calls[c].sid == x.sid then InPc(x, pc) else pc;
      InSys(x, MoveCall(s, c, pc)) == MoveCall(InSys(x, s), c, pc')
  {
    CallsBlind(x, s.calls, c, s.calls[c].(pc := pc));
  }

  // ---- One step at a time ----

  lemma EnabledBlind(x: Swap, s: Sys, step: Step)
    ensures Enabled(s, step) ==> Enabled(InSys(x, s), InStep(x, step))
  {
    if step.OpenStep? {
      ReadsBlind(x, s.db, step.sid);
    }
  }

  lemma ReadBlind(x: Swap, s: Sys, c: nat)
    requires c in s.calls && s.calls[c].pc.Reading?
    ensures DoRead(InSys(x, s), c) == InSys(x, DoRead(s, c))
  {
    var sid := s.calls[c].sid;
    ReadsBlind(x, s.db, sid);
    if sid !in s.db {
      ReplyBlind(x, s, c, Unasked, NotFound);
    } else {
      match PhaseIn(s.db[sid].hash)
      case None => ReplyBlind(x, s, c, Crashed, Fault);
      case Some(WaitingForBob) => MoveBlind(x, s, c, Embedding(s.db[sid].hash));
      case Some(_) => ReplyBlind(x, s, c, Unasked, Completed);
    }
  }

  /** The embedding is not part of what is replaced. */
  lemma EmbeddingBlind(x: Swap, h: Hash)
    ensures AnswerEmbedding in InHash(x, h) <==> AnswerEmbedding in h
    ensures AnswerEmbedding in h ==> InHash(x, h)[AnswerEmbedding] == h[AnswerEmbedding]
  {
  }

  lemma ScoreBlind(x: Swap, cfg: Config, s: Sys, c: nat, v: seq<real>)
    requires c in s.calls && s.calls[c].pc.Embedding?
    ensures DoEmbed(cfg, InSys(x, s), c, Some(v)) == InSys(x, DoEmbed(cfg, s, c, Some(v)))
  {
    var h := s.calls[c].pc.snapshot;
    var score := if AnswerEmbedding in h && h[AnswerEmbedding].VectorJson? then cfg.score(h[AnswerEmbedding].vector, v) else None;
    EmbeddingBlind(x, h);
    SystemProofs.EmbedByScore(cfg, s, c, v);
    SystemProofs.EmbedByScore(cfg, InSys(x, s), c, v);
    if score.None? {
      ReplyBlind(x, s, c, Crashed, Fault);
    } else {
      MoveBlind(x, s, c, Finalizing(h, v, score.value));
    }
  }

  lemma EmbedBlind(x: Swap, cfg: Config, s: Sys, c: nat, embedding: Option<seq<real>>)
    requires c in s.calls && s.calls[c].pc.Embedding?
    ensures DoEmbed(cfg, InSys(x, s), c, embedding) == InSys(x, DoEmbed(cfg, s, c, embedding))
  {
    match embedding
    case None => ReplyBlind(x, s, c, NoEmbedding, Busy);
    case Some(v) => ScoreBlind(x, cfg, s, c, v);
  }

  lemma FinalizeStepBlind(x: Swap, cfg: Config, s: Sys, c: nat, to: set<nat>)
    requires c in s.calls && s.calls[c].pc.Finalizing?
    ensures DoFinalize(cfg, InSys(x, s), c, to) == InSys(x, DoFinalize(cfg, s, c, to))
  {
    var call := s.calls[c];
    var pc := call.pc;
    var passed := pc.score >= cfg.threshold;
    FinalizeBlind(x, s.db, call.sid, call.request, pc.score, passed, Announcement(call.request, pc.score, passed));
    var t := DoFinalize(cfg, s, c, to);
    ReplyBlind(x, s, c, Vector(pc.answer), t.calls[c].pc.response);
  }

  lemma CreateStepBlind(x: Swap, cfg: Config, s: Sys, sid: SessionId, ch: Challenge)
    requires sid !in s.used && s.db.Keys <= s.used
    ensures Do(cfg, InSys(x, s), CreateStep(sid, InChallenge(x, sid, ch))) == InSys(x, Do(cfg, s, CreateStep(sid, ch)))
  {
    LogBlind(x, s.log, LogEntry(CreateOp(sid, ch), Created));
    CreateBlind(x, s.db, sid, ch, s.now, cfg.ttl);
  }

  lemma DeleteStepBlind(x: Swap, cfg: Config, s: Sys, sid: SessionId)
    ensures Do(cfg, InSys(x, s), DeleteStep(sid)) == InSys(x, Do(cfg, s, DeleteStep(sid)))
  {
    LogBlind(x, s.log, LogEntry(DeleteOp(sid), Deleted));
    assert InDb(x, s.db) - {sid} == InDb(x, s.db - {sid});
  }

  lemma TimeStepBlind(x: Swap, cfg: Config, s: Sys, d: real)
    requires TimeMayPass(s, d)
    ensures TimeMayPass(InSys(x, s), d)
    ensures Do(cfg, InSys(x, s), TimeStep(d)) == InSys(x, Do(cfg, s, TimeStep(d)))
  {
    LogBlind(x, s.log, LogEntry(TimeOp(d), Nothing));
    EvictBlind(x, s.db, s.now + d);
  }

  lemma StoreStepBlind(x: Swap, cfg: Config, s: Sys, step: Step)
    requires Enabled(s, step) && s.db.Keys <= s.used
    requires step.CreateStep? || step.DeleteStep? || step.TimeStep?
    requires Enabled(InSys(x, s), InStep(x, step))
    ensures Do(cfg, InSys(x, s), InStep(x, step)) == InSys(x, Do(cfg, s, step))
  {
    match step
    case CreateStep(sid, ch) => CreateStepBlind(x, cfg, s, sid, ch);
    case DeleteStep(sid) => DeleteStepBlind(x, cfg, s, sid);
    case TimeStep(d) => TimeStepBlind(x, cfg, s, d);
  }

  lemma CallStepBlind(x: Swap, cfg: Config, s: Sys, step: Step)
    requires Enabled(s, step) && Enabled(InSys(x, s), step)
    requires step.BeginStep? || step.ReadStep? || step.EmbedStep? || step.FinalizeStep?
    ensures Do(cfg, InSys(x, s), step) == InSys(x, Do(cfg, s, step))
  {
    match step
    case ReadStep(c) => ReadBlind(x, s, c);
    case EmbedStep(c, embedding) => EmbedBlind(x, cfg, s, c, embedding);
    case FinalizeStep(c, to) => FinalizeStepBlind(x, cfg, s, c, to);
    case BeginStep(c, sid, request) => CallsBlind(x, s.calls, c, Call(sid, request, |s.log|, Reading));
  }

  lemma StepBlind(x: Swap, cfg: Config, s: Sys, step: Step)
    requires Enabled(s, step) && s.db.Keys <= s.used
    ensures Enabled(InSys(x, s), InStep(x, step))
    ensures Do(cfg, InSys(x, s), InStep(x, step)) == InSys(x, Do(cfg, s, step))
  {
    EnabledBlind(x, s, step);
    match step
    case StreamStep(q) => ReadsBlind(x, s.db, s.streams[q].sid);
    case OpenStep(q, worker, sid) => ReadsBlind(x, s.db, sid);
    case CreateStep(_, _) | DeleteStep(_) | TimeStep(_) => StoreStepBlind(x, cfg, s, step);
    case BeginStep(_, _, _) | ReadStep(_) | EmbedStep(_, _) | FinalizeStep(_, _) => CallStepBlind(x, cfg, s, step);
    case _ =>
  }

  lemma {:induction false} RunBlind(x: Swap, cfg: Config, s: Sys, steps: seq<Step>)
    requires SystemInvariant.Inv(cfg, s) && Runs(cfg, s, steps)
    ensures Runs(cfg, InSys(x, s), InSteps(x, steps))
    ensures After(cfg, InSys(x, s), InSteps(x, steps)) == InSys(x, After(cfg, s, steps))
    decreases |steps|
  {
    if steps != [] {
      var t := Do(cfg, s, steps[0]);
      assert s.db.Keys <= s.used;
      StepBlind(x, cfg, s, steps[0]);
      SystemProofs.KeepStep(cfg, s, steps[0]);
      RunBlind(x, cfg, t, steps[1..]);
      var swapped := InSteps(x, steps);
      assert swapped[0] == InStep(x, steps[0]) && swapped[1..] == InSteps(x, steps[1..]);
    }
  }

  // ---- The theorem ----

  /** What GET /session/<id> answers. */
  function GetView(db: Db, sid: SessionId): Option<(Option<Text>, Option<Text>, Option<Text>)> {
    if sid in db then Some((HGet(db, sid, AliceName), HGet(db, sid, MemoryQuestion), HGet(db, sid, PhaseField))) else None
  }

  lemma KeyOnlyAfterPass(cfg: Config, steps: seq<Step>, x: Swap)
    requires Runs(cfg, START, steps)
    ensures Runs(cfg, START, InSteps(x, steps))
    ensures var s, t := Reached(cfg, steps), Reached(cfg, InSteps(x, steps));
      && t.streams == s.streams && t.flights == s.flights
      && (forall sid :: GetView(t.db, sid) == GetView(s.db, sid))
      && t.calls.Keys == s.calls.Keys
      && (forall c :: c in s.calls && s.calls[c].pc.Replied? ==>
            && t.calls[c].pc.Replied?
            && (t.calls[c].pc.response == s.calls[c].pc.response
                || (s.calls[c].sid == x.sid && s.calls[c].pc.response.Pass?
                    && t.calls[c].pc.response == Pass(s.calls[c].pc.response.percent, x.key))))
  {
    SystemProofs.InvAtStart(cfg);
    assert InSys(x, START) == START;
    RunBlind(x, cfg, START, steps);
  }
}
