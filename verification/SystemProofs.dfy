/** Every step keeps the invariant, so it holds after every run. */
module SystemProofs {
  import opened Domain
  import opened SessionStore
  import opened AtomicSession
  import opened StreamMachine
  import opened Registry
  import opened System
  import opened SystemInvariant

  // ---- What other steps cannot break ----

  /** A later state of a session answers Finish as before, or not before now. */
  lemma FinishStable(a: Session, b: Session, now: real)
    requires Later(a, b, now)
    ensures Finish(a).Some? ==> Finish(b) == Finish(a)
    ensures Finish(a).None? && Finish(b).Some? ==> now <= Finish(b).value
    ensures a.outcome.Some? ==> b.outcome == a.outcome
  {
  }

  lemma EndStable(st: Stream, a: Session, b: Session, now: real)
    requires st.pc.Ended? && st.pc.at <= now && EndOk(st, a) && Later(a, b, now)
    ensures EndOk(st, b)
  {
    FinishStable(a, b, now);
  }

  lemma StreamStable(st: Stream, o: Object, p: Object)
    requires StreamOk(st, o) && Forward(o, p)
    requires o.now == p.now || st.pc.Ended? || (st.pc.Waiting? && p.now <= st.waitStart + HEARTBEAT)
    ensures StreamOk(st, p)
  {
    var a, b := o.sessions[st.sid], p.sessions[st.sid];
    FinishStable(a, b, o.now);
    if st.pc.Ended? {
      EndStable(st, a, b, o.now);
    } else if InLoop(st) {
      assert InLoopOk(st, a, o.now);
      assert InLoopOk(st, b, p.now);
    }
  }

  lemma MessagesStable(streams: map<nat, Stream>, flights: multiset<Flight>, o: Object, p: Object)
    requires Forward(o, p)
    ensures FlightsOk(flights, o) ==> FlightsOk(flights, p)
    ensures QueuesOk(streams, flights, o) ==> QueuesOk(streams, flights, p)
  {
  }

  lemma StreamsStable(streams: map<nat, Stream>, o: Object, p: Object)
    requires StreamsOk(streams, o) && Forward(o, p) && o.now == p.now
    ensures StreamsOk(streams, p)
  {
    forall q | q in streams
      ensures StreamOk(streams[q], p)
    {
      StreamStable(streams[q], o, p);
    }
  }

  /** A longer log and a later object leave every call as good as it was. */
  lemma CallsStable(cfg: Config, calls: map<nat, Call>, o: Object, p: Object, log: seq<LogEntry>, e: LogEntry)
    requires CallsOk(cfg, calls, o, log) && Forward(o, p)
    ensures CallsOk(cfg, calls, p, log + [e])
  {
    forall c | c in calls
      ensures CallOk(cfg, c, calls[c], p, log + [e])
    {
      assert CallOk(cfg, c, calls[c], o, log);
    }
  }

  // ---- The store and the atomic object move together ----

  lemma CreateRepresents(cfg: Config, db: Db, o: Object, sid: SessionId, ch: Challenge)
    requires Represents(db, o) && sid !in o.sessions
    ensures var created := Create(db, sid, ch, o.now, cfg.ttl);
      && Represents(created, ApplyCreate(cfg, o, sid, ch))
      && (sid in created <==> cfg.ttl > 0)
      && (sid in created ==>
            && HoldsChallenge(created[sid].hash, ch, o.now) && HoldsNoResult(created[sid].hash)
            && created[sid].expiresAt == Some(o.now + cfg.ttl as real))
  {
    CreatedRecord(cfg, db, o.now, sid, ch);
    CreatedRepresents(cfg, db, o, sid, ch);
  }

  lemma CreatedRepresents(cfg: Config, db: Db, o: Object, sid: SessionId, ch: Challenge)
    requires Represents(db, o) && sid !in o.sessions
    ensures Represents(Create(db, sid, ch, o.now, cfg.ttl), ApplyCreate(cfg, o, sid, ch))
  {
    assert Gone(o, sid);
    assert sid !in db;
    assert cfg.ttl <= 0 ==> cfg.ttl as real <= 0.0;
  }

  /** What the transaction leaves in the store for a fresh id, field by field. */
  lemma CreatedRecord(cfg: Config, db: Db, now: real, sid: SessionId, ch: Challenge)
    ensures var created := Create(db, sid, ch, now, cfg.ttl);
      && (sid in created <==> cfg.ttl > 0)
      && (sid in created ==>
            && HoldsChallenge(created[sid].hash, ch, now) && HoldsNoResult(created[sid].hash)
            && created[sid].expiresAt == Some(now + cfg.ttl as real))
  {
  }

  lemma DeleteRepresents(db: Db, o: Object, sid: SessionId)
    requires Represents(db, o)
    ensures Represents(db - {sid}, ApplyDelete(o, sid))
  {
  }

  lemma TimeRepresents(cfg: Config, db: Db, o: Object, d: real)
    requires Represents(db, o) && ObjectOk(cfg, o)
    ensures Represents(Evict(db, o.now + d), ApplyTime(o, d))
  {
    var p := ApplyTime(o, d);
    forall sid | sid in Evict(db, o.now + d)
      ensures !Gone(p, sid)
    {
      assert sid in db && !Gone(o, sid);
    }
  }

  /** The phase field tells the state of a present session. */
  lemma PhaseOf(ses: Session)
    ensures PhaseIn(HashOf(ses)) == Some(
      if ses.outcome.None? then WaitingForBob else if ses.outcome.value.passed then Verified else Failed)
    ensures ses.outcome.None? ==> HashOf(ses) == NewHash(ses.challenge, ses.createdAt)
  {
    if ses.outcome.Some? {
      var w := ses.outcome.value;
      var m := UpdatedFields(w.request, w.score, w.passed);
    }
  }

  lemma FinalizeRepresents(db: Db, o: Object, sid: SessionId, w: Outcome)
    requires Represents(db, o) && !Gone(o, sid) && o.sessions[sid].outcome.None?
    ensures Represents(HSet(db, sid, Fields(Updates(w.request, w.score, w.passed))),
                       o.(sessions := o.sessions[sid := o.sessions[sid].(outcome := Some(w))]))
  {
  }

  /** terminal_event never raises, and answers by the state of the session. */
  lemma TerminalEventOf(db: Db, o: Object, sid: SessionId)
    requires Represents(db, o)
    ensures TerminalEvent(db, sid) ==
      if Gone(o, sid) then Found(ExpiredEvent)
      else if o.sessions[sid].outcome.None? then StillWaiting
      else Found(RebuiltEvent(o.sessions[sid].outcome.value))
  {
    if !Gone(o, sid) {
      var ses := o.sessions[sid];
      PhaseOf(ses);
      if ses.outcome.Some? {
        var w := ses.outcome.value;
        var m := UpdatedFields(w.request, w.score, w.passed);
      }
    }
  }

  // ---- Create, delete, time ----

  predicate StoreOp(op: Op) {
    !op.VerifyOp?
  }

  /** Calls, winners and the log after an operation that is not a verify. */
  lemma CallsAfterStoreOp(cfg: Config, s: Sys, o: Object, op: Op, response: Response)
    requires Good(cfg, s, o) && StoreOp(op) && Sane(op)
    ensures var p := Apply(cfg, o, op).0; var log := s.log + [LogEntry(op, response)];
      CallsOk(cfg, s.calls, p, log) && LogOwned(s.calls, log) && WinnersOk(s.calls, p)
  {
    var p := Apply(cfg, o, op).0;
    ApplyForward(cfg, o, op);
    CallsStable(cfg, s.calls, o, p, s.log, LogEntry(op, response));
    forall sid | Decided(p, sid)
      ensures Decided(o, sid) && Winner(o, sid) == Winner(p, sid)
      ensures WinResponse(o.sessions[sid]) == WinResponse(p.sessions[sid])
    {
    }
  }

  lemma KeepCreate(cfg: Config, s: Sys, o: Object, sid: SessionId, ch: Challenge)
    requires Good(cfg, s, o) && Enabled(s, CreateStep(sid, ch))
    ensures Good(cfg, Do(cfg, s, CreateStep(sid, ch)), ApplyCreate(cfg, o, sid, ch))
  {
    var p := ApplyCreate(cfg, o, sid, ch);
    CallsAfterStoreOp(cfg, s, o, CreateOp(sid, ch), Created);
    ApplyForward(cfg, o, CreateOp(sid, ch));
    CreateRepresents(cfg, s.db, o, sid, ch);
    MessagesStable(s.streams, s.flights, o, p);
    StreamsStable(s.streams, o, p);
  }

  lemma KeepDelete(cfg: Config, s: Sys, o: Object, sid: SessionId)
    requires Good(cfg, s, o)
    ensures Good(cfg, Do(cfg, s, DeleteStep(sid)), ApplyDelete(o, sid))
  {
    var p := ApplyDelete(o, sid);
    CallsAfterStoreOp(cfg, s, o, DeleteOp(sid), Deleted);
    ApplyForward(cfg, o, DeleteOp(sid));
    DeleteRepresents(s.db, o, sid);
    MessagesStable(s.streams, s.flights, o, p);
    StreamsStable(s.streams, o, p);
  }

  lemma KeepTime(cfg: Config, s: Sys, o: Object, d: real)
    requires Good(cfg, s, o) && Enabled(s, TimeStep(d))
    ensures Good(cfg, Do(cfg, s, TimeStep(d)), ApplyTime(o, d))
  {
    var p := ApplyTime(o, d);
    CallsAfterStoreOp(cfg, s, o, TimeOp(d), Nothing);
    ApplyForward(cfg, o, TimeOp(d));
    TimeRepresents(cfg, s.db, o, d);
    MessagesStable(s.streams, s.flights, o, p);
    forall q | q in s.streams
      ensures StreamOk(s.streams[q], p)
    {
      StreamStable(s.streams[q], o, p);
    }
  }

  // ---- Verify calls ----

  /** What a verify operation can do to the sessions: decide its own, in its own name. */
  lemma VerifyDecides(cfg: Config, o: Object, c: nat, sid: SessionId, request: BobRequest, answer: Answer)
    ensures var (p, response) := ApplyVerify(cfg, o, c, sid, request, answer);
      && (forall t :: Decided(o, t) ==> Decided(p, t) && p.sessions[t] == o.sessions[t])
      && (forall t :: Decided(p, t) && !Decided(o, t) ==>
            t == sid && Winner(p, t).call == c && Winner(p, t).request == request && response == WinResponse(p.sessions[t]))
      && (Won(response) ==> Decided(p, sid) && Winner(p, sid).call == c)
  {
  }

  lemma CallsOkAfterReply(cfg: Config, s: Sys, o: Object, c: nat, answer: Answer, response: Response)
    requires Good(cfg, s, o) && c in s.calls && !s.calls[c].pc.Replied?
    requires response == ApplyVerify(cfg, o, c, s.calls[c].sid, s.calls[c].request, answer).1
    ensures var t := Reply(s, c, answer, response);
      CallsOk(cfg, t.calls, ApplyVerify(cfg, o, c, s.calls[c].sid, s.calls[c].request, answer).0, t.log)
  {
    var call := s.calls[c];
    var op := VerifyOp(c, call.sid, call.request, answer);
    var p := Apply(cfg, o, op).0;
    var t := Reply(s, c, answer, response);
    ApplyForward(cfg, o, op);
    CallsStable(cfg, s.calls, o, p, s.log, LogEntry(op, response));
    VerifyDecides(cfg, o, c, call.sid, call.request, answer);
    assert CallOk(cfg, c, t.calls[c], p, t.log) by {
      assert CallOk(cfg, c, call, o, s.log);
      assert t.log[|s.log|] == LogEntry(op, response);
    }
    forall b | b in t.calls
      ensures CallOk(cfg, b, t.calls[b], p, t.log)
    {
      if b != c {
        assert CallOk(cfg, b, s.calls[b], p, t.log);
      }
    }
  }

  lemma LogOwnedAfterReply(s: Sys, c: nat, answer: Answer, response: Response)
    requires LogOwned(s.calls, s.log) && c in s.calls && !s.calls[c].pc.Replied?
    ensures var t := Reply(s, c, answer, response); LogOwned(t.calls, t.log)
  {
    var t := Reply(s, c, answer, response);
    forall i | 0 <= i < |t.log| && t.log[i].op.VerifyOp?
      ensures t.log[i].op.call in t.calls && t.calls[t.log[i].op.call].pc.Replied? && t.calls[t.log[i].op.call].pc.at == i
    {
      if i < |s.log| {
        assert t.log[i] == s.log[i];
      }
    }
  }

  lemma WinnersOkAfterReply(cfg: Config, s: Sys, o: Object, c: nat, answer: Answer, response: Response)
    requires WinnersOk(s.calls, o) && c in s.calls && !s.calls[c].pc.Replied?
    requires response == ApplyVerify(cfg, o, c, s.calls[c].sid, s.calls[c].request, answer).1
    ensures WinnersOk(Reply(s, c, answer, response).calls,
                      ApplyVerify(cfg, o, c, s.calls[c].sid, s.calls[c].request, answer).0)
  {
    VerifyDecides(cfg, o, c, s.calls[c].sid, s.calls[c].request, answer);
  }

  lemma CallsAfterReply(cfg: Config, s: Sys, o: Object, c: nat, answer: Answer, response: Response)
    requires Good(cfg, s, o) && c in s.calls && !s.calls[c].pc.Replied?
    requires response == ApplyVerify(cfg, o, c, s.calls[c].sid, s.calls[c].request, answer).1
    ensures var p := ApplyVerify(cfg, o, c, s.calls[c].sid, s.calls[c].request, answer).0;
      var t := Reply(s, c, answer, response);
      CallsOk(cfg, t.calls, p, t.log) && LogOwned(t.calls, t.log) && WinnersOk(t.calls, p)
  {
    CallsOkAfterReply(cfg, s, o, c, answer, response);
    LogOwnedAfterReply(s, c, answer, response);
    WinnersOkAfterReply(cfg, s, o, c, answer, response);
  }

  /** A reply that leaves the object alone. */
  lemma KeepQuietReply(cfg: Config, s: Sys, o: Object, c: nat, answer: Answer, response: Response)
    requires Good(cfg, s, o) && c in s.calls && !s.calls[c].pc.Replied?
    requires ApplyVerify(cfg, o, c, s.calls[c].sid, s.calls[c].request, answer) == (o, response)
    ensures Good(cfg, Reply(s, c, answer, response), o)
  {
    CallsAfterReply(cfg, s, o, c, answer, response);
  }

  lemma KeepMove(cfg: Config, s: Sys, o: Object, c: nat, pc: CallPc)
    requires Good(cfg, s, o) && c in s.calls && !s.calls[c].pc.Replied?
    requires CallOk(cfg, c, s.calls[c].(pc := pc), o, s.log) && !pc.Replied?
    ensures Good(cfg, MoveCall(s, c, pc), o)
  {
    var t := MoveCall(s, c, pc);
    assert CallsOk(cfg, t.calls, o, t.log);
    assert LogOwned(t.calls, t.log);
    assert WinnersOk(t.calls, o);
  }

  /** A call that has not read anything yet. */
  lemma CallsAfterBegin(cfg: Config, calls: map<nat, Call>, o: Object, log: seq<LogEntry>, c: nat, call: Call)
    requires CallsOk(cfg, calls, o, log) && LogOwned(calls, log) && WinnersOk(calls, o)
    requires c !in calls && call.pc.Reading? && call.begin == |log|
    ensures CallsOk(cfg, calls[c := call], o, log) && LogOwned(calls[c := call], log) && WinnersOk(calls[c := call], o)
  {
  }

  lemma KeepBegin(cfg: Config, s: Sys, o: Object, c: nat, sid: SessionId, request: BobRequest)
    requires Good(cfg, s, o) && Enabled(s, BeginStep(c, sid, request))
    ensures Good(cfg, Do(cfg, s, BeginStep(c, sid, request)), o)
  {
    CallsAfterBegin(cfg, s.calls, o, s.log, c, Call(sid, request, |s.log|, Reading));
  }

  lemma KeepRead(cfg: Config, s: Sys, o: Object, c: nat)
    requires Good(cfg, s, o) && Enabled(s, ReadStep(c))
    ensures Good(cfg, DoRead(s, c), o)
    ensures DoRead(s, c).log == s.log ||
      exists r :: DoRead(s, c) == Reply(s, c, Unasked, r)
                  && ApplyVerify(cfg, o, c, s.calls[c].sid, s.calls[c].request, Unasked) == (o, r)
  {
    var sid := s.calls[c].sid;
    if sid !in s.db {
      assert Gone(o, sid);
      KeepQuietReply(cfg, s, o, c, Unasked, NotFound);
    } else {
      var ses := o.sessions[sid];
      PhaseOf(ses);
      if ses.outcome.Some? {
        KeepQuietReply(cfg, s, o, c, Unasked, Completed);
      } else {
        KeepMove(cfg, s, o, c, Embedding(s.db[sid].hash));
      }
    }
  }

  /** What DoEmbed makes of a vector, by the score that the snapshot gives. */
  lemma EmbedByScore(cfg: Config, s: Sys, c: nat, v: seq<real>)
    requires c in s.calls && s.calls[c].pc.Embedding?
    ensures var h := s.calls[c].pc.snapshot;
      var score := if AnswerEmbedding in h && h[AnswerEmbedding].VectorJson? then cfg.score(h[AnswerEmbedding].vector, v) else None;
      DoEmbed(cfg, s, c, Some(v)) ==
        if score.None? then Reply(s, c, Crashed, Fault) else MoveCall(s, c, Finalizing(h, v, score.value))
  {
  }

  lemma KeepEmbed(cfg: Config, s: Sys, o: Object, c: nat, embedding: Option<seq<real>>)
    requires Good(cfg, s, o) && Enabled(s, EmbedStep(c, embedding))
    ensures Good(cfg, DoEmbed(cfg, s, c, embedding), o)
    ensures DoEmbed(cfg, s, c, embedding).log == s.log ||
      exists a, r :: DoEmbed(cfg, s, c, embedding) == Reply(s, c, a, r)
                  && ApplyVerify(cfg, o, c, s.calls[c].sid, s.calls[c].request, a) == (o, r)
  {
    assert CallOk(cfg, c, s.calls[c], o, s.log);
    match embedding
    case None =>
      KeepQuietReply(cfg, s, o, c, NoEmbedding, Busy);
    case Some(v) =>
      var snapshot := s.calls[c].pc.snapshot;
      var score := cfg.score(snapshot[AnswerEmbedding].vector, v);
      if score.None? {
        KeepQuietReply(cfg, s, o, c, Crashed, Fault);
      } else {
        KeepMove(cfg, s, o, c, Finalizing(snapshot, v, score.value));
      }
  }

  lemma BroadcastCounts(to: set<nat>, sid: SessionId, e: Event, f: Flight)
    ensures Broadcast(to, sid, Some(e))[f] <= 1
    ensures f in Broadcast(to, sid, Some(e)) ==> f.sid == sid && f.event == e
  {
  }

  /** What the script and the response come to, seen from the atomic object. */
  lemma FinalizeComputes(cfg: Config, s: Sys, o: Object, c: nat, to: set<nat>)
    requires c in s.calls && s.calls[c].pc.Finalizing?
    requires Represents(s.db, o) && CallOk(cfg, c, s.calls[c], o, s.log) && s.now == o.now
    ensures var call := s.calls[c];
      var (p, response) := ApplyVerify(cfg, o, c, call.sid, call.request, Vector(call.pc.answer));
      var t := DoFinalize(cfg, s, c, to);
      var quiet := Reply(s, c, Vector(call.pc.answer), response);
      if Gone(o, call.sid) || o.sessions[call.sid].outcome.Some? then p == o && t == quiet
      else
        && Decided(p, call.sid)
        && t == quiet.(db := t.db, flights := s.flights + Broadcast(to, call.sid, Some(LiveEvent(Winner(p, call.sid)))))
        && Represents(t.db, p)
  {
    var call := s.calls[c];
    var sid := call.sid;
    var pc := call.pc;
    if Gone(o, sid) {
      assert sid !in s.db;
    } else {
      PhaseOf(o.sessions[sid]);
      if o.sessions[sid].outcome.None? {
        ScriptRepresents(cfg, s.db, o, c, sid, call.request, pc.answer, pc.score);
        assert pc.snapshot[AlicePubkey] == KeyJson(o.sessions[sid].challenge.aliceKey);
      }
    }
  }

  lemma ScriptRepresents(cfg: Config, db: Db, o: Object, c: nat, sid: SessionId, request: BobRequest, v: seq<real>, score: real)
    requires Represents(db, o) && !Gone(o, sid) && o.sessions[sid].outcome.None?
    requires cfg.score(o.sessions[sid].challenge.vector, v) == Some(score)
    ensures var passed := score >= cfg.threshold;
      var r := Finalize(db, sid, Fields(Updates(request, score, passed)), Announcement(request, score, passed));
      && r.code == 1 && r.published == Some(Announcement(request, score, passed))
      && Represents(r.db, ApplyVerify(cfg, o, c, sid, request, Vector(v)).0)
  {
    PhaseOf(o.sessions[sid]);
    FinalizeRepresents(db, o, sid, Outcome(c, request, score, score >= cfg.threshold, o.now));
  }

  lemma MessagesAfterWin(streams: map<nat, Stream>, flights: multiset<Flight>, o: Object, p: Object, sid: SessionId, to: set<nat>)
    requires FlightsOk(flights, o) && QueuesOk(streams, flights, o)
    requires Forward(o, p) && !Decided(o, sid) && Decided(p, sid)
    ensures var more := flights + Broadcast(to, sid, Some(LiveEvent(Winner(p, sid))));
      && FlightsOk(more, p)
      && QueuesOk(streams, more, p)
  {
    var e := LiveEvent(Winner(p, sid));
    var more := flights + Broadcast(to, sid, Some(e));
    forall f | f in more
      ensures Decided(p, f.sid) && f.event == LiveEvent(Winner(p, f.sid)) && more[f] == 1
    {
      BroadcastCounts(to, sid, e, f);
      if f in flights {
        assert Decided(o, f.sid);
      }
    }
    forall q | q in streams
      ensures QueueOk(streams[q], more, p)
    {
      var st := streams[q];
      assert QueueOk(st, flights, o);
      if st.queue != [] {
        BroadcastCounts(to, sid, e, Flight(st.worker, st.sid, LiveEvent(Winner(o, st.sid))));
      }
    }
  }

  /** Good only looks at its parts. */
  lemma GoodParts(cfg: Config, s: Sys, t: Sys, o: Object, p: Object)
    requires Good(cfg, s, o) && s.now == t.now == p.now && s.used == t.used == p.sessions.Keys
    requires ObjectOk(cfg, p) && Represents(t.db, p)
    requires CallsOk(cfg, t.calls, p, t.log) && LogOwned(t.calls, t.log) && WinnersOk(t.calls, p)
    requires FlightsOk(t.flights, p) && QueuesOk(t.streams, t.flights, p) && StreamsOk(t.streams, p)
    requires HubsOk(t.hubs, t.streams)
    ensures Good(cfg, t, p)
  {
  }

  /** The script's success: the session is decided, and its announcement is on the way. */
  lemma KeepWin(cfg: Config, s: Sys, o: Object, c: nat, answer: Answer, to: set<nat>, t: Sys)
    requires Good(cfg, s, o) && c in s.calls && !s.calls[c].pc.Replied?
    requires var (p, response) := ApplyVerify(cfg, o, c, s.calls[c].sid, s.calls[c].request, answer);
      && !Decided(o, s.calls[c].sid) && Decided(p, s.calls[c].sid)
      && Represents(t.db, p)
      && t == Reply(s, c, answer, response).(db := t.db,
           flights := s.flights + Broadcast(to, s.calls[c].sid, Some(LiveEvent(Winner(p, s.calls[c].sid)))))
    ensures Good(cfg, t, ApplyVerify(cfg, o, c, s.calls[c].sid, s.calls[c].request, answer).0)
  {
    var call := s.calls[c];
    var op := VerifyOp(c, call.sid, call.request, answer);
    var (p, response) := Apply(cfg, o, op);
    ApplyForward(cfg, o, op);
    CallsAfterReply(cfg, s, o, c, answer, response);
    StreamsStable(s.streams, o, p);
    MessagesAfterWin(s.streams, s.flights, o, p, call.sid, to);
    SameSessions(cfg, o, c, call.sid, call.request, answer);
    GoodParts(cfg, s, t, o, p);
  }

  lemma SameSessions(cfg: Config, o: Object, c: nat, sid: SessionId, request: BobRequest, answer: Answer)
    ensures var p := ApplyVerify(cfg, o, c, sid, request, answer).0;
      p.now == o.now && p.sessions.Keys == o.sessions.Keys
  {
  }

  lemma KeepFinalize(cfg: Config, s: Sys, o: Object, c: nat, to: set<nat>)
    requires Good(cfg, s, o) && Enabled(s, FinalizeStep(c, to))
    ensures var call := s.calls[c];
      var op := VerifyOp(c, call.sid, call.request, Vector(call.pc.answer));
      var t := DoFinalize(cfg, s, c, to);
      && Good(cfg, t, Apply(cfg, o, op).0)
      && t.log == s.log + [LogEntry(op, Apply(cfg, o, op).1)]
  {
    var call := s.calls[c];
    var answer := Vector(call.pc.answer);
    FinalizeComputes(cfg, s, o, c, to);
    if Gone(o, call.sid) || o.sessions[call.sid].outcome.Some? {
      KeepQuietReply(cfg, s, o, c, answer, ApplyVerify(cfg, o, c, call.sid, call.request, answer).1);
    } else {
      KeepWin(cfg, s, o, c, answer, to, DoFinalize(cfg, s, c, to));
    }
  }

  // ---- Streams ----

  lemma KeepaliveAt(phase: Phase, k: nat, e: Event)
    ensures |Idle(phase, k)| == k + 2
    ensures IsTerminal(e) && k <= MAX_KEEPALIVES ==> Complete(Idle(phase, k) + [Data(e)], phase, k, e)
  {
  }

  /** A check answers by the state of the session, as terminal_event does. */
  ghost predicate CheckOf(check: Check, ses: Session) {
    check ==
      if ses.goneAt.Some? then Found(ExpiredEvent)
      else if ses.outcome.None? then StillWaiting
      else Found(RebuiltEvent(ses.outcome.value))
  }

  lemma FirstCheckKeeps(cfg: Config, st: Stream, o: Object, check: Check)
    requires ObjectOk(cfg, o) && StreamOk(st, o) && st.pc.FirstChecking? && CheckOf(check, o.sessions[st.sid])
    ensures StreamOk(Advance(st, o.now, check), o)
  {
    var ses := o.sessions[st.sid];
    var next := Advance(st, o.now, check);
    assert SessionOk(cfg, ses, o.now);
    assert Preamble(st.phase) == Idle(st.phase, 0);
    if check.Found? {
      KeepaliveAt(st.phase, 0, check.event);
      assert EndOk(next, ses);
    } else {
      assert InLoopOk(next, ses, o.now);
    }
  }

  lemma HeartbeatKeeps(cfg: Config, st: Stream, o: Object, check: Check)
    requires ObjectOk(cfg, o) && StreamOk(st, o) && st.pc.HeartbeatChecking? && CheckOf(check, o.sessions[st.sid])
    ensures StreamOk(Advance(st, o.now, check), o)
  {
    var ses := o.sessions[st.sid];
    var next := Advance(st, o.now, check);
    var k := |st.out| - 2;
    assert SessionOk(cfg, ses, o.now);
    assert InLoopOk(st, ses, o.now);
    if check.Found? {
      KeepaliveAt(st.phase, k, check.event);
      assert EndOk(next, ses);
    } else {
      IdleOneMore(st.phase, k);
      assert InLoopOk(next, ses, o.now);
    }
  }

  lemma LoopTestKeeps(cfg: Config, st: Stream, o: Object, check: Check)
    requires ObjectOk(cfg, o) && StreamOk(st, o) && st.pc.Looping?
    ensures StreamOk(Advance(st, o.now, check), o)
  {
    var ses := o.sessions[st.sid];
    var next := Advance(st, o.now, check);
    var k := |st.out| - 2;
    assert SessionOk(cfg, ses, o.now);
    assert InLoopOk(st, ses, o.now);
    if o.now < st.loopStart + MAX_STREAM {
      assert InLoopOk(next, ses, o.now);
    } else {
      assert k == MAX_KEEPALIVES;
      KeepaliveAt(st.phase, k, ExpiredEvent);
      assert EndOk(next, ses);
    }
  }

  lemma WaitKeeps(cfg: Config, st: Stream, flights: multiset<Flight>, o: Object, check: Check)
    requires ObjectOk(cfg, o) && StreamOk(st, o) && st.pc.Waiting? && QueueOk(st, flights, o) && CanAdvance(st, o.now)
    ensures StreamOk(Advance(st, o.now, check), o)
  {
    var ses := o.sessions[st.sid];
    var next := Advance(st, o.now, check);
    assert SessionOk(cfg, ses, o.now);
    assert InLoopOk(st, ses, o.now);
    if st.queue == [] {
      assert InLoopOk(next, ses, o.now);
    } else {
      KeepaliveAt(st.phase, |st.out| - 2, st.queue[0]);
      assert EndOk(next, ses);
    }
  }

  lemma AdvanceKeeps(cfg: Config, st: Stream, flights: multiset<Flight>, o: Object, check: Check)
    requires ObjectOk(cfg, o) && StreamOk(st, o) && QueueOk(st, flights, o) && CanAdvance(st, o.now)
    requires CheckOf(check, o.sessions[st.sid])
    ensures StreamOk(Advance(st, o.now, check), o)
    ensures QueueOk(Advance(st, o.now, check), flights, o)
    ensures Advance(st, o.now, check).worker == st.worker && Advance(st, o.now, check).sid == st.sid
  {
    match st.pc
    case FirstChecking => FirstCheckKeeps(cfg, st, o, check);
    case Looping => LoopTestKeeps(cfg, st, o, check);
    case Waiting => WaitKeeps(cfg, st, flights, o, check);
    case HeartbeatChecking => HeartbeatKeeps(cfg, st, o, check);
    case _ =>
  }

  lemma AbortKeeps(st: Stream, flights: multiset<Flight>, o: Object)
    requires StreamOk(st, o) && QueueOk(st, flights, o) && CanAbort(st)
    ensures StreamOk(StreamMachine.Abort(st, o.now), o)
    ensures QueueOk(StreamMachine.Abort(st, o.now), flights, o)
  {
    var ses := o.sessions[st.sid];
    if InLoop(st) {
      assert InLoopOk(st, ses, o.now);
    } else if st.pc.FirstChecking? {
      assert Preamble(st.phase) == Idle(st.phase, 0);
    }
    assert EndOk(StreamMachine.Abort(st, o.now), ses);
  }

  /** One stream changes its place in its own worker's registry and in no other. */
  lemma HubsAfterMove(s: Sys, q: nat, st: Stream)
    requires HubsOk(s.hubs, s.streams) && q in s.streams
    requires st.worker == s.streams[q].worker && st.sid == s.streams[q].sid
    ensures HubsOk(Moved(s, q, st).hubs, Moved(s, q, st).streams)
  {
    var t := Moved(s, q, st);
    var hub := Hub(s.hubs, st.worker);
    AddExact(hub, st.sid, q);
    RemoveExact(hub, st.sid, q);
    forall w: nat
      ensures NoEmptySet(Hub(t.hubs, w))
    {
      assert w != st.worker ==> Hub(t.hubs, w) == Hub(s.hubs, w);
    }
    forall w: nat, sid, p
      ensures p in Listeners(Hub(t.hubs, w), sid) <==>
        p in t.streams && t.streams[p].worker == w && t.streams[p].sid == sid && Subscribed(t.streams[p])
    {
      assert p in Listeners(Hub(s.hubs, w), sid) <==>
        p in s.streams && s.streams[p].worker == w && s.streams[p].sid == sid && Subscribed(s.streams[p]);
      if w != st.worker {
        assert Hub(t.hubs, w) == Hub(s.hubs, w);
      }
    }
  }

  lemma KeepMoved(cfg: Config, s: Sys, o: Object, q: nat, st: Stream)
    requires Good(cfg, s, o) && q in s.streams
    requires st.worker == s.streams[q].worker && st.sid == s.streams[q].sid
    requires StreamOk(st, o) && QueueOk(st, s.flights, o)
    ensures Good(cfg, Moved(s, q, st), o)
  {
    HubsAfterMove(s, q, st);
  }

  lemma KeepStream(cfg: Config, s: Sys, o: Object, q: nat)
    requires Good(cfg, s, o) && Enabled(s, StreamStep(q))
    ensures Good(cfg, Do(cfg, s, StreamStep(q)), o)
  {
    var st := s.streams[q];
    var check := TerminalEvent(s.db, st.sid);
    TerminalEventOf(s.db, o, st.sid);
    AdvanceKeeps(cfg, st, s.flights, o, check);
    KeepMoved(cfg, s, o, q, Advance(st, s.now, check));
  }

  lemma KeepAbort(cfg: Config, s: Sys, o: Object, q: nat)
    requires Good(cfg, s, o) && Enabled(s, AbortStep(q))
    ensures Good(cfg, Do(cfg, s, AbortStep(q)), o)
  {
    AbortKeeps(s.streams[q], s.flights, o);
    KeepMoved(cfg, s, o, q, StreamMachine.Abort(s.streams[q], s.now));
  }

  lemma FreshStreamOk(cfg: Config, db: Db, o: Object, worker: nat, sid: SessionId)
    requires Represents(db, o) && ObjectOk(cfg, o) && GetPhase(db, sid).Some?
    ensures StreamOk(Opened(worker, sid, GetPhase(db, sid).value, o.now), o)
  {
    assert !Gone(o, sid);
    PhaseOf(o.sessions[sid]);
    assert SessionOk(cfg, o.sessions[sid], o.now);
  }

  /** A stream that has not subscribed yet is in no hub. */
  lemma StreamsAfterOpen(streams: map<nat, Stream>, flights: multiset<Flight>, hubs: Hubs, o: Object, q: nat, st: Stream)
    requires StreamsOk(streams, o) && QueuesOk(streams, flights, o) && HubsOk(hubs, streams)
    requires q !in streams && StreamOk(st, o) && st.pc.Subscribing? && st.queue == []
    ensures StreamsOk(streams[q := st], o) && QueuesOk(streams[q := st], flights, o) && HubsOk(hubs, streams[q := st])
  {
  }

  lemma KeepOpen(cfg: Config, s: Sys, o: Object, q: nat, worker: nat, sid: SessionId)
    requires Good(cfg, s, o) && Enabled(s, OpenStep(q, worker, sid))
    ensures Good(cfg, Do(cfg, s, OpenStep(q, worker, sid)), o)
  {
    FreshStreamOk(cfg, s.db, o, worker, sid);
    StreamsAfterOpen(s.streams, s.flights, s.hubs, o, q, Opened(worker, sid, GetPhase(s.db, sid).value, s.now));
  }

  // ---- Transport ----

  lemma KeepLose(cfg: Config, s: Sys, o: Object, f: Flight)
    requires Good(cfg, s, o)
    ensures Good(cfg, s.(flights := s.flights - multiset{f}), o)
  {
    var flights := s.flights - multiset{f};
    assert forall g :: g in flights ==> g in s.flights && flights[g] <= s.flights[g];
    assert FlightsOk(flights, o);
    assert QueuesOk(s.streams, flights, o) by {
      forall q | q in s.streams
        ensures QueueOk(s.streams[q], flights, o)
      {
        assert QueueOk(s.streams[q], s.flights, o);
      }
    }
  }

  /** A delivered announcement finds every queue of its session empty. */
  lemma DeliveryFindsRoom(s: Sys, o: Object, f: Flight, q: nat)
    requires FlightsOk(s.flights, o) && QueuesOk(s.streams, s.flights, o) && HubsOk(s.hubs, s.streams)
    requires f in s.flights && q in Listeners(Hub(s.hubs, f.worker), f.sid)
    ensures q in s.streams && s.streams[q].queue == []
  {
    assert QueueOk(s.streams[q], s.flights, o);
  }

  lemma HubsAfterDelivery(s: Sys, f: Flight)
    requires HubsOk(s.hubs, s.streams)
    ensures HubsOk(DoDeliver(s, f).hubs, DoDeliver(s, f).streams)
  {
    var t := DoDeliver(s, f);
    forall w: nat, sid, q
      ensures q in Listeners(Hub(t.hubs, w), sid) <==>
        q in t.streams && t.streams[q].worker == w && t.streams[q].sid == sid && Subscribed(t.streams[q])
    {
      assert q in Listeners(Hub(s.hubs, w), sid) <==>
        q in s.streams && s.streams[q].worker == w && s.streams[q].sid == sid && Subscribed(s.streams[q]);
    }
  }

  lemma StreamAfterDelivery(s: Sys, o: Object, f: Flight, q: nat)
    requires FlightsOk(s.flights, o) && QueuesOk(s.streams, s.flights, o) && HubsOk(s.hubs, s.streams)
    requires f in s.flights && q in s.streams && StreamOk(s.streams[q], o)
    ensures StreamOk(DoDeliver(s, f).streams[q], o)
    ensures QueueOk(DoDeliver(s, f).streams[q], s.flights - multiset{f}, o)
  {
    var st, st' := s.streams[q], DoDeliver(s, f).streams[q];
    assert QueueOk(st, s.flights, o);
    if q in Listeners(Hub(s.hubs, f.worker), f.sid) {
      DeliveryFindsRoom(s, o, f, q);
      QueueIsNoPart(st, st'.queue, o);
    }
  }

  lemma KeepDeliver(cfg: Config, s: Sys, o: Object, f: Flight)
    requires Good(cfg, s, o) && Enabled(s, DeliverStep(f))
    ensures Good(cfg, DoDeliver(s, f), o)
  {
    var t := DoDeliver(s, f);
    KeepLose(cfg, s, o, f);
    HubsAfterDelivery(s, f);
    forall q | q in t.streams
      ensures QueueOk(t.streams[q], t.flights, o)
      ensures StreamOk(t.streams[q], o)
    {
      StreamAfterDelivery(s, o, f, q);
    }
    GoodParts(cfg, s, t, o, o);
  }

  lemma QueueIsNoPart(st: Stream, queue: seq<Event>, o: Object)
    requires StreamOk(st, o) && !st.pc.Subscribing?
    ensures StreamOk(st.(queue := queue), o)
  {
    var ses := o.sessions[st.sid];
    if st.pc.Ended? {
      assert EndOk(st, ses);
      assert EndOk(st.(queue := queue), ses);
    } else if InLoop(st) {
      assert InLoopOk(st, ses, o.now);
      assert InLoopOk(st.(queue := queue), ses, o.now);
    }
  }

  // ---- Runs ----

  /** The operation of the atomic object that a step stands for, if any. */
  ghost predicate StepsTo(cfg: Config, s: Sys, t: Sys) {
    || t.log == s.log
    || exists e :: t.log == s.log + [e] && Sane(e.op) && e.response == Apply(cfg, Replay(cfg, s.log), e.op).1
  }

  lemma InvAfterEntry(cfg: Config, s: Sys, t: Sys, e: LogEntry)
    requires Inv(cfg, s) && Sane(e.op)
    requires t.log == s.log + [e] && e.response == Apply(cfg, Replay(cfg, s.log), e.op).1
    requires Good(cfg, t, Apply(cfg, Replay(cfg, s.log), e.op).0)
    ensures Inv(cfg, t) && StepsTo(cfg, s, t)
  {
    ReplayOneMore(cfg, s.log, e);
  }

  lemma KeepStoreStep(cfg: Config, s: Sys, step: Step)
    requires Inv(cfg, s) && Enabled(s, step) && (step.CreateStep? || step.DeleteStep? || step.TimeStep?)
    ensures Inv(cfg, Do(cfg, s, step)) && StepsTo(cfg, s, Do(cfg, s, step))
  {
    var o := Replay(cfg, s.log);
    var t := Do(cfg, s, step);
    match step
    case CreateStep(sid, ch) =>
      KeepCreate(cfg, s, o, sid, ch);
      InvAfterEntry(cfg, s, t, LogEntry(CreateOp(sid, ch), Created));
    case DeleteStep(sid) =>
      KeepDelete(cfg, s, o, sid);
      InvAfterEntry(cfg, s, t, LogEntry(DeleteOp(sid), Deleted));
    case TimeStep(d) =>
      KeepTime(cfg, s, o, d);
      InvAfterEntry(cfg, s, t, LogEntry(TimeOp(d), Nothing));
  }

  lemma KeepCallStep(cfg: Config, s: Sys, step: Step)
    requires Inv(cfg, s) && Enabled(s, step)
    requires step.BeginStep? || step.ReadStep? || step.EmbedStep? || step.FinalizeStep?
    ensures Inv(cfg, Do(cfg, s, step)) && StepsTo(cfg, s, Do(cfg, s, step))
  {
    var o := Replay(cfg, s.log);
    var t := Do(cfg, s, step);
    match step
    case BeginStep(c, sid, request) => KeepBegin(cfg, s, o, c, sid, request);
    case ReadStep(c) =>
      KeepRead(cfg, s, o, c);
      if t.log != s.log {
        InvAfterEntry(cfg, s, t, t.log[|s.log|]);
      }
    case EmbedStep(c, embedding) =>
      KeepEmbed(cfg, s, o, c, embedding);
      if t.log != s.log {
        InvAfterEntry(cfg, s, t, t.log[|s.log|]);
      }
    case FinalizeStep(c, to) =>
      KeepFinalize(cfg, s, o, c, to);
      InvAfterEntry(cfg, s, t, t.log[|s.log|]);
  }

  lemma KeepStep(cfg: Config, s: Sys, step: Step)
    requires Inv(cfg, s) && Enabled(s, step)
    ensures Inv(cfg, Do(cfg, s, step))
    ensures StepsTo(cfg, s, Do(cfg, s, step))
  {
    var o := Replay(cfg, s.log);
    match step
    case OpenStep(q, worker, sid) => KeepOpen(cfg, s, o, q, worker, sid);
    case StreamStep(q) => KeepStream(cfg, s, o, q);
    case AbortStep(q) => KeepAbort(cfg, s, o, q);
    case DeliverStep(f) => KeepDeliver(cfg, s, o, f);
    case LoseStep(f) => KeepLose(cfg, s, o, f);
    case CreateStep(_, _) | DeleteStep(_) | TimeStep(_) => KeepStoreStep(cfg, s, step);
    case _ => KeepCallStep(cfg, s, step);
  }

  lemma InvAtStart(cfg: Config)
    ensures Inv(cfg, START)
  {
  }

  lemma {:induction false} KeepRun(cfg: Config, s: Sys, steps: seq<Step>)
    requires Inv(cfg, s) && Runs(cfg, s, steps)
    ensures Inv(cfg, After(cfg, s, steps))
    decreases |steps|
  {
    if steps != [] {
      KeepStep(cfg, s, steps[0]);
      KeepRun(cfg, Do(cfg, s, steps[0]), steps[1..]);
    }
  }

  lemma RunsFirst(cfg: Config, s: Sys, first: Step, rest: seq<Step>)
    requires Enabled(s, first) && Runs(cfg, Do(cfg, s, first), rest)
    ensures Runs(cfg, s, [first] + rest) && After(cfg, s, [first] + rest) == After(cfg, Do(cfg, s, first), rest)
  {
    assert ([first] + rest)[1..] == rest;
  }

  /** The state after a run, reached from s. */
  predicate Leads(cfg: Config, s: Sys, steps: seq<Step>, t: Sys) {
    Runs(cfg, s, steps) && After(cfg, s, steps) == t
  }

  lemma LeadsFirst(cfg: Config, s: Sys, steps: seq<Step>, t: Sys) returns (m: Sys)
    requires Leads(cfg, s, steps, t) && steps != []
    ensures Enabled(s, steps[0]) && m == Do(cfg, s, steps[0]) && Leads(cfg, m, steps[1..], t)
  {
    m := Do(cfg, s, steps[0]);
  }

  lemma FirstLeads(cfg: Config, s: Sys, first: Step, m: Sys, rest: seq<Step>, t: Sys)
    requires Enabled(s, first) && m == Do(cfg, s, first) && Leads(cfg, m, rest, t)
    ensures Leads(cfg, s, [first] + rest, t)
  {
    RunsFirst(cfg, s, first, rest);
  }

  lemma {:induction false} LeadsAppend(cfg: Config, s: Sys, a: seq<Step>, t: Sys, b: seq<Step>, u: Sys)
    requires Leads(cfg, s, a, t) && Leads(cfg, t, b, u)
    ensures Leads(cfg, s, a + b, u)
    decreases |a|
  {
    if a == [] {
      assert a + b == b;
    } else {
      var m := LeadsFirst(cfg, s, a, t);
      LeadsAppend(cfg, m, a[1..], t, b, u);
      FirstLeads(cfg, s, a[0], m, a[1..] + b, u);
      assert a + b == [a[0]] + (a[1..] + b);
    }
  }

  lemma RunsAppend(cfg: Config, s: Sys, a: seq<Step>, b: seq<Step>)
    requires Runs(cfg, s, a) && Runs(cfg, After(cfg, s, a), b)
    ensures Runs(cfg, s, a + b) && After(cfg, s, a + b) == After(cfg, After(cfg, s, a), b)
  {
    LeadsAppend(cfg, s, a, After(cfg, s, a), b, After(cfg, After(cfg, s, a), b));
  }

  lemma OneStepRun(cfg: Config, s: Sys, step: Step)
    requires Enabled(s, step)
    ensures Runs(cfg, s, [step]) && After(cfg, s, [step]) == Do(cfg, s, step)
  {
    assert [step][1..] == [];
  }
}
