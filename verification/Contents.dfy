/** What the store holds, what GET and the streams show of it, and what is published, in every run and by its history. */
module Contents {
  import opened Domain
  import opened Rounding
  import opened SessionStore
  import opened AtomicSession
  import opened StreamMachine
  import opened System
  import opened SystemInvariant
  import opened SystemProofs
  import opened Guarantees
  import opened History
  import opened Observed
  import KeyWithheld

  // ---- The store ----

  /** The hash of a session, by its history. */
  ghost predicate HashByHistory(cfg: Config, log: seq<LogEntry>, sid: SessionId, h: Hash) {
    && Made(log, sid) && HoldsChallenge(h, ChallengeOf(log, sid), Birth(log, sid))
    && (!HasWinner(log, sid) ==> HoldsNoResult(h))
    && (HasWinner(log, sid) ==>
          exists k: nat, score: real ::
            && WonAt(log, sid, k) && Scores(cfg, log, sid, k, score)
            && HoldsResult(h, log[k].op.request, score, score >= cfg.threshold))
  }

  /** The score of the winning entry k: its vector against the session's. */
  predicate Scores(cfg: Config, log: seq<LogEntry>, sid: SessionId, k: nat, score: real)
    requires WonAt(log, sid, k)
  {
    Made(log, sid) && log[k].op.answer.Vector? && cfg.score(ChallengeOf(log, sid).vector, log[k].op.answer.v) == Some(score)
  }

  lemma HashHolds(ses: Session)
    ensures HoldsChallenge(HashOf(ses), ses.challenge, ses.createdAt)
    ensures ses.outcome.None? ==> HoldsNoResult(HashOf(ses))
    ensures ses.outcome.Some? ==>
      var w := ses.outcome.value; HoldsResult(HashOf(ses), w.request, w.score, w.passed)
  {
    if ses.outcome.Some? {
      var w := ses.outcome.value;
      var m := UpdatedFields(w.request, w.score, w.passed);
      assert HashOf(ses) == NewHash(ses.challenge, ses.createdAt) + m;
    }
  }

  lemma SessionHash(cfg: Config, log: seq<LogEntry>, sid: SessionId, ses: Session)
    requires ByHistory(cfg, log, sid, ses)
    ensures HashByHistory(cfg, log, sid, HashOf(ses))
  {
    HashHolds(ses);
    if ses.outcome.Some? {
      var w := ses.outcome.value;
      var k: nat :| WonAt(log, sid, k) && Records(cfg, log, sid, k, w);
      assert Scores(cfg, log, sid, k, w.score);
    }
  }

  /** What the store has of a session: nothing, unless it has been made and has not gone. */
  ghost predicate StoredSo(cfg: Config, db: Db, log: seq<LogEntry>, sid: SessionId) {
    && (sid in db <==> Made(log, sid) && !HasGone(cfg, log, sid))
    && (sid in db ==>
          HashByHistory(cfg, log, sid, db[sid].hash) && db[sid].expiresAt == Some(Birth(log, sid) + cfg.ttl as real))
  }

  lemma RepresentsOne(db: Db, o: Object, sid: SessionId)
    requires Represents(db, o)
    ensures sid in db <==> !Gone(o, sid)
    ensures sid in db ==> db[sid] == SessionStore.Entry(HashOf(o.sessions[sid]), Some(o.sessions[sid].expiresAt))
  {
  }

  lemma HistoryOne(cfg: Config, log: seq<LogEntry>, sid: SessionId)
    requires ObjectByHistory(cfg, log)
    ensures var o := Replay(cfg, log);
      (sid in o.sessions <==> Made(log, sid)) && (sid in o.sessions ==> ByHistory(cfg, log, sid, o.sessions[sid]))
  {
  }

  lemma KeptByHistory(cfg: Config, db: Db, o: Object, log: seq<LogEntry>, sid: SessionId)
    requires sid in db <==> !Gone(o, sid)
    requires sid in db ==> db[sid] == SessionStore.Entry(HashOf(o.sessions[sid]), Some(o.sessions[sid].expiresAt))
    requires sid in o.sessions <==> Made(log, sid)
    requires sid in o.sessions ==> ByHistory(cfg, log, sid, o.sessions[sid])
    ensures StoredSo(cfg, db, log, sid)
  {
    if sid in o.sessions {
      SessionHash(cfg, log, sid, o.sessions[sid]);
    }
  }

  /**
   In every run Redis holds exactly the sessions that have been made and have not gone, each with the texts of
   its create request, nothing of Bob before there is a winner and the winner's result after, and with the
   expiry that was fixed when it was made.
   */
  lemma StoreByHistory(cfg: Config, steps: seq<Step>, sid: SessionId)
    requires Runs(cfg, START, steps)
    ensures StoredSo(cfg, Reached(cfg, steps).db, Reached(cfg, steps).log, sid)
  {
    ReachedAccounted(cfg, steps);
    var s := Reached(cfg, steps);
    var o := Replay(cfg, s.log);
    RepresentsOne(s.db, o, sid);
    HistoryOne(cfg, s.log, sid);
    KeptByHistory(cfg, s.db, o, s.log, sid);
  }

  /** Every stored session was made by a create of the run, with these texts. */
  lemma MadeByCreate(log: seq<LogEntry>, steps: seq<Step>, sid: SessionId)
    requires Made(log, sid) && StoreOps(log) == OpsOf(steps)
    ensures CreateStep(sid, ChallengeOf(log, sid)) in steps
  {
    CreateIsStoreOp(log, MadeAt(log, sid));
    OpsComeFromSteps(steps, CreateOp(sid, ChallengeOf(log, sid)));
  }

  lemma {:induction false} CreateIsStoreOp(log: seq<LogEntry>, j: nat)
    requires j < |log| && log[j].op.CreateOp?
    ensures log[j].op in StoreOps(log)
    decreases |log|
  {
    if j < |log| - 1 {
      CreateIsStoreOp(log[..|log| - 1], j);
    }
  }

  lemma {:induction false} OpsComeFromSteps(steps: seq<Step>, op: Op)
    requires op in OpsOf(steps) && op.CreateOp?
    ensures CreateStep(op.sid, op.challenge) in steps
    decreases |steps|
  {
    var init, step := steps[..|steps| - 1], steps[|steps| - 1];
    if op in OpsOf(init) {
      OpsComeFromSteps(init, op);
    } else {
      assert step == CreateStep(op.sid, op.challenge);
    }
  }

  lemma StoredSessionWasCreated(cfg: Config, steps: seq<Step>, sid: SessionId)
    requires Runs(cfg, START, steps) && sid in Reached(cfg, steps).db
    ensures exists ch, born :: CreateStep(sid, ch) in steps && HoldsChallenge(Reached(cfg, steps).db[sid].hash, ch, born)
  {
    StoreByHistory(cfg, steps, sid);
    ReachedAccounted(cfg, steps);
    MadeByCreate(Reached(cfg, steps).log, steps, sid);
  }

  // ---- GET, and the phase that a stream announces ----

  /** The phase of a session that has not gone. */
  ghost predicate PhaseByHistory(cfg: Config, log: seq<LogEntry>, sid: SessionId, phase: Phase) {
    match phase
    case WaitingForBob => !HasWinner(log, sid)
    case Verified => exists k: nat, score: real :: WonAt(log, sid, k) && Scores(cfg, log, sid, k, score) && score >= cfg.threshold
    case Failed => exists k: nat, score: real :: WonAt(log, sid, k) && Scores(cfg, log, sid, k, score) && score < cfg.threshold
  }

  lemma PhaseOfHash(cfg: Config, log: seq<LogEntry>, sid: SessionId, h: Hash)
    requires HashByHistory(cfg, log, sid, h)
    ensures PhaseField in h && h[PhaseField].PhaseName? && PhaseByHistory(cfg, log, sid, h[PhaseField].phase)
  {
  }

  /** GET /session/<id> answers with Alice's name, her question and the phase, or 404. */
  lemma GetShows(cfg: Config, steps: seq<Step>, sid: SessionId)
    requires Runs(cfg, START, steps)
    ensures var s := Reached(cfg, steps);
      match KeyWithheld.GetView(s.db, sid)
      case None => !Made(s.log, sid) || HasGone(cfg, s.log, sid)
      case Some((Some(name), Some(question), Some(PhaseName(phase)))) =>
        && Made(s.log, sid) && !HasGone(cfg, s.log, sid)
        && name == Str(ChallengeOf(s.log, sid).aliceName) && question == Str(ChallengeOf(s.log, sid).question)
        && PhaseByHistory(cfg, s.log, sid, phase)
      case _ => false
  {
    StoreByHistory(cfg, steps, sid);
    var s := Reached(cfg, steps);
    if sid in s.db {
      PhaseOfHash(cfg, s.log, sid, s.db[sid].hash);
    }
  }

  lemma PhaseStays(cfg: Config, s: Sys, step: Step, q: nat)
    requires Enabled(s, step) && q in s.streams
    ensures var t := Do(cfg, s, step); q in t.streams && t.streams[q].phase == s.streams[q].phase && t.streams[q].sid == s.streams[q].sid
  {
    if step == StreamStep(q) {
      OwnMove(cfg, s, q);
    } else if step != AbortStep(q) {
      OtherStepsKeepStream(cfg, s, step, q);
    }
  }

  lemma {:induction false} PhaseStaysInRun(cfg: Config, s: Sys, steps: seq<Step>, q: nat)
    requires Runs(cfg, s, steps) && q in s.streams
    ensures var t := After(cfg, s, steps); q in t.streams && t.streams[q].phase == s.streams[q].phase
    decreases |steps|
  {
    if steps != [] {
      PhaseStays(cfg, s, steps[0], q);
      PhaseStaysInRun(cfg, Do(cfg, s, steps[0]), steps[1..], q);
    }
  }

  /** The stream announces the phase that its session had when it was opened; a session that is not there gets no stream. */
  lemma ConnectedTellsThePhase(cfg: Config, before: seq<Step>, q: nat, worker: nat, sid: SessionId, later: seq<Step>)
    requires Runs(cfg, START, before) && Enabled(Reached(cfg, before), OpenStep(q, worker, sid))
    requires Runs(cfg, Do(cfg, Reached(cfg, before), OpenStep(q, worker, sid)), later)
    ensures var s := Reached(cfg, before);
      var t := After(cfg, Do(cfg, s, OpenStep(q, worker, sid)), later);
      && Made(s.log, sid) && !HasGone(cfg, s.log, sid)
      && q in t.streams && PhaseByHistory(cfg, s.log, sid, t.streams[q].phase)
  {
    StoreByHistory(cfg, before, sid);
    var s := Reached(cfg, before);
    PhaseOfHash(cfg, s.log, sid, s.db[sid].hash);
    PhaseStaysInRun(cfg, Do(cfg, s, OpenStep(q, worker, sid)), later, q);
  }

  // ---- Messages, and what streams tell ----

  /** The percentage, name and key in e are those of the response that call c got. */
  ghost predicate IsNews(s: Sys, c: nat, sid: SessionId, e: Event) {
    && c in s.calls && s.calls[c].sid == sid && s.calls[c].pc.Replied?
    && var request, response := s.calls[c].request, s.calls[c].pc.response;
    || (response.Pass? && e == VerifiedEvent(request.bobName, request.bobKey, response.percent))
    || (response.Fail? && e == FailedEvent(response.percent))
  }

  predicate LastTold(st: Stream, e: Event) {
    st.out != [] && st.out[|st.out| - 1] == Data(e)
  }

  /** The score by which call c won. */
  ghost predicate WonBy(cfg: Config, s: Sys, c: nat, score: real) {
    && c in s.calls && s.calls[c].pc.Replied?
    && WonAt(s.log, s.calls[c].sid, s.calls[c].pc.at)
    && Scores(cfg, s.log, s.calls[c].sid, s.calls[c].pc.at, score)
  }

  /**
   The news rebuilt from the hash: name and key are the call's, the percentage comes from the score kept to
   four decimals, and it is the one of the response exactly if the score is no lost tie.
   */
  ghost predicate IsRebuiltNews(cfg: Config, s: Sys, c: nat, sid: SessionId, e: Event) {
    && c in s.calls && s.calls[c].sid == sid && s.calls[c].pc.Replied?
    && var request, response := s.calls[c].request, s.calls[c].pc.response;
    && ((response.Pass? && e.VerifiedEvent? && e.bobName == request.bobName && e.bobKey == request.bobKey)
        || (response.Fail? && e.FailedEvent?))
    && exists score :: WonBy(cfg, s, c, score) && ShownAs(score, response.percent, e.score)
  }

  ghost predicate ByFourDecimals(score: real, n: int, percent: int) {
    NearestEven(score * 10000.0, n) && NearestEven(n as real / 100.0, percent)
  }

  /** The live percentage, and the one by way of four decimals. */
  ghost predicate ShownAs(score: real, live: int, rebuilt: int) {
    && NearestEven(score * 100.0, live)
    && (exists n :: ByFourDecimals(score, n, rebuilt))
    && (rebuilt == live <==> !LostTie(score))
  }

  /** The winner of a session is a call, and its entry in the log is the one that won. */
  lemma WinnersCall(cfg: Config, s: Sys, sid: SessionId)
    requires Inv(cfg, s) && ObjectByHistory(cfg, s.log) && Decided(Replay(cfg, s.log), sid)
    ensures var w := Winner(Replay(cfg, s.log), sid);
      && WonBy(cfg, s, w.call, w.score)
      && IsNews(s, w.call, sid, LiveEvent(w))
  {
    var o := Replay(cfg, s.log);
    var w := Winner(o, sid);
    assert ByHistory(cfg, s.log, sid, o.sessions[sid]);
    var k: nat :| WonAt(s.log, sid, k) && Records(cfg, s.log, sid, k, w);
    assert s.calls[w.call].pc.at == k;
  }

  lemma RebuiltIsNews(cfg: Config, s: Sys, sid: SessionId)
    requires Inv(cfg, s) && ObjectByHistory(cfg, s.log) && Decided(Replay(cfg, s.log), sid)
    ensures var w := Winner(Replay(cfg, s.log), sid); IsRebuiltNews(cfg, s, w.call, sid, RebuiltEvent(w))
  {
    WinnersCall(cfg, s, sid);
    var w := Winner(Replay(cfg, s.log), sid);
    RebuiltAgreesExactly(w.score);
    var n := Stored(w.score);
    assert n as real / 10000.0 * 100.0 == n as real / 100.0;
    assert ByFourDecimals(w.score, n, RebuiltPercent(w.score));
    assert ShownAs(w.score, LivePercent(w.score), RebuiltPercent(w.score));
    assert WonBy(cfg, s, w.call, w.score);
  }

  lemma EndedByMessage(st: Stream, o: Object)
    requires StreamOk(st, o) && st.pc.Ended? && st.pc.exit.ByMessage?
    ensures Decided(o, st.sid) && LastTold(st, LiveEvent(Winner(o, st.sid)))
  {
    assert EndOk(st, o.sessions[st.sid]);
  }

  lemma EndedByCheck(st: Stream, o: Object, e: Event)
    requires StreamOk(st, o) && st.pc.Ended? && (st.pc.exit.ByFirstCheck? || st.pc.exit.ByHeartbeat?)
    requires Told(st, e) && e != ExpiredEvent
    ensures Decided(o, st.sid) && e == RebuiltEvent(Winner(o, st.sid))
  {
    assert EndOk(st, o.sessions[st.sid]);
  }

  lemma Queued(st: Stream, flights: multiset<Flight>, o: Object, e: Event)
    requires QueueOk(st, flights, o) && e in st.queue
    ensures Decided(o, st.sid) && e == LiveEvent(Winner(o, st.sid))
  {
  }

  lemma StreamFacts(cfg: Config, s: Sys, q: nat)
    requires Inv(cfg, s) && q in s.streams
    ensures StreamOk(s.streams[q], Replay(cfg, s.log)) && QueueOk(s.streams[q], s.flights, Replay(cfg, s.log))
  {
  }

  /**
   Every message, under way or queued, and what every stream told because of one, has exactly the
   percentage, name and key of the winning call's response; that percentage is the nearest to the score.
   */
  lemma ExactNews(cfg: Config, steps: seq<Step>, f: Flight, q: nat, e: Event)
    requires Runs(cfg, START, steps)
    ensures var s := Reached(cfg, steps);
      && (f in s.flights ==> exists c :: IsNews(s, c, f.sid, f.event))
      && (q in s.streams && e in s.streams[q].queue ==> exists c :: IsNews(s, c, s.streams[q].sid, e))
      && (q in s.streams && s.streams[q].pc.Ended? && s.streams[q].pc.exit.ByMessage? ==>
            exists c, told :: LastTold(s.streams[q], told) && IsNews(s, c, s.streams[q].sid, told))
  {
    ReachedAccounted(cfg, steps);
    var s := Reached(cfg, steps);
    var o := Replay(cfg, s.log);
    if f in s.flights {
      WinnersCall(cfg, s, f.sid);
    }
    if q in s.streams {
      StreamNews(cfg, s, q, e);
    }
  }

  lemma StreamNews(cfg: Config, s: Sys, q: nat, e: Event)
    requires Inv(cfg, s) && ObjectByHistory(cfg, s.log) && q in s.streams
    ensures var st := s.streams[q];
      && (e in st.queue ==> exists c :: IsNews(s, c, st.sid, e))
      && (st.pc.Ended? && st.pc.exit.ByMessage? ==>
            exists c, told :: LastTold(st, told) && IsNews(s, c, st.sid, told))
  {
    var o, st := Replay(cfg, s.log), s.streams[q];
    StreamFacts(cfg, s, q);
    if e in st.queue {
      Queued(st, s.flights, o, e);
      WinnersCall(cfg, s, st.sid);
    }
    if st.pc.Ended? && st.pc.exit.ByMessage? {
      EndedByMessage(st, o);
      WinnersCall(cfg, s, st.sid);
    }
  }

  /** A stream that ended by one of its checks and told a result told the rebuilt news of the winning call. */
  lemma CheckedNews(cfg: Config, steps: seq<Step>, q: nat, e: Event)
    requires Runs(cfg, START, steps) && q in Reached(cfg, steps).streams
    requires var st := Reached(cfg, steps).streams[q];
      st.pc.Ended? && (st.pc.exit.ByFirstCheck? || st.pc.exit.ByHeartbeat?) && Told(st, e) && e != ExpiredEvent
    ensures var s := Reached(cfg, steps); exists c :: IsRebuiltNews(cfg, s, c, s.streams[q].sid, e)
  {
    ReachedAccounted(cfg, steps);
    var s := Reached(cfg, steps);
    var o, st := Replay(cfg, s.log), s.streams[q];
    StreamFacts(cfg, s, q);
    EndedByCheck(st, o, e);
    RebuiltIsNews(cfg, s, st.sid);
  }

  /** The winning response's percentage is the nearest to a hundred times the score, which passes or fails by the threshold. */
  lemma ResultOfCall(cfg: Config, steps: seq<Step>, c: nat)
    requires Runs(cfg, START, steps) && c in Reached(cfg, steps).calls
    requires Reached(cfg, steps).calls[c].pc.Replied? && Won(Reached(cfg, steps).calls[c].pc.response)
    ensures var s := Reached(cfg, steps); var sid := s.calls[c].sid;
      Made(s.log, sid) && exists score :: WonBy(cfg, s, c, score) && IsResult(cfg, s.calls[c].pc.response, ChallengeOf(s.log, sid), score)
  {
    ReachedAccounted(cfg, steps);
    var s := Reached(cfg, steps);
    var o, sid := Replay(cfg, s.log), s.calls[c].sid;
    assert CallOk(cfg, c, s.calls[c], o, s.log);
    WinnersCall(cfg, s, sid);
    assert ByHistory(cfg, s.log, sid, o.sessions[sid]);
    assert SessionOk(cfg, o.sessions[sid], o.now);
  }

  /** The winning script sends, to exactly the workers that the transport does not miss, what goes with the response. */
  lemma WinSendsExactNews(cfg: Config, steps: seq<Step>, c: nat, to: set<nat>, worker: nat)
    requires Runs(cfg, START, steps) && Enabled(Reached(cfg, steps), FinalizeStep(c, to))
    requires Won(Do(cfg, Reached(cfg, steps), FinalizeStep(c, to)).calls[c].pc.response)
    ensures var t := Do(cfg, Reached(cfg, steps), FinalizeStep(c, to)); var sid := t.calls[c].sid;
      worker in to <==> exists e :: Flight(worker, sid, e) in t.flights && IsNews(t, c, sid, e)
  {
    var s := Reached(cfg, steps);
    var t := Do(cfg, s, FinalizeStep(c, to));
    WinIsAnnounced(cfg, steps, c, to, worker);
    OneStepRun(cfg, s, FinalizeStep(c, to));
    RunsAppend(cfg, START, steps, [FinalizeStep(c, to)]);
    ReachedAccounted(cfg, steps + [FinalizeStep(c, to)]);
    var sid := t.calls[c].sid;
    WonIsDecided(cfg, t, c);
    WinnersCall(cfg, t, sid);
    assert IsNews(t, c, sid, LiveEvent(Winner(Replay(cfg, t.log), sid)));
  }

  lemma WonIsDecided(cfg: Config, t: Sys, c: nat)
    requires Inv(cfg, t) && c in t.calls && t.calls[c].pc.Replied? && Won(t.calls[c].pc.response)
    ensures Decided(Replay(cfg, t.log), t.calls[c].sid) && Winner(Replay(cfg, t.log), t.calls[c].sid).call == c
    ensures forall f :: f in t.flights && f.sid == t.calls[c].sid ==> f.event == LiveEvent(Winner(Replay(cfg, t.log), f.sid))
  {
    assert CallOk(cfg, c, t.calls[c], Replay(cfg, t.log), t.log);
  }

  // ---- The shape of an output, chunk by chunk ----

  /**
   retry, then CONNECTED with the phase, then keepalives, and a terminal event nowhere but at the end of a
   stream that ended by itself.
   */
  lemma OutputChunkByChunk(cfg: Config, steps: seq<Step>, q: nat, i: nat)
    requires Runs(cfg, START, steps) && q in Reached(cfg, steps).streams && i < |Reached(cfg, steps).streams[q].out|
    ensures var st := Reached(cfg, steps).streams[q]; var chunk := st.out[i];
      && (i == 0 ==> chunk == Retry)
      && (i == 1 ==> chunk == Data(ConnectedEvent(st.phase)))
      && (i >= 2 ==> chunk == Keepalive || (i == |st.out| - 1 && st.pc.Ended? && chunk.Data? && !chunk.event.ConnectedEvent?))
      && (i == |st.out| - 1 && st.pc.Ended? && !st.pc.exit.Aborted? ==> i >= 2 && chunk.Data? && !chunk.event.ConnectedEvent?)
      && i < 63
  {
    OutputLanguage(cfg, steps, q);
    StreamsMeetTheCap(cfg, steps, q);
  }
}
