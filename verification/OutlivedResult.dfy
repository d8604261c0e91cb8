/**
 A result can be outlived by nobody's hearing of it: Bob wins just before the session expires, the
 announcement is lost, and the heartbeat finds the session gone. Alice is told EXPIRED.
 */
module OutlivedResult {
  import opened Domain
  import opened SessionStore
  import opened AtomicSession
  import opened StreamMachine
  import opened System
  import opened SystemInvariant
  import opened Guarantees
  import opened HardCap
  import Decision

  const SID: SessionId := "a"

  /** Stream q ended by itself, was told EXPIRED, and its session has a result. */
  ghost predicate Outlived(cfg: Config, steps: seq<Step>, q: nat) {
    && Runs(cfg, START, steps) && q in Reached(cfg, steps).streams
    && var s := Reached(cfg, steps); var st := s.streams[q];
    st.pc.Ended? && st.pc.exit.ByHeartbeat? && Told(st, ExpiredEvent) && Decided(Replay(cfg, s.log), st.sid)
  }

  // ---- Such a run ----

  /** The session waits for Bob, as created, until the given instant. */
  ghost predicate Open(s: Sys, ch: Challenge, until: real) {
    && SID in s.db && s.db[SID].expiresAt == Some(until) && s.now < until
    && exists createdAt :: s.db[SID].hash == NewHash(ch, createdAt)
  }

  lemma OpenIsWaiting(s: Sys, ch: Challenge, until: real)
    requires Open(s, ch, until)
    ensures TerminalEvent(s.db, SID) == StillWaiting && GetPhase(s.db, SID) == Some(WaitingForBob)
  {
  }

  lemma LateInLife(cfg: Config, ch: Challenge) returns (s: Sys)
    requires cfg.ttl > 0
    ensures Reachable(cfg, s) && Open(s, ch, cfg.ttl as real) && s.now == cfg.ttl as real - 0.5
    ensures s.streams == map[] && s.calls == map[]
  {
    assert Runs(cfg, START, []) && Reached(cfg, []) == START;
    ReachOneMore(cfg, START, CreateStep(SID, ch));
    var t := Do(cfg, START, CreateStep(SID, ch));
    var d := cfg.ttl as real - 0.5;
    assert d > 0.0 && TimeMayPass(t, d);
    assert t.db[SID] == SessionStore.Entry(NewHash(ch, 0.0), Some(cfg.ttl as real));
    ReachOneMore(cfg, t, TimeStep(d));
    s := Do(cfg, t, TimeStep(d));
  }

  function At(now: real, pc: Pc, out: seq<Chunk>): Stream {
    Stream(0, SID, WaitingForBob, now, pc, [], out, now, now, now)
  }

  /** The stream's moves up to q.get, while the session waits for Bob. */
  lemma EarlyMoves(now: real, check: Check)
    ensures Advance(At(now, Subscribing, []), now, check) == At(now, Retrying, [])
    ensures Advance(At(now, Retrying, []), now, check) == At(now, Connecting, [Retry])
    ensures Advance(At(now, Connecting, [Retry]), now, check) == At(now, FirstChecking, Preamble(WaitingForBob))
    ensures Advance(At(now, FirstChecking, Preamble(WaitingForBob)), now, StillWaiting) == At(now, Looping, Preamble(WaitingForBob))
    ensures Advance(At(now, Looping, Preamble(WaitingForBob)), now, check) == At(now, Waiting, Preamble(WaitingForBob))
  {
  }

  /** The only stream moves; nothing else does. */
  lemma Moves(cfg: Config, s: Sys, before: Stream, next: Stream) returns (t: Sys)
    requires Reachable(cfg, s) && s.streams == map[0 := before] && CanAdvance(before, s.now)
    requires next == Advance(before, s.now, TerminalEvent(s.db, before.sid))
    ensures Reachable(cfg, t) && t == s.(streams := map[0 := next], hubs := t.hubs)
  {
    ReachOneMore(cfg, s, StreamStep(0));
    OwnMove(cfg, s, 0);
    t := Do(cfg, s, StreamStep(0));
    assert s.streams[0 := next] == map[0 := next];
  }

  lemma Opens(cfg: Config, s: Sys) returns (t: Sys)
    requires Reachable(cfg, s) && GetPhase(s.db, SID) == Some(WaitingForBob) && s.streams == map[]
    ensures Reachable(cfg, t) && t == s.(streams := map[0 := At(s.now, Subscribing, [])])
  {
    ReachOneMore(cfg, s, OpenStep(0, 0, SID));
    t := Do(cfg, s, OpenStep(0, 0, SID));
    assert t == s.(streams := map[0 := At(s.now, Subscribing, [])]);
  }

  lemma Waits(cfg: Config, s: Sys) returns (t: Sys)
    requires Reachable(cfg, s) && GetPhase(s.db, SID) == Some(WaitingForBob) && s.streams == map[]
    requires TerminalEvent(s.db, SID) == StillWaiting
    ensures Reachable(cfg, t) && t == s.(streams := map[0 := At(s.now, Waiting, Preamble(WaitingForBob))], hubs := t.hubs)
  {
    var now := s.now;
    EarlyMoves(now, StillWaiting);
    t := Opens(cfg, s);
    t := Moves(cfg, t, At(now, Subscribing, []), At(now, Retrying, []));
    t := Moves(cfg, t, At(now, Retrying, []), At(now, Connecting, [Retry]));
    t := Moves(cfg, t, At(now, Connecting, [Retry]), At(now, FirstChecking, Preamble(WaitingForBob)));
    t := Moves(cfg, t, At(now, FirstChecking, Preamble(WaitingForBob)), At(now, Looping, Preamble(WaitingForBob)));
    t := Moves(cfg, t, At(now, Looping, Preamble(WaitingForBob)), At(now, Waiting, Preamble(WaitingForBob)));
  }

  lemma BobIsRead(cfg: Config, s: Sys, ch: Challenge, until: real, request: BobRequest) returns (t: Sys)
    requires Reachable(cfg, s) && Open(s, ch, until) && 0 !in s.calls
    ensures Reachable(cfg, t) && t == s.(calls := t.calls)
    ensures 0 in t.calls && t.calls[0].sid == SID && t.calls[0].pc == Embedding(s.db[SID].hash)
  {
    ReachOneMore(cfg, s, BeginStep(0, SID, request));
    t := Do(cfg, s, BeginStep(0, SID, request));
    OpenIsWaiting(t, ch, until);
    ReachOneMore(cfg, t, ReadStep(0));
    t := Do(cfg, t, ReadStep(0));
  }

  lemma BobIsScored(cfg: Config, s: Sys, ch: Challenge, until: real, request: BobRequest, answer: seq<real>) returns (t: Sys)
    requires Reachable(cfg, s) && Open(s, ch, until) && 0 !in s.calls && cfg.score(ch.vector, answer).Some?
    ensures Reachable(cfg, t) && t == s.(calls := t.calls)
    ensures 0 in t.calls && t.calls[0].sid == SID && t.calls[0].pc.Finalizing? && t.calls[0].pc.snapshot == s.db[SID].hash
  {
    var u := BobIsRead(cfg, s, ch, until, request);
    ReachOneMore(cfg, u, EmbedStep(0, Some(answer)));
    t := Do(cfg, u, EmbedStep(0, Some(answer)));
  }

  lemma ScriptWins(cfg: Config, s: Sys, ch: Challenge, until: real)
    requires Open(s, ch, until) && 0 in s.calls && s.calls[0].sid == SID
    requires s.calls[0].pc.Finalizing? && s.calls[0].pc.snapshot == s.db[SID].hash
    ensures var t := DoFinalize(cfg, s, 0, {});
      && t.streams == s.streams && t.now == s.now
      && 0 in t.calls && t.calls[0].sid == SID && t.calls[0].pc.Replied? && Won(t.calls[0].pc.response)
      && SID in t.db && t.db[SID].expiresAt == Some(until)
  {
  }

  /** Bob gets his result, and it is announced to nobody. */
  lemma BobWins(cfg: Config, s: Sys, ch: Challenge, until: real, request: BobRequest, answer: seq<real>) returns (t: Sys)
    requires Reachable(cfg, s) && Open(s, ch, until) && 0 !in s.calls && cfg.score(ch.vector, answer).Some?
    ensures Reachable(cfg, t) && t.streams == s.streams && t.now == s.now
    ensures 0 in t.calls && t.calls[0].sid == SID && t.calls[0].pc.Replied? && Won(t.calls[0].pc.response)
    ensures SID in t.db && t.db[SID].expiresAt == Some(until)
  {
    var u := BobIsScored(cfg, s, ch, until, request, answer);
    ReachOneMore(cfg, u, FinalizeStep(0, {}));
    ScriptWins(cfg, u, ch, until);
    t := DoFinalize(cfg, u, 0, {});
  }

  lemma Sleeps(cfg: Config, s: Sys, from: real, out: seq<Chunk>) returns (t: Sys)
    requires Reachable(cfg, s) && s.now == from && s.streams == map[0 := At(from, Waiting, out)]
    requires SID in s.db && s.db[SID].expiresAt.Some? && s.db[SID].expiresAt.value <= from + HEARTBEAT
    ensures Reachable(cfg, t) && t.now == from + HEARTBEAT && t.streams == s.streams && t.calls == s.calls && SID !in t.db
  {
    assert TimeMayPass(s, HEARTBEAT);
    ReachOneMore(cfg, s, TimeStep(HEARTBEAT));
    t := Do(cfg, s, TimeStep(HEARTBEAT));
  }

  lemma LateMoves(from: real, out: seq<Chunk>, check: Check)
    ensures Advance(At(from, Waiting, out), from + HEARTBEAT, check) == At(from, HeartbeatChecking, out)
    ensures Advance(At(from, HeartbeatChecking, out), from + HEARTBEAT, Found(ExpiredEvent))
         == At(from, Ended(ByHeartbeat, from + HEARTBEAT), out + [Data(ExpiredEvent)])
  {
  }

  lemma HearsExpired(cfg: Config, s: Sys, from: real, out: seq<Chunk>) returns (t: Sys)
    requires Reachable(cfg, s) && s.now == from + HEARTBEAT && s.streams == map[0 := At(from, Waiting, out)] && SID !in s.db
    ensures Reachable(cfg, t) && t.calls == s.calls && t.streams.Keys == {0} && t.streams[0].sid == SID
    ensures t.streams[0].pc == Ended(ByHeartbeat, s.now) && t.streams[0].out == out + [Data(ExpiredEvent)]
  {
    LateMoves(from, out, Found(ExpiredEvent));
    t := Moves(cfg, s, At(from, Waiting, out), At(from, HeartbeatChecking, out));
    t := Moves(cfg, t, At(from, HeartbeatChecking, out), At(from, Ended(ByHeartbeat, s.now), out + [Data(ExpiredEvent)]));
  }

  lemma WonAndExpired(cfg: Config, s: Sys)
    requires Reachable(cfg, s) && 0 in s.calls && s.calls[0].pc.Replied? && Won(s.calls[0].pc.response)
    requires 0 in s.streams && s.streams[0].sid == s.calls[0].sid && Told(s.streams[0], ExpiredEvent)
    requires s.streams[0].pc.Ended? && s.streams[0].pc.exit.ByHeartbeat?
    ensures exists steps :: Outlived(cfg, steps, 0)
  {
    var steps :| Runs(cfg, START, steps) && Reached(cfg, steps) == s;
    ReachedOk(cfg, steps);
    assert CallOk(cfg, 0, s.calls[0], Replay(cfg, s.log), s.log);
    assert Outlived(cfg, steps, 0);
  }

  lemma ResultIsOutlived(cfg: Config, ch: Challenge, request: BobRequest, answer: seq<real>)
    requires cfg.ttl > 0 && cfg.score(ch.vector, answer).Some?
    ensures exists steps :: Outlived(cfg, steps, 0)
  {
    var until := cfg.ttl as real;
    var s := LateInLife(cfg, ch);
    var from := s.now;
    OpenIsWaiting(s, ch, until);
    s := Waits(cfg, s);
    s := BobWins(cfg, s, ch, until, request, answer);
    s := Sleeps(cfg, s, from, Preamble(WaitingForBob));
    s := HearsExpired(cfg, s, from, Preamble(WaitingForBob));
    WonAndExpired(cfg, s);
  }

  // ---- Exactly when ----

  lemma OutlivedNeedsScore(cfg: Config, steps: seq<Step>, q: nat)
    requires Outlived(cfg, steps, q)
    ensures cfg.ttl > 0 && exists stored, answer :: cfg.score(stored, answer).Some?
  {
    ReachedOk(cfg, steps);
    var s := Reached(cfg, steps);
    var sid := s.streams[q].sid;
    var ses := Replay(cfg, s.log).sessions[sid];
    assert SessionOk(cfg, ses, s.now);
    assert cfg.ttl as real > 0.0;
    var i := Decision.DecidedByScore(cfg, s.log, sid);
    assert cfg.score(ses.challenge.vector, s.log[i].op.answer.v).Some?;
  }

  /** Results can be outlived unheard exactly when there can be results at all: sessions live and some vectors have a score. */
  lemma OutlivedExactly(cfg: Config, aliceKey: Jwk, bobKey: Jwk)
    ensures (exists steps, q :: Outlived(cfg, steps, q)) <==> cfg.ttl > 0 && exists stored, answer :: cfg.score(stored, answer).Some?
  {
    if cfg.ttl > 0 && exists stored, answer :: cfg.score(stored, answer).Some? {
      var stored, answer :| cfg.score(stored, answer).Some?;
      ResultIsOutlived(cfg, Challenge("Alice", "Where?", stored, aliceKey), BobRequest("Bob", bobKey), answer);
    }
    forall steps, q | Outlived(cfg, steps, q)
      ensures cfg.ttl > 0 && exists stored, answer :: cfg.score(stored, answer).Some?
    {
      OutlivedNeedsScore(cfg, steps, q);
    }
  }
}
