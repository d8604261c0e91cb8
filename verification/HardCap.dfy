/** The 15-minute cap on a stream is really reached, by any session that may live longer than that. */
module HardCap {
  import opened Domain
  import opened SessionStore
  import opened AtomicSession
  import opened StreamMachine
  import opened System
  import SystemProofs
  import opened Guarantees

  // ---- Composing runs ----

  ghost predicate Reachable(cfg: Config, s: Sys) {
    exists steps :: Runs(cfg, START, steps) && Reached(cfg, steps) == s
  }

  lemma ReachOneMore(cfg: Config, s: Sys, step: Step)
    requires Reachable(cfg, s) && Enabled(s, step)
    ensures Reachable(cfg, Do(cfg, s, step))
  {
    var steps :| Runs(cfg, START, steps) && Reached(cfg, steps) == s;
    SystemProofs.OneStepRun(cfg, s, step);
    SystemProofs.RunsAppend(cfg, START, steps, [step]);
    assert Reached(cfg, steps + [step]) == Do(cfg, s, step);
  }

  // ---- A stream on its own ----

  /** Stream 0 is alone, and its session still waits for Bob and will for more than 900 seconds. */
  ghost predicate Lone(cfg: Config, s: Sys, now: real, pc: Pc) {
    && s.now == now
    && s.streams.Keys == {0} && s.streams[0].sid == "a"
    && s.streams[0].pc == pc && s.streams[0].queue == [] && s.streams[0].loopStart == 0.0
    && "a" in s.db && PhaseIn(s.db["a"].hash) == Some(WaitingForBob)
    && s.db["a"].expiresAt.Some? && s.db["a"].expiresAt.value > MAX_STREAM
  }

  function Next(pc: Pc, now: real): Pc {
    match pc
    case Subscribing => Retrying
    case Retrying => Connecting
    case Connecting => FirstChecking
    case FirstChecking => Looping
    case Looping => if now < MAX_STREAM then Waiting else Ended(ByHardCap, now)
    case Waiting => HeartbeatChecking
    case HeartbeatChecking => Looping
    case Ended(_, _) => pc
  }

  /** The stream's own move, where its store read finds the session waiting. */
  lemma Move(cfg: Config, s: Sys, now: real, pc: Pc) returns (t: Sys)
    requires Reachable(cfg, s) && Lone(cfg, s, now, pc)
    requires !pc.Ended? && (pc.FirstChecking? ==> now == 0.0)
    requires pc.Waiting? ==> s.streams[0].waitStart + HEARTBEAT <= now
    ensures Reachable(cfg, t) && Lone(cfg, t, now, Next(pc, now))
    ensures pc.Looping? && now < MAX_STREAM ==> t.streams[0].waitStart == now
  {
    assert TerminalEvent(s.db, "a") == StillWaiting;
    ReachOneMore(cfg, s, StreamStep(0));
    OwnMove(cfg, s, 0);
    t := Do(cfg, s, StreamStep(0));
  }

  lemma LoneSleeps(cfg: Config, s: Sys, now: real)
    requires Lone(cfg, s, now, Waiting) && s.streams[0].waitStart == now && now + HEARTBEAT <= MAX_STREAM
    ensures Enabled(s, TimeStep(HEARTBEAT))
    ensures var t := Do(cfg, s, TimeStep(HEARTBEAT));
      Lone(cfg, t, now + HEARTBEAT, Waiting) && t.streams == s.streams
  {
    assert TimeMayPass(s, HEARTBEAT);
    var t := Do(cfg, s, TimeStep(HEARTBEAT));
    assert "a" in t.db && t.db["a"] == s.db["a"];
  }

  /** Loop test, then q.get gives up after 15 seconds. */
  lemma Sleep(cfg: Config, s: Sys, now: real) returns (t: Sys)
    requires Reachable(cfg, s) && Lone(cfg, s, now, Looping) && now + HEARTBEAT <= MAX_STREAM
    ensures Reachable(cfg, t) && Lone(cfg, t, now + HEARTBEAT, Waiting)
    ensures t.streams[0].waitStart == now
  {
    var m := Move(cfg, s, now, Looping);
    LoneSleeps(cfg, m, now);
    ReachOneMore(cfg, m, TimeStep(HEARTBEAT));
    t := Do(cfg, m, TimeStep(HEARTBEAT));
  }

  lemma Wake(cfg: Config, s: Sys, now: real) returns (t: Sys)
    requires Reachable(cfg, s) && Lone(cfg, s, now, Looping) && now + HEARTBEAT <= MAX_STREAM
    ensures Reachable(cfg, t) && Lone(cfg, t, now + HEARTBEAT, HeartbeatChecking)
  {
    var m := Sleep(cfg, s, now);
    t := Move(cfg, m, now + HEARTBEAT, Waiting);
  }

  lemma OneRound(cfg: Config, s: Sys, now: real) returns (t: Sys)
    requires Reachable(cfg, s) && Lone(cfg, s, now, Looping) && now + HEARTBEAT <= MAX_STREAM
    ensures Reachable(cfg, t) && Lone(cfg, t, now + HEARTBEAT, Looping)
  {
    var m := Wake(cfg, s, now);
    t := Move(cfg, m, now + HEARTBEAT, HeartbeatChecking);
  }

  /** Alice creates a session and her page opens its stream. */
  lemma Opening(cfg: Config, ch: Challenge) returns (t: Sys)
    requires cfg.ttl > 900
    ensures Reachable(cfg, t) && Lone(cfg, t, 0.0, Subscribing)
  {
    assert Runs(cfg, START, []) && Reached(cfg, []) == START;
    ReachOneMore(cfg, START, CreateStep("a", ch));
    t := Do(cfg, START, CreateStep("a", ch));
    assert cfg.ttl as real > 900.0;
    ReachOneMore(cfg, t, OpenStep(0, 0, "a"));
    t := Do(cfg, t, OpenStep(0, 0, "a"));
  }

  lemma Connected(cfg: Config, ch: Challenge) returns (t: Sys)
    requires cfg.ttl > 900
    ensures Reachable(cfg, t) && Lone(cfg, t, 0.0, Connecting)
  {
    t := Opening(cfg, ch);
    t := Move(cfg, t, 0.0, Subscribing);
    t := Move(cfg, t, 0.0, Retrying);
  }

  lemma Greeted(cfg: Config, ch: Challenge) returns (t: Sys)
    requires cfg.ttl > 900
    ensures Reachable(cfg, t) && Lone(cfg, t, 0.0, FirstChecking)
  {
    var m := Connected(cfg, ch);
    t := Move(cfg, m, 0.0, Connecting);
  }

  lemma Beginning(cfg: Config, ch: Challenge) returns (t: Sys)
    requires cfg.ttl > 900
    ensures Reachable(cfg, t) && Lone(cfg, t, 0.0, Looping)
  {
    var m := Greeted(cfg, ch);
    t := Move(cfg, m, 0.0, FirstChecking);
  }

  lemma ManyRounds(cfg: Config, ch: Challenge) returns (t: Sys)
    requires cfg.ttl > 900
    ensures Reachable(cfg, t) && Lone(cfg, t, MAX_STREAM, Looping)
  {
    t := Beginning(cfg, ch);
    var k := 0;
    while k < MAX_KEEPALIVES
      invariant 0 <= k <= MAX_KEEPALIVES && Reachable(cfg, t) && Lone(cfg, t, HEARTBEAT * k as real, Looping)
    {
      t := OneRound(cfg, t, HEARTBEAT * k as real);
      k := k + 1;
    }
  }

  ghost predicate Capped(cfg: Config, steps: seq<Step>, q: nat) {
    && Runs(cfg, START, steps) && q in Reached(cfg, steps).streams
    && Reached(cfg, steps).streams[q].pc.Ended? && Reached(cfg, steps).streams[q].pc.exit.ByHardCap?
  }

  /** Some run ends a stream at the cap exactly when sessions live longer than 900 seconds. */
  lemma CapReachedExactlyByLongSessions(cfg: Config, ch: Challenge)
    ensures (exists steps, q :: Capped(cfg, steps, q)) <==> cfg.ttl > 900
  {
    if cfg.ttl > 900 {
      var s := ManyRounds(cfg, ch);
      var t := Move(cfg, s, MAX_STREAM, Looping);
      var steps :| Runs(cfg, START, steps) && Reached(cfg, steps) == t;
      assert Capped(cfg, steps, 0);
    }
    forall steps, q | Capped(cfg, steps, q)
      ensures cfg.ttl > 900
    {
      HardCapNeedsLongSessions(cfg, steps, q);
    }
  }
}
