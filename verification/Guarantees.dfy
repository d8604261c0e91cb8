/** What every run of the service guarantees to its users. */
module Guarantees {
  import opened Domain
  import opened Rounding
  import opened SessionStore
  import opened AtomicSession
  import opened StreamMachine
  import opened Registry
  import opened System
  import opened SystemInvariant
  import opened SystemProofs

  /** The state after a run of the service from its start. */
  function Reached(cfg: Config, steps: seq<Step>): Sys
    requires Runs(cfg, START, steps)
  {
    After(cfg, START, steps)
  }

  lemma ReachedOk(cfg: Config, steps: seq<Step>)
    requires Runs(cfg, START, steps)
    ensures Inv(cfg, Reached(cfg, steps))
  {
    InvAtStart(cfg);
    KeepRun(cfg, START, steps);
  }

  // ---- Linearizability ----

  /** Exactly one entry of the log is call c's, it carries c's response, and it was made while c was running. */
  ghost predicate AnsweredOnce(s: Sys, c: nat) {
    && c in s.calls && s.calls[c].pc.Replied?
    && LoggedAt(s.log, s.calls[c].pc.at, c, s.calls[c], s.calls[c].pc.response)
    && forall i :: 0 <= i < |s.log| && s.log[i].op.VerifyOp? && s.log[i].op.call == c ==> i == s.calls[c].pc.at
  }

  /**
   All responses and the store come out as if every create, verify, delete and lapse of time had
   happened in one instant, in the order of the log.
   */
  lemma Linearizable(cfg: Config, steps: seq<Step>)
    requires Runs(cfg, START, steps)
    ensures var s := Reached(cfg, steps);
      && Legal(cfg, s.log)
      && Represents(s.db, Replay(cfg, s.log))
      && (forall c :: c in s.calls && s.calls[c].pc.Replied? ==> AnsweredOnce(s, c))
      && (forall i :: 0 <= i < |s.log| && s.log[i].op.VerifyOp? ==> AnsweredOnce(s, s.log[i].op.call))
  {
    ReachedOk(cfg, steps);
    var s := Reached(cfg, steps);
    var o := Replay(cfg, s.log);
    forall c | c in s.calls && s.calls[c].pc.Replied?
      ensures AnsweredOnce(s, c)
    {
      assert CallOk(cfg, c, s.calls[c], o, s.log);
    }
  }

  predicate SameRequest(a: Call, b: Call) {
    a.sid == b.sid && a.request == b.request && a.begin == b.begin
  }

  /** t comes after s: the log is longer, replies stay, and new requests begin at or after the old end of the log. */
  ghost predicate Extends(s: Sys, t: Sys) {
    && s.log <= t.log
    && (forall c :: c in s.calls ==> c in t.calls && SameRequest(s.calls[c], t.calls[c]))
    && (forall c :: c in s.calls && s.calls[c].pc.Replied? ==> t.calls[c] == s.calls[c])
    && (forall c :: c in t.calls && c !in s.calls ==> |s.log| <= t.calls[c].begin)
  }

  lemma ReplyExtends(s: Sys, c: nat, answer: Answer, response: Response)
    requires c in s.calls && !s.calls[c].pc.Replied?
    ensures Extends(s, Reply(s, c, answer, response))
  {
  }

  lemma MoveExtends(s: Sys, c: nat, pc: CallPc)
    requires c in s.calls && !s.calls[c].pc.Replied?
    ensures Extends(s, MoveCall(s, c, pc))
  {
  }

  lemma ReadExtends(s: Sys, c: nat)
    requires c in s.calls && s.calls[c].pc.Reading?
    ensures Extends(s, DoRead(s, c)) && DoRead(s, c).streams == s.streams
  {
    var sid := s.calls[c].sid;
    if sid !in s.db {
      ReplyExtends(s, c, Unasked, NotFound);
    } else {
      match PhaseIn(s.db[sid].hash)
      case None => ReplyExtends(s, c, Crashed, Fault);
      case Some(WaitingForBob) => MoveExtends(s, c, Embedding(s.db[sid].hash));
      case Some(_) => ReplyExtends(s, c, Unasked, Completed);
    }
  }

  lemma EmbedExtends(cfg: Config, s: Sys, c: nat, embedding: Option<seq<real>>)
    requires c in s.calls && s.calls[c].pc.Embedding?
    ensures Extends(s, DoEmbed(cfg, s, c, embedding)) && DoEmbed(cfg, s, c, embedding).streams == s.streams
  {
    var t := DoEmbed(cfg, s, c, embedding);
    if t.calls[c].pc.Replied? {
      ReplyExtends(s, c, t.log[|s.log|].op.answer, t.calls[c].pc.response);
    } else {
      MoveExtends(s, c, t.calls[c].pc);
    }
  }

  lemma CallStepExtends(cfg: Config, s: Sys, step: Step)
    requires Enabled(s, step) && (step.ReadStep? || step.EmbedStep? || step.FinalizeStep?)
    ensures Extends(s, Do(cfg, s, step))
    ensures Do(cfg, s, step).streams == s.streams
  {
    match step
    case ReadStep(c) => ReadExtends(s, c);
    case EmbedStep(c, embedding) => EmbedExtends(cfg, s, c, embedding);
    case FinalizeStep(c, to) =>
      ReplyExtends(s, c, Vector(s.calls[c].pc.answer), DoFinalize(cfg, s, c, to).calls[c].pc.response);
  }

  lemma StepExtends(cfg: Config, s: Sys, step: Step)
    requires Enabled(s, step)
    ensures Extends(s, Do(cfg, s, step))
  {
    if step.ReadStep? || step.EmbedStep? || step.FinalizeStep? {
      CallStepExtends(cfg, s, step);
    }
  }

  lemma {:induction false} RunExtends(cfg: Config, s: Sys, steps: seq<Step>)
    requires Runs(cfg, s, steps)
    ensures Extends(s, After(cfg, s, steps))
    decreases |steps|
  {
    if steps != [] {
      var m := Do(cfg, s, steps[0]);
      StepExtends(cfg, s, steps[0]);
      RunExtends(cfg, m, steps[1..]);
      ExtendsTransitive(s, m, After(cfg, m, steps[1..]));
    }
  }

  lemma ExtendsTransitive(a: Sys, b: Sys, c: Sys)
    requires Extends(a, b) && Extends(b, c)
    ensures Extends(a, c)
  {
  }

  /** If call b came in after call a had been answered, then b's place in the order is after a's. */
  lemma RealTimeOrder(cfg: Config, before: seq<Step>, later: seq<Step>, a: nat, b: nat)
    requires Runs(cfg, START, before) && Runs(cfg, Reached(cfg, before), later)
    requires var s := Reached(cfg, before); a in s.calls && s.calls[a].pc.Replied? && b !in s.calls
    requires var t := After(cfg, Reached(cfg, before), later); b in t.calls && t.calls[b].pc.Replied?
    ensures var t := After(cfg, Reached(cfg, before), later);
      a in t.calls && t.calls[a].pc.Replied? && t.calls[a].pc.at < t.calls[b].pc.at
  {
    ReachedOk(cfg, before);
    var s := Reached(cfg, before);
    var t := After(cfg, s, later);
    KeepRun(cfg, s, later);
    RunExtends(cfg, s, later);
    assert CallOk(cfg, a, s.calls[a], Replay(cfg, s.log), s.log);
    assert CallOk(cfg, b, t.calls[b], Replay(cfg, t.log), t.log);
  }

  // ---- Agreement ----

  /** What a stream told Alice at the end. */
  predicate Told(st: Stream, e: Event) {
    |st.out| >= 3 && st.out[|st.out| - 1] == Data(e)
  }

  /** VERIFIED and FAILED come from the result of the session; EXPIRED says nothing about it. */
  lemma ToldTheResult(cfg: Config, s: Sys, q: nat, e: Event)
    requires Inv(cfg, s) && q in s.streams && Told(s.streams[q], e) && e != ExpiredEvent
    ensures var o := Replay(cfg, s.log); var st := s.streams[q];
      && Decided(o, st.sid)
      && (e == LiveEvent(Winner(o, st.sid)) || e == RebuiltEvent(Winner(o, st.sid)))
  {
    var o := Replay(cfg, s.log);
    var st := s.streams[q];
    assert StreamOk(st, o);
    ToldAtTheEnd(st, o, e);
    assert EndOk(st, o.sessions[st.sid]);
  }

  lemma ToldAtTheEnd(st: Stream, o: Object, e: Event)
    requires StreamOk(st, o)
    ensures Told(st, e) ==> st.pc.Ended? && !st.pc.exit.Aborted?
  {
    var ses := o.sessions[st.sid];
    if st.pc.Ended? {
      assert EndOk(st, ses);
    } else if InLoop(st) {
      assert InLoopOk(st, ses, o.now);
    }
  }

  /**
   One result per session: at most one call wins it, every stream that reports a result reports the
   winner's, with the winner's name and key, and a percentage at most one away from the winner's.
   */
  lemma Agreement(cfg: Config, steps: seq<Step>, q: nat, e: Event)
    requires Runs(cfg, START, steps)
    requires q in Reached(cfg, steps).streams && Told(Reached(cfg, steps).streams[q], e) && e != ExpiredEvent
    ensures var s := Reached(cfg, steps); var sid := s.streams[q].sid;
      exists c :: c in s.calls && s.calls[c].sid == sid && s.calls[c].pc.Replied? && Reports(e, s.calls[c])
  {
    ReachedOk(cfg, steps);
    var s := Reached(cfg, steps);
    var o := Replay(cfg, s.log);
    ToldTheResult(cfg, s, q, e);
    var w := Winner(o, s.streams[q].sid);
    RebuiltAgreesExactly(w.score);
    assert Reports(e, s.calls[w.call]);
  }

  /** e is the news of the result with which this call was answered. */
  predicate Reports(e: Event, call: Call) {
    && call.pc.Replied?
    && match e
       case VerifiedEvent(name, key, percent) =>
         && call.pc.response.Pass? && name == call.request.bobName && key == call.request.bobKey
         && -1 <= percent - call.pc.response.percent <= 1
       case FailedEvent(percent) =>
         call.pc.response.Fail? && -1 <= percent - call.pc.response.percent <= 1
       case _ => false
  }

  lemma OneWinner(cfg: Config, steps: seq<Step>, a: nat, b: nat)
    requires Runs(cfg, START, steps)
    requires var s := Reached(cfg, steps);
      && a in s.calls && b in s.calls && s.calls[a].sid == s.calls[b].sid
      && s.calls[a].pc.Replied? && s.calls[b].pc.Replied?
      && Won(s.calls[a].pc.response) && Won(s.calls[b].pc.response)
    ensures a == b
  {
    ReachedOk(cfg, steps);
    var s := Reached(cfg, steps);
    assert CallOk(cfg, a, s.calls[a], Replay(cfg, s.log), s.log);
    assert CallOk(cfg, b, s.calls[b], Replay(cfg, s.log), s.log);
  }

  /** No run shows a VERIFIED and a FAILED for one session, nor a VERIFIED next to a FAIL response. */
  lemma NoMixedVerdicts(cfg: Config, steps: seq<Step>, p: nat, e: Event, q: nat, f: Event, c: nat)
    requires Runs(cfg, START, steps)
    requires var s := Reached(cfg, steps);
      && p in s.streams && q in s.streams && s.streams[p].sid == s.streams[q].sid
      && Told(s.streams[p], e) && Told(s.streams[q], f) && e.VerifiedEvent? && !f.ExpiredEvent?
    ensures f.VerifiedEvent? && f.bobName == e.bobName && f.bobKey == e.bobKey && -1 <= e.score - f.score <= 1
    ensures var s := Reached(cfg, steps);
      c in s.calls && s.calls[c].sid == s.streams[p].sid && s.calls[c].pc.Replied? ==> !s.calls[c].pc.response.Fail?
  {
    ReachedOk(cfg, steps);
    var s := Reached(cfg, steps);
    var o := Replay(cfg, s.log);
    ToldTheResult(cfg, s, p, e);
    ToldTheResult(cfg, s, q, f);
    RebuiltAgreesExactly(Winner(o, s.streams[p].sid).score);
    if c in s.calls {
      assert CallOk(cfg, c, s.calls[c], o, s.log);
    }
  }

  /** Nor does any run show a FAILED next to a PASS response. */
  lemma NoFailedBesidePass(cfg: Config, steps: seq<Step>, q: nat, e: Event, c: nat)
    requires Runs(cfg, START, steps)
    requires q in Reached(cfg, steps).streams && Told(Reached(cfg, steps).streams[q], e) && e.FailedEvent?
    ensures var s := Reached(cfg, steps);
      c in s.calls && s.calls[c].sid == s.streams[q].sid && s.calls[c].pc.Replied? ==> !s.calls[c].pc.response.Pass?
  {
    Agreement(cfg, steps, q, e);
    var s := Reached(cfg, steps);
    var w :| w in s.calls && s.calls[w].sid == s.streams[q].sid && s.calls[w].pc.Replied? && Reports(e, s.calls[w]);
    if c in s.calls && s.calls[c].sid == s.streams[q].sid && s.calls[c].pc.Replied? && s.calls[c].pc.response.Pass? {
      OneWinner(cfg, steps, w, c);
    }
  }

  // ---- Streams ----

  /**
   Every output is a prefix of retry, CONNECTED, keepalives, one terminal event; a stream that ends by
   itself has reached the end of that pattern, and its end never contradicts the phase it began with.
   */
  lemma OutputLanguage(cfg: Config, steps: seq<Step>, q: nat)
    requires Runs(cfg, START, steps) && q in Reached(cfg, steps).streams
    ensures var st := Reached(cfg, steps).streams[q];
      if st.pc.Ended? && !st.pc.exit.Aborted? then
        exists k: nat, e :: Complete(st.out, st.phase, k, e) && !(st.phase.Verified? && e.FailedEvent?) && !(st.phase.Failed? && e.VerifiedEvent?)
      else
        st.out == [] || st.out == [Retry] || exists k: nat :: k <= MAX_KEEPALIVES && st.out == Idle(st.phase, k)
  {
    ReachedOk(cfg, steps);
    var s := Reached(cfg, steps);
    var o := Replay(cfg, s.log);
    var st := s.streams[q];
    assert StreamOk(st, o);
    var ses := o.sessions[st.sid];
    match st.pc
    case Ended(exit, at) =>
      assert EndOk(st, ses);
      if !exit.Aborted? {
        var e := st.out[|st.out| - 1].event;
        assert Complete(st.out, st.phase, |st.out| - 3, e);
        assert PhaseSeen(st.phase, ses);
      }
    case FirstChecking =>
      assert st.out == Idle(st.phase, 0);
    case Looping | Waiting | HeartbeatChecking =>
      assert InLoopOk(st, ses, o.now);
    case _ =>
  }

  /**
   No stream is left waiting, whatever the transport drops: 15 seconds after the end of a session, be it a
   result or its going, no stream still waits, and one opened after the end is told at once. What a stream
   is told then is the state of the session at that moment, so a result may have been outlived.
   */
  lemma NoLostResult(cfg: Config, steps: seq<Step>, q: nat)
    requires Runs(cfg, START, steps) && q in Reached(cfg, steps).streams
    ensures var s := Reached(cfg, steps); var st := s.streams[q];
      && st.sid in Replay(cfg, s.log).sessions
      && var end := Finish(Replay(cfg, s.log).sessions[st.sid]);
      end.Some? ==>
        && (!st.pc.Ended? ==> s.now <= end.value + 15.0 || s.now == st.openedAt)
        && (st.pc.Ended? && !st.pc.exit.Aborted? ==> st.pc.at <= end.value + 15.0 || st.pc.at == st.openedAt)
        && (end.value < st.openedAt ==> s.now == st.openedAt || (st.pc.Ended? && (st.pc.exit.ByFirstCheck? || st.pc.exit.Aborted?)))
  {
    ReachedOk(cfg, steps);
    var s := Reached(cfg, steps);
    var o := Replay(cfg, s.log);
    var st := s.streams[q];
    assert StreamOk(st, o);
    var ses := o.sessions[st.sid];
    if st.pc.Ended? {
      assert EndOk(st, ses);
    } else if InLoop(st) {
      assert InLoopOk(st, ses, o.now);
    }
  }

  /** What a stream tells at the end is the state of the session; EXPIRED before the cap means gone. */
  lemma EndTellsTheTruth(cfg: Config, steps: seq<Step>, q: nat)
    requires Runs(cfg, START, steps) && q in Reached(cfg, steps).streams
    requires var st := Reached(cfg, steps).streams[q]; st.pc.Ended? && !st.pc.exit.Aborted? && !st.pc.exit.ByHardCap?
    ensures var s := Reached(cfg, steps); var st := s.streams[q]; var o := Replay(cfg, s.log);
      && st.sid in o.sessions
      && if Told(st, ExpiredEvent) then o.sessions[st.sid].goneAt.Some? && o.sessions[st.sid].goneAt.value <= st.pc.at
         else Decided(o, st.sid) && Winner(o, st.sid).at <= st.pc.at
  {
    ReachedOk(cfg, steps);
    var s := Reached(cfg, steps);
    var o := Replay(cfg, s.log);
    assert StreamOk(s.streams[q], o);
    assert EndOk(s.streams[q], o.sessions[s.streams[q].sid]);
  }

  /**
   A stream is told EXPIRED of a session that has a result only if the session was gone within 15 seconds of
   that result, or before the stream was opened.
   */
  lemma ResultOutlived(cfg: Config, steps: seq<Step>, q: nat)
    requires Runs(cfg, START, steps) && q in Reached(cfg, steps).streams
    requires var st := Reached(cfg, steps).streams[q];
      st.pc.Ended? && !st.pc.exit.Aborted? && !st.pc.exit.ByHardCap? && Told(st, ExpiredEvent)
    ensures var s := Reached(cfg, steps); var st := s.streams[q]; var o := Replay(cfg, s.log);
      && st.sid in o.sessions && o.sessions[st.sid].goneAt.Some?
      && (Decided(o, st.sid) ==>
            var gone := o.sessions[st.sid].goneAt.value;
            gone <= Winner(o, st.sid).at + 15.0 || gone <= st.openedAt)
  {
    ReachedOk(cfg, steps);
    var s := Reached(cfg, steps);
    var o := Replay(cfg, s.log);
    assert StreamOk(s.streams[q], o);
    assert EndOk(s.streams[q], o.sessions[s.streams[q].sid]);
  }

  // ---- Termination ----

  /** No stream is open 15 minutes after it was opened, and none sends more than 60 keepalives. */
  lemma StreamsMeetTheCap(cfg: Config, steps: seq<Step>, q: nat)
    requires Runs(cfg, START, steps) && q in Reached(cfg, steps).streams
    ensures var s := Reached(cfg, steps); var st := s.streams[q];
      && (st.openedAt + 900.0 < s.now ==> st.pc.Ended?)
      && |st.out| <= 2 + 60 + 1
  {
    OutputLanguage(cfg, steps, q);
    ReachedOk(cfg, steps);
    var s := Reached(cfg, steps);
    var o := Replay(cfg, s.log);
    var st := s.streams[q];
    assert StreamOk(st, o);
    if InLoop(st) {
      assert InLoopOk(st, o.sessions[st.sid], o.now);
    }
  }

  /** The hard cap is an exit only for sessions that live longer than a stream may. */
  lemma HardCapNeedsLongSessions(cfg: Config, steps: seq<Step>, q: nat)
    requires Runs(cfg, START, steps) && q in Reached(cfg, steps).streams
    requires Reached(cfg, steps).streams[q].pc.Ended? && Reached(cfg, steps).streams[q].pc.exit.ByHardCap?
    ensures cfg.ttl > 900
  {
    ReachedOk(cfg, steps);
    var s := Reached(cfg, steps);
    var o := Replay(cfg, s.log);
    var st := s.streams[q];
    assert StreamOk(st, o);
    var ses := o.sessions[st.sid];
    assert EndOk(st, ses);
    assert SessionOk(cfg, ses, o.now);
    assert cfg.ttl as real > 900.0;
  }

  lemma RankOfAdvance(st: Stream, flights: multiset<Flight>, o: Object, check: Check)
    requires StreamOk(st, o) && QueueOk(st, flights, o)
    ensures Rank(st) <= 400 && (Rank(st) <= 0 <==> st.pc.Ended?)
    ensures CanAdvance(st, o.now) ==> Rank(Advance(st, o.now, check)) < Rank(st)
    ensures CanAbort(st) ==> Rank(StreamMachine.Abort(st, o.now)) < Rank(st)
  {
    if InLoop(st) {
      assert InLoopOk(st, o.sessions[st.sid], o.now);
    }
  }

  /** A stream's own move changes that stream and its hub. */
  lemma OwnMove(cfg: Config, s: Sys, q: nat)
    requires Enabled(s, StreamStep(q))
    ensures var t := Do(cfg, s, StreamStep(q));
      t == s.(streams := s.streams[q := Advance(s.streams[q], s.now, TerminalEvent(s.db, s.streams[q].sid))], hubs := t.hubs)
  {
  }

  /** A stream is moved by its own steps only; a delivery may fill its queue. */
  lemma OtherStepsKeepStream(cfg: Config, s: Sys, step: Step, q: nat)
    requires Enabled(s, step) && q in s.streams && step != StreamStep(q) && step != AbortStep(q)
    ensures var t := Do(cfg, s, step);
      && q in t.streams && t.streams[q] == s.streams[q].(queue := t.streams[q].queue)
      && (!step.DeliverStep? ==> t.streams[q] == s.streams[q])
  {
    if step.ReadStep? || step.EmbedStep? || step.FinalizeStep? {
      CallStepExtends(cfg, s, step);
    }
  }

  /** A step of a stream brings that stream closer to its end; all other steps leave it where it is. */
  lemma RankCountsDown(cfg: Config, s: Sys, step: Step, q: nat)
    requires Inv(cfg, s) && Enabled(s, step) && q in s.streams
    ensures var t := Do(cfg, s, step);
      && q in t.streams
      && Rank(s.streams[q]) <= 400
      && (Rank(s.streams[q]) <= 0 <==> s.streams[q].pc.Ended?)
      && if step == StreamStep(q) || step == AbortStep(q) then Rank(t.streams[q]) < Rank(s.streams[q])
         else Rank(t.streams[q]) == Rank(s.streams[q])
  {
    var o := Replay(cfg, s.log);
    var st := s.streams[q];
    assert StreamOk(st, o) && QueueOk(st, s.flights, o);
    RankOfAdvance(st, s.flights, o, TerminalEvent(s.db, st.sid));
    if step != StreamStep(q) && step != AbortStep(q) {
      OtherStepsKeepStream(cfg, s, step, q);
    }
  }

  function OwnSteps(steps: seq<Step>, q: nat): nat {
    if steps == [] then 0 else (if steps[0] == StreamStep(q) then 1 else 0) + OwnSteps(steps[1..], q)
  }

  /** In any continuation a stream makes at most Rank more moves, at most 400 in its life. */
  lemma {:induction false} OwnStepsBounded(cfg: Config, s: Sys, steps: seq<Step>, q: nat)
    requires Inv(cfg, s) && Runs(cfg, s, steps) && q in s.streams
    ensures OwnSteps(steps, q) <= Rank(s.streams[q]) <= 400
    decreases |steps|
  {
    var o := Replay(cfg, s.log);
    assert StreamOk(s.streams[q], o) && QueueOk(s.streams[q], s.flights, o);
    RankOfAdvance(s.streams[q], s.flights, o, StillWaiting);
    if steps != [] {
      RankCountsDown(cfg, s, steps[0], q);
      KeepStep(cfg, s, steps[0]);
      OwnStepsBounded(cfg, Do(cfg, s, steps[0]), steps[1..], q);
    }
  }

  /** The first instant at which one of the waiting streams has to wake. */
  lemma FirstWake(streams: map<nat, Stream>, qs: set<nat>, now: real) returns (q: nat)
    requires qs != {} && qs <= streams.Keys
    ensures q in qs && forall p :: p in qs ==> streams[q].waitStart <= streams[p].waitStart
  {
    q :| q in qs;
    var rest := qs - {q};
    while rest != {}
      invariant q in qs && rest <= qs
      invariant forall p :: p in qs - rest ==> streams[q].waitStart <= streams[p].waitStart
      decreases |rest|
    {
      var p :| p in rest;
      if streams[p].waitStart < streams[q].waitStart {
        q := p;
      }
      rest := rest - {p};
    }
  }

  /** While a stream is open, some stream can move, either now or after a lapse of time that is allowed now. */
  lemma NeverStuck(cfg: Config, s: Sys, open: nat)
    requires Inv(cfg, s) && open in s.streams && !s.streams[open].pc.Ended?
    ensures exists q :: Enabled(s, StreamStep(q)) || exists d: real :: TimeMayPass(s, d) && Enabled(Do(cfg, s, TimeStep(d)), StreamStep(q))
  {
    var o := Replay(cfg, s.log);
    if !exists q :: q in s.streams && CanAdvance(s.streams[q], s.now) {
      var qs := set q | q in s.streams && !s.streams[q].pc.Ended?;
      assert open in qs;
      forall q | q in qs
        ensures s.streams[q].pc.Waiting? && s.streams[q].queue == [] && s.now < s.streams[q].waitStart + HEARTBEAT
      {
        assert !CanAdvance(s.streams[q], s.now);
      }
      var q := FirstWake(s.streams, qs, s.now);
      var d := s.streams[q].waitStart + HEARTBEAT - s.now;
      assert TimeMayPass(s, d);
      assert Enabled(Do(cfg, s, TimeStep(d)), StreamStep(q));
    } else {
      var q :| q in s.streams && CanAdvance(s.streams[q], s.now);
      assert Enabled(s, StreamStep(q));
    }
  }

  // ---- Hubs and queues ----

  /** When a message arrives for a queue, the queue is empty: put_nowait never finds it full. */
  lemma QueueNeverFull(cfg: Config, steps: seq<Step>, f: Flight, q: nat)
    requires Runs(cfg, START, steps)
    ensures var s := Reached(cfg, steps);
      && (f in s.flights && q in Listeners(Hub(s.hubs, f.worker), f.sid) ==> q in s.streams && s.streams[q].queue == [])
      && (q in s.streams ==> |s.streams[q].queue| <= 1 && forall e :: e in s.streams[q].queue ==> IsTerminal(e))
  {
    ReachedOk(cfg, steps);
    var s := Reached(cfg, steps);
    var o := Replay(cfg, s.log);
    if f in s.flights && q in Listeners(Hub(s.hubs, f.worker), f.sid) {
      DeliveryFindsRoom(s, o, f, q);
    }
    if q in s.streams {
      assert QueueOk(s.streams[q], s.flights, o);
    }
  }

  lemma NoNewsBefore(s: Sys, o: Object, sid: SessionId, worker: nat)
    requires FlightsOk(s.flights, o) && !Decided(o, sid)
    ensures forall e :: Flight(worker, sid, e) !in s.flights
  {
  }

  lemma BroadcastReaches(to: set<nat>, sid: SessionId, e: Event, worker: nat)
    ensures Flight(worker, sid, e) in Broadcast(to, sid, Some(e)) <==> worker in to
  {
  }

  /** The news of call c, if it has won in state t, is under way to the worker. */
  ghost predicate Announced(t: Sys, p: Object, c: nat, sid: SessionId, worker: nat) {
    && Decided(p, sid) && Winner(p, sid).call == c
    && Flight(worker, sid, LiveEvent(Winner(p, sid))) in t.flights
  }

  /** The news of a new result are found among the messages afterwards, for the workers in `to`. */
  lemma NewsAmong(flights: multiset<Flight>, to: set<nat>, sid: SessionId, e: Event, worker: nat)
    requires Flight(worker, sid, e) !in flights
    ensures Flight(worker, sid, e) in flights + Broadcast(to, sid, Some(e)) <==> worker in to
  {
    BroadcastReaches(to, sid, e, worker);
  }

  lemma LateScriptIsSilent(cfg: Config, s: Sys, o: Object, c: nat, to: set<nat>)
    requires c in s.calls && s.calls[c].pc.Finalizing?
    requires Represents(s.db, o) && CallOk(cfg, c, s.calls[c], o, s.log) && s.now == o.now
    requires Gone(o, s.calls[c].sid) || o.sessions[s.calls[c].sid].outcome.Some?
    ensures var call := s.calls[c]; var t := DoFinalize(cfg, s, c, to);
      var response := ApplyVerify(cfg, o, c, call.sid, call.request, Vector(call.pc.answer)).1;
      && t.calls[c].pc.Replied? && t.calls[c].pc.response == response && !Won(response)
      && t.flights == s.flights && t.db == s.db
  {
    var call := s.calls[c];
    FinalizeComputes(cfg, s, o, c, to);
    assert DoFinalize(cfg, s, c, to)
      == Reply(s, c, Vector(call.pc.answer), ApplyVerify(cfg, o, c, call.sid, call.request, Vector(call.pc.answer)).1);
  }

  lemma FirstScriptAnnounces(cfg: Config, s: Sys, o: Object, c: nat, to: set<nat>, worker: nat)
    requires c in s.calls && s.calls[c].pc.Finalizing?
    requires Represents(s.db, o) && FlightsOk(s.flights, o) && CallOk(cfg, c, s.calls[c], o, s.log) && s.now == o.now
    requires !Gone(o, s.calls[c].sid) && o.sessions[s.calls[c].sid].outcome.None?
    ensures var call := s.calls[c]; var t := DoFinalize(cfg, s, c, to);
      var (p, response) := ApplyVerify(cfg, o, c, call.sid, call.request, Vector(call.pc.answer));
      && t.calls[c].pc.Replied? && t.calls[c].pc.response == response && Won(response)
      && (Announced(t, p, c, call.sid, worker) <==> worker in to)
  {
    var call := s.calls[c];
    var p := ApplyVerify(cfg, o, c, call.sid, call.request, Vector(call.pc.answer)).0;
    FinalizeComputes(cfg, s, o, c, to);
    var news := LiveEvent(Winner(p, call.sid));
    assert Winner(p, call.sid).call == c;
    assert DoFinalize(cfg, s, c, to).flights == s.flights + Broadcast(to, call.sid, Some(news));
    NoNewsBefore(s, o, call.sid, worker);
    NewsAmong(s.flights, to, call.sid, news, worker);
  }

  lemma ScriptAnnounces(cfg: Config, s: Sys, o: Object, c: nat, to: set<nat>, worker: nat)
    requires c in s.calls && s.calls[c].pc.Finalizing?
    requires Represents(s.db, o) && FlightsOk(s.flights, o) && CallOk(cfg, c, s.calls[c], o, s.log) && s.now == o.now
    ensures var call := s.calls[c];
      var (p, response) := ApplyVerify(cfg, o, c, call.sid, call.request, Vector(call.pc.answer));
      var t := DoFinalize(cfg, s, c, to);
      && t.calls[c].pc.Replied? && t.calls[c].pc.response == response
      && if Won(response) then Announced(t, p, c, call.sid, worker) <==> worker in to
         else t.flights == s.flights && t.db == s.db
  {
    if Gone(o, s.calls[c].sid) || o.sessions[s.calls[c].sid].outcome.Some? {
      LateScriptIsSilent(cfg, s, o, c, to);
    } else {
      FirstScriptAnnounces(cfg, s, o, c, to, worker);
    }
  }

  /** The call that wins sends its news to exactly the workers that the transport does not miss; no other call sends anything. */
  lemma WinIsAnnounced(cfg: Config, steps: seq<Step>, c: nat, to: set<nat>, worker: nat)
    requires Runs(cfg, START, steps) && Enabled(Reached(cfg, steps), FinalizeStep(c, to))
    ensures var s := Reached(cfg, steps); var t := Do(cfg, s, FinalizeStep(c, to));
      && t.calls[c].pc.Replied?
      && if Won(t.calls[c].pc.response) then Announced(t, Replay(cfg, t.log), c, s.calls[c].sid, worker) <==> worker in to
         else t.flights == s.flights && t.db == s.db
  {
    ReachedOk(cfg, steps);
    var s := Reached(cfg, steps);
    var call := s.calls[c];
    assert CallOk(cfg, c, call, Replay(cfg, s.log), s.log);
    ScriptAnnounces(cfg, s, Replay(cfg, s.log), c, to, worker);
    var response := DoFinalize(cfg, s, c, to).calls[c].pc.response;
    ReplayOneMore(cfg, s.log, LogEntry(VerifyOp(c, call.sid, call.request, Vector(call.pc.answer)), response));
  }

  /** Subscribed on the worker, for the session, of the message. */
  predicate Addressed(st: Stream, f: Flight) {
    st.worker == f.worker && st.sid == f.sid && Subscribed(st)
  }

  lemma DeliveredTo(s: Sys, o: Object, f: Flight, q: nat)
    requires HubsOk(s.hubs, s.streams) && FlightsOk(s.flights, o) && QueuesOk(s.streams, s.flights, o)
    requires f in s.flights && q in s.streams
    ensures q in DoDeliver(s, f).streams
    ensures DoDeliver(s, f).streams[q] == if Addressed(s.streams[q], f) then s.streams[q].(queue := [f.event]) else s.streams[q]
    ensures IsTerminal(f.event)
  {
    assert q in Listeners(Hub(s.hubs, f.worker), f.sid) <==> Addressed(s.streams[q], f);
    if Addressed(s.streams[q], f) {
      DeliveryFindsRoom(s, o, f, q);
    }
  }

  /** With the news in its queue a waiting stream can go on at once, and its move tells the news and ends it. */
  lemma NewsEndsTheWait(cfg: Config, t: Sys, q: nat, e: Event)
    requires q in t.streams && t.streams[q].pc.Waiting? && t.streams[q].queue == [e] && IsTerminal(e)
    ensures Enabled(t, StreamStep(q))
    ensures var u := Do(cfg, t, StreamStep(q)).streams[q];
      u.out == t.streams[q].out + [Data(e)] && u.pc == Ended(ByMessage, t.now)
  {
  }

  ghost predicate Prompt(cfg: Config, s: Sys, f: Flight, q: nat)
    requires f in s.flights && q in s.streams
  {
    var st := s.streams[q];
    var t := Do(cfg, s, DeliverStep(f));
    && q in t.streams
    && if Addressed(st, f) then
         && t.streams[q] == st.(queue := [f.event])
         && (st.pc.Waiting? ==>
               && Enabled(t, StreamStep(q))
               && var u := Do(cfg, t, StreamStep(q)).streams[q];
               u.out == st.out + [Data(f.event)] && u.pc == Ended(ByMessage, s.now))
       else t.streams[q] == st
  }

  lemma PromptNow(cfg: Config, s: Sys, o: Object, f: Flight, q: nat)
    requires HubsOk(s.hubs, s.streams) && FlightsOk(s.flights, o) && QueuesOk(s.streams, s.flights, o)
    requires f in s.flights && q in s.streams
    ensures Prompt(cfg, s, f, q)
  {
    DeliveredTo(s, o, f, q);
    if Addressed(s.streams[q], f) && s.streams[q].pc.Waiting? {
      NewsEndsTheWait(cfg, DoDeliver(s, f), q, f.event);
    }
  }

  /**
   A delivered message reaches exactly the streams of its session that are subscribed on that worker, and
   one that waits in q.get can then tell it and end without any time passing.
   */
  lemma PromptDelivery(cfg: Config, steps: seq<Step>, f: Flight, q: nat)
    requires Runs(cfg, START, steps)
    requires f in Reached(cfg, steps).flights && q in Reached(cfg, steps).streams
    ensures Prompt(cfg, Reached(cfg, steps), f, q)
  {
    ReachedOk(cfg, steps);
    var s := Reached(cfg, steps);
    PromptNow(cfg, s, Replay(cfg, s.log), f, q);
  }

  /** A message, in flight or queued, tells of a result that the hash already held, unless the hash is gone. */
  lemma Causality(cfg: Config, steps: seq<Step>, f: Flight, q: nat)
    requires Runs(cfg, START, steps)
    ensures var s := Reached(cfg, steps);
      && (f in s.flights ==> TellsOf(s.db, f.sid, f.event))
      && (q in s.streams && s.streams[q].queue != [] ==> TellsOf(s.db, s.streams[q].sid, s.streams[q].queue[0]))
  {
    ReachedOk(cfg, steps);
    var s := Reached(cfg, steps);
    var o := Replay(cfg, s.log);
    if f in s.flights {
      AnnouncedIsStored(s.db, o, f.sid);
    }
    if q in s.streams && s.streams[q].queue != [] {
      assert QueueOk(s.streams[q], s.flights, o);
      AnnouncedIsStored(s.db, o, s.streams[q].sid);
    }
  }

  /** The session is gone, or its hash rebuilds the event e up to one in the percentage. */
  predicate TellsOf(db: Db, sid: SessionId, e: Event) {
    sid in db ==>
      match (TerminalEvent(db, sid), e)
      case (Found(VerifiedEvent(n, k, p)), VerifiedEvent(m, j, r)) => n == m && k == j && -1 <= p - r <= 1
      case (Found(FailedEvent(p)), FailedEvent(r)) => -1 <= p - r <= 1
      case _ => false
  }

  lemma AnnouncedIsStored(db: Db, o: Object, sid: SessionId)
    requires Represents(db, o) && Decided(o, sid)
    ensures TellsOf(db, sid, LiveEvent(Winner(o, sid)))
  {
    TerminalEventOf(db, o, sid);
    RebuiltAgreesExactly(Winner(o, sid).score);
  }

  /** Once every stream has ended, by return, exception or disconnect, no hub holds anything. */
  lemma HubsEmptyAtTheEnd(cfg: Config, steps: seq<Step>, worker: nat)
    requires Runs(cfg, START, steps)
    requires forall q :: q in Reached(cfg, steps).streams ==> Reached(cfg, steps).streams[q].pc.Ended?
    ensures Hub(Reached(cfg, steps).hubs, worker) == map[]
  {
    ReachedOk(cfg, steps);
    var s := Reached(cfg, steps);
    forall sid, q
      ensures q !in Listeners(Hub(s.hubs, worker), sid)
    {
      assert q in Listeners(Hub(s.hubs, worker), sid) ==> q in s.streams && Subscribed(s.streams[q]);
    }
    EmptyWhenNoPairs(Hub(s.hubs, worker));
  }

  // ---- Observations only move forward ----

  lemma StepForward(cfg: Config, s: Sys, step: Step)
    requires Inv(cfg, s) && Enabled(s, step)
    ensures Forward(Replay(cfg, s.log), Replay(cfg, Do(cfg, s, step).log))
  {
    var t := Do(cfg, s, step);
    KeepStep(cfg, s, step);
    if t.log != s.log {
      var e :| t.log == s.log + [e] && Sane(e.op) && e.response == Apply(cfg, Replay(cfg, s.log), e.op).1;
      ReplayOneMore(cfg, s.log, e);
      ApplyForward(cfg, Replay(cfg, s.log), e.op);
    }
  }

  lemma {:induction false} RunForward(cfg: Config, s: Sys, steps: seq<Step>)
    requires Inv(cfg, s) && Runs(cfg, s, steps)
    ensures Forward(Replay(cfg, s.log), Replay(cfg, After(cfg, s, steps).log))
    decreases |steps|
  {
    if steps != [] {
      var t := Do(cfg, s, steps[0]);
      KeepStep(cfg, s, steps[0]);
      StepForward(cfg, s, steps[0]);
      RunForward(cfg, t, steps[1..]);
      ForwardTransitive(Replay(cfg, s.log), Replay(cfg, t.log), Replay(cfg, After(cfg, s, steps).log));
    }
  }

  lemma ForwardTransitive(a: Object, b: Object, c: Object)
    requires Forward(a, b) && Forward(b, c)
    ensures Forward(a, c)
  {
    forall sid | sid in a.sessions
      ensures sid in c.sessions && Later(a.sessions[sid], c.sessions[sid], a.now)
    {
      assert Later(a.sessions[sid], b.sessions[sid], a.now);
      assert Later(b.sessions[sid], c.sessions[sid], b.now);
    }
  }

  /**
   Between any two reads of a created session the phase stays, or leaves WAITING_FOR_BOB, or is gone for
   good; the embedding, Alice's key and the expiry instant never change while the session is there.
   */
  lemma ReadsMoveForward(cfg: Config, before: seq<Step>, later: seq<Step>, sid: SessionId)
    requires Runs(cfg, START, before) && Runs(cfg, Reached(cfg, before), later)
    requires sid in Reached(cfg, before).used
    ensures var db := Reached(cfg, before).db; var db' := After(cfg, Reached(cfg, before), later).db;
      && (GetPhase(db', sid) in {GetPhase(db, sid), None} || GetPhase(db, sid) == Some(WaitingForBob))
      && (sid !in db ==> sid !in db')
      && (sid in db && sid in db' ==>
            && HGet(db', sid, AnswerEmbedding) == HGet(db, sid, AnswerEmbedding) != None
            && HGet(db', sid, AlicePubkey) == HGet(db, sid, AlicePubkey) != None
            && db'[sid].expiresAt == db[sid].expiresAt != None)
  {
    ReachedOk(cfg, before);
    var s := Reached(cfg, before);
    var t := After(cfg, s, later);
    KeepRun(cfg, s, later);
    RunForward(cfg, s, later);
    var o, p := Replay(cfg, s.log), Replay(cfg, t.log);
    if sid in t.db {
      HashKeeps(o.sessions[sid]);
      HashKeeps(p.sessions[sid]);
      PhaseOf(o.sessions[sid]);
      PhaseOf(p.sessions[sid]);
    } else if sid in s.db {
      PhaseOf(o.sessions[sid]);
    }
  }

  lemma HashKeeps(ses: Session)
    ensures var h := HashOf(ses);
      && AnswerEmbedding in h && h[AnswerEmbedding] == VectorJson(ses.challenge.vector)
      && AlicePubkey in h && h[AlicePubkey] == KeyJson(ses.challenge.aliceKey)
  {
    if ses.outcome.Some? {
      var w := ses.outcome.value;
      var m := UpdatedFields(w.request, w.score, w.passed);
    }
  }

  /** The fields that each phase comes with; the stored score sits on its side of the threshold. */
  predicate WellShaped(cfg: Config, h: Hash) {
    && PhaseField in h && BobName in h && BobPubkey in h && SimilarityScore in h
    && match h[PhaseField]
       case PhaseName(WaitingForBob) => h[BobName] == h[BobPubkey] == h[SimilarityScore] == Str("")
       case PhaseName(Verified) =>
         h[BobName].Str? && h[BobPubkey].KeyJson? && h[SimilarityScore].Decimal?
         && h[SimilarityScore].tenThousandths >= Stored(cfg.threshold)
       case PhaseName(Failed) =>
         h[BobName] == h[BobPubkey] == Str("") && h[SimilarityScore].Decimal?
         && h[SimilarityScore].tenThousandths <= Stored(cfg.threshold)
       case _ => false
  }

  lemma HashWellShaped(cfg: Config, ses: Session)
    requires ses.outcome.Some? ==> (ses.outcome.value.passed <==> ses.outcome.value.score >= cfg.threshold)
    ensures WellShaped(cfg, HashOf(ses))
  {
    if ses.outcome.Some? {
      var w := ses.outcome.value;
      var m := UpdatedFields(w.request, w.score, w.passed);
      assert HashOf(ses) == NewHash(ses.challenge, ses.createdAt) + m;
      if w.passed {
        RoundMonotone(cfg.threshold * 10000.0, w.score * 10000.0);
      } else {
        RoundMonotone(w.score * 10000.0, cfg.threshold * 10000.0);
      }
    }
  }

  /** Every stored session is well shaped, terminal_event never raises on it, and it has not outlived its expiry. */
  lemma StoreShape(cfg: Config, steps: seq<Step>, sid: SessionId)
    requires Runs(cfg, START, steps) && sid in Reached(cfg, steps).db
    ensures var s := Reached(cfg, steps);
      && s.db[sid].expiresAt.Some? && s.now < s.db[sid].expiresAt.value
      && !TerminalEvent(s.db, sid).Raised?
      && WellShaped(cfg, s.db[sid].hash)
  {
    ReachedOk(cfg, steps);
    var s := Reached(cfg, steps);
    var o := Replay(cfg, s.log);
    assert SessionOk(cfg, o.sessions[sid], o.now);
    TerminalEventOf(s.db, o, sid);
    HashWellShaped(cfg, o.sessions[sid]);
  }
}
