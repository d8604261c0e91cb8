/**
 Why a stream subscribes before it checks: what happens before the check is told by the check, and what
 happens after it is in the queue or on its way there. No result falls between the two.
 */
module Delivery {
  import opened Domain
  import opened SessionStore
  import opened AtomicSession
  import opened StreamMachine
  import opened System
  import opened SystemInvariant
  import opened SystemProofs
  import opened Guarantees

  // ---- Up to the check ----

  predicate BeforeCheck(pc: Pc) {
    pc.Subscribing? || pc.Retrying? || pc.Connecting? || pc.FirstChecking?
  }

  /** The session has a result, or is gone. */
  ghost predicate Over(o: Object, sid: SessionId) {
    sid in o.sessions && Finish(o.sessions[sid]).Some?
  }

  /** On the way to the first check, or ended by it, or by the client's going away. */
  predicate EndsAtFirstCheck(pc: Pc) {
    BeforeCheck(pc) || (pc.Ended? && (pc.exit.ByFirstCheck? || pc.exit.Aborted?))
  }

  /** What a check that finds the session over, or any move before it, makes of a stream. */
  lemma MoveToFirstCheck(st: Stream, now: real, check: Check)
    requires EndsAtFirstCheck(st.pc) && check != StillWaiting
    ensures EndsAtFirstCheck(Advance(st, now, check).pc) && Advance(st, now, check).sid == st.sid
  {
  }

  lemma StreamToFirstCheck(cfg: Config, s: Sys, step: Step, q: nat)
    requires Enabled(s, step) && q in s.streams && EndsAtFirstCheck(s.streams[q].pc)
    requires TerminalEvent(s.db, s.streams[q].sid) != StillWaiting
    ensures var t := Do(cfg, s, step);
      q in t.streams && EndsAtFirstCheck(t.streams[q].pc) && t.streams[q].sid == s.streams[q].sid
  {
    if step == StreamStep(q) {
      OwnMove(cfg, s, q);
      MoveToFirstCheck(s.streams[q], s.now, TerminalEvent(s.db, s.streams[q].sid));
    } else if step != AbortStep(q) {
      OtherStepsKeepStream(cfg, s, step, q);
    }
  }

  lemma StaysOver(o: Object, p: Object, sid: SessionId)
    requires Over(o, sid) && Forward(o, p)
    ensures Over(p, sid)
  {
    FinishStable(o.sessions[sid], p.sessions[sid], o.now);
  }

  lemma StepToFirstCheck(cfg: Config, s: Sys, step: Step, q: nat)
    requires Inv(cfg, s) && Enabled(s, step) && q in s.streams
    requires EndsAtFirstCheck(s.streams[q].pc) && Over(Replay(cfg, s.log), s.streams[q].sid)
    ensures var t := Do(cfg, s, step);
      q in t.streams && EndsAtFirstCheck(t.streams[q].pc) && t.streams[q].sid == s.streams[q].sid
      && Over(Replay(cfg, t.log), s.streams[q].sid)
  {
    StepForward(cfg, s, step);
    StaysOver(Replay(cfg, s.log), Replay(cfg, Do(cfg, s, step).log), s.streams[q].sid);
    TerminalEventOf(s.db, Replay(cfg, s.log), s.streams[q].sid);
    StreamToFirstCheck(cfg, s, step, q);
  }

  lemma {:induction false} RunToFirstCheck(cfg: Config, s: Sys, steps: seq<Step>, q: nat)
    requires Inv(cfg, s) && Runs(cfg, s, steps) && q in s.streams
    requires EndsAtFirstCheck(s.streams[q].pc) && Over(Replay(cfg, s.log), s.streams[q].sid)
    ensures var t := After(cfg, s, steps); q in t.streams && EndsAtFirstCheck(t.streams[q].pc)
    decreases |steps|
  {
    if steps != [] {
      StepToFirstCheck(cfg, s, steps[0], q);
      KeepStep(cfg, s, steps[0]);
      RunToFirstCheck(cfg, Do(cfg, s, steps[0]), steps[1..], q);
    }
  }

  /**
   A session that is over before a stream's first check, be it before the stream was opened or in the gap
   after it subscribed, is told by that check, whatever happens later: the stream never waits.
   */
  lemma ToldAtFirstCheck(cfg: Config, before: seq<Step>, later: seq<Step>, q: nat)
    requires Runs(cfg, START, before) && Runs(cfg, Reached(cfg, before), later)
    requires var s := Reached(cfg, before);
      q in s.streams && BeforeCheck(s.streams[q].pc) && Over(Replay(cfg, s.log), s.streams[q].sid)
    ensures var t := After(cfg, Reached(cfg, before), later); q in t.streams && EndsAtFirstCheck(t.streams[q].pc)
  {
    ReachedOk(cfg, before);
    RunToFirstCheck(cfg, Reached(cfg, before), later, q);
  }

  // ---- From the check on ----

  /** The transport does not fail this worker in this step. */
  predicate Reliable(step: Step, worker: nat) {
    match step
    case FinalizeStep(_, to) => worker in to
    case LoseStep(f) => f.worker != worker
    case _ => true
  }

  /** If the stream is past its check, on this worker, and its session has a result, that result is at hand. */
  ghost predicate HasNews(st: Stream, flights: multiset<Flight>, o: Object, worker: nat) {
    st.worker == worker && InLoop(st) && Decided(o, st.sid) ==>
      var news := LiveEvent(Winner(o, st.sid));
      st.queue == [news] || Flight(worker, st.sid, news) in flights
  }

  ghost predicate NewsAtHand(s: Sys, o: Object, q: nat, worker: nat) {
    q in s.streams ==> HasNews(s.streams[q], s.flights, o, worker)
  }

  /** The check lets a stream into the loop only while there is no result, and q.get leaves no message behind. */
  lemma MoveKeepsNews(st: Stream, flights: multiset<Flight>, now: real, o: Object, check: Check, worker: nat)
    requires HasNews(st, flights, o, worker) && QueueOk(st, flights, o) && CanAdvance(st, now)
    requires Decided(o, st.sid) ==> check != StillWaiting
    ensures HasNews(Advance(st, now, check), flights, o, worker)
  {
  }

  lemma OwnMoveKeepsNews(cfg: Config, s: Sys, q: nat, worker: nat)
    requires Inv(cfg, s) && Enabled(s, StreamStep(q)) && NewsAtHand(s, Replay(cfg, s.log), q, worker)
    ensures var t := Do(cfg, s, StreamStep(q)); NewsAtHand(t, Replay(cfg, t.log), q, worker)
  {
    var o, st := Replay(cfg, s.log), s.streams[q];
    TerminalEventOf(s.db, o, st.sid);
    assert QueueOk(st, s.flights, o);
    OwnMove(cfg, s, q);
    MoveKeepsNews(st, s.flights, s.now, o, TerminalEvent(s.db, st.sid), worker);
  }

  /** A delivery puts the message where the stream will look for it. */
  lemma DeliveryKeepsNews(cfg: Config, s: Sys, f: Flight, q: nat, worker: nat)
    requires Inv(cfg, s) && Enabled(s, DeliverStep(f)) && NewsAtHand(s, Replay(cfg, s.log), q, worker)
    ensures NewsAtHand(Do(cfg, s, DeliverStep(f)), Replay(cfg, s.log), q, worker)
  {
    var o := Replay(cfg, s.log);
    if q in s.streams {
      DeliveredTo(s, o, f, q);
      assert QueueOk(s.streams[q], s.flights, o);
    }
  }

  /** A verify changes no session but its own, and that one only if it wins. */
  lemma VerifyDecidesOne(cfg: Config, o: Object, c: nat, sid: SessionId, request: BobRequest, answer: Answer, other: SessionId)
    requires var (p, response) := ApplyVerify(cfg, o, c, sid, request, answer);
      other != sid || !Won(response)
    ensures var p := ApplyVerify(cfg, o, c, sid, request, answer).0;
      Decided(p, other) ==> Decided(o, other) && Winner(p, other) == Winner(o, other)
  {
  }

  /** The script of a call of any session, seen from one stream. */
  lemma ScriptGivesNews(cfg: Config, s: Sys, o: Object, c: nat, to: set<nat>, q: nat, worker: nat)
    requires c in s.calls && s.calls[c].pc.Finalizing? && worker in to && NewsAtHand(s, o, q, worker)
    requires Represents(s.db, o) && FlightsOk(s.flights, o) && CallOk(cfg, c, s.calls[c], o, s.log) && s.now == o.now
    ensures var call := s.calls[c];
      var p := ApplyVerify(cfg, o, c, call.sid, call.request, Vector(call.pc.answer)).0;
      NewsAtHand(DoFinalize(cfg, s, c, to), p, q, worker)
  {
    var call, t := s.calls[c], DoFinalize(cfg, s, c, to);
    ScriptAnnounces(cfg, s, o, c, to, worker);
    ScriptOnlyAdds(cfg, s, c, to);
    if q in s.streams {
      var sid := s.streams[q].sid;
      if sid != call.sid || !Won(t.calls[c].pc.response) {
        VerifyDecidesOne(cfg, o, c, call.sid, call.request, Vector(call.pc.answer), sid);
      }
    }
  }

  lemma ScriptOnlyAdds(cfg: Config, s: Sys, c: nat, to: set<nat>)
    requires c in s.calls && s.calls[c].pc.Finalizing?
    ensures var t := DoFinalize(cfg, s, c, to); t.streams == s.streams && s.flights <= t.flights
  {
  }

  lemma ScriptKeepsNews(cfg: Config, s: Sys, c: nat, to: set<nat>, q: nat, worker: nat)
    requires Inv(cfg, s) && Enabled(s, FinalizeStep(c, to)) && worker in to && NewsAtHand(s, Replay(cfg, s.log), q, worker)
    ensures var t := Do(cfg, s, FinalizeStep(c, to)); NewsAtHand(t, Replay(cfg, t.log), q, worker)
  {
    var call := s.calls[c];
    assert CallOk(cfg, c, call, Replay(cfg, s.log), s.log);
    ScriptGivesNews(cfg, s, Replay(cfg, s.log), c, to, q, worker);
    var response := DoFinalize(cfg, s, c, to).calls[c].pc.response;
    ReplayOneMore(cfg, s.log, LogEntry(VerifyOp(c, call.sid, call.request, Vector(call.pc.answer)), response));
  }

  /** The log grows by nothing that decides a session, and no message is sent. */
  ghost predicate Quiet(s: Sys, t: Sys) {
    && t.flights == s.flights
    && (t.log == s.log || (|t.log| == |s.log| + 1 && !(t.log[|s.log|].op.VerifyOp? && Won(t.log[|s.log|].response))))
  }

  lemma ReadIsQuiet(s: Sys, c: nat)
    requires c in s.calls
    ensures Quiet(s, DoRead(s, c))
  {
  }

  lemma EmbedIsQuiet(cfg: Config, s: Sys, c: nat, embedding: Option<seq<real>>)
    requires c in s.calls && s.calls[c].pc.Embedding?
    ensures Quiet(s, DoEmbed(cfg, s, c, embedding))
  {
  }

  lemma OthersLogQuietly(cfg: Config, s: Sys, step: Step)
    requires Enabled(s, step) && !step.FinalizeStep? && !step.DeliverStep? && !step.LoseStep?
    ensures Quiet(s, Do(cfg, s, step))
  {
    match step
    case ReadStep(c) => ReadIsQuiet(s, c);
    case EmbedStep(c, embedding) => EmbedIsQuiet(cfg, s, c, embedding);
    case _ =>
  }

  lemma QuietOpDecidesNothing(cfg: Config, o: Object, op: Op, sid: SessionId)
    requires !(op.VerifyOp? && Won(Apply(cfg, o, op).1))
    ensures var p := Apply(cfg, o, op).0;
      Decided(p, sid) ==> Decided(o, sid) && Winner(p, sid) == Winner(o, sid)
  {
    if op.VerifyOp? {
      LosersChangeNothing(cfg, o, op);
    }
  }

  /** Only scripts decide. */
  lemma NothingDecided(cfg: Config, s: Sys, step: Step, sid: SessionId)
    requires Inv(cfg, s) && Enabled(s, step) && !step.FinalizeStep? && !step.DeliverStep?
    ensures var o, p := Replay(cfg, s.log), Replay(cfg, Do(cfg, s, step).log);
      Decided(p, sid) ==> Decided(o, sid) && Winner(p, sid) == Winner(o, sid)
  {
    var o, t := Replay(cfg, s.log), Do(cfg, s, step);
    KeepStep(cfg, s, step);
    if t.log != s.log {
      var e :| t.log == s.log + [e] && Sane(e.op) && e.response == Apply(cfg, o, e.op).1;
      ReplayOneMore(cfg, s.log, e);
      OthersLogQuietly(cfg, s, step);
      assert t.log[|s.log|] == e;
      QuietOpDecidesNothing(cfg, o, e.op, sid);
    }
  }

  lemma NothingTaken(cfg: Config, s: Sys, step: Step, worker: nat, sid: SessionId, e: Event)
    requires Enabled(s, step) && Reliable(step, worker) && !step.FinalizeStep? && !step.DeliverStep?
    ensures Flight(worker, sid, e) in s.flights ==> Flight(worker, sid, e) in Do(cfg, s, step).flights
  {
    if !step.LoseStep? {
      OthersLogQuietly(cfg, s, step);
    }
  }

  lemma QuietStepKeepsNews(cfg: Config, s: Sys, step: Step, q: nat, worker: nat)
    requires Inv(cfg, s) && Enabled(s, step) && Reliable(step, worker) && NewsAtHand(s, Replay(cfg, s.log), q, worker)
    requires !step.FinalizeStep? && !step.DeliverStep? && step != StreamStep(q)
    ensures var t := Do(cfg, s, step); NewsAtHand(t, Replay(cfg, t.log), q, worker)
  {
    var t := Do(cfg, s, step);
    if q in s.streams && step != AbortStep(q) {
      var sid := s.streams[q].sid;
      OtherStepsKeepStream(cfg, s, step, q);
      NothingDecided(cfg, s, step, sid);
      if Decided(Replay(cfg, s.log), sid) {
        NothingTaken(cfg, s, step, worker, sid, LiveEvent(Winner(Replay(cfg, s.log), sid)));
      }
    } else {
      NewOrEnded(cfg, s, step, q);
    }
  }

  lemma NewOrEnded(cfg: Config, s: Sys, step: Step, q: nat)
    requires Enabled(s, step) && (q !in s.streams || step == AbortStep(q))
    ensures var t := Do(cfg, s, step); q in t.streams ==> !InLoop(t.streams[q])
  {
    if step.ReadStep? || step.EmbedStep? || step.FinalizeStep? {
      CallStepExtends(cfg, s, step);
    }
  }

  lemma StepKeepsNews(cfg: Config, s: Sys, step: Step, q: nat, worker: nat)
    requires Inv(cfg, s) && Enabled(s, step) && Reliable(step, worker) && NewsAtHand(s, Replay(cfg, s.log), q, worker)
    ensures var t := Do(cfg, s, step); NewsAtHand(t, Replay(cfg, t.log), q, worker)
  {
    match step
    case FinalizeStep(c, to) => ScriptKeepsNews(cfg, s, c, to, q, worker);
    case DeliverStep(f) => DeliveryKeepsNews(cfg, s, f, q, worker);
    case StreamStep(p) =>
      if p == q {
        OwnMoveKeepsNews(cfg, s, q, worker);
      } else {
        QuietStepKeepsNews(cfg, s, step, q, worker);
      }
    case _ => QuietStepKeepsNews(cfg, s, step, q, worker);
  }

  lemma {:induction false} RunKeepsNews(cfg: Config, s: Sys, steps: seq<Step>, q: nat, worker: nat)
    requires Inv(cfg, s) && Runs(cfg, s, steps) && NewsAtHand(s, Replay(cfg, s.log), q, worker)
    requires forall i :: 0 <= i < |steps| ==> Reliable(steps[i], worker)
    ensures var t := After(cfg, s, steps); NewsAtHand(t, Replay(cfg, t.log), q, worker)
    decreases |steps|
  {
    if steps != [] {
      StepKeepsNews(cfg, s, steps[0], q, worker);
      KeepStep(cfg, s, steps[0]);
      RunKeepsNews(cfg, Do(cfg, s, steps[0]), steps[1..], q, worker);
    }
  }

  /**
   With a transport that does not fail the stream's worker, a stream that has passed its first check and
   whose session has a result has that result in its queue or in flight to its worker: none slips through
   between the check and the loop.
   */
  lemma NoGap(cfg: Config, steps: seq<Step>, q: nat)
    requires Runs(cfg, START, steps) && q in Reached(cfg, steps).streams
    requires forall i :: 0 <= i < |steps| ==> Reliable(steps[i], Reached(cfg, steps).streams[q].worker)
    ensures var s := Reached(cfg, steps); NewsAtHand(s, Replay(cfg, s.log), q, s.streams[q].worker)
  {
    InvAtStart(cfg);
    RunKeepsNews(cfg, START, steps, q, Reached(cfg, steps).streams[q].worker);
  }

  /** The stream's next move is possible now, tells the event, and ends it. */
  ghost predicate TellsNow(cfg: Config, s: Sys, q: nat, e: Event) {
    && q in s.streams && Enabled(s, StreamStep(q))
    && var u := Do(cfg, s, StreamStep(q)).streams[q];
    u.out == s.streams[q].out + [Data(e)] && u.pc == Ended(ByMessage, s.now)
  }

  /** The same now or after one delivery. */
  ghost predicate TellsSoon(cfg: Config, s: Sys, q: nat, e: Event)
    requires q in s.streams
  {
    var f := Flight(s.streams[q].worker, s.streams[q].sid, e);
    TellsNow(cfg, s, q, e) || (f in s.flights && TellsNow(cfg, DoDeliver(s, f), q, e))
  }

  lemma QueuedNewsTells(cfg: Config, s: Sys, q: nat, e: Event)
    requires q in s.streams && s.streams[q].pc.Waiting? && s.streams[q].queue == [e] && IsTerminal(e)
    ensures TellsNow(cfg, s, q, e)
  {
    NewsEndsTheWait(cfg, s, q, e);
  }

  lemma FlyingNewsTells(cfg: Config, s: Sys, o: Object, f: Flight, q: nat)
    requires HubsOk(s.hubs, s.streams) && FlightsOk(s.flights, o) && QueuesOk(s.streams, s.flights, o)
    requires f in s.flights && q in s.streams && s.streams[q].pc.Waiting?
    requires s.streams[q].worker == f.worker && s.streams[q].sid == f.sid
    ensures TellsNow(cfg, DoDeliver(s, f), q, f.event)
  {
    DeliveredTo(s, o, f, q);
    QueuedNewsTells(cfg, DoDeliver(s, f), q, f.event);
  }

  lemma NewsTells(cfg: Config, s: Sys, o: Object, q: nat)
    requires HubsOk(s.hubs, s.streams) && FlightsOk(s.flights, o) && QueuesOk(s.streams, s.flights, o)
    requires q in s.streams && s.streams[q].pc.Waiting? && Decided(o, s.streams[q].sid)
    requires HasNews(s.streams[q], s.flights, o, s.streams[q].worker)
    ensures TellsSoon(cfg, s, q, LiveEvent(Winner(o, s.streams[q].sid)))
  {
    var st := s.streams[q];
    var news := LiveEvent(Winner(o, st.sid));
    if st.queue == [news] {
      QueuedNewsTells(cfg, s, q, news);
    } else {
      FlyingNewsTells(cfg, s, o, Flight(st.worker, st.sid, news), q);
    }
  }

  /**
   Under the same transport a stream that waits in q.get can tell the result of its session without any
   time passing, after at most one delivery.
   */
  lemma ToldWithoutDelay(cfg: Config, steps: seq<Step>, q: nat)
    requires Runs(cfg, START, steps) && q in Reached(cfg, steps).streams
    requires forall i :: 0 <= i < |steps| ==> Reliable(steps[i], Reached(cfg, steps).streams[q].worker)
    requires var s := Reached(cfg, steps); s.streams[q].pc.Waiting? && Decided(Replay(cfg, s.log), s.streams[q].sid)
    ensures var s := Reached(cfg, steps); TellsSoon(cfg, s, q, LiveEvent(Winner(Replay(cfg, s.log), s.streams[q].sid)))
  {
    NoGap(cfg, steps, q);
    ReachedOk(cfg, steps);
    var s := Reached(cfg, steps);
    NewsTells(cfg, s, Replay(cfg, s.log), q);
  }
}
