/** What holds in every reachable state of the service. */
module SystemInvariant {
  import opened Domain
  import opened SessionStore
  import opened AtomicSession
  import opened StreamMachine
  import opened Registry
  import opened System

  /** The hash of a session that has not gone. */
  function HashOf(ses: Session): Hash {
    var atFirst := NewHash(ses.challenge, ses.createdAt);
    match ses.outcome
    case None => atFirst
    case Some(w) => atFirst + Fields(Updates(w.request, w.score, w.passed))
  }

  /** Redis holds exactly the sessions that are not gone, each in the shape of its state, with its first expiry. */
  ghost predicate Represents(db: Db, o: Object) {
    && (forall sid :: sid in db ==> !Gone(o, sid))
    && (forall sid :: sid in o.sessions && o.sessions[sid].goneAt.None? ==>
          sid in db && db[sid] == SessionStore.Entry(HashOf(o.sessions[sid]), Some(o.sessions[sid].expiresAt)))
  }

  function LiveEvent(w: Outcome): Event {
    Announcement(w.request, w.score, w.passed)
  }

  function RebuiltEvent(w: Outcome): Event {
    RebuiltAnnouncement(w.request, w.score, w.passed)
  }

  predicate Decided(o: Object, sid: SessionId) {
    sid in o.sessions && o.sessions[sid].outcome.Some?
  }

  function Winner(o: Object, sid: SessionId): Outcome
    requires Decided(o, sid)
  {
    o.sessions[sid].outcome.value
  }

  // ---- Verify calls ----

  ghost predicate SnapshotOk(snapshot: Hash, o: Object, sid: SessionId) {
    sid in o.sessions && snapshot == NewHash(o.sessions[sid].challenge, o.sessions[sid].createdAt)
  }

  /** The entry by which call c answered. */
  ghost predicate LoggedAt(log: seq<LogEntry>, at: nat, c: nat, call: Call, response: Response) {
    && call.begin <= at < |log|
    && log[at].op.VerifyOp? && log[at].op.call == c && log[at].op.sid == call.sid && log[at].op.request == call.request
    && log[at].response == response
  }

  ghost predicate CallOk(cfg: Config, c: nat, call: Call, o: Object, log: seq<LogEntry>) {
    && call.begin <= |log|
    && match call.pc
       case Reading => true
       case Embedding(snapshot) => SnapshotOk(snapshot, o, call.sid)
       case Finalizing(snapshot, v, score) =>
         SnapshotOk(snapshot, o, call.sid) && cfg.score(o.sessions[call.sid].challenge.vector, v) == Some(score)
       case Replied(response, at) =>
         && LoggedAt(log, at, c, call, response)
         && (Won(response) ==> Decided(o, call.sid) && Winner(o, call.sid).call == c)
  }

  ghost predicate CallsOk(cfg: Config, calls: map<nat, Call>, o: Object, log: seq<LogEntry>) {
    forall c :: c in calls ==> CallOk(cfg, c, calls[c], o, log)
  }

  /** Every verify entry belongs to the call that it names, once. */
  ghost predicate LogOwned(calls: map<nat, Call>, log: seq<LogEntry>) {
    forall i :: 0 <= i < |log| && log[i].op.VerifyOp? ==>
      log[i].op.call in calls && calls[log[i].op.call].pc.Replied? && calls[log[i].op.call].pc.at == i
  }

  /** The winner of a session is a call that was answered with the result. */
  ghost predicate WinnersOk(calls: map<nat, Call>, o: Object) {
    forall sid :: Decided(o, sid) ==>
      var w := Winner(o, sid);
      && w.call in calls && calls[w.call].sid == sid && calls[w.call].request == w.request
      && calls[w.call].pc.Replied? && calls[w.call].pc.response == WinResponse(o.sessions[sid])
  }

  // ---- Messages ----

  /** A message for a session is the announcement of its result, in flight at most once per worker. */
  ghost predicate FlightsOk(flights: multiset<Flight>, o: Object) {
    forall f :: f in flights ==>
      Decided(o, f.sid) && f.event == LiveEvent(Winner(o, f.sid)) && flights[f] == 1
  }

  ghost predicate QueueOk(st: Stream, flights: multiset<Flight>, o: Object) {
    st.queue == [] ||
    (&& Decided(o, st.sid) && st.queue == [LiveEvent(Winner(o, st.sid))]
     && Flight(st.worker, st.sid, LiveEvent(Winner(o, st.sid))) !in flights)
  }

  ghost predicate QueuesOk(streams: map<nat, Stream>, flights: multiset<Flight>, o: Object) {
    forall q :: q in streams ==> QueueOk(streams[q], flights, o)
  }

  // ---- Streams ----

  /** The phase that a stream announced is one that its session has been in. */
  ghost predicate PhaseSeen(phase: Phase, ses: Session) {
    match phase
    case WaitingForBob => true
    case Verified => ses.outcome.Some? && ses.outcome.value.passed
    case Failed => ses.outcome.Some? && !ses.outcome.value.passed
  }

  ghost predicate InLoopOk(st: Stream, ses: Session, now: real) {
    && |st.out| >= 2
    && var k := |st.out| - 2;
    && st.out == Idle(st.phase, k) && k <= MAX_KEEPALIVES
    && st.loopStart == st.openedAt
    && st.checkedAt == st.loopStart + HEARTBEAT * k as real
    && st.checkedAt < ses.expiresAt
    && (Finish(ses).Some? ==> st.checkedAt <= Finish(ses).value)
    && (st.pc.Looping? ==> now == st.checkedAt)
    && (!st.pc.Looping? ==> st.waitStart == st.checkedAt && k < MAX_KEEPALIVES)
    && (st.pc.Waiting? ==> st.checkedAt <= now <= st.checkedAt + HEARTBEAT)
    && (st.pc.HeartbeatChecking? ==> now == st.checkedAt + HEARTBEAT)
  }

  /** The last chunk, by the way the stream ended. */
  ghost predicate EndOk(st: Stream, ses: Session)
    requires st.pc.Ended?
  {
    var exit, at := st.pc.exit, st.pc.at;
    if exit.Aborted? then
      st.out == [] || st.out == [Retry] || exists k: nat :: k <= MAX_KEEPALIVES && st.out == Idle(st.phase, k)
    else
      && |st.out| >= 3
      && var k := |st.out| - 3;
      && st.out[|st.out| - 1].Data?
      && var e := st.out[|st.out| - 1].event;
      && Complete(st.out, st.phase, k, e)
      && st.openedAt <= at <= st.openedAt + MAX_STREAM
      && (exit.ByFirstCheck? ==> at == st.openedAt && k == 0)
      && (exit.ByFirstCheck? || exit.ByHeartbeat? ==>
            && Finish(ses).Some? && Finish(ses).value <= at
            && if e == ExpiredEvent then ses.goneAt.Some? && ses.goneAt.value <= at
               else ses.outcome.Some? && e == RebuiltEvent(ses.outcome.value))
      && (exit.ByMessage? ==> ses.outcome.Some? && e == LiveEvent(ses.outcome.value) && Finish(ses).value <= at)
      && (exit.ByMessage? || exit.ByHeartbeat? ==> Finish(ses).Some? && st.openedAt <= Finish(ses).value && at <= Finish(ses).value + HEARTBEAT)
      && (exit.ByHardCap? ==>
            && e == ExpiredEvent && k == MAX_KEEPALIVES && at == st.openedAt + MAX_STREAM && at < ses.expiresAt
            && (Finish(ses).Some? ==> at <= Finish(ses).value))
  }

  ghost predicate StreamOk(st: Stream, o: Object) {
    && st.sid in o.sessions
    && var ses := o.sessions[st.sid];
    && ses.createdAt <= st.openedAt <= o.now
    && PhaseSeen(st.phase, ses)
    && match st.pc
       case Subscribing => st.out == [] && st.queue == [] && st.openedAt == o.now
       case Retrying => st.out == [] && st.openedAt == o.now
       case Connecting => st.out == [Retry] && st.openedAt == o.now
       case FirstChecking => st.out == Preamble(st.phase) && st.openedAt == o.now
       case Ended(_, at) => at <= o.now && EndOk(st, ses)
       case _ => InLoopOk(st, ses, o.now)
  }

  ghost predicate StreamsOk(streams: map<nat, Stream>, o: Object) {
    forall q :: q in streams ==> StreamOk(streams[q], o)
  }

  // ---- Hubs ----

  /** A worker's registry holds exactly its subscribed streams, and no empty set. */
  ghost predicate HubsOk(hubs: Hubs, streams: map<nat, Stream>) {
    && (forall w: nat :: NoEmptySet(Hub(hubs, w)))
    && (forall w: nat, sid, q :: q in Listeners(Hub(hubs, w), sid) <==>
          q in streams && streams[q].worker == w && streams[q].sid == sid && Subscribed(streams[q]))
  }

  // ---- Everything ----

  ghost predicate Good(cfg: Config, s: Sys, o: Object) {
    && s.now == o.now && s.used == o.sessions.Keys
    && ObjectOk(cfg, o)
    && Represents(s.db, o)
    && CallsOk(cfg, s.calls, o, s.log) && LogOwned(s.calls, s.log) && WinnersOk(s.calls, o)
    && FlightsOk(s.flights, o) && QueuesOk(s.streams, s.flights, o)
    && StreamsOk(s.streams, o)
    && HubsOk(s.hubs, s.streams)
  }

  ghost predicate Inv(cfg: Config, s: Sys) {
    Legal(cfg, s.log) && Good(cfg, s, Replay(cfg, s.log))
  }
}
