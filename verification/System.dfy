/**
 The running service: the store, every verify call, every stream on every worker, the hubs and the
 messages between them. One step is one Redis command or script, one move of one stream, one delivery
 or loss, or the passing of time while every open stream is blocked in q.get.
 */
module System {
  import opened Domain
  import opened Rounding
  import opened SessionStore
  import opened AtomicSession
  import opened StreamMachine
  import opened Registry

  datatype CallPc =
    | Reading
    | Embedding(snapshot: Hash)
    | Finalizing(snapshot: Hash, answer: seq<real>, score: real)
    | Replied(response: Response, at: nat)

  /** begin is the length of the log when the request came in, Replied.at the place of its own entry. */
  datatype Call = Call(sid: SessionId, request: BobRequest, begin: nat, pc: CallPc)

  datatype Flight = Flight(worker: nat, sid: SessionId, event: Event)

  datatype Sys = Sys(
    now: real,
    db: Db,
    used: set<SessionId>,
    calls: map<nat, Call>,
    streams: map<nat, Stream>,
    hubs: Hubs,
    flights: multiset<Flight>,
    log: seq<LogEntry>)

  datatype Step =
    | CreateStep(sid: SessionId, challenge: Challenge)
    | DeleteStep(sid: SessionId)
    | TimeStep(d: real)
    | BeginStep(c: nat, sid: SessionId, request: BobRequest)
    | ReadStep(c: nat)
    | EmbedStep(c: nat, embedding: Option<seq<real>>)
    | FinalizeStep(c: nat, to: set<nat>)
    | OpenStep(q: nat, worker: nat, sid: SessionId)
    | StreamStep(q: nat)
    | AbortStep(q: nat)
    | DeliverStep(f: Flight)
    | LoseStep(f: Flight)

  const START := Sys(0.0, map[], {}, map[], map[], map[], multiset{}, [])

  type Hubs = map<nat, Registry<nat>>

  function Hub(hubs: Hubs, worker: nat): Registry<nat> {
    if worker in hubs then hubs[worker] else map[]
  }

  /** Nothing but q.get takes time, and no q.get outlasts its timeout. */
  predicate TimeMayPass(s: Sys, d: real) {
    && d > 0.0
    && forall q :: q in s.streams && !s.streams[q].pc.Ended? ==>
        && s.streams[q].pc.Waiting? && s.streams[q].queue == []
        && s.now + d <= s.streams[q].waitStart + HEARTBEAT
  }

  predicate Enabled(s: Sys, step: Step) {
    match step
    case CreateStep(sid, _) => sid !in s.used
    case DeleteStep(_) => true
    case TimeStep(d) => TimeMayPass(s, d)
    case BeginStep(c, _, _) => c !in s.calls
    case ReadStep(c) => c in s.calls && s.calls[c].pc.Reading?
    case EmbedStep(c, _) => c in s.calls && s.calls[c].pc.Embedding?
    case FinalizeStep(c, _) => c in s.calls && s.calls[c].pc.Finalizing?
    case OpenStep(q, _, sid) => q !in s.streams && GetPhase(s.db, sid).Some?
    case StreamStep(q) => q in s.streams && CanAdvance(s.streams[q], s.now)
    case AbortStep(q) => q in s.streams && CanAbort(s.streams[q])
    case DeliverStep(f) => f in s.flights
    case LoseStep(f) => f in s.flights
  }

  function Logged(s: Sys, op: Op, response: Response): Sys {
    s.(log := s.log + [LogEntry(op, response)])
  }

  /** Call c answers now, with the given account of how far it got. */
  function Reply(s: Sys, c: nat, answer: Answer, response: Response): Sys
    requires c in s.calls
  {
    var call := s.calls[c];
    Logged(s, VerifyOp(c, call.sid, call.request, answer), response)
      .(calls := s.calls[c := call.(pc := Replied(response, |s.log|))])
  }

  function MoveCall(s: Sys, c: nat, pc: CallPc): Sys
    requires c in s.calls
  {
    s.(calls := s.calls[c := s.calls[c].(pc := pc)])
  }

  /** store.get and the early rejection */
  function DoRead(s: Sys, c: nat): Sys
    requires c in s.calls
  {
    var sid := s.calls[c].sid;
    if sid !in s.db then Reply(s, c, Unasked, NotFound)
    else
      match PhaseIn(s.db[sid].hash)
      case None => Reply(s, c, Crashed, Fault)
      case Some(WaitingForBob) => MoveCall(s, c, Embedding(s.db[sid].hash))
      case Some(_) => Reply(s, c, Unasked, Completed)
  }

  /** EmbeddingClient.embed returns; scoring against the snapshot follows without any shared access. */
  function DoEmbed(cfg: Config, s: Sys, c: nat, embedding: Option<seq<real>>): Sys
    requires c in s.calls && s.calls[c].pc.Embedding?
  {
    var snapshot := s.calls[c].pc.snapshot;
    match embedding
    case None => Reply(s, c, NoEmbedding, Busy)
    case Some(v) =>
      if AnswerEmbedding !in snapshot || !snapshot[AnswerEmbedding].VectorJson? then Reply(s, c, Crashed, Fault)
      else
        match cfg.score(snapshot[AnswerEmbedding].vector, v)
        case None => Reply(s, c, Crashed, Fault)
        case Some(score) => MoveCall(s, c, Finalizing(snapshot, v, score))
  }

  /** The response after the script has returned 1. */
  function SuccessResponse(snapshot: Hash, score: real, passed: bool): Response {
    if !passed then Fail(LivePercent(score))
    else if AlicePubkey in snapshot && snapshot[AlicePubkey].KeyJson? then Pass(LivePercent(score), snapshot[AlicePubkey].key)
    else Fault
  }

  function Broadcast(to: set<nat>, sid: SessionId, published: Option<Event>): multiset<Flight> {
    match published
    case None => multiset{}
    case Some(e) => multiset(set w | w in to :: Flight(w, sid, e))
  }

  /** The script runs, its announcement sets off to the workers in `to`, the call answers. */
  function DoFinalize(cfg: Config, s: Sys, c: nat, to: set<nat>): Sys
    requires c in s.calls && s.calls[c].pc.Finalizing?
  {
    var call := s.calls[c];
    var pc := call.pc;
    var passed := pc.score >= cfg.threshold;
    var r := Finalize(s.db, call.sid, Fields(Updates(call.request, pc.score, passed)),
                      Announcement(call.request, pc.score, passed));
    var response :=
      if r.code == -1 then NotFound
      else if r.code == 0 then Completed
      else SuccessResponse(pc.snapshot, pc.score, passed);
    Reply(s, c, Vector(pc.answer), response)
      .(db := r.db, flights := s.flights + Broadcast(to, call.sid, r.published))
  }

  function SetStream(s: Sys, q: nat, st: Stream): Sys {
    s.(streams := s.streams[q := st])
  }

  /** A stream moves; entering and leaving the subscribed part goes through the worker's hub. */
  function Moved(s: Sys, q: nat, st: Stream): Sys
    requires q in s.streams
  {
    var before := s.streams[q];
    var hub := Hub(s.hubs, st.worker);
    var hub' :=
      if Subscribed(st) && !Subscribed(before) then Add(hub, st.sid, q)
      else if Subscribed(before) && !Subscribed(st) then Remove(hub, st.sid, q)
      else hub;
    SetStream(s, q, st).(hubs := s.hubs[st.worker := hub'])
  }

  /** One worker's listener hands the event to every queue registered for the session. */
  function DoDeliver(s: Sys, f: Flight): Sys {
    var qs := Listeners(Hub(s.hubs, f.worker), f.sid);
    s.(flights := s.flights - multiset{f},
       streams := map q | q in s.streams ::
         if q in qs then s.streams[q].(queue := Offer(s.streams[q].queue, f.event)) else s.streams[q])
  }

  function Do(cfg: Config, s: Sys, step: Step): Sys
    requires Enabled(s, step)
  {
    match step
    case CreateStep(sid, ch) => Logged(s, CreateOp(sid, ch), Created)
        .(used := s.used + {sid}, db := Create(s.db, sid, ch, s.now, cfg.ttl))
    case DeleteStep(sid) => Logged(s, DeleteOp(sid), Deleted).(db := s.db - {sid})
    case TimeStep(d) => Logged(s, TimeOp(d), Nothing).(now := s.now + d, db := Evict(s.db, s.now + d))
    case BeginStep(c, sid, request) => s.(calls := s.calls[c := Call(sid, request, |s.log|, Reading)])
    case ReadStep(c) => DoRead(s, c)
    case EmbedStep(c, embedding) => DoEmbed(cfg, s, c, embedding)
    case FinalizeStep(c, to) => DoFinalize(cfg, s, c, to)
    case OpenStep(q, worker, sid) => SetStream(s, q, Opened(worker, sid, GetPhase(s.db, sid).value, s.now))
    case StreamStep(q) => Moved(s, q, Advance(s.streams[q], s.now, TerminalEvent(s.db, s.streams[q].sid)))
    case AbortStep(q) => Moved(s, q, StreamMachine.Abort(s.streams[q], s.now))
    case DeliverStep(f) => DoDeliver(s, f)
    case LoseStep(f) => s.(flights := s.flights - multiset{f})
  }

  /** From s, the steps can be taken one after the other. */
  predicate Runs(cfg: Config, s: Sys, steps: seq<Step>)
    decreases |steps|
  {
    steps == [] || (Enabled(s, steps[0]) && Runs(cfg, Do(cfg, s, steps[0]), steps[1..]))
  }

  function After(cfg: Config, s: Sys, steps: seq<Step>): Sys
    requires Runs(cfg, s, steps)
    decreases |steps|
  {
    if steps == [] then s else After(cfg, Do(cfg, s, steps[0]), steps[1..])
  }
}
