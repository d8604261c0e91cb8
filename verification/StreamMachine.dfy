/** One event stream as a machine: what generate() does between two points at which it can be interrupted. */
module StreamMachine {
  import opened Domain
  import opened SessionStore

  const HEARTBEAT := 15.0      // HEARTBEAT_SECONDS
  const MAX_STREAM := 900.0    // MAX_STREAM_SECONDS
  const MAX_KEEPALIVES := 60
  const QUEUE_SIZE := 10

  datatype Chunk = Retry | Data(event: Event) | Keepalive

  datatype Exit = ByFirstCheck | ByMessage | ByHeartbeat | ByHardCap | Aborted

  datatype Pc =
    | Subscribing | Retrying | Connecting | FirstChecking
    | Looping | Waiting | HeartbeatChecking
    | Ended(exit: Exit, at: real)

  datatype Stream = Stream(
    worker: nat, sid: SessionId, phase: Phase, openedAt: real,
    pc: Pc, queue: seq<Event>, out: seq<Chunk>, loopStart: real, checkedAt: real, waitStart: real)

  function Opened(worker: nat, sid: SessionId, phase: Phase, now: real): Stream {
    Stream(worker, sid, phase, now, Subscribing, [], [], now, now, now)
  }

  /** put_nowait on a queue of QUEUE_SIZE places; a full queue drops the event. */
  function Offer(queue: seq<Event>, e: Event): seq<Event> {
    if |queue| < QUEUE_SIZE then queue + [e] else queue
  }

  /** q.get returns when there is a message, and gives up after HEARTBEAT seconds. */
  predicate CanAdvance(st: Stream, now: real) {
    && !st.pc.Ended?
    && (st.pc.Waiting? ==> st.queue != [] || st.waitStart + HEARTBEAT <= now)
  }

  function Emit(st: Stream, c: Chunk, pc: Pc): Stream {
    st.(out := st.out + [c], pc := pc)
  }

  /** The next piece of generate(); check is what terminal_event answers now. */
  function Advance(st: Stream, now: real, check: Check): Stream {
    match st.pc
    case Subscribing => st.(pc := Retrying)
    case Retrying => Emit(st, Retry, Connecting)
    case Connecting => Emit(st, Data(ConnectedEvent(st.phase)), FirstChecking)
    case FirstChecking =>
      (match check
       case Raised => st.(pc := Ended(Aborted, now))
       case Found(e) => Emit(st, Data(e), Ended(ByFirstCheck, now))
       case StillWaiting => st.(pc := Looping, loopStart := now, checkedAt := now))
    case Looping =>
      if now < st.loopStart + MAX_STREAM then st.(pc := Waiting, waitStart := now)
      else Emit(st, Data(ExpiredEvent), Ended(ByHardCap, now))
    case Waiting =>
      if st.queue == [] then st.(pc := HeartbeatChecking)
      else
        var e := st.queue[0];
        Emit(st.(queue := st.queue[1..]), Data(e), if IsTerminal(e) then Ended(ByMessage, now) else Looping)
    case HeartbeatChecking =>
      (match check
       case Raised => st.(pc := Ended(Aborted, now))
       case Found(e) => Emit(st, Data(e), Ended(ByHeartbeat, now))
       case StillWaiting => Emit(st.(checkedAt := now), Keepalive, Looping))
    case Ended(_, _) => st
  }

  /**
   The generator is closed at a yield, or before it ever ran, or a store read raises. Inside q.get
   nothing can interrupt it.
   */
  predicate CanAbort(st: Stream) {
    match st.pc
    case Subscribing | Connecting | FirstChecking | HeartbeatChecking => true
    case Looping => |st.out| > 2
    case _ => false
  }

  function Abort(st: Stream, now: real): Stream {
    st.(pc := Ended(Aborted, now))
  }

  /** Registered with the hub: between subscribe and the finally block. */
  predicate Subscribed(st: Stream) {
    !st.pc.Subscribing? && !st.pc.Ended?
  }

  predicate InLoop(st: Stream) {
    st.pc.Looping? || st.pc.Waiting? || st.pc.HeartbeatChecking?
  }

  // ---- The language of outputs ----

  function Keepalives(k: nat): seq<Chunk> {
    seq(k, _ => Keepalive)
  }

  function Preamble(phase: Phase): seq<Chunk> {
    [Retry, Data(ConnectedEvent(phase))]
  }

  /** retry, CONNECTED, k keepalives */
  function Idle(phase: Phase, k: nat): seq<Chunk> {
    Preamble(phase) + Keepalives(k)
  }

  /** ... and one terminal event at the end */
  ghost predicate Complete(out: seq<Chunk>, phase: Phase, k: nat, e: Event) {
    out == Idle(phase, k) + [Data(e)] && IsTerminal(e) && k <= MAX_KEEPALIVES
  }

  lemma IdleOneMore(phase: Phase, k: nat)
    ensures Idle(phase, k) + [Keepalive] == Idle(phase, k + 1)
  {
  }

  /** Own steps still ahead; it counts down with every step of the stream and with nothing else. */
  function Rank(st: Stream): int {
    var rounds := MAX_KEEPALIVES - |st.out|;
    match st.pc
    case Subscribing => 400
    case Retrying => 390
    case Connecting => 380
    case FirstChecking => 370
    case Looping => 3 * rounds + 12
    case Waiting => 3 * rounds + 11
    case HeartbeatChecking => 3 * rounds + 10
    case Ended(_, _) => 0
  }
}
