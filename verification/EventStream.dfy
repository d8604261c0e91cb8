/** generate() itself: the generator with its loops, its queue and its finally block, played against any schedule. */
module EventStream {
  import opened Domain
  import opened SessionStore
  import opened StreamMachine
  import opened EventHub

  /**
   One turn of the generator: the clock when it comes, what the listener put into the queue before, what
   terminal_event would answer, and whether the client has gone.
   */
  datatype Move = Move(now: real, arrivals: seq<Event>, check: Check, close: bool)

  function OfferAll(queue: seq<Event>, events: seq<Event>): seq<Event> {
    if events == [] then queue
    else Offer(OfferAll(queue, events[..|events| - 1]), events[|events| - 1])
  }

  function Received(st: Stream, m: Move): Stream {
    if Subscribed(st) then st.(queue := OfferAll(st.queue, m.arrivals)) else st
  }

  /** The machine's turn: it may be closed, may move, or is blocked in q.get. */
  function Turn(st: Stream, m: Move): Stream {
    var r := Received(st, m);
    if m.close && CanAbort(r) then Abort(r, m.now)
    else if CanAdvance(r, m.now) then Advance(r, m.now, m.check)
    else r
  }

  function Play(st: Stream, moves: seq<Move>): Stream {
    if moves == [] then st else Turn(Play(st, moves[..|moves| - 1]), moves[|moves| - 1])
  }

  lemma PlayOneMore(st: Stream, moves: seq<Move>, i: nat)
    requires i < |moves|
    ensures Play(st, moves[..i + 1]) == Turn(Play(st, moves[..i]), moves[i])
  {
    assert moves[..i + 1][..i] == moves[..i];
  }

  /** Nothing happens after the end. */
  lemma {:induction false} PlayAfterEnd(st: Stream, moves: seq<Move>, i: nat)
    requires i <= |moves| && Play(st, moves[..i]).pc.Ended?
    ensures Play(st, moves) == Play(st, moves[..i])
    decreases |moves| - i
  {
    if i == |moves| {
      assert moves[..i] == moves;
    } else {
      PlayOneMore(st, moves, i);
      PlayAfterEnd(st, moves, i + 1);
    }
  }

  method Receive(q: Queue, events: seq<Event>)
    modifies q
    ensures q.items == OfferAll(old(q.items), events)
  {
    var i := 0;
    while i < |events|
      invariant 0 <= i <= |events|
      invariant q.items == OfferAll(old(q.items), events[..i])
    {
      var full := q.PutNowait(events[i]);
      i := i + 1;
      assert events[..i][..i - 1] == events[..i - 1];
    }
    assert events[..i] == events;
  }

  /** The machine stands where the code stands: same place, same queue, same output. */
  ghost predicate InStep(st: Stream, first: Stream, moves: seq<Move>, i: nat, q: Queue, out: seq<Chunk>)
    reads q
  {
    i <= |moves| && st == Play(first, moves[..i]) && st.queue == q.items && st.out == out
  }

  lemma StaysBlocked(st: Stream, m: Move)
    requires st.pc.Waiting? && OfferAll(st.queue, m.arrivals) == [] && m.now < st.waitStart + HEARTBEAT
    ensures Turn(st, m) == st.(queue := [])
  {
  }

  /** q.get with its timeout: blocked until there is a message or HEARTBEAT seconds have gone by. */
  method Get(q: Queue, waitStart: real, moves: seq<Move>, i0: nat, ghost first: Stream, ghost out: seq<Chunk>)
    returns (i: nat, ghost st: Stream)
    requires i0 <= |moves| && InStep(Play(first, moves[..i0]), first, moves, i0, q, out)
    requires Play(first, moves[..i0]).pc.Waiting? && Play(first, moves[..i0]).waitStart == waitStart
    modifies q
    ensures i0 <= i <= |moves| && st == Play(first, moves[..i]) && st.out == out && st.pc.Waiting? && st.waitStart == waitStart
    ensures st.loopStart == Play(first, moves[..i0]).loopStart
    ensures i < |moves| ==> q.items == OfferAll(st.queue, moves[i].arrivals)
    ensures i < |moves| ==> q.items != [] || waitStart + HEARTBEAT <= moves[i].now
  {
    i := i0;
    st := Play(first, moves[..i]);
    while i < |moves|
      invariant i0 <= i && InStep(st, first, moves, i, q, out) && st.pc.Waiting? && st.waitStart == waitStart
      invariant st.loopStart == Play(first, moves[..i0]).loopStart
      decreases |moves| - i
    {
      Receive(q, moves[i].arrivals);
      if q.items != [] || waitStart + HEARTBEAT <= moves[i].now {
        return;
      }
      PlayOneMore(first, moves, i);
      StaysBlocked(st, moves[i]);
      st := Turn(st, moves[i]);
      i := i + 1;
    }
  }

  /** Back at the loop test after i moves, or finished with all of the output. */
  ghost predicate Round(done: bool, first: Stream, moves: seq<Move>, i: nat, q: Queue, out: seq<Chunk>, deadline: real)
    reads q
  {
    && i <= |moves|
    && if done then out == Play(first, moves).out
       else
         && InStep(Play(first, moves[..i]), first, moves, i, q, out)
         && Play(first, moves[..i]).pc.Looping? && Play(first, moves[..i]).loopStart + MAX_STREAM == deadline
  }

  /** At one of the two checks: gone clients and failing reads end the stream in silence. */
  lemma CheckBreaks(st: Stream, m: Move)
    requires st.pc.FirstChecking? || st.pc.HeartbeatChecking?
    requires m.close || m.check.Raised?
    ensures Turn(st, m).pc.Ended? && Turn(st, m).out == st.out
  {
  }

  lemma CheckFinds(st: Stream, m: Move)
    requires st.pc.FirstChecking? || st.pc.HeartbeatChecking?
    requires !m.close && m.check.Found?
    ensures Turn(st, m).pc.Ended? && Turn(st, m).out == st.out + [Data(m.check.event)]
  {
  }

  /** A check that ends the stream decides its output. */
  lemma CheckEnds(first: Stream, moves: seq<Move>, i: nat, out: seq<Chunk>)
    requires i < |moves| && (moves[i].close || !moves[i].check.StillWaiting?)
    requires var st := Play(first, moves[..i]); (st.pc.FirstChecking? || st.pc.HeartbeatChecking?) && st.out == out
    ensures Play(first, moves).out ==
      if moves[i].close || moves[i].check.Raised? then out else out + [Data(moves[i].check.event)]
  {
    var st, m := Play(first, moves[..i]), moves[i];
    PlayOneMore(first, moves, i);
    if m.close || m.check.Raised? {
      CheckBreaks(st, m);
    } else {
      CheckFinds(st, m);
    }
    PlayAfterEnd(first, moves, i + 1);
  }

  lemma CheckPasses(st: Stream, m: Move)
    requires st.pc.FirstChecking? || st.pc.HeartbeatChecking?
    requires !m.close && m.check.StillWaiting?
    ensures Turn(st, m).pc.Looping? && Turn(st, m).queue == OfferAll(st.queue, m.arrivals)
    ensures st.pc.FirstChecking? ==> Turn(st, m).out == st.out && Turn(st, m).loopStart == m.now
    ensures st.pc.HeartbeatChecking? ==> Turn(st, m).out == st.out + [Keepalive] && Turn(st, m).loopStart == st.loopStart
  {
  }

  lemma LoopBreaks(st: Stream, m: Move)
    requires st.pc.Looping? && m.close && |st.out| > 2
    ensures Turn(st, m).pc.Ended? && Turn(st, m).out == st.out
  {
  }

  lemma LoopEnds(st: Stream, m: Move)
    requires st.pc.Looping? && !(m.close && |st.out| > 2) && m.now >= st.loopStart + MAX_STREAM
    ensures Turn(st, m).pc.Ended? && Turn(st, m).out == st.out + [Data(ExpiredEvent)]
  {
  }

  lemma LoopWaits(st: Stream, m: Move)
    requires st.pc.Looping? && !(m.close && |st.out| > 2) && m.now < st.loopStart + MAX_STREAM
    ensures Turn(st, m) == st.(pc := Waiting, waitStart := m.now, queue := OfferAll(st.queue, m.arrivals))
  {
  }

  /** queue.Empty: the safety-net check, then a keepalive. */
  method Heartbeat(q: Queue, deadline: real, moves: seq<Move>, i0: nat, ghost first: Stream, out0: seq<Chunk>)
    returns (i: nat, out: seq<Chunk>, done: bool)
    requires i0 <= |moves| && InStep(Play(first, moves[..i0]), first, moves, i0, q, out0)
    requires Play(first, moves[..i0]).pc.HeartbeatChecking? && Play(first, moves[..i0]).loopStart + MAX_STREAM == deadline
    modifies q
    ensures i >= i0 && Round(done, first, moves, i, q, out, deadline)
  {
    i, out, done := i0, out0, true;
    if i == |moves| {
      assert moves[..i] == moves;
      return;
    }
    var m := moves[i];
    ghost var st := Play(first, moves[..i]);
    Receive(q, m.arrivals);
    PlayOneMore(first, moves, i);
    i := i + 1;
    if m.close || m.check.Raised? {
      CheckBreaks(st, m);
      PlayAfterEnd(first, moves, i);
      return;
    }
    if m.check.Found? {
      out := out + [Data(m.check.event)];
      CheckFinds(st, m);
      PlayAfterEnd(first, moves, i);
      return;
    }
    CheckPasses(st, m);
    out, done := out + [Keepalive], false;
  }

  lemma WakesUp(st: Stream, m: Move, items: seq<Event>)
    requires st.pc.Waiting? && items == OfferAll(st.queue, m.arrivals)
    requires items != [] || st.waitStart + HEARTBEAT <= m.now
    ensures items == [] ==> Turn(st, m) == st.(queue := [], pc := HeartbeatChecking)
    ensures items != [] ==>
      var pc := if IsTerminal(items[0]) then Ended(ByMessage, m.now) else Looping;
      Turn(st, m) == Emit(st.(queue := items[1..]), Data(items[0]), pc)
  {
  }

  /** The message goes out; a terminal one is the last. */
  method Forward(q: Queue, deadline: real, moves: seq<Move>, i: nat, ghost first: Stream, ghost st: Stream, out0: seq<Chunk>)
    returns (out: seq<Chunk>, done: bool)
    requires i < |moves| && st == Play(first, moves[..i]) && st.out == out0
    requires st.pc.Waiting? && st.loopStart + MAX_STREAM == deadline
    requires q.items != [] && q.items == OfferAll(st.queue, moves[i].arrivals)
    modifies q
    ensures Round(done, first, moves, i + 1, q, out, deadline)
  {
    PlayOneMore(first, moves, i);
    WakesUp(st, moves[i], q.items);
    var e := q.Pop();
    out, done := out0 + [Data(e)], IsTerminal(e);
    if done {
      PlayAfterEnd(first, moves, i + 1);
    }
  }

  /** The body of the loop after the test: q.get, then the message or the heartbeat. */
  method AfterTest(q: Queue, start: real, deadline: real, moves: seq<Move>, i0: nat, ghost first: Stream, out0: seq<Chunk>)
    returns (i: nat, out: seq<Chunk>, done: bool)
    requires i0 <= |moves| && InStep(Play(first, moves[..i0]), first, moves, i0, q, out0)
    requires var st := Play(first, moves[..i0]); st.pc.Waiting? && st.waitStart == start && st.loopStart + MAX_STREAM == deadline
    modifies q
    ensures i >= i0 && Round(done, first, moves, i, q, out, deadline)
  {
    out, done := out0, true;
    ghost var st;
    i, st := Get(q, start, moves, i0, first, out);
    if i == |moves| {
      assert moves[..i] == moves;
    } else if q.items != [] {
      out, done := Forward(q, deadline, moves, i, first, st, out);
      i := i + 1;
    } else {
      PlayOneMore(first, moves, i);
      WakesUp(st, moves[i], q.items);
      i, out, done := Heartbeat(q, deadline, moves, i + 1, first, out);
    }
  }

  /** One round of the loop: its test, which may be its last, and the body. */
  method LoopRound(q: Queue, deadline: real, moves: seq<Move>, i0: nat, ghost first: Stream, out0: seq<Chunk>)
    returns (i: nat, out: seq<Chunk>, done: bool)
    requires i0 < |moves| && Round(false, first, moves, i0, q, out0, deadline)
    modifies q
    ensures i > i0 && Round(done, first, moves, i, q, out, deadline)
  {
    out, done := out0, true;
    var m := moves[i0];
    ghost var st := Play(first, moves[..i0]);
    Receive(q, m.arrivals);
    PlayOneMore(first, moves, i0);
    i := i0 + 1;
    if m.close && |out| > 2 {
      LoopBreaks(st, m);
      PlayAfterEnd(first, moves, i);
      return;
    }
    if m.now >= deadline {
      out := out + [Data(ExpiredEvent)];
      LoopEnds(st, m);
      PlayAfterEnd(first, moves, i);
      return;
    }
    LoopWaits(st, m);
    i, out, done := AfterTest(q, m.now, deadline, moves, i, first, out);
  }

  /** The while loop and what follows it. */
  method Loop(q: Queue, deadline: real, moves: seq<Move>, i0: nat, ghost first: Stream, out0: seq<Chunk>)
    returns (out: seq<Chunk>)
    requires Round(false, first, moves, i0, q, out0, deadline)
    modifies q
    ensures out == Play(first, moves).out
  {
    out := out0;
    var i, done := i0, false;
    while i < |moves| && !done
      invariant Round(done, first, moves, i, q, out, deadline)
      decreases |moves| - i
    {
      i, out, done := LoopRound(q, deadline, moves, i, first, out);
    }
    if !done {
      // The schedule is used up while the generator is suspended.
      assert moves[..i] == moves;
    }
  }

  /** The check after subscribing, and the loop if it finds nothing. */
  method CheckThenLoop(q: Queue, moves: seq<Move>, ghost first: Stream, out0: seq<Chunk>) returns (out: seq<Chunk>)
    requires |moves| >= 3 && InStep(Play(first, moves[..3]), first, moves, 3, q, out0)
    requires Play(first, moves[..3]).pc.FirstChecking?
    modifies q
    ensures out == Play(first, moves).out
  {
    out := out0;
    if |moves| == 3 {
      assert moves[..3] == moves;
      return;
    }
    var m := moves[3];
    ghost var st := Play(first, moves[..3]);
    Receive(q, m.arrivals);
    PlayOneMore(first, moves, 3);
    if m.close || m.check.Raised? {
      CheckEnds(first, moves, 3, out);
      return;
    }
    if m.check.Found? {
      CheckEnds(first, moves, 3, out);
      out := out + [Data(m.check.event)];
      return;
    }
    CheckPasses(st, m);
    assert Round(false, first, moves, 4, q, out, m.now + MAX_STREAM);
    out := Loop(q, m.now + MAX_STREAM, moves, 4, first, out);
  }

  /** The try block. */
  method Serve(q: Queue, phase: Phase, moves: seq<Move>, ghost first: Stream) returns (out: seq<Chunk>)
    requires |moves| >= 1 && InStep(Play(first, moves[..1]), first, moves, 1, q, [])
    requires Play(first, moves[..1]).pc.Retrying? && Play(first, moves[..1]).phase == phase
    modifies q
    ensures out == Play(first, moves).out
  {
    out := [];
    if |moves| == 1 {
      assert moves[..1] == moves;
      return;
    }
    Receive(q, moves[1].arrivals);
    PlayOneMore(first, moves, 1);
    out := out + [Retry];
    if |moves| == 2 {
      assert moves[..2] == moves;
      return;
    }
    Receive(q, moves[2].arrivals);
    PlayOneMore(first, moves, 2);
    if moves[2].close {
      PlayAfterEnd(first, moves, 3);
      return;
    }
    out := out + [Data(ConnectedEvent(phase))];
    out := CheckThenLoop(q, moves, first, out);
  }

  /**
   The generator gives exactly the output of the machine, for every schedule, and on every way out, return,
   exception or disconnect, it leaves the hub's registry as it found it.
   */
  method Generate(hub: EventHub, me: nat, worker: nat, sid: SessionId, phase: Phase, openedAt: real, moves: seq<Move>)
    returns (out: seq<Chunk>)
    requires hub.Valid(me)
    modifies hub
    ensures out == Play(Opened(worker, sid, phase, openedAt), moves).out
    ensures hub.Valid(me) && hub.pid in {old(hub.pid), Some(me)}
    ensures hub.listeners == old(hub.listeners) + (if hub.pid == old(hub.pid) then 0 else 1)
    ensures old(hub.pid) == Some(me) ==> hub.queues == old(hub.queues)
    ensures old(hub.pid) != Some(me) ==> hub.queues == old(hub.queues) || hub.queues == map[]
  {
    ghost var first := Opened(worker, sid, phase, openedAt);
    if |moves| == 0 {
      return [];
    }
    PlayOneMore(first, moves, 0);
    if moves[0].close {
      PlayAfterEnd(first, moves, 1);
      return [];
    }
    var q := hub.Subscribe(me, sid);
    ghost var before := if old(hub.pid) == Some(me) then old(hub.queues) else map[];
    out := Serve(q, phase, moves, first);
    hub.Unsubscribe(me, sid, q);
    AddThenRemove(before, sid, q);
  }
}
