/** One worker's hub: the registry of queues, the channel names, and the fan-out of one message. */
module EventHub {
  import opened Domain
  import opened Registry
  import StreamMachine
  import HubStart

  // ---- Channel names ----

  const PREFIX := "session:"
  const SUFFIX := ":events"

  /** SessionStore._channel */
  function Channel(sid: SessionId): string {
    PREFIX + sid + SUFFIX
  }

  /** What the pattern session:*:events matches. */
  predicate Matches(channel: string) {
    && |channel| >= |PREFIX| + |SUFFIX|
    && channel[..|PREFIX|] == PREFIX
    && channel[|channel| - |SUFFIX|..] == SUFFIX
  }

  /** channel[len(_PREFIX):-len(_SUFFIX)] */
  function SessionOf(channel: string): SessionId
    requires Matches(channel)
  {
    channel[|PREFIX|..|channel| - |SUFFIX|]
  }

  /** Names and ids correspond one to one, whatever characters an id contains. */
  lemma ChannelRoundTrip(sid: SessionId, channel: string)
    ensures Channel(sid) == "session:" + sid + ":events"
    ensures Matches(Channel(sid)) && SessionOf(Channel(sid)) == sid
    ensures Matches(channel) ==> Channel(SessionOf(channel)) == channel
  {
    var c := Channel(sid);
    assert c[..|PREFIX|] == PREFIX;
    assert c[|c| - |SUFFIX|..] == SUFFIX;
    if Matches(channel) {
      assert channel == channel[..|PREFIX|] + channel[|PREFIX|..|channel| - |SUFFIX|] + channel[|channel| - |SUFFIX|..];
    }
  }

  // ---- Queues ----

  /** queue.Queue(maxsize=10) */
  class Queue {
    var items: seq<Event>

    constructor ()
      ensures items == []
    {
      items := [];
    }

    /** full is the queue.Full exception. */
    method PutNowait(e: Event) returns (full: bool)
      modifies this
      ensures full == (|old(items)| >= 10)
      ensures items == StreamMachine.Offer(old(items), e)
    {
      full := |items| >= StreamMachine.QUEUE_SIZE;
      if !full {
        items := items + [e];
      }
    }

    method Pop() returns (e: Event)
      requires items != []
      modifies this
      ensures [e] + items == old(items)
    {
      e := items[0];
      items := items[1..];
    }
  }

  // ---- The hub ----

  class EventHub {
    var queues: Registry<Queue>
    var pid: Option<nat>
    var listeners: nat

    /** Once this process has a listener, the registry holds nothing but its own queues, and never an empty set. */
    ghost predicate Valid(me: nat)
      reads this
    {
      pid == Some(me) ==> forall sid :: sid in queues ==> queues[sid] != {}
    }

    /** x is this process in the start-up machine, the registry aside. */
    ghost predicate Mirrors(x: HubStart.Process)
      reads this
    {
      x.pid == pid && x.listeners == listeners
    }

    /**
     Starts a listener, over an emptied registry, exactly if this process has none yet: just what the
     start-up machine does before it registers, when one thread calls and nobody interrupts it.
     */
    method EnsureListener(me: nat)
      requires Valid(me)
      modifies this
      ensures Valid(me) && pid == Some(me)
      ensures old(pid) == Some(me) ==> queues == old(queues) && listeners == old(listeners)
      ensures old(pid) != Some(me) ==> queues == map[] && listeners == old(listeners) + 1
      ensures forall x: HubStart.Process, t, serial :: old(Mirrors(x)) && t in x.threads && x.lock == None ==>
        var y := HubStart.Called(me, x, t, serial);
        && Mirrors(y)
        && y.registry == (if old(pid) == Some(me) then x.registry else {}) + {HubStart.Sub(me, serial)}
    {
      ghost var p0, l0 := pid, listeners;
      if pid != Some(me) {
        queues := map[];
        listeners := listeners + 1;
        pid := Some(me);
      }
      forall x: HubStart.Process, t, serial | x.pid == p0 && x.listeners == l0 && t in x.threads && x.lock == None
        ensures Mirrors(HubStart.Called(me, x, t, serial))
        ensures HubStart.Called(me, x, t, serial).registry == HubStart.Kept(me, x) + {HubStart.Sub(me, serial)}
      {
        HubStart.CalledStartsOnce(me, x, t, serial);
      }
    }

    method Subscribe(me: nat, sid: SessionId) returns (q: Queue)
      requires Valid(me)
      modifies this
      ensures Valid(me) && pid == Some(me)
      ensures fresh(q) && q.items == []
      ensures listeners == old(listeners) + (if old(pid) == Some(me) then 0 else 1)
      ensures queues == Add(if old(pid) == Some(me) then old(queues) else map[], sid, q)
    {
      EnsureListener(me);
      q := new Queue();
      var qs := if sid in queues then queues[sid] else {};
      qs := qs + {q};
      queues := queues[sid := qs];
      assert q in qs;
    }

    method Unsubscribe(me: nat, sid: SessionId, q: Queue)
      requires Valid(me)
      modifies this
      ensures Valid(me) && pid == old(pid) && listeners == old(listeners)
      ensures queues == Remove(old(queues), sid, q)
    {
      if sid in queues {
        var qs := queues[sid] - {q};
        if qs == {} {
          queues := queues - {sid};
        } else {
          queues := queues[sid := qs];
        }
      }
    }

    /** One pattern message: every queue of that channel's session is offered the event, and no other queue is touched. */
    method FanOut(channel: string, e: Event)
      requires Matches(channel)
      modifies Listeners(queues, SessionOf(channel))
      ensures unchanged(this)
      ensures forall q :: q in Listeners(queues, SessionOf(channel)) ==> q.items == StreamMachine.Offer(old(q.items), e)
    {
      var todo := if SessionOf(channel) in queues then queues[SessionOf(channel)] else {};
      ghost var all := todo;
      while todo != {}
        invariant todo <= all
        invariant forall q :: q in todo ==> q.items == old(q.items)
        invariant forall q :: q in all - todo ==> q.items == StreamMachine.Offer(old(q.items), e)
        decreases |todo|
      {
        var q :| q in todo;
        var full := q.PutNowait(e);
        todo := todo - {q};
      }
    }
  }

  /** Subscribing and unsubscribing again leaves a registry without empty sets as it was. */
  lemma AddThenRemove<Q>(r: Registry<Q>, sid: SessionId, q: Q)
    requires sid in r ==> r[sid] != {}
    requires q !in Listeners(r, sid)
    ensures Remove(Add(r, sid, q), sid, q) == r
  {
    var s := Add(r, sid, q);
    if sid in r {
      assert s[sid] - {q} == r[sid];
    } else {
      assert s[sid] - {q} == {};
      assert s - {sid} == r;
    }
  }
}
