/**
 EmbeddingClient.embed: two attempts at most, under a bounded number of slots per worker. First any number
 of callers as a step machine; then the body itself, on a real semaphore, with the others at work around it.
 */
module EmbeddingClient {
  import opened Domain

  /** What resp.json() gives; the fields are None when absent. */
  datatype Body = NotJson | Json(success: bool, vector: Option<seq<real>>)

  /** How one POST comes out. */
  datatype Outcome =
    | ConnectionError
    | ReadTimeout
    | OtherException
    | Response(status: int, body: Body)

  /** Worth a second attempt: the container may be restarting. */
  predicate Retryable(o: Outcome) {
    o.ConnectionError? || (o.Response? && (o.status == 502 || o.status == 504))
  }

  predicate Good(o: Outcome) {
    && o.Response? && o.status == 200
    && o.body.Json? && o.body.success && o.body.vector.Some? && o.body.vector.value != []
  }

  /** The attempt that decides: the first, unless it was retryable. */
  function Deciding(posts: (Outcome, Outcome)): Outcome {
    if Retryable(posts.0) then posts.1 else posts.0
  }

  function Vector(o: Outcome): Option<seq<real>> {
    if Good(o) then o.body.vector else None
  }

  // ---- Many callers at once ----

  datatype Pc =
    | Wanting
    | Holding(tried: seq<Outcome>)
    | Done(result: Option<seq<real>>, tried: seq<Outcome>)

  datatype State = State(free: int, callers: map<nat, Pc>)

  datatype Step =
    | Arrive(c: nat)
    | Take(c: nat)
    | GiveUp(c: nat)                  // no slot after SLOT_WAIT seconds
    | Post(c: nat, outcome: Outcome)
    | Leave(c: nat)                   // the finally block

  /** The call is over, in the sense that no further POST follows. */
  predicate Over(tried: seq<Outcome>) {
    |tried| >= 1 && (|tried| >= 2 || !Retryable(tried[0]))
  }

  predicate Enabled(s: State, step: Step) {
    match step
    case Arrive(c) => c !in s.callers
    case Take(c) => c in s.callers && s.callers[c].Wanting? && s.free > 0
    case GiveUp(c) => c in s.callers && s.callers[c].Wanting?
    case Post(c, _) => c in s.callers && s.callers[c].Holding? && !Over(s.callers[c].tried)
    case Leave(c) => c in s.callers && s.callers[c].Holding? && Over(s.callers[c].tried)
  }

  function Do(s: State, step: Step): State
    requires Enabled(s, step)
  {
    match step
    case Arrive(c) => s.(callers := s.callers[c := Wanting])
    case Take(c) => State(s.free - 1, s.callers[c := Holding([])])
    case GiveUp(c) => s.(callers := s.callers[c := Done(None, [])])
    case Post(c, o) => s.(callers := s.callers[c := Holding(s.callers[c].tried + [o])])
    case Leave(c) =>
      var tried := s.callers[c].tried;
      State(s.free + 1, s.callers[c := Done(Vector(tried[|tried| - 1]), tried)])
  }

  function Holders(s: State): set<nat> {
    set c | c in s.callers && s.callers[c].Holding?
  }

  ghost predicate Proper(tried: seq<Outcome>) {
    |tried| <= 2 && (|tried| == 2 ==> Retryable(tried[0]))
  }

  ghost predicate CallerOk(pc: Pc) {
    match pc
    case Wanting => true
    case Holding(tried) => Proper(tried)
    case Done(result, tried) =>
      Proper(tried) && (if tried == [] then result == None else Over(tried) && result == Vector(tried[|tried| - 1]))
  }

  ghost predicate Inv(bound: nat, s: State) {
    && s.free + |Holders(s)| == bound && s.free >= 0
    && forall c :: c in s.callers ==> CallerOk(s.callers[c])
  }

  predicate Runs(s: State, steps: seq<Step>)
    decreases |steps|
  {
    steps == [] || (Enabled(s, steps[0]) && Runs(Do(s, steps[0]), steps[1..]))
  }

  function After(s: State, steps: seq<Step>): State
    requires Runs(s, steps)
    decreases |steps|
  {
    if steps == [] then s else After(Do(s, steps[0]), steps[1..])
  }

  lemma KeepCallers(s: State, step: Step, c: nat)
    requires Enabled(s, step) && (c in s.callers ==> CallerOk(s.callers[c]))
    ensures c in Do(s, step).callers ==> CallerOk(Do(s, step).callers[c])
  {
  }

  /** Taking and leaving are the steps that change who holds a slot, and the free slots go with them. */
  lemma KeepCount(s: State, step: Step)
    requires Enabled(s, step)
    ensures Do(s, step).free + |Holders(Do(s, step))| == s.free + |Holders(s)|
  {
    var t := Do(s, step);
    match step
    case Take(c) =>
      TakeHolds(s, c);
      assert Holders(t) == Holders(s) + {c};
    case Leave(c) =>
      LeaveFrees(s, c);
      assert Holders(t) == Holders(s) - {c};
    case _ => OthersHold(s, step);
  }

  lemma TakeHolds(s: State, c: nat)
    requires Enabled(s, Take(c))
    ensures c !in Holders(s) && Holders(Do(s, Take(c))) == Holders(s) + {c}
  {
  }

  lemma LeaveFrees(s: State, c: nat)
    requires Enabled(s, Leave(c))
    ensures c in Holders(s) && Holders(Do(s, Leave(c))) == Holders(s) - {c}
  {
  }

  lemma OthersHold(s: State, step: Step)
    requires Enabled(s, step) && !step.Take? && !step.Leave?
    ensures Holders(Do(s, step)) == Holders(s)
  {
  }

  lemma KeepStep(bound: nat, s: State, step: Step)
    requires Inv(bound, s) && Enabled(s, step)
    ensures Inv(bound, Do(s, step))
  {
    KeepCount(s, step);
    forall c | c in Do(s, step).callers
      ensures CallerOk(Do(s, step).callers[c])
    {
      KeepCallers(s, step, c);
    }
  }

  /**
   Slot conservation over every interleaving: free slots and holders always add up to the bound, so no
   release can overflow; no call sends more than two POSTs, the second only after a retryable first; and
   a finished call has a vector exactly when its last POST was a good 200.
   */
  lemma {:induction false} SlotsConserved(bound: nat, s: State, steps: seq<Step>)
    requires Inv(bound, s) && Runs(s, steps)
    ensures var t := After(s, steps);
      && Inv(bound, t)
      && 0 <= t.free <= bound
      && (forall c :: c in t.callers && t.callers[c].Holding? ==> t.free < bound)
    decreases |steps|
  {
    if steps != [] {
      KeepStep(bound, s, steps[0]);
      SlotsConserved(bound, Do(s, steps[0]), steps[1..]);
    } else {
      forall c | c in s.callers && s.callers[c].Holding?
        ensures s.free < bound
      {
        assert c in Holders(s);
      }
    }
  }

  lemma SlotsConservedFromStart(bound: nat, steps: seq<Step>, c: nat)
    requires Runs(State(bound, map[]), steps)
    ensures var t := After(State(bound, map[]), steps);
      && t.free + |Holders(t)| == bound && 0 <= t.free
      && (c in t.callers && t.callers[c].Done? ==>
            var pc := t.callers[c];
            && |pc.tried| <= 2
            && (|pc.tried| == 2 ==> pc.tried[0].ConnectionError? || (pc.tried[0].Response? && pc.tried[0].status in {502, 504}))
            && (|pc.tried| == 1 ==> !pc.tried[0].ConnectionError? && (pc.tried[0].Response? ==> pc.tried[0].status !in {502, 504}))
            && (pc.result.Some? <==>
                  && pc.tried != []
                  && var last := pc.tried[|pc.tried| - 1];
                  last.Response? && last.status == 200 && last.body.Json? && last.body.success && last.body.vector.Some? && last.body.vector.value != [])
            && (pc.result.Some? ==> pc.result == pc.tried[|pc.tried| - 1].body.vector))
  {
    var s := State(bound, map[]);
    assert Holders(s) == {};
    SlotsConserved(bound, s, steps);
  }

  // ---- The body, with others at work ----

  function Who(step: Step): nat {
    match step
    case Arrive(c) => c
    case Take(c) => c
    case GiveUp(c) => c
    case Post(c, _) => c
    case Leave(c) => c
  }

  /** The steps of a run that are call c's. */
  function OfCall(run: seq<Step>, c: nat): seq<Step> {
    if run == [] then []
    else OfCall(run[..|run| - 1], c) + (if Who(run[|run| - 1]) == c then [run[|run| - 1]] else [])
  }

  function Posts(c: nat, tried: seq<Outcome>): seq<Step> {
    seq(|tried|, i requires 0 <= i < |tried| => Post(c, tried[i]))
  }

  lemma {:induction false} RunOneMore(s: State, run: seq<Step>, step: Step)
    requires Runs(s, run) && Enabled(After(s, run), step)
    ensures Runs(s, run + [step]) && After(s, run + [step]) == Do(After(s, run), step)
    decreases |run|
  {
    if run == [] {
      assert [step][1..] == [] && run + [step] == [step];
    } else {
      RunOneMore(Do(s, run[0]), run[1..], step);
      assert (run + [step])[1..] == run[1..] + [step];
    }
  }

  /** Others do what they can of a list of steps. */
  function OthersDone(s: State, c: nat, batch: seq<Step>): State {
    if batch == [] then s
    else
      var t := OthersDone(s, c, batch[..|batch| - 1]);
      var step := batch[|batch| - 1];
      if Who(step) != c && Enabled(t, step) then Do(t, step) else t
  }

  /** acquire with its timeout: looks for a free slot, and again whenever the others have done something, until time is up. */
  predicate GetsSlot(s: State, c: nat, waits: seq<seq<Step>>)
    decreases |waits|
  {
    s.free > 0 || (waits != [] && GetsSlot(OthersDone(s, c, waits[0]), c, waits[1..]))
  }

  /** threading.BoundedSemaphore: releasing more often than acquiring raises ValueError. */
  class BoundedSemaphore {
    const bound: nat
    var value: nat

    constructor (bound: nat)
      ensures this.bound == bound && value == bound
    {
      this.bound := bound;
      value := bound;
    }

    /** One look at the semaphore. */
    method TryAcquire() returns (ok: bool)
      modifies this
      ensures ok == (old(value) > 0)
      ensures value == if ok then old(value) - 1 else old(value)
    {
      ok := value > 0;
      if ok {
        value := value - 1;
      }
    }

    method Release() returns (overflow: bool)
      modifies this
      ensures overflow == (old(value) >= bound)
      ensures value == if overflow then old(value) else old(value) + 1
    {
      overflow := value >= bound;
      if !overflow {
        value := value + 1;
      }
    }
  }

  /** A worker process: the semaphore, where every call stands, and everything that has happened since the start. */
  class Worker {
    const slots: BoundedSemaphore
    var s: State
    ghost var run: seq<Step>

    ghost predicate Valid()
      reads this, slots
    {
      && s.free == slots.value
      && Runs(State(slots.bound, map[]), run) && After(State(slots.bound, map[]), run) == s
    }

    constructor (bound: nat)
      ensures Valid() && fresh(slots) && slots.bound == bound && run == []
    {
      slots := new BoundedSemaphore(bound);
      s := State(bound, map[]);
      run := [];
    }

    /** One step of some call. The semaphore goes along, and a release finds it below its bound. */
    method Move(step: Step)
      requires Valid() && Enabled(s, step)
      modifies this, slots
      ensures Valid() && s == Do(old(s), step) && run == old(run) + [step]
    {
      assert Inv(slots.bound, s) by {
        assert Holders(State(slots.bound, map[])) == {};
        SlotsConserved(slots.bound, State(slots.bound, map[]), run);
      }
      RunOneMore(State(slots.bound, map[]), run, step);
      match step {
        case Take(_) =>
          var ok := slots.TryAcquire();
          assert ok;
        case Leave(c) =>
          assert c in Holders(s);
          var overflow := slots.Release();
          assert !overflow;
        case _ =>
      }
      s := Do(s, step);
      run := run + [step];
    }

    /** Between two moves of call c the others do what they can of a batch of steps. */
    method Others(c: nat, batch: seq<Step>)
      requires Valid()
      modifies this, slots
      ensures Valid() && s == OthersDone(old(s), c, batch)
      ensures old(run) <= run && OfCall(run, c) == OfCall(old(run), c)
      ensures c in s.callers <==> c in old(s).callers
      ensures c in s.callers ==> s.callers[c] == old(s).callers[c]
    {
      var i := 0;
      while i < |batch|
        invariant 0 <= i <= |batch|
        invariant Valid() && s == OthersDone(old(s), c, batch[..i])
        invariant old(run) <= run && OfCall(run, c) == OfCall(old(run), c)
        invariant c in s.callers <==> c in old(s).callers
        invariant c in s.callers ==> s.callers[c] == old(s).callers[c]
      {
        ghost var before := run;
        if Who(batch[i]) != c && Enabled(s, batch[i]) {
          Move(batch[i]);
          assert run[..|run| - 1] == before;
        }
        i := i + 1;
        assert batch[..i][..i - 1] == batch[..i - 1];
      }
      assert batch[..i] == batch;
    }

    /** Call c's own move. */
    method Mine(c: nat, step: Step)
      requires Valid() && Enabled(s, step) && Who(step) == c
      modifies this, slots
      ensures Valid() && s == Do(old(s), step)
      ensures old(run) <= run && OfCall(run, c) == OfCall(old(run), c) + [step]
    {
      ghost var before := run;
      Move(step);
      assert run[..|run| - 1] == before;
    }

    /** _slots.acquire(timeout=SLOT_WAIT) */
    method Acquire(c: nat, waits: seq<seq<Step>>) returns (ok: bool)
      requires Valid() && c in s.callers && s.callers[c].Wanting?
      modifies this, slots
      ensures Valid() && ok == GetsSlot(old(s), c, waits)
      ensures c in s.callers && s.callers[c] == if ok then Holding([]) else Done(None, [])
      ensures old(run) <= run && OfCall(run, c) == OfCall(old(run), c) + [if ok then Take(c) else GiveUp(c)]
    {
      var i := 0;
      while i < |waits| && s.free == 0
        invariant 0 <= i <= |waits|
        invariant Valid() && c in s.callers && s.callers[c].Wanting?
        invariant GetsSlot(s, c, waits[i..]) == GetsSlot(old(s), c, waits)
        invariant old(run) <= run && OfCall(run, c) == OfCall(old(run), c)
      {
        assert waits[i..][1..] == waits[i + 1..];
        Others(c, waits[i]);
        i := i + 1;
      }
      ok := s.free > 0;
      Mine(c, if ok then Take(c) else GiveUp(c));
    }

    /** The loop over the attempts, and what it returns. While the service answers, the others go on. */
    method Attempts(c: nat, posts: (Outcome, Outcome), during: (seq<Step>, seq<Step>))
      returns (result: Option<seq<real>>, tried: seq<Outcome>)
      requires Valid() && c in s.callers && s.callers[c] == Holding([])
      modifies this, slots
      ensures Valid() && c in s.callers && s.callers[c] == Holding(tried) && Over(tried)
      ensures tried ==
        if posts.0.ConnectionError? || (posts.0.Response? && posts.0.status in {502, 504}) then [posts.0, posts.1] else [posts.0]
      ensures result ==
        match tried[|tried| - 1]
        case Response(200, Json(true, Some(v))) => if v == [] then None else Some(v)
        case _ => None
      ensures old(run) <= run && OfCall(run, c) == OfCall(old(run), c) + Posts(c, tried)
    {
      result, tried := None, [];
      var attempt := 1;
      var returned := false;
      while attempt <= 2 && !returned
        invariant 1 <= attempt <= 2
        invariant Valid() && c in s.callers && s.callers[c] == Holding(tried)
        invariant attempt == 2 ==> Retryable(posts.0)
        invariant returned && attempt == 1 ==> !Retryable(posts.0)
        invariant tried == [posts.0, posts.1][..if returned then attempt else attempt - 1]
        invariant result == if returned then Vector(Deciding(posts)) else None
        invariant old(run) <= run && OfCall(run, c) == OfCall(old(run), c) + Posts(c, tried)
        decreases 2 - attempt, !returned
      {
        var o := if attempt == 1 then posts.0 else posts.1;
        Others(c, if attempt == 1 then during.0 else during.1);
        Mine(c, Post(c, o));
        assert Posts(c, tried + [o]) == Posts(c, tried) + [Post(c, o)];
        tried := tried + [o];
        match o {
          case ConnectionError =>
            if attempt == 1 {
              attempt := 2;
              continue;
            }
            returned := true;
          case ReadTimeout =>
            returned := true;
          case OtherException =>
            returned := true;
          case Response(status, body) =>
            if (status == 502 || status == 504) && attempt == 1 {
              attempt := 2;
              continue;
            }
            if status == 200 && body.Json? && body.success && body.vector.Some? && body.vector.value != [] {
              result := body.vector;
            }
            returned := true;
        }
      }
      // The loop is only left by a return: its fall-through is dead code.
      assert returned;
    }

    /**
     The whole call, for any behaviour of the service and of the other calls: its steps are those of the
     machine, a slot is had exactly if one is free when the call looks, a second POST follows exactly a
     connection error, a 502 or a 504 (no 503, no timeout), a vector comes back exactly for a 200 with a
     successful JSON body and a non-empty vector at the last POST, and the slot goes back.
     */
    method Embed(c: nat, waits: seq<seq<Step>>, posts: (Outcome, Outcome), during: (seq<Step>, seq<Step>))
      returns (result: Option<seq<real>>, tried: seq<Outcome>)
      requires Valid() && c !in s.callers
      modifies this, slots
      ensures Valid() && old(run) <= run
      ensures c in s.callers && s.callers[c] == Done(result, tried)
      ensures OfCall(run, c) == OfCall(old(run), c) +
        if tried == [] then [Arrive(c), GiveUp(c)] else [Arrive(c), Take(c)] + Posts(c, tried) + [Leave(c)]
      ensures tried ==
        if !GetsSlot(Do(old(s), Arrive(c)), c, waits) then []
        else if posts.0.ConnectionError? || (posts.0.Response? && posts.0.status in {502, 504}) then [posts.0, posts.1]
        else [posts.0]
      ensures result ==
        if tried == [] then None
        else match tried[|tried| - 1]
             case Response(200, Json(true, Some(v))) => if v == [] then None else Some(v)
             case _ => None
    {
      Mine(c, Arrive(c));
      var ok := Acquire(c, waits);
      if !ok {
        return None, [];
      }
      result, tried := Attempts(c, posts, during);
      Mine(c, Leave(c));
    }
  }
}
