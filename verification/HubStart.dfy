/**
 EventHub._ensure_listener and subscribe under any interleaving of threads and forks: one listener per
 process, and the reset of the registry, which a fork makes necessary, never drops a subscription that
 was made in the same process.
 */
module HubStart {
  import opened Domain

  type Pid = nat
  type Tid = nat

  /** A registered queue, by the process that registered it. */
  datatype Sub = Sub(owner: Pid, serial: nat)

  datatype Pc =
    | Idle
    | ReadPid                                                   // the check without the lock
    | WantLock | Recheck | Reset | StartListener | StorePid | Unlock
    | Register                                                  // back in subscribe

  datatype Process = Process(
    pid: Option<Pid>, lock: Option<Tid>, listeners: nat, registry: set<Sub>, live: set<Sub>, threads: map<Tid, Pc>)

  type State = map<Pid, Process>

  datatype Step =
    | Spawn(p: Pid, t: Tid)
    | Fork(p: Pid, t: Tid, child: Pid)
    | Call(p: Pid, t: Tid)
    | Go(p: Pid, t: Tid, serial: nat)
    | Unsubscribe(p: Pid, q: Sub)

  predicate Inside(pc: Pc) {
    pc.Recheck? || pc.Reset? || pc.StartListener? || pc.StorePid? || pc.Unlock?
  }

  predicate Enabled(s: State, step: Step) {
    match step
    case Spawn(p, t) => p in s && t !in s[p].threads
    case Fork(p, t, child) =>
      p in s && t in s[p].threads && s[p].threads[t].Idle? && s[p].lock == None && child !in s
    case Call(p, t) => p in s && t in s[p].threads && s[p].threads[t].Idle?
    case Go(p, t, serial) =>
      && p in s && t in s[p].threads && !s[p].threads[t].Idle?
      && (s[p].threads[t].WantLock? ==> s[p].lock == None)
      && (s[p].threads[t].Register? ==> Sub(p, serial) !in s[p].registry)
    case Unsubscribe(p, q) => p in s && q in s[p].live
  }

  function At(x: Process, t: Tid, pc: Pc): Process {
    x.(threads := x.threads[t := pc])
  }

  function Advance(me: Pid, x: Process, t: Tid, serial: nat): (y: Process)
    requires t in x.threads
    ensures t in y.threads
  {
    match x.threads[t]
    case ReadPid => At(x, t, if x.pid == Some(me) then Register else WantLock)
    case WantLock => At(x.(lock := Some(t)), t, Recheck)
    case Recheck => At(x, t, if x.pid == Some(me) then Unlock else Reset)
    case Reset => At(x.(registry := {}), t, StartListener)
    case StartListener => At(x.(listeners := x.listeners + 1), t, StorePid)
    case StorePid => At(x.(pid := Some(me)), t, Unlock)
    case Unlock => At(x.(lock := None), t, Register)
    case Register =>
      var q := Sub(me, serial);
      At(x.(registry := x.registry + {q}, live := x.live + {q}), t, Idle)
    case Idle => x
  }

  /** live: what this process has subscribed and not unsubscribed; a child starts with none. */
  function Do(s: State, step: Step): State
    requires Enabled(s, step)
  {
    match step
    case Spawn(p, t) => s[p := At(s[p], t, Idle)]
    case Fork(p, t, child) => s[child := Process(s[p].pid, None, 0, s[p].registry, {}, map[t := Idle])]
    case Call(p, t) => s[p := At(s[p], t, ReadPid)]
    case Go(p, t, serial) => s[p := Advance(p, s[p], t, serial)]
    case Unsubscribe(p, q) => s[p := s[p].(registry := s[p].registry - {q}, live := s[p].live - {q})]
  }

  ghost predicate ThreadOk(me: Pid, x: Process, t: Tid) {
    && t in x.threads
    && (Inside(x.threads[t]) <==> x.lock == Some(t))
    && match x.threads[t]
       case Reset | StartListener | StorePid =>
         && x.pid != Some(me)
         && x.listeners == (if x.threads[t].StorePid? then 1 else 0)
         && (!x.threads[t].Reset? ==> x.registry == {})
       case Unlock | Register => x.pid == Some(me)
       case _ => true
  }

  ghost predicate ProcessOk(s: State, me: Pid, x: Process) {
    && (x.pid.Some? ==> x.pid.value in s)
    && (x.lock.Some? ==> x.lock.value in x.threads)
    && (forall q :: q in x.registry ==> q.owner in s)
    && (forall q :: q in x.live ==> q.owner == me)
    && (if x.pid == Some(me) then x.registry == x.live && x.listeners == 1
        else x.live == {} && (forall q :: q in x.registry ==> q.owner != me))
    && (x.pid != Some(me) && (x.lock.None? || !x.threads[x.lock.value].StorePid?) ==> x.listeners == 0)
    && forall t :: t in x.threads ==> ThreadOk(me, x, t)
  }

  ghost predicate Inv(s: State) {
    forall p :: p in s ==> ProcessOk(s, p, s[p])
  }

  lemma AdvanceKeeps(s: State, me: Pid, t: Tid, serial: nat)
    requires Inv(s) && Enabled(s, Go(me, t, serial))
    ensures ProcessOk(s, me, Advance(me, s[me], t, serial))
  {
    var x := s[me];
    var y := Advance(me, x, t, serial);
    assert ProcessOk(s, me, x) && ThreadOk(me, x, t);
    assert ThreadOk(me, y, t);
    forall u | u in y.threads
      ensures ThreadOk(me, y, u)
    {
      if u != t {
        assert ThreadOk(me, x, u);
      }
    }
  }

  /** Changes that leave the lock, the listener and every other thread alone. */
  lemma QuietChange(s: State, me: Pid, y: Process)
    requires Inv(s) && me in s
    requires y.pid == s[me].pid && y.lock == s[me].lock && y.listeners == s[me].listeners
    requires y.registry <= s[me].registry && y.live <= s[me].live
    requires s[me].registry - y.registry == s[me].live - y.live
    requires forall t :: t in y.threads ==>
      if t in s[me].threads then y.threads[t] == s[me].threads[t] || (s[me].threads[t].Idle? && y.threads[t].ReadPid?)
      else y.threads[t].Idle?
    requires s[me].threads.Keys <= y.threads.Keys
    ensures ProcessOk(s, me, y)
  {
    var x := s[me];
    assert ProcessOk(s, me, x);
    forall t | t in y.threads
      ensures ThreadOk(me, y, t)
    {
      if t in x.threads {
        assert ThreadOk(me, x, t);
      }
    }
  }

  lemma KeepStep(s: State, step: Step)
    requires Inv(s) && Enabled(s, step)
    ensures Inv(Do(s, step))
  {
    var t := Do(s, step);
    match step
    case Go(q, u, serial) => AdvanceKeeps(s, q, u, serial);
    case Spawn(q, u) => QuietChange(s, q, t[q]);
    case Call(q, u) => QuietChange(s, q, t[q]);
    case Unsubscribe(q, sub) =>
      assert ProcessOk(s, q, s[q]);
      QuietChange(s, q, t[q]);
    case Fork(q, u, child) => assert ProcessOk(s, q, s[q]);
    forall p | p in t
      ensures ProcessOk(t, p, t[p])
    {
      if p in s {
        assert ProcessOk(s, p, s[p]);
      }
    }
  }

  predicate Runs(s: State, steps: seq<Step>)
    decreases |steps|
  {
    steps == [] || (Enabled(s, steps[0]) && Runs(Do(s, steps[0]), steps[1..]))
  }

  function After(s: State, steps: seq<Step>): State
    requires Runs(s, steps)
    decreases |steps|
  {
    if steps == [] then s else After(Do(s, steps[0]), steps[1..])
  }

  function Imported(root: Pid): State {
    map[root := Process(None, None, 0, {}, {}, map[0 := Idle])]
  }

  lemma {:induction false} KeepRun(s: State, steps: seq<Step>)
    requires Inv(s) && Runs(s, steps)
    ensures Inv(After(s, steps))
    decreases |steps|
  {
    if steps != [] {
      KeepStep(s, steps[0]);
      KeepRun(Do(s, steps[0]), steps[1..]);
    }
  }

  /**
   At every moment a process has at most one listener and its registry holds all its live subscriptions,
   so no reset has dropped one; as soon as it has a live subscription it has a listener and the registry
   holds nothing else, in particular nothing that the parent left behind.
   */
  lemma NoLiveSubscriptionDropped(root: Pid, steps: seq<Step>, p: Pid)
    requires Runs(Imported(root), steps) && p in After(Imported(root), steps)
    ensures var x := After(Imported(root), steps)[p];
      && x.listeners <= 1
      && x.live <= x.registry
      && (x.live != {} ==> x.listeners == 1 && x.registry == x.live && forall q :: q in x.registry ==> q.owner == p)
  {
    var s := Imported(root);
    assert ThreadOk(root, s[root], 0);
    KeepRun(s, steps);
    var x := After(s, steps)[p];
    assert ProcessOk(After(s, steps), p, x);
    if x.lock.Some? {
      assert ThreadOk(p, x, x.lock.value);
    }
  }

  // ---- One thread by itself ----

  /** Thread t goes on by itself, for at most n steps, until it is out of subscribe. */
  function Alone(me: Pid, x: Process, t: Tid, serial: nat, n: nat): (y: Process)
    requires t in x.threads
    ensures t in y.threads
    decreases n
  {
    if n == 0 || x.threads[t].Idle? then x else Alone(me, Advance(me, x, t, serial), t, serial, n - 1)
  }

  /** A whole call of subscribe by thread t; its longest way takes eight steps. */
  function Called(me: Pid, x: Process, t: Tid, serial: nat): (y: Process)
    requires t in x.threads
    ensures t in y.threads
  {
    Alone(me, At(x, t, ReadPid), t, serial, 8)
  }

  lemma {:induction false} AloneRuns(s: State, p: Pid, t: Tid, serial: nat, n: nat) returns (steps: seq<Step>)
    requires p in s && t in s[p].threads && Sub(p, serial) !in s[p].registry
    requires s[p].threads[t] in {ReadPid, WantLock} ==> s[p].lock == None
    ensures Runs(s, steps) && After(s, steps) == s[p := Alone(p, s[p], t, serial, n)]
    decreases n
  {
    if n == 0 || s[p].threads[t].Idle? {
      steps := [];
      assert s[p := s[p]] == s;
    } else {
      var u := Do(s, Go(p, t, serial));
      if u[p].threads[t].Idle? {
        steps := [Go(p, t, serial)];
        assert steps[1..] == [];
      } else {
        var rest := AloneRuns(u, p, t, serial, n - 1);
        steps := [Go(p, t, serial)] + rest;
        assert steps[1..] == rest;
        assert u[p := Alone(p, u[p], t, serial, n - 1)] == s[p := Alone(p, s[p], t, serial, n)];
      }
    }
  }

  /** The call is a run of the machine: nobody else moves meanwhile. */
  lemma CalledRuns(s: State, p: Pid, t: Tid, serial: nat) returns (steps: seq<Step>)
    requires p in s && t in s[p].threads && s[p].threads[t].Idle? && s[p].lock == None && Sub(p, serial) !in s[p].registry
    ensures Runs(s, steps) && After(s, steps) == s[p := Called(p, s[p], t, serial)]
  {
    var u := Do(s, Call(p, t));
    var rest := AloneRuns(u, p, t, serial, 8);
    steps := [Call(p, t)] + rest;
    assert steps[1..] == rest;
    assert u[p := Called(p, s[p], t, serial)] == s[p := Called(p, s[p], t, serial)];
  }

  /** The registry that a call of subscribe adds to. */
  function Kept(me: Pid, x: Process): set<Sub> {
    if x.pid == Some(me) then x.registry else {}
  }

  /** What an uninterrupted call comes to. */
  lemma CalledStartsOnce(me: Pid, x: Process, t: Tid, serial: nat)
    requires t in x.threads && x.lock == None
    ensures var y := Called(me, x, t, serial);
      && y.threads[t].Idle? && y.lock == None && y.pid == Some(me)
      && y.listeners == x.listeners + (if x.pid == Some(me) then 0 else 1)
      && y.registry == Kept(me, x) + {Sub(me, serial)}
  {
    var a := At(x, t, ReadPid);
    var b := Advance(me, a, t, serial);
    assert Called(me, x, t, serial) == Alone(me, b, t, serial, 7);
    if b.threads[t].Register? {
      Registers(me, b, t, serial, 7);
    } else {
      var c := Advance(me, b, t, serial);
      var d := Advance(me, c, t, serial);
      var e := Advance(me, d, t, serial);
      assert Alone(me, b, t, serial, 7) == Alone(me, c, t, serial, 6) == Alone(me, d, t, serial, 5) == Alone(me, e, t, serial, 4);
      var f := Advance(me, e, t, serial);
      var g := Advance(me, f, t, serial);
      var h := Advance(me, g, t, serial);
      assert Alone(me, e, t, serial, 4) == Alone(me, f, t, serial, 3) == Alone(me, g, t, serial, 2) == Alone(me, h, t, serial, 1);
      Registers(me, h, t, serial, 1);
    }
  }

  lemma Registers(me: Pid, x: Process, t: Tid, serial: nat, n: nat)
    requires t in x.threads && x.threads[t].Register? && n >= 1
    ensures Alone(me, x, t, serial, n) == Advance(me, x, t, serial)
  {
    var y := Advance(me, x, t, serial);
    assert Alone(me, x, t, serial, n) == Alone(me, y, t, serial, n - 1);
  }
}
