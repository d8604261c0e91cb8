/**
 get_redis: one connection pool per process, built on first use under a double-checked lock, with module
 globals that a forked child inherits from its parent.
 */
module RedisClient {
  import opened Domain

  type Pid = nat
  type Tid = nat

  /** A redis.Redis on its own pool, by the process that built it and a serial number. */
  datatype Client = Client(builtBy: Pid, serial: nat)

  // ---- Any number of processes and threads ----

  /** Where a thread stands; each step reads or writes one global. */
  datatype Pc =
    | Idle
    | ReadClient | ReadPid                                   // the check without the lock
    | WantLock | Recheck | Build | StoreClient(c: Client) | StorePid | Unlock
    | ReadResult | Returned(r: Option<Client>)

  datatype Process = Process(
    client: Option<Client>, pid: Option<Pid>, lock: Option<Tid>, pools: nat, threads: map<Tid, Pc>)

  type State = map<Pid, Process>

  datatype Step =
    | Spawn(p: Pid, t: Tid)
    | Fork(p: Pid, t: Tid, child: Pid)
    | Call(p: Pid, t: Tid)
    | Go(p: Pid, t: Tid)

  predicate Outside(pc: Pc) {
    pc.Idle? || pc.Returned?
  }

  /** Holding the lock. */
  predicate Inside(pc: Pc) {
    pc.Recheck? || pc.Build? || pc.StoreClient? || pc.StorePid? || pc.Unlock?
  }

  /** No lock is held at fork, and the forking thread is not in the middle of get_redis; child pids are new. */
  predicate Enabled(s: State, step: Step) {
    match step
    case Spawn(p, t) => p in s && t !in s[p].threads
    case Fork(p, t, child) =>
      p in s && t in s[p].threads && Outside(s[p].threads[t]) && s[p].lock == None && child !in s
    case Call(p, t) => p in s && t in s[p].threads && Outside(s[p].threads[t])
    case Go(p, t) =>
      p in s && t in s[p].threads && !Outside(s[p].threads[t]) && (s[p].threads[t].WantLock? ==> s[p].lock == None)
  }

  function At(x: Process, t: Tid, pc: Pc): Process {
    x.(threads := x.threads[t := pc])
  }

  function Advance(me: Pid, x: Process, t: Tid): (y: Process)
    requires t in x.threads
    ensures t in y.threads
  {
    match x.threads[t]
    case ReadClient => At(x, t, if x.client.Some? then ReadPid else WantLock)
    case ReadPid => At(x, t, if x.pid == Some(me) then ReadResult else WantLock)
    case WantLock => At(x.(lock := Some(t)), t, Recheck)
    case Recheck => At(x, t, if x.client.None? || x.pid != Some(me) then Build else Unlock)
    case Build => At(x.(pools := x.pools + 1), t, StoreClient(Client(me, x.pools)))
    case StoreClient(c) => At(x.(client := Some(c)), t, StorePid)
    case StorePid => At(x.(pid := Some(me)), t, Unlock)
    case Unlock => At(x.(lock := None), t, ReadResult)
    case ReadResult => At(x, t, Returned(x.client))
    case _ => x
  }

  function Do(s: State, step: Step): State
    requires Enabled(s, step)
  {
    match step
    case Spawn(p, t) => s[p := At(s[p], t, Idle)]
    case Fork(p, t, child) => s[child := Process(s[p].client, s[p].pid, None, 0, map[t := Idle])]
    case Call(p, t) => s[p := At(s[p], t, ReadClient)]
    case Go(p, t) => s[p := Advance(p, s[p], t)]
  }

  ghost predicate ThreadOk(me: Pid, x: Process, t: Tid) {
    && t in x.threads
    && (Inside(x.threads[t]) <==> x.lock == Some(t))
    && match x.threads[t]
       case Build | StoreClient(_) | StorePid =>
         && x.pid != Some(me)
         && x.pools == (if x.threads[t].Build? then 0 else 1)
         && (x.threads[t].StoreClient? ==> x.threads[t].c == Client(me, 0))
         && (x.threads[t].StorePid? ==> x.client == Some(Client(me, 0)))
       case Unlock | ReadResult => x.pid == Some(me)
       case Returned(r) => r == Some(Client(me, 0))
       case _ => true
  }

  ghost predicate ProcessOk(s: State, me: Pid, x: Process) {
    && (x.pid.Some? ==> x.pid.value in s)
    && (x.lock.Some? ==> x.lock.value in x.threads)
    && (x.pid == Some(me) ==> x.client == Some(Client(me, 0)) && x.pools == 1)
    && (x.pid != Some(me) && (x.lock.None? || x.threads[x.lock.value] in {Recheck, Build, Unlock}) ==> x.pools == 0)
    && forall t :: t in x.threads ==> ThreadOk(me, x, t)
  }

  ghost predicate Inv(s: State) {
    forall p :: p in s ==> ProcessOk(s, p, s[p])
  }

  lemma AdvanceKeeps(s: State, me: Pid, t: Tid)
    requires Inv(s) && Enabled(s, Go(me, t))
    ensures ProcessOk(s, me, Advance(me, s[me], t))
  {
    var x := s[me];
    var y := Advance(me, x, t);
    assert ProcessOk(s, me, x) && ThreadOk(me, x, t);
    assert ThreadOk(me, y, t);
    forall u | u in y.threads
      ensures ThreadOk(me, y, u)
    {
      if u != t {
        assert ThreadOk(me, x, u);
      }
    }
  }

  lemma KeepStep(s: State, step: Step)
    requires Inv(s) && Enabled(s, step)
    ensures Inv(Do(s, step))
  {
    var t := Do(s, step);
    forall p | p in t
      ensures ProcessOk(t, p, t[p])
    {
      if p in s {
        assert ProcessOk(s, p, s[p]);
      }
      match step
      case Go(q, u) =>
        if p == q {
          AdvanceKeeps(s, p, u);
        }
      case Fork(q, u, child) => assert ProcessOk(s, q, s[q]);
      case Spawn(q, u) =>
        if p == q {
          forall v | v in s[p].threads
            ensures ThreadOk(p, t[p], v)
          {
            assert ThreadOk(p, s[p], v);
          }
        }
      case Call(q, u) =>
        if p == q {
          forall v | v in s[p].threads
            ensures ThreadOk(p, t[p], v)
          {
            assert ThreadOk(p, s[p], v);
          }
        }
    }
  }

  predicate Runs(s: State, steps: seq<Step>)
    decreases |steps|
  {
    steps == [] || (Enabled(s, steps[0]) && Runs(Do(s, steps[0]), steps[1..]))
  }

  function After(s: State, steps: seq<Step>): State
    requires Runs(s, steps)
    decreases |steps|
  {
    if steps == [] then s else After(Do(s, steps[0]), steps[1..])
  }

  /** The module as imported, in one process with one thread. */
  function Imported(root: Pid): State {
    map[root := Process(None, None, None, 0, map[0 := Idle])]
  }

  lemma {:induction false} KeepRun(s: State, steps: seq<Step>)
    requires Inv(s) && Runs(s, steps)
    ensures Inv(After(s, steps))
    decreases |steps|
  {
    if steps != [] {
      KeepStep(s, steps[0]);
      KeepRun(Do(s, steps[0]), steps[1..]);
    }
  }

  /**
   Under any interleaving of threads and forks: a process builds at most one pool, whoever gets a client
   gets the one that its own process built, and the fast path never hands out an inherited one.
   */
  lemma OnePoolPerProcess(root: Pid, steps: seq<Step>, p: Pid, t: Tid)
    requires Runs(Imported(root), steps) && p in After(Imported(root), steps)
    ensures var x := After(Imported(root), steps)[p];
      && x.pools <= 1
      && (x.pid == Some(p) ==> x.client == Some(Client(p, 0)))
      && (t in x.threads && x.threads[t].Returned? ==> x.threads[t].r == Some(Client(p, 0)))
  {
    var s := Imported(root);
    assert ThreadOk(root, s[root], 0);
    KeepRun(s, steps);
    var x := After(s, steps)[p];
    assert ProcessOk(After(s, steps), p, x);
    if x.lock.Some? {
      assert ThreadOk(p, x, x.lock.value);
    }
    if t in x.threads {
      assert ThreadOk(p, x, t);
    }
  }

  // ---- The function, called by one thread ----

  /** Thread t goes on by itself, for at most n steps, until it is out of get_redis. */
  function Alone(me: Pid, x: Process, t: Tid, n: nat): (y: Process)
    requires t in x.threads
    ensures t in y.threads
    decreases n
  {
    if n == 0 || Outside(x.threads[t]) then x else Alone(me, Advance(me, x, t), t, n - 1)
  }

  /** A whole call of get_redis by thread t; its longest way takes nine steps. */
  function Called(me: Pid, x: Process, t: Tid): (y: Process)
    requires t in x.threads
    ensures t in y.threads
  {
    Alone(me, At(x, t, ReadClient), t, 9)
  }

  lemma {:induction false} AloneRuns(s: State, p: Pid, t: Tid, n: nat) returns (steps: seq<Step>)
    requires p in s && t in s[p].threads
    requires s[p].threads[t] in {ReadClient, ReadPid, WantLock} ==> s[p].lock == None
    ensures Runs(s, steps) && After(s, steps) == s[p := Alone(p, s[p], t, n)]
    decreases n
  {
    if n == 0 || Outside(s[p].threads[t]) {
      steps := [];
      assert s[p := s[p]] == s;
    } else {
      var u := Do(s, Go(p, t));
      var rest := AloneRuns(u, p, t, n - 1);
      steps := [Go(p, t)] + rest;
      assert steps[1..] == rest;
      assert u[p := Alone(p, u[p], t, n - 1)] == s[p := Alone(p, s[p], t, n)];
    }
  }

  /** The call is a run of the machine: nobody else moves meanwhile. */
  lemma CalledRuns(s: State, p: Pid, t: Tid) returns (steps: seq<Step>)
    requires p in s && t in s[p].threads && Outside(s[p].threads[t]) && s[p].lock == None
    ensures Runs(s, steps) && After(s, steps) == s[p := Called(p, s[p], t)]
  {
    var u := Do(s, Call(p, t));
    var rest := AloneRuns(u, p, t, 9);
    steps := [Call(p, t)] + rest;
    assert steps[1..] == rest;
    assert u[p := Called(p, s[p], t)] == s[p := Called(p, s[p], t)];
  }

  lemma LockedPart(me: Pid, x: Process, t: Tid, n: nat)
    requires t in x.threads && x.threads[t].WantLock? && x.lock == None && n >= 7
    ensures var y := Alone(me, x, t, n);
      && y.lock == None
      && y.threads[t] == Returned(y.client)
      && if x.client.None? || x.pid != Some(me) then
           y.client == Some(Client(me, x.pools)) && y.pid == Some(me) && y.pools == x.pools + 1
         else
           y.client == x.client && y.pid == x.pid && y.pools == x.pools
  {
    var a := Advance(me, x, t);
    var b := Advance(me, a, t);
    assert Alone(me, x, t, n) == Alone(me, a, t, n - 1) == Alone(me, b, t, n - 2);
    if b.threads[t].Build? {
      var c := Advance(me, b, t);
      var d := Advance(me, c, t);
      var e := Advance(me, d, t);
      assert Alone(me, b, t, n - 2) == Alone(me, c, t, n - 3) == Alone(me, d, t, n - 4) == Alone(me, e, t, n - 5);
      Unlocks(me, e, t, n - 5);
    } else {
      Unlocks(me, b, t, n - 2);
    }
  }

  lemma Unlocks(me: Pid, x: Process, t: Tid, n: nat)
    requires t in x.threads && x.threads[t].Unlock? && n >= 2
    ensures Alone(me, x, t, n) == Advance(me, Advance(me, x, t), t)
  {
    var y := Advance(me, x, t);
    var z := Advance(me, y, t);
    assert Alone(me, x, t, n) == Alone(me, y, t, n - 1) == Alone(me, z, t, n - 2);
  }

  /** What an uninterrupted call comes to. */
  lemma CalledBuildsOnce(me: Pid, x: Process, t: Tid)
    requires t in x.threads && x.lock == None
    ensures var y := Called(me, x, t);
      && y.lock == None
      && y.threads[t] == Returned(y.client)
      && if x.client.None? || x.pid != Some(me) then
           y.client == Some(Client(me, x.pools)) && y.pid == Some(me) && y.pools == x.pools + 1
         else
           y.client == x.client && y.pid == x.pid && y.pools == x.pools
  {
    var a := At(x, t, ReadClient);
    var b := Advance(me, a, t);
    assert Called(me, x, t) == Alone(me, b, t, 8);
    if b.threads[t].WantLock? {
      LockedPart(me, b, t, 8);
    } else {
      var c := Advance(me, b, t);
      assert Alone(me, b, t, 8) == Alone(me, c, t, 7);
      if c.threads[t].WantLock? {
        LockedPart(me, c, t, 7);
      } else {
        var d := Advance(me, c, t);
        assert Alone(me, c, t, 7) == Alone(me, d, t, 6) == d;
      }
    }
  }

  /** The globals of the module in one process. */
  class Globals {
    var client: Option<Client>
    var pid: Option<Pid>
    var built: nat

    ghost predicate Valid(me: Pid)
      reads this
    {
      pid == Some(me) ==> client.Some? && client.value.builtBy == me
    }

    /** x is this process in the machine. */
    ghost predicate Mirrors(x: Process)
      reads this
    {
      x.client == client && x.pid == pid && x.pools == built
    }

    /**
     Builds a pool exactly if the process has none yet, and always answers with one of its own: just what
     the machine does when one thread calls and nobody interrupts it.
     */
    method GetRedis(me: Pid) returns (r: Client)
      modifies this
      ensures pid == Some(me) && client == Some(r)
      ensures old(Valid(me)) ==> Valid(me) && r.builtBy == me
      ensures if old(client).Some? && old(pid) == Some(me) then Some(r) == old(client) && built == old(built)
        else r == Client(me, old(built)) && built == old(built) + 1
      ensures forall x: Process, t :: old(Mirrors(x)) && t in x.threads && x.lock == None ==>
        Mirrors(Called(me, x, t)) && Called(me, x, t).threads[t] == Returned(Some(r))
    {
      ghost var c0, p0, b0 := client, pid, built;
      if client.Some? && pid == Some(me) {
        r := client.value;
      } else {
        if client.None? || pid != Some(me) {
          client := Some(Client(me, built));
          built := built + 1;
          pid := Some(me);
        }
        r := client.value;
      }
      forall x: Process, t | x.client == c0 && x.pid == p0 && x.pools == b0 && t in x.threads && x.lock == None
        ensures Mirrors(Called(me, x, t)) && Called(me, x, t).threads[t] == Returned(Some(r))
      {
        CalledBuildsOnce(me, x, t);
      }
    }
  }

  /** So in any reachable state of the machine the body hands out a client of its own process, and builds one only if there is none. */
  lemma CallInAnyRun(root: Pid, steps: seq<Step>, p: Pid, t: Tid)
    requires Runs(Imported(root), steps) && p in After(Imported(root), steps)
    requires var x := After(Imported(root), steps)[p]; t in x.threads && Outside(x.threads[t]) && x.lock == None
    ensures var x := After(Imported(root), steps)[p]; var y := Called(p, x, t);
      && y.client == Some(Client(p, 0)) && y.threads[t] == Returned(Some(Client(p, 0)))
      && y.pools == 1
  {
    var s := Imported(root);
    assert ThreadOk(root, s[root], 0);
    KeepRun(s, steps);
    assert ProcessOk(After(s, steps), p, After(s, steps)[p]);
    CalledBuildsOnce(p, After(s, steps)[p], t);
  }
}
