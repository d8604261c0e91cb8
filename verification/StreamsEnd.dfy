/** Every stream can be brought to its end, from wherever the service is. */
module StreamsEnd {
  import opened SessionStore
  import opened AtomicSession
  import opened StreamMachine
  import opened System
  import opened SystemInvariant
  import opened SystemProofs
  import opened Guarantees

  /** Own steps ahead of all streams with numbers below n. */
  function TotalRank(streams: map<nat, Stream>, n: nat): int {
    if n == 0 then 0
    else TotalRank(streams, n - 1) + (if n - 1 in streams then Rank(streams[n - 1]) else 0)
  }

  lemma {:induction false} TotalCountsDown(a: map<nat, Stream>, b: map<nat, Stream>, n: nat, q: nat)
    requires a.Keys == b.Keys && q in a && Rank(b[q]) < Rank(a[q])
    requires forall p :: p in a && p != q ==> Rank(b[p]) == Rank(a[p])
    ensures TotalRank(b, n) <= TotalRank(a, n)
    ensures q < n ==> TotalRank(b, n) < TotalRank(a, n)
  {
    if n > 0 {
      TotalCountsDown(a, b, n - 1, q);
    }
  }

  lemma {:induction false} TotalNatural(a: map<nat, Stream>, n: nat)
    requires forall p :: p in a ==> Rank(a[p]) >= 0
    ensures TotalRank(a, n) >= 0
  {
    if n > 0 {
      TotalNatural(a, n - 1);
    }
  }

  lemma {:induction false} NumbersBounded(qs: set<nat>) returns (n: nat)
    ensures forall q :: q in qs ==> q < n
    decreases |qs|
  {
    if qs == {} {
      n := 0;
    } else {
      var q :| q in qs;
      var m := NumbersBounded(qs - {q});
      n := if m <= q then q + 1 else m;
      forall p | p in qs
        ensures p < n
      {
        assert p == q || p in qs - {q};
      }
    }
  }

  /** A step of a stream, perhaps after a lapse of time. */
  predicate StreamsAndTime(step: Step) {
    step.StreamStep? || step.TimeStep?
  }

  lemma MoveLowersTotal(cfg: Config, s: Sys, q: nat, n: nat)
    requires Inv(cfg, s) && Enabled(s, StreamStep(q)) && q < n
    ensures var t := Do(cfg, s, StreamStep(q));
      t.streams.Keys == s.streams.Keys && 0 <= TotalRank(t.streams, n) < TotalRank(s.streams, n)
  {
    var t := Do(cfg, s, StreamStep(q));
    KeepStep(cfg, s, StreamStep(q));
    forall p | p in s.streams
      ensures if p == q then Rank(t.streams[p]) < Rank(s.streams[p]) else Rank(t.streams[p]) == Rank(s.streams[p])
    {
      RankCountsDown(cfg, s, StreamStep(q), p);
    }
    RanksNatural(cfg, t);
    TotalCountsDown(s.streams, t.streams, n, q);
    TotalNatural(t.streams, n);
  }

  lemma RanksNatural(cfg: Config, s: Sys)
    requires Inv(cfg, s)
    ensures forall p :: p in s.streams ==> Rank(s.streams[p]) >= 0
  {
    var o := Replay(cfg, s.log);
    forall p | p in s.streams
      ensures Rank(s.streams[p]) >= 0
    {
      assert StreamOk(s.streams[p], o) && QueueOk(s.streams[p], s.flights, o);
      RankOfAdvance(s.streams[p], s.flights, o, StillWaiting);
    }
  }

  /** These steps, of streams and time only, bring the streams nearer to their ends. */
  ghost predicate Advances(cfg: Config, s: Sys, few: seq<Step>, n: nat) {
    && Runs(cfg, s, few) && (forall i :: 0 <= i < |few| ==> StreamsAndTime(few[i]))
    && var t := After(cfg, s, few);
    t.streams.Keys == s.streams.Keys && 0 <= TotalRank(t.streams, n) < TotalRank(s.streams, n)
  }

  lemma MoveAdvances(cfg: Config, s: Sys, q: nat, n: nat)
    requires Inv(cfg, s) && Enabled(s, StreamStep(q)) && q < n
    ensures Advances(cfg, s, [StreamStep(q)], n)
  {
    OneStepRun(cfg, s, StreamStep(q));
    MoveLowersTotal(cfg, s, q, n);
  }

  lemma AdvancesAfter(cfg: Config, s: Sys, first: Step, few: seq<Step>, n: nat)
    requires Enabled(s, first) && StreamsAndTime(first)
    requires Do(cfg, s, first).streams == s.streams && Advances(cfg, Do(cfg, s, first), few, n)
    ensures Advances(cfg, s, [first] + few, n)
  {
    assert ([first] + few)[1..] == few;
  }

  lemma LaterMoveAdvances(cfg: Config, s: Sys, d: real, q: nat, n: nat)
    requires Inv(cfg, s) && TimeMayPass(s, d) && Enabled(Do(cfg, s, TimeStep(d)), StreamStep(q)) && q < n
    ensures Advances(cfg, s, [TimeStep(d)] + [StreamStep(q)], n)
  {
    KeepStep(cfg, s, TimeStep(d));
    MoveAdvances(cfg, Do(cfg, s, TimeStep(d)), q, n);
    AdvancesAfter(cfg, s, TimeStep(d), [StreamStep(q)], n);
  }

  lemma Progress(cfg: Config, s: Sys, open: nat, n: nat) returns (few: seq<Step>)
    requires Inv(cfg, s) && forall q :: q in s.streams ==> q < n
    requires open in s.streams && !s.streams[open].pc.Ended?
    ensures Advances(cfg, s, few, n)
  {
    NeverStuck(cfg, s, open);
    if q :| Enabled(s, StreamStep(q)) {
      MoveAdvances(cfg, s, q, n);
      few := [StreamStep(q)];
    } else {
      var q, d: real :| TimeMayPass(s, d) && Enabled(Do(cfg, s, TimeStep(d)), StreamStep(q));
      assert q in s.streams;
      LaterMoveAdvances(cfg, s, d, q, n);
      few := [TimeStep(d)] + [StreamStep(q)];
    }
  }

  /** From every state the streams alone, with time passing between their moves, can all get to their ends. */
  lemma {:induction false} AllCanEnd(cfg: Config, s: Sys, n: nat) returns (steps: seq<Step>)
    requires Inv(cfg, s) && forall q :: q in s.streams ==> q < n
    ensures Runs(cfg, s, steps) && forall i :: 0 <= i < |steps| ==> StreamsAndTime(steps[i])
    ensures var t := After(cfg, s, steps); t.streams.Keys == s.streams.Keys && forall q :: q in t.streams ==> t.streams[q].pc.Ended?
    decreases TotalRank(s.streams, n)
  {
    if open :| open in s.streams && !s.streams[open].pc.Ended? {
      var few := Progress(cfg, s, open, n);
      KeepRun(cfg, s, few);
      var rest := AllCanEnd(cfg, After(cfg, s, few), n);
      RunsAppend(cfg, s, few, rest);
      steps := few + rest;
    } else {
      steps := [];
    }
  }

  /** After every run there is a continuation, of stream moves and lapses of time only, in which every stream has ended. */
  lemma EveryStreamCanEnd(cfg: Config, steps: seq<Step>)
    requires Runs(cfg, START, steps)
    ensures exists later ::
      && Runs(cfg, Reached(cfg, steps), later) && (forall i :: 0 <= i < |later| ==> StreamsAndTime(later[i]))
      && var t := After(cfg, Reached(cfg, steps), later);
      t.streams.Keys == Reached(cfg, steps).streams.Keys && forall q :: q in t.streams ==> t.streams[q].pc.Ended?
  {
    ReachedOk(cfg, steps);
    var s := Reached(cfg, steps);
    var n := NumbersBounded(s.streams.Keys);
    var later := AllCanEnd(cfg, s, n);
  }
}
