/** The service with cosine scores: what the percentages in its answers can be. */
module Decision {
  import opened Domain
  import opened Rounding
  import opened Similarity
  import opened AtomicSession
  import opened SystemInvariant
  import System
  import Guarantees

  /** The running configuration, for a norm function that finds square roots. */
  function CosineConfig(norm: seq<real> -> real, threshold: real, ttl: int): Config {
    Config((a: seq<real>, b: seq<real>) => Cosine(a, b, norm(a), norm(b)), threshold, ttl)
  }

  /** Entry e of the log is the verify that decided the session, with an answer that scores what the result says. */
  predicate Decides(cfg: Config, e: LogEntry, sid: SessionId, ses: Session)
    requires ses.outcome.Some?
  {
    var w := ses.outcome.value;
    && e.op.VerifyOp? && e.op.call == w.call && e.op.sid == sid && e.op.request == w.request
    && e.op.answer.Vector? && cfg.score(ses.challenge.vector, e.op.answer.v) == Some(w.score)
  }

  /** The score that decided a session is that of its own stored vector and the winner's submitted one. */
  lemma {:induction false} DecidedByScore(cfg: Config, log: seq<LogEntry>, sid: SessionId) returns (i: nat)
    requires Decided(Replay(cfg, log), sid)
    ensures i < |log| && Decides(cfg, log[i], sid, Replay(cfg, log).sessions[sid])
    decreases |log|
  {
    var init, e := log[..|log| - 1], log[|log| - 1];
    var o, ses := Replay(cfg, init), Replay(cfg, log).sessions[sid];
    if Decided(o, sid) {
      i := DecidedByScore(cfg, init, sid);
      assert ses.challenge == o.sessions[sid].challenge && ses.outcome == o.sessions[sid].outcome;
    } else {
      i := |log| - 1;
      assert e.op.VerifyOp? && e.op.answer.Vector?;
    }
  }

  /** With cosine scores: the winner's vector is in the log, and its cosine with the stored one is the score. */
  lemma ScoresAreCosines(norm: seq<real> -> real, threshold: real, ttl: int, log: seq<LogEntry>, sid: SessionId) returns (i: nat)
    requires var o := Replay(CosineConfig(norm, threshold, ttl), log); Decided(o, sid)
    ensures i < |log| && log[i].op.VerifyOp? && log[i].op.answer.Vector?
    ensures var ses := Replay(CosineConfig(norm, threshold, ttl), log).sessions[sid];
      && log[i].op.call == ses.outcome.value.call
      && var stored, answer := ses.challenge.vector, log[i].op.answer.v;
      Cosine(stored, answer, norm(stored), norm(answer)) == Some(ses.outcome.value.score)
  {
    i := DecidedByScore(CosineConfig(norm, threshold, ttl), log, sid);
  }

  lemma ScoreInUnit(a: seq<real>, b: seq<real>, normA: real, normB: real)
    requires IsNorm(normA, a) && IsNorm(normB, b)
    ensures var c := Cosine(a, b, normA, normB); c.Some? ==> -1.0 <= c.value <= 1.0
  {
    if |a| == |b| {
      CosineBounded(a, b, normA, normB);
    }
  }

  /**
   Whatever vectors are submitted: PASS percentages lie between the threshold's own percentage and 100,
   FAIL percentages between -100 and the threshold's.
   */
  lemma PercentagesInRange(norm: seq<real> -> real, threshold: real, ttl: int, steps: seq<System.Step>, c: nat)
    requires forall v :: IsNorm(norm(v), v)
    requires var cfg := CosineConfig(norm, threshold, ttl);
      && System.Runs(cfg, System.START, steps)
      && c in Guarantees.Reached(cfg, steps).calls && Guarantees.Reached(cfg, steps).calls[c].pc.Replied?
    ensures var response := Guarantees.Reached(CosineConfig(norm, threshold, ttl), steps).calls[c].pc.response;
      && (response.Pass? ==> LivePercent(threshold) <= response.percent <= 100)
      && (response.Fail? ==> -100 <= response.percent <= LivePercent(threshold))
  {
    var cfg := CosineConfig(norm, threshold, ttl);
    Guarantees.ReachedOk(cfg, steps);
    var s := Guarantees.Reached(cfg, steps);
    var o := Replay(cfg, s.log);
    assert CallOk(cfg, c, s.calls[c], o, s.log);
    if Won(s.calls[c].pc.response) {
      var sid := s.calls[c].sid;
      var w := Winner(o, sid);
      assert SessionOk(cfg, o.sessions[sid], o.now);
      var i := ScoresAreCosines(norm, threshold, ttl, s.log, sid);
      var stored, answer := o.sessions[sid].challenge.vector, s.log[i].op.answer.v;
      ScoreInUnit(stored, answer, norm(stored), norm(answer));
      InRange(w.score, threshold);
    }
  }

  lemma InRange(score: real, threshold: real)
    requires -1.0 <= score <= 1.0
    ensures -100 <= LivePercent(score) <= 100
    ensures score >= threshold ==> LivePercent(threshold) <= LivePercent(score)
    ensures score < threshold ==> LivePercent(score) <= LivePercent(threshold)
  {
    RoundMonotone(-100.0, score * 100.0);
    RoundMonotone(score * 100.0, 100.0);
    PercentMatchesDecision(score, threshold);
  }
}
