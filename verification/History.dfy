/**
 The atomic sessions described a second time, by what has happened so far and nothing else: when a session
 was made, whether it has gone, who has won it, and what each verify must therefore have been answered.
 */
module History {
  import opened Domain
  import opened Rounding
  import opened AtomicSession

  /** The time on the clock after these operations. */
  function Clock(log: seq<LogEntry>): real {
    if log == [] then 0.0
    else
      var e := log[|log| - 1];
      Clock(log[..|log| - 1]) + (if e.op.TimeOp? then e.op.d else 0.0)
  }

  /** The place at which the session was made, or the length of the log. */
  function MadeAt(log: seq<LogEntry>, sid: SessionId): (j: nat)
    ensures j <= |log|
    ensures j < |log| ==> log[j].op.CreateOp? && log[j].op.sid == sid
    ensures forall i :: 0 <= i < j ==> !(log[i].op.CreateOp? && log[i].op.sid == sid)
  {
    if log == [] then 0
    else
      var init, e := log[..|log| - 1], log[|log| - 1];
      var j := MadeAt(init, sid);
      assert forall i :: 0 <= i < |init| ==> init[i] == log[i];
      if j < |init| then j
      else if e.op.CreateOp? && e.op.sid == sid then |init|
      else |log|
  }

  predicate Made(log: seq<LogEntry>, sid: SessionId) {
    MadeAt(log, sid) < |log|
  }

  function ChallengeOf(log: seq<LogEntry>, sid: SessionId): Challenge
    requires Made(log, sid)
  {
    log[MadeAt(log, sid)].op.challenge
  }

  function Birth(log: seq<LogEntry>, sid: SessionId): real {
    Clock(log[..MadeAt(log, sid)])
  }

  /** Entry k deletes the session, after it was made. */
  predicate DeletedAt(log: seq<LogEntry>, sid: SessionId, k: nat) {
    MadeAt(log, sid) < k < |log| && log[k].op == DeleteOp(sid)
  }

  /** Deleted, or its time is up. */
  ghost predicate HasGone(cfg: Config, log: seq<LogEntry>, sid: SessionId) {
    || (exists k: nat :: DeletedAt(log, sid, k))
    || Clock(log) >= Birth(log, sid) + cfg.ttl as real
  }

  /** A session ends at the first of its expiry and its deletions; it cannot expire before it is made. */
  function Expiry(cfg: Config, log: seq<LogEntry>, sid: SessionId): real {
    if cfg.ttl > 0 then Birth(log, sid) + cfg.ttl as real else Birth(log, sid)
  }

  ghost predicate EndedAt(cfg: Config, log: seq<LogEntry>, sid: SessionId, at: real) {
    && at <= Expiry(cfg, log, sid)
    && (forall k: nat :: DeletedAt(log, sid, k) ==> at <= Clock(log[..k]))
    && ((at == Expiry(cfg, log, sid) && at <= Clock(log)) || exists k: nat :: DeletedAt(log, sid, k) && at == Clock(log[..k]))
  }

  /** Entry k is a verify of the session that was answered with a result. */
  predicate WonAt(log: seq<LogEntry>, sid: SessionId, k: nat) {
    k < |log| && log[k].op.VerifyOp? && log[k].op.sid == sid && Won(log[k].response)
  }

  ghost predicate HasWinner(log: seq<LogEntry>, sid: SessionId) {
    exists k: nat :: WonAt(log, sid, k)
  }

  /** w is what entry k, a winning verify, says. */
  ghost predicate Records(cfg: Config, log: seq<LogEntry>, sid: SessionId, k: nat, w: Outcome)
    requires WonAt(log, sid, k)
  {
    && Made(log, sid) && MadeAt(log, sid) < k
    && var op := log[k].op;
    && w.call == op.call && w.request == op.request && w.at == Clock(log[..k])
    && op.answer.Vector? && cfg.score(ChallengeOf(log, sid).vector, op.answer.v) == Some(w.score)
    && (w.passed <==> w.score >= cfg.threshold)
  }

  /** The record of a session, read off the log. */
  ghost predicate ByHistory(cfg: Config, log: seq<LogEntry>, sid: SessionId, ses: Session) {
    && Made(log, sid)
    && ses.challenge == ChallengeOf(log, sid)
    && ses.createdAt == Birth(log, sid)
    && ses.expiresAt == Birth(log, sid) + cfg.ttl as real
    && (ses.goneAt.Some? <==> HasGone(cfg, log, sid))
    && (ses.goneAt.Some? ==> EndedAt(cfg, log, sid, ses.goneAt.value))
    && (ses.outcome.None? ==> forall k: nat :: !WonAt(log, sid, k))
    && (ses.outcome.Some? ==> exists k: nat :: WonAt(log, sid, k) && Records(cfg, log, sid, k, ses.outcome.value))
  }

  ghost predicate ObjectByHistory(cfg: Config, log: seq<LogEntry>) {
    var o := Replay(cfg, log);
    && o.now == Clock(log)
    && (forall sid :: sid in o.sessions <==> Made(log, sid))
    && (forall sid :: sid in o.sessions ==> ByHistory(cfg, log, sid, o.sessions[sid]))
    && (forall sid, k: nat :: WonAt(log, sid, k) ==> Made(log, sid))
  }

  ghost predicate SaneLog(log: seq<LogEntry>) {
    forall i :: 0 <= i < |log| ==> Sane(log[i].op)
  }

  // ---- One more operation ----

  lemma MoreMade(log: seq<LogEntry>, e: LogEntry, sid: SessionId)
    ensures var more := log + [e];
      && Clock(more) == Clock(log) + (if e.op.TimeOp? then e.op.d else 0.0)
      && (Made(log, sid) ==>
            && MadeAt(more, sid) == MadeAt(log, sid) && Birth(more, sid) == Birth(log, sid)
            && ChallengeOf(more, sid) == ChallengeOf(log, sid))
      && (!Made(log, sid) && e.op.CreateOp? && e.op.sid == sid ==>
            Made(more, sid) && MadeAt(more, sid) == |log| && Birth(more, sid) == Clock(log) && ChallengeOf(more, sid) == e.op.challenge)
      && (!Made(log, sid) && !(e.op.CreateOp? && e.op.sid == sid) ==> !Made(more, sid))
  {
    var more := log + [e];
    assert more[..|more| - 1] == log;
    if Made(log, sid) {
      assert more[..MadeAt(log, sid)] == log[..MadeAt(log, sid)];
    } else if e.op.CreateOp? && e.op.sid == sid {
      assert more[..|log|] == log;
    }
  }

  lemma MoreEvents(log: seq<LogEntry>, e: LogEntry, sid: SessionId, k: nat)
    requires Made(log, sid)
    ensures var more := log + [e];
      && (DeletedAt(more, sid, k) <==> DeletedAt(log, sid, k) || (k == |log| && e.op == DeleteOp(sid)))
      && (k <= |log| ==> more[..k] == log[..k])
  {
    MoreMade(log, e, sid);
  }

  lemma MoreWins(log: seq<LogEntry>, e: LogEntry, sid: SessionId, k: nat)
    ensures WonAt(log + [e], sid, k) <==> WonAt(log, sid, k) || (k == |log| && e.op.VerifyOp? && e.op.sid == sid && Won(e.response))
  {
  }

  lemma {:induction false} ClockMonotone(log: seq<LogEntry>, k: nat)
    requires SaneLog(log) && k <= |log|
    ensures Clock(log[..k]) <= Clock(log)
    decreases |log|
  {
    if k == |log| {
      assert log[..k] == log;
    } else {
      var init := log[..|log| - 1];
      ClockMonotone(init, k);
      assert init[..k] == log[..k];
      assert Sane(log[|log| - 1].op);
    }
  }

  /** Entries that do not concern the session, and let no time pass. */
  lemma UntouchedHistory(cfg: Config, log: seq<LogEntry>, e: LogEntry, sid: SessionId, ses: Session)
    requires ByHistory(cfg, log, sid, ses) && !e.op.TimeOp? && e.op != DeleteOp(sid)
    requires !(e.op.VerifyOp? && e.op.sid == sid && Won(e.response))
    ensures ByHistory(cfg, log + [e], sid, ses)
  {
    MoreMade(log, e, sid);
    SameEnd(cfg, log, e, sid, ses);
    SameWins(cfg, log, e, sid, ses);
  }

  lemma SameWins(cfg: Config, log: seq<LogEntry>, e: LogEntry, sid: SessionId, ses: Session)
    requires ByHistory(cfg, log, sid, ses) && !(e.op.VerifyOp? && e.op.sid == sid && Won(e.response))
    ensures var more := log + [e];
      && (ses.outcome.None? ==> forall k: nat :: !WonAt(more, sid, k))
      && (ses.outcome.Some? ==> exists k: nat :: WonAt(more, sid, k) && Records(cfg, more, sid, k, ses.outcome.value))
  {
    var more := log + [e];
    forall k: nat
      ensures WonAt(more, sid, k) <==> WonAt(log, sid, k)
    {
      MoreWins(log, e, sid, k);
    }
    if ses.outcome.Some? {
      var k: nat :| WonAt(log, sid, k) && Records(cfg, log, sid, k, ses.outcome.value);
      MoreMade(log, e, sid);
      MoreEvents(log, e, sid, k);
      assert WonAt(more, sid, k) && Records(cfg, more, sid, k, ses.outcome.value);
    }
  }

  /** What the session's ending is, as far as the log tells. */
  ghost predicate EndByHistory(cfg: Config, log: seq<LogEntry>, sid: SessionId, goneAt: Option<real>) {
    && (goneAt.Some? <==> HasGone(cfg, log, sid))
    && (goneAt.Some? ==> EndedAt(cfg, log, sid, goneAt.value))
  }

  lemma SameEnd(cfg: Config, log: seq<LogEntry>, e: LogEntry, sid: SessionId, ses: Session)
    requires ByHistory(cfg, log, sid, ses) && !e.op.TimeOp? && e.op != DeleteOp(sid)
    ensures EndByHistory(cfg, log + [e], sid, ses.goneAt)
  {
    var more := log + [e];
    MoreMade(log, e, sid);
    forall k: nat
      ensures DeletedAt(more, sid, k) <==> DeletedAt(log, sid, k)
      ensures k <= |log| ==> Clock(more[..k]) == Clock(log[..k])
    {
      MoreEvents(log, e, sid, k);
    }
  }

  /** An ending never lies in the future. */
  lemma EndedBefore(cfg: Config, log: seq<LogEntry>, sid: SessionId, at: real)
    requires SaneLog(log) && EndedAt(cfg, log, sid, at)
    ensures at <= Clock(log)
  {
    if k: nat :| DeletedAt(log, sid, k) && at == Clock(log[..k]) {
      ClockMonotone(log, k);
    }
  }

  lemma TimeEnd(cfg: Config, log: seq<LogEntry>, e: LogEntry, sid: SessionId, ses: Session)
    requires ByHistory(cfg, log, sid, ses) && SaneLog(log) && e.op.TimeOp? && e.op.d > 0.0
    ensures EndByHistory(cfg, log + [e], sid, Aged(ses, Clock(log) + e.op.d).goneAt)
  {
    var more := log + [e];
    MoreMade(log, e, sid);
    ClockMonotone(log, MadeAt(log, sid));
    assert cfg.ttl <= 0 ==> cfg.ttl as real <= 0.0;
    forall k: nat
      ensures DeletedAt(more, sid, k) <==> DeletedAt(log, sid, k)
      ensures k <= |log| ==> Clock(more[..k]) == Clock(log[..k])
    {
      MoreEvents(log, e, sid, k);
    }
  }

  lemma TimeHistory(cfg: Config, log: seq<LogEntry>, e: LogEntry, sid: SessionId, ses: Session)
    requires ByHistory(cfg, log, sid, ses) && SaneLog(log) && e.op.TimeOp? && e.op.d > 0.0
    ensures ByHistory(cfg, log + [e], sid, Aged(ses, Clock(log) + e.op.d))
  {
    MoreMade(log, e, sid);
    TimeEnd(cfg, log, e, sid, ses);
    SameWins(cfg, log, e, sid, ses);
  }

  lemma DeleteEnd(cfg: Config, log: seq<LogEntry>, e: LogEntry, sid: SessionId, ses: Session)
    requires ByHistory(cfg, log, sid, ses) && SaneLog(log) && e.op == DeleteOp(sid)
    ensures EndByHistory(cfg, log + [e], sid, if ses.goneAt.Some? then ses.goneAt else Some(Clock(log)))
  {
    var more := log + [e];
    MoreMade(log, e, sid);
    ClockMonotone(log, MadeAt(log, sid));
    assert cfg.ttl <= 0 ==> cfg.ttl as real <= 0.0;
    forall k: nat
      ensures DeletedAt(more, sid, k) <==> DeletedAt(log, sid, k) || k == |log|
      ensures k <= |log| ==> Clock(more[..k]) == Clock(log[..k])
    {
      MoreEvents(log, e, sid, k);
    }
    assert more[..|log|] == log && DeletedAt(more, sid, |log|);
    if ses.goneAt.Some? {
      EndedBefore(cfg, log, sid, ses.goneAt.value);
    }
  }

  lemma DeleteHistory(cfg: Config, log: seq<LogEntry>, e: LogEntry, sid: SessionId, ses: Session)
    requires ByHistory(cfg, log, sid, ses) && SaneLog(log) && e.op == DeleteOp(sid)
    ensures ByHistory(cfg, log + [e], sid, if ses.goneAt.Some? then ses else ses.(goneAt := Some(Clock(log))))
  {
    MoreMade(log, e, sid);
    DeleteEnd(cfg, log, e, sid, ses);
    SameWins(cfg, log, e, sid, ses);
  }

  lemma WinHistory(cfg: Config, log: seq<LogEntry>, e: LogEntry, sid: SessionId, ses: Session, w: Outcome)
    requires ByHistory(cfg, log, sid, ses) && ses.outcome.None?
    requires e.op.VerifyOp? && e.op.sid == sid && Won(e.response) && e.op.answer.Vector?
    requires cfg.score(ses.challenge.vector, e.op.answer.v) == Some(w.score)
    requires w == Outcome(e.op.call, e.op.request, w.score, w.score >= cfg.threshold, Clock(log))
    ensures ByHistory(cfg, log + [e], sid, ses.(outcome := Some(w)))
  {
    var more := log + [e];
    MoreMade(log, e, sid);
    SameEnd(cfg, log, e, sid, ses);
    assert more[..|log|] == log;
    assert WonAt(more, sid, |log|) && Records(cfg, more, sid, |log|, w);
  }

  lemma BirthHistory(cfg: Config, log: seq<LogEntry>, e: LogEntry, sid: SessionId, ch: Challenge)
    requires !Made(log, sid) && e.op == CreateOp(sid, ch) && forall k: nat :: !WonAt(log, sid, k)
    ensures var now := Clock(log);
      ByHistory(cfg, log + [e], sid, Session(ch, now, now + cfg.ttl as real, None, if cfg.ttl <= 0 then Some(now) else None))
  {
    var more := log + [e];
    MoreMade(log, e, sid);
    assert cfg.ttl <= 0 ==> cfg.ttl as real <= 0.0;
    assert cfg.ttl > 0 ==> cfg.ttl as real > 0.0;
    forall k: nat
      ensures !DeletedAt(more, sid, k) && !WonAt(more, sid, k)
    {
      MoreWins(log, e, sid, k);
    }
  }

  // ---- Whole logs ----

  lemma CreateStep(cfg: Config, log: seq<LogEntry>, e: LogEntry)
    requires ObjectByHistory(cfg, log) && e.op.CreateOp?
    ensures ObjectByHistory(cfg, log + [e])
  {
    var o, p := Replay(cfg, log), Replay(cfg, log + [e]);
    ReplayOneMore(cfg, log, e);
    forall sid
      ensures sid in p.sessions <==> Made(log + [e], sid)
      ensures sid in p.sessions ==> ByHistory(cfg, log + [e], sid, p.sessions[sid])
    {
      MoreMade(log, e, sid);
      if sid in o.sessions {
        UntouchedHistory(cfg, log, e, sid, o.sessions[sid]);
      } else if sid == e.op.sid {
        BirthHistory(cfg, log, e, sid, e.op.challenge);
      }
    }
    WinsAreMade(cfg, log, e);
    MoreMade(log, e, e.op.sid);
  }

  lemma WinsAreMade(cfg: Config, log: seq<LogEntry>, e: LogEntry)
    requires ObjectByHistory(cfg, log) && !(e.op.VerifyOp? && Won(e.response) && !Made(log, e.op.sid))
    ensures forall sid, k: nat :: WonAt(log + [e], sid, k) ==> Made(log + [e], sid)
  {
    forall sid, k: nat | WonAt(log + [e], sid, k)
      ensures Made(log + [e], sid)
    {
      MoreWins(log, e, sid, k);
      MoreMade(log, e, sid);
    }
  }

  lemma DeleteStep(cfg: Config, log: seq<LogEntry>, e: LogEntry)
    requires ObjectByHistory(cfg, log) && SaneLog(log) && e.op.DeleteOp?
    ensures ObjectByHistory(cfg, log + [e])
  {
    var o, p := Replay(cfg, log), Replay(cfg, log + [e]);
    ReplayOneMore(cfg, log, e);
    forall sid
      ensures sid in p.sessions <==> Made(log + [e], sid)
      ensures sid in p.sessions ==> ByHistory(cfg, log + [e], sid, p.sessions[sid])
    {
      MoreMade(log, e, sid);
      if sid in o.sessions {
        if sid == e.op.sid {
          DeleteHistory(cfg, log, e, sid, o.sessions[sid]);
        } else {
          UntouchedHistory(cfg, log, e, sid, o.sessions[sid]);
        }
      }
    }
    WinsAreMade(cfg, log, e);
    MoreMade(log, e, e.op.sid);
  }

  lemma TimeStep(cfg: Config, log: seq<LogEntry>, e: LogEntry)
    requires ObjectByHistory(cfg, log) && SaneLog(log) && e.op.TimeOp? && e.op.d > 0.0
    ensures ObjectByHistory(cfg, log + [e])
  {
    var o, p := Replay(cfg, log), Replay(cfg, log + [e]);
    ReplayOneMore(cfg, log, e);
    assert p.now == Clock(log + [e]) by {
      MoreMade(log, e, "");
    }
    forall sid
      ensures sid in p.sessions <==> Made(log + [e], sid)
      ensures sid in p.sessions ==> ByHistory(cfg, log + [e], sid, p.sessions[sid])
    {
      MoreMade(log, e, sid);
      if sid in o.sessions {
        TimeHistory(cfg, log, e, sid, o.sessions[sid]);
      }
    }
    WinsAreMade(cfg, log, e);
  }

  lemma WinningEffect(cfg: Config, o: Object, op: Op) returns (score: real)
    requires op.VerifyOp? && Won(Apply(cfg, o, op).1)
    ensures op.sid in o.sessions && op.answer.Vector? && o.sessions[op.sid].outcome.None?
    ensures cfg.score(o.sessions[op.sid].challenge.vector, op.answer.v) == Some(score)
    ensures var ses := o.sessions[op.sid];
      Apply(cfg, o, op).0 == o.(sessions := o.sessions[op.sid :=
        ses.(outcome := Some(Outcome(op.call, op.request, score, score >= cfg.threshold, o.now)))])
  {
    score := cfg.score(o.sessions[op.sid].challenge.vector, op.answer.v).value;
  }

  lemma WinStep(cfg: Config, log: seq<LogEntry>, e: LogEntry)
    requires ObjectByHistory(cfg, log) && e.op.VerifyOp? && e.response == Apply(cfg, Replay(cfg, log), e.op).1 && Won(e.response)
    ensures ObjectByHistory(cfg, log + [e])
  {
    var o, p := Replay(cfg, log), Replay(cfg, log + [e]);
    ReplayOneMore(cfg, log, e);
    var score := WinningEffect(cfg, o, e.op);
    forall sid
      ensures sid in p.sessions <==> Made(log + [e], sid)
      ensures sid in p.sessions ==> ByHistory(cfg, log + [e], sid, p.sessions[sid])
    {
      MoreMade(log, e, sid);
      if sid == e.op.sid {
        WinHistory(cfg, log, e, sid, o.sessions[sid], p.sessions[sid].outcome.value);
      } else if sid in o.sessions {
        UntouchedHistory(cfg, log, e, sid, o.sessions[sid]);
      }
    }
    WinsAreMade(cfg, log, e);
    MoreMade(log, e, e.op.sid);
  }

  lemma LosingStep(cfg: Config, log: seq<LogEntry>, e: LogEntry)
    requires ObjectByHistory(cfg, log) && e.op.VerifyOp? && e.response == Apply(cfg, Replay(cfg, log), e.op).1 && !Won(e.response)
    ensures ObjectByHistory(cfg, log + [e])
  {
    var o := Replay(cfg, log);
    ReplayOneMore(cfg, log, e);
    LosersChangeNothing(cfg, o, e.op);
    forall sid
      ensures sid in o.sessions <==> Made(log + [e], sid)
      ensures sid in o.sessions ==> ByHistory(cfg, log + [e], sid, o.sessions[sid])
    {
      MoreMade(log, e, sid);
      if sid in o.sessions {
        UntouchedHistory(cfg, log, e, sid, o.sessions[sid]);
      }
    }
    WinsAreMade(cfg, log, e);
    MoreMade(log, e, e.op.sid);
  }

  lemma OneMoreOp(cfg: Config, log: seq<LogEntry>, e: LogEntry)
    requires ObjectByHistory(cfg, log) && SaneLog(log) && Sane(e.op) && e.response == Apply(cfg, Replay(cfg, log), e.op).1
    ensures ObjectByHistory(cfg, log + [e])
  {
    match e.op
    case CreateOp(_, _) => CreateStep(cfg, log, e);
    case DeleteOp(_) => DeleteStep(cfg, log, e);
    case TimeOp(_) => TimeStep(cfg, log, e);
    case VerifyOp(_, _, _, _) =>
      if Won(e.response) {
        WinStep(cfg, log, e);
      } else {
        LosingStep(cfg, log, e);
      }
  }

  lemma NothingYet(cfg: Config)
    ensures ObjectByHistory(cfg, [])
  {
  }

  lemma LastEntry(cfg: Config, log: seq<LogEntry>) returns (init: seq<LogEntry>, e: LogEntry)
    requires Legal(cfg, log) && SaneLog(log) && log != []
    ensures log == init + [e] && Legal(cfg, init) && SaneLog(init)
    ensures Sane(e.op) && e.response == Apply(cfg, Replay(cfg, init), e.op).1
  {
    init, e := log[..|log| - 1], log[|log| - 1];
    LegalPrefix(cfg, log);
  }

  /** The atomic object is what the history says. */
  lemma {:induction false} ObjectFromHistory(cfg: Config, log: seq<LogEntry>)
    requires Legal(cfg, log) && SaneLog(log)
    ensures ObjectByHistory(cfg, log)
    decreases |log|
  {
    if log == [] {
      NothingYet(cfg);
    } else {
      var init, e := LastEntry(cfg, log);
      ObjectFromHistory(cfg, init);
      OneMoreOp(cfg, init, e);
    }
  }

  // ---- Answers ----

  /** The answer with a result, for a score: the rounded percentage, and Alice's key for those who pass. */
  ghost predicate IsResult(cfg: Config, r: Response, ch: Challenge, score: real) {
    if score >= cfg.threshold then r.Pass? && r.aliceKey == ch.aliceKey && NearestEven(score * 100.0, r.percent)
    else r.Fail? && NearestEven(score * 100.0, r.percent)
  }

  /** What a verify is answered after this past. */
  ghost predicate AnswerByHistory(cfg: Config, past: seq<LogEntry>, sid: SessionId, answer: Answer, r: Response) {
    if answer.NoEmbedding? then r == Busy
    else if answer.Crashed? then r == Fault
    else if !Made(past, sid) || HasGone(cfg, past, sid) then r == NotFound
    else if HasWinner(past, sid) then r == Completed
    else if answer.Unasked? then r == Busy
    else
      match cfg.score(ChallengeOf(past, sid).vector, answer.v)
      case None => r == Fault
      case Some(score) => IsResult(cfg, r, ChallengeOf(past, sid), score)
  }

  lemma ApplyByHistory(cfg: Config, past: seq<LogEntry>, op: Op)
    requires ObjectByHistory(cfg, past) && op.VerifyOp?
    ensures AnswerByHistory(cfg, past, op.sid, op.answer, Apply(cfg, Replay(cfg, past), op).1)
  {
    var o := Replay(cfg, past);
    if op.sid in o.sessions {
      assert ByHistory(cfg, past, op.sid, o.sessions[op.sid]);
    }
  }

  /** Every verify in a legal log is answered by its past. */
  lemma AnswersFromHistory(cfg: Config, log: seq<LogEntry>, i: nat)
    requires Legal(cfg, log) && SaneLog(log) && i < |log| && log[i].op.VerifyOp?
    ensures AnswerByHistory(cfg, log[..i], log[i].op.sid, log[i].op.answer, log[i].response)
  {
    LegalUpTo(cfg, log, i);
    assert SaneLog(log[..i]);
    ObjectFromHistory(cfg, log[..i]);
    ApplyByHistory(cfg, log[..i], log[i].op);
  }

  lemma LegalUpTo(cfg: Config, log: seq<LogEntry>, i: nat)
    requires Legal(cfg, log) && i <= |log|
    ensures Legal(cfg, log[..i])
  {
    forall k | 0 <= k < i
      ensures log[..i][k].response == Apply(cfg, Replay(cfg, log[..i][..k]), log[..i][k].op).1
    {
      assert log[..i][..k] == log[..k];
    }
  }
}
