/**
 What callers and the store show in every run of the service, told by the steps of the run and by the
 history that they make.
 */
module Observed {
  import opened Domain
  import opened SessionStore
  import opened AtomicSession
  import opened StreamMachine
  import opened System
  import opened SystemInvariant
  import opened SystemProofs
  import opened Guarantees
  import opened History

  // ---- The log is the run ----

  /** The operations in a log that are not verify calls. */
  function StoreOps(log: seq<LogEntry>): seq<Op> {
    if log == [] then []
    else
      var e := log[|log| - 1];
      StoreOps(log[..|log| - 1]) + (if e.op.VerifyOp? then [] else [e.op])
  }

  /** The creates, deletes and lapses of time of a run. */
  function OpsOf(steps: seq<Step>): seq<Op> {
    if steps == [] then []
    else
      var step := steps[|steps| - 1];
      OpsOf(steps[..|steps| - 1]) +
        match step
        case CreateStep(sid, ch) => [CreateOp(sid, ch)]
        case DeleteStep(sid) => [DeleteOp(sid)]
        case TimeStep(d) => [TimeOp(d)]
        case _ => []
  }

  /** What the embedding service gave call c, if the call got that far. */
  function EmbedOf(steps: seq<Step>, c: nat): Option<Option<seq<real>>> {
    if steps == [] then None
    else
      var step := steps[|steps| - 1];
      if step.EmbedStep? && step.c == c then Some(step.embedding) else EmbedOf(steps[..|steps| - 1], c)
  }

  /** The entry by which a call answered says what the embedding service gave it. */
  ghost predicate AnswerAccounted(cfg: Config, given: Option<Option<seq<real>>>, past: seq<LogEntry>, e: LogEntry) {
    && e.op.VerifyOp?
    && match e.op.answer
       case Unasked => given == None && (e.response == NotFound || e.response == Completed)
       case NoEmbedding => given == Some(None)
       case Crashed =>
         && Made(past, e.op.sid)
         && exists v :: given == Some(Some(v)) && cfg.score(ChallengeOf(past, e.op.sid).vector, v) == None
       case Vector(v) =>
         given == Some(Some(v)) && Made(past, e.op.sid) && cfg.score(ChallengeOf(past, e.op.sid).vector, v).Some?
  }

  ghost predicate CallAccounted(cfg: Config, given: Option<Option<seq<real>>>, call: Call, log: seq<LogEntry>) {
    match call.pc
    case Reading | Embedding(_) => given == None
    case Finalizing(_, v, _) => given == Some(Some(v))
    case Replied(_, at) => at < |log| && AnswerAccounted(cfg, given, log[..at], log[at])
  }

  ghost predicate CallsAccounted(cfg: Config, steps: seq<Step>, calls: map<nat, Call>, log: seq<LogEntry>) {
    forall c: nat ::
      if c in calls then CallAccounted(cfg, EmbedOf(steps, c), calls[c], log) else EmbedOf(steps, c) == None
  }

  ghost predicate Accounted(cfg: Config, steps: seq<Step>, s: Sys) {
    SaneLog(s.log) && StoreOps(s.log) == OpsOf(steps) && CallsAccounted(cfg, steps, s.calls, s.log)
  }

  lemma OneMoreStep(steps: seq<Step>, step: Step, c: nat)
    ensures EmbedOf(steps + [step], c) == if step.EmbedStep? && step.c == c then Some(step.embedding) else EmbedOf(steps, c)
    ensures OpsOf(steps + [step]) == OpsOf(steps) +
      match step
      case CreateStep(sid, ch) => [CreateOp(sid, ch)]
      case DeleteStep(sid) => [DeleteOp(sid)]
      case TimeStep(d) => [TimeOp(d)]
      case _ => []
  {
    assert (steps + [step])[..|steps|] == steps;
  }

  lemma OneMoreEntry(log: seq<LogEntry>, e: LogEntry)
    ensures StoreOps(log + [e]) == StoreOps(log) + (if e.op.VerifyOp? then [] else [e.op])
    ensures SaneLog(log) && Sane(e.op) ==> SaneLog(log + [e])
  {
    assert (log + [e])[..|log|] == log;
  }

  /** An answered call stays accounted for when the log grows. */
  lemma StaysAccounted(cfg: Config, given: Option<Option<seq<real>>>, call: Call, log: seq<LogEntry>, e: LogEntry)
    requires CallAccounted(cfg, given, call, log)
    ensures CallAccounted(cfg, given, call, log + [e])
  {
    if call.pc.Replied? {
      assert (log + [e])[..call.pc.at] == log[..call.pc.at];
    }
  }

  /** The one call that a step is about, if any. */
  function CallOf(step: Step): Option<nat> {
    match step
    case BeginStep(c, _, _) => Some(c)
    case ReadStep(c) => Some(c)
    case EmbedStep(c, _) => Some(c)
    case FinalizeStep(c, _) => Some(c)
    case _ => None
  }

  /** The stored vector is the one that the history knows. */
  lemma StoredVector(cfg: Config, s: Sys, sid: SessionId)
    requires Inv(cfg, s) && SaneLog(s.log) && sid in Replay(cfg, s.log).sessions
    ensures Made(s.log, sid) && ChallengeOf(s.log, sid) == Replay(cfg, s.log).sessions[sid].challenge
  {
    ObjectFromHistory(cfg, s.log);
    assert ByHistory(cfg, s.log, sid, Replay(cfg, s.log).sessions[sid]);
  }

  lemma ReplyAccounted(cfg: Config, s: Sys, c: nat, answer: Answer, response: Response, given: Option<Option<seq<real>>>)
    requires c in s.calls
    requires AnswerAccounted(cfg, given, s.log, LogEntry(VerifyOp(c, s.calls[c].sid, s.calls[c].request, answer), response))
    ensures var t := Reply(s, c, answer, response); CallAccounted(cfg, given, t.calls[c], t.log)
  {
    var t := Reply(s, c, answer, response);
    assert t.log[..|s.log|] == s.log;
  }

  lemma ReadAccounted(cfg: Config, s: Sys, c: nat)
    requires Inv(cfg, s) && c in s.calls && s.calls[c].pc.Reading?
    ensures CallAccounted(cfg, None, DoRead(s, c).calls[c], DoRead(s, c).log)
  {
    var sid := s.calls[c].sid;
    if sid !in s.db {
      ReplyAccounted(cfg, s, c, Unasked, NotFound, None);
    } else {
      PhaseOf(Replay(cfg, s.log).sessions[sid]);
      if PhaseIn(s.db[sid].hash) != Some(WaitingForBob) {
        ReplyAccounted(cfg, s, c, Unasked, Completed, None);
      }
    }
  }

  lemma ScoreAccounted(cfg: Config, s: Sys, c: nat, v: seq<real>)
    requires Inv(cfg, s) && SaneLog(s.log) && c in s.calls && s.calls[c].pc.Embedding?
    ensures var t := DoEmbed(cfg, s, c, Some(v)); CallAccounted(cfg, Some(Some(v)), t.calls[c], t.log)
  {
    var h := s.calls[c].pc.snapshot;
    assert CallOk(cfg, c, s.calls[c], Replay(cfg, s.log), s.log);
    StoredVector(cfg, s, s.calls[c].sid);
    EmbedByScore(cfg, s, c, v);
    var score := cfg.score(ChallengeOf(s.log, s.calls[c].sid).vector, v);
    assert h[AnswerEmbedding] == VectorJson(ChallengeOf(s.log, s.calls[c].sid).vector);
    if score.None? {
      ReplyAccounted(cfg, s, c, Crashed, Fault, Some(Some(v)));
    }
  }

  lemma EmbedAccounted(cfg: Config, s: Sys, c: nat, embedding: Option<seq<real>>)
    requires Inv(cfg, s) && SaneLog(s.log) && c in s.calls && s.calls[c].pc.Embedding?
    ensures var t := DoEmbed(cfg, s, c, embedding); CallAccounted(cfg, Some(embedding), t.calls[c], t.log)
  {
    match embedding
    case None => ReplyAccounted(cfg, s, c, NoEmbedding, Busy, Some(None));
    case Some(v) => ScoreAccounted(cfg, s, c, v);
  }

  lemma FinalizeAccounted(cfg: Config, s: Sys, c: nat, to: set<nat>)
    requires Inv(cfg, s) && SaneLog(s.log) && c in s.calls && s.calls[c].pc.Finalizing?
    ensures var t := DoFinalize(cfg, s, c, to); CallAccounted(cfg, Some(Some(s.calls[c].pc.answer)), t.calls[c], t.log)
  {
    assert CallOk(cfg, c, s.calls[c], Replay(cfg, s.log), s.log);
    StoredVector(cfg, s, s.calls[c].sid);
    var t := DoFinalize(cfg, s, c, to);
    ReplyAccounted(cfg, s, c, Vector(s.calls[c].pc.answer), t.calls[c].pc.response, Some(Some(s.calls[c].pc.answer)));
  }

  /** The step's own call. */
  ghost predicate OwnAccounted(cfg: Config, steps: seq<Step>, c: nat, t: Sys) {
    c in t.calls && CallAccounted(cfg, EmbedOf(steps, c), t.calls[c], t.log)
  }

  lemma NotAskedYet(cfg: Config, steps: seq<Step>, s: Sys, c: nat)
    requires Accounted(cfg, steps, s) && Enabled(s, ReadStep(c))
    ensures EmbedOf(steps, c) == None
  {
    assert CallAccounted(cfg, EmbedOf(steps, c), s.calls[c], s.log);
  }

  lemma OwnRead(cfg: Config, steps: seq<Step>, s: Sys, c: nat)
    requires Inv(cfg, s) && Enabled(s, ReadStep(c)) && EmbedOf(steps, c) == None
    ensures OwnAccounted(cfg, steps + [ReadStep(c)], c, DoRead(s, c))
  {
    OneMoreStep(steps, ReadStep(c), c);
    ReadAccounted(cfg, s, c);
  }

  lemma OwnEmbed(cfg: Config, steps: seq<Step>, s: Sys, c: nat, embedding: Option<seq<real>>)
    requires Inv(cfg, s) && Accounted(cfg, steps, s) && Enabled(s, EmbedStep(c, embedding))
    ensures OwnAccounted(cfg, steps + [EmbedStep(c, embedding)], c, DoEmbed(cfg, s, c, embedding))
  {
    OneMoreStep(steps, EmbedStep(c, embedding), c);
    EmbedAccounted(cfg, s, c, embedding);
  }

  lemma OwnFinalize(cfg: Config, steps: seq<Step>, s: Sys, c: nat, to: set<nat>)
    requires Inv(cfg, s) && Accounted(cfg, steps, s) && Enabled(s, FinalizeStep(c, to))
    ensures OwnAccounted(cfg, steps + [FinalizeStep(c, to)], c, DoFinalize(cfg, s, c, to))
  {
    OneMoreStep(steps, FinalizeStep(c, to), c);
    assert CallAccounted(cfg, EmbedOf(steps, c), s.calls[c], s.log);
    FinalizeAccounted(cfg, s, c, to);
  }

  lemma OwnCallAccounted(cfg: Config, steps: seq<Step>, s: Sys, step: Step)
    requires Inv(cfg, s) && Accounted(cfg, steps, s) && Enabled(s, step) && CallOf(step).Some?
    ensures OwnAccounted(cfg, steps + [step], CallOf(step).value, Do(cfg, s, step))
  {
    match step
    case ReadStep(c) =>
      NotAskedYet(cfg, steps, s, c);
      OwnRead(cfg, steps, s, c);
    case EmbedStep(c, embedding) => OwnEmbed(cfg, steps, s, c, embedding);
    case FinalizeStep(c, to) => OwnFinalize(cfg, steps, s, c, to);
    case BeginStep(c, _, _) => OneMoreStep(steps, step, c);
  }

  /** Everybody else's calls. */
  lemma OtherCallsSame(cfg: Config, s: Sys, step: Step, c: nat)
    requires Enabled(s, step) && CallOf(step) != Some(c)
    ensures var t := Do(cfg, s, step); (c in t.calls <==> c in s.calls) && (c in s.calls ==> t.calls[c] == s.calls[c])
  {
  }

  lemma OtherCallAccounted(cfg: Config, steps: seq<Step>, s: Sys, step: Step, c: nat)
    requires Inv(cfg, s) && Accounted(cfg, steps, s) && Enabled(s, step) && CallOf(step) != Some(c)
    ensures var t := Do(cfg, s, step);
      if c in t.calls then CallAccounted(cfg, EmbedOf(steps + [step], c), t.calls[c], t.log) else EmbedOf(steps + [step], c) == None
  {
    var t := Do(cfg, s, step);
    OneMoreStep(steps, step, c);
    OtherCallsSame(cfg, s, step, c);
    KeepStep(cfg, s, step);
    if c in s.calls && t.log != s.log {
      var e :| t.log == s.log + [e] && Sane(e.op) && e.response == Apply(cfg, Replay(cfg, s.log), e.op).1;
      StaysAccounted(cfg, EmbedOf(steps, c), s.calls[c], s.log, e);
    }
  }

  /** The entry that a step makes. */
  predicate Entered(log: seq<LogEntry>, step: Step, more: seq<LogEntry>) {
    match step
    case CreateStep(sid, ch) => more == log + [LogEntry(CreateOp(sid, ch), Created)]
    case DeleteStep(sid) => more == log + [LogEntry(DeleteOp(sid), Deleted)]
    case TimeStep(d) => more == log + [LogEntry(TimeOp(d), Nothing)] && d > 0.0
    case _ => more == log || (more != [] && more[|more| - 1].op.VerifyOp? && more[..|more| - 1] == log)
  }

  lemma EntryOf(cfg: Config, s: Sys, step: Step)
    requires Enabled(s, step)
    ensures Entered(s.log, step, Do(cfg, s, step).log)
  {
    if step.ReadStep? || step.EmbedStep? {
      CallEntryOf(cfg, s, step);
    }
  }

  lemma CallEntryOf(cfg: Config, s: Sys, step: Step)
    requires Enabled(s, step) && (step.ReadStep? || step.EmbedStep?)
    ensures var t := Do(cfg, s, step);
      t.log == s.log || (t.log != [] && t.log[|t.log| - 1].op.VerifyOp? && t.log[..|t.log| - 1] == s.log)
  {
    match step
    case ReadStep(c) => ReadEntry(s, c);
    case EmbedStep(c, embedding) => EmbedEntry(cfg, s, c, embedding);
  }

  lemma ReadEntry(s: Sys, c: nat)
    requires c in s.calls
    ensures var t := DoRead(s, c);
      t.log == s.log || (t.log != [] && t.log[|t.log| - 1].op.VerifyOp? && t.log[..|t.log| - 1] == s.log)
  {
  }

  lemma EmbedEntry(cfg: Config, s: Sys, c: nat, embedding: Option<seq<real>>)
    requires c in s.calls && s.calls[c].pc.Embedding?
    ensures var t := DoEmbed(cfg, s, c, embedding);
      t.log == s.log || (t.log != [] && t.log[|t.log| - 1].op.VerifyOp? && t.log[..|t.log| - 1] == s.log)
  {
  }

  lemma LogAccounted(cfg: Config, steps: seq<Step>, s: Sys, step: Step)
    requires SaneLog(s.log) && StoreOps(s.log) == OpsOf(steps) && Enabled(s, step)
    ensures var t := Do(cfg, s, step); SaneLog(t.log) && StoreOps(t.log) == OpsOf(steps + [step])
  {
    EntryOf(cfg, s, step);
    EntryAccounted(steps, s.log, step, Do(cfg, s, step).log);
  }

  lemma EntryAccounted(steps: seq<Step>, log: seq<LogEntry>, step: Step, more: seq<LogEntry>)
    requires SaneLog(log) && StoreOps(log) == OpsOf(steps) && Entered(log, step, more)
    ensures SaneLog(more) && StoreOps(more) == OpsOf(steps + [step])
  {
    OneMoreStep(steps, step, 0);
    if more != log {
      var e := more[|more| - 1];
      assert more == log + [e];
      OneMoreEntry(log, e);
    }
  }

  lemma StepAccounted(cfg: Config, steps: seq<Step>, s: Sys, step: Step)
    requires Inv(cfg, s) && Accounted(cfg, steps, s) && Enabled(s, step)
    ensures Accounted(cfg, steps + [step], Do(cfg, s, step))
  {
    LogAccounted(cfg, steps, s, step);
    forall c: nat
      ensures var t := Do(cfg, s, step);
        if c in t.calls then CallAccounted(cfg, EmbedOf(steps + [step], c), t.calls[c], t.log) else EmbedOf(steps + [step], c) == None
    {
      if CallOf(step) == Some(c) {
        OwnCallAccounted(cfg, steps, s, step);
        assert OwnAccounted(cfg, steps + [step], c, Do(cfg, s, step));
      } else {
        OtherCallAccounted(cfg, steps, s, step, c);
      }
    }
  }

  ghost predicate AccountedAt(cfg: Config, steps: seq<Step>, s: Sys) {
    Inv(cfg, s) && Accounted(cfg, steps, s)
  }

  lemma Shift(before: seq<Step>, steps: seq<Step>)
    requires steps != []
    ensures before + [steps[0]] + steps[1..] == before + steps
  {
  }

  lemma LeadAccounted(cfg: Config, s: Sys, before: seq<Step>, step: Step)
    requires AccountedAt(cfg, before, s) && Enabled(s, step)
    ensures AccountedAt(cfg, before + [step], Do(cfg, s, step))
  {
    KeepStep(cfg, s, step);
    StepAccounted(cfg, before, s, step);
  }

  lemma FirstAccounted(cfg: Config, s: Sys, before: seq<Step>, steps: seq<Step>, whole: seq<Step>, t: Sys)
    returns (m: Sys, more: seq<Step>)
    requires AccountedAt(cfg, before, s) && Leads(cfg, s, steps, t) && steps != [] && whole == before + steps
    ensures AccountedAt(cfg, more, m) && Leads(cfg, m, steps[1..], t) && whole == more + steps[1..]
  {
    m := LeadsFirst(cfg, s, steps, t);
    LeadAccounted(cfg, s, before, steps[0]);
    Shift(before, steps);
    more := before + [steps[0]];
  }

  lemma NothingMore(cfg: Config, s: Sys, before: seq<Step>, whole: seq<Step>, t: Sys)
    requires AccountedAt(cfg, before, s) && Leads(cfg, s, [], t) && whole == before + []
    ensures AccountedAt(cfg, whole, t)
  {
    assert whole == before;
  }

  lemma {:induction false} RunAccounted(cfg: Config, s: Sys, before: seq<Step>, steps: seq<Step>, whole: seq<Step>, t: Sys)
    requires AccountedAt(cfg, before, s) && Leads(cfg, s, steps, t) && whole == before + steps
    ensures AccountedAt(cfg, whole, t)
    decreases |steps|
  {
    if steps == [] {
      NothingMore(cfg, s, before, whole, t);
    } else {
      var m, more := FirstAccounted(cfg, s, before, steps, whole, t);
      RunAccounted(cfg, m, more, steps[1..], whole, t);
    }
  }

  lemma ReachedAccounted(cfg: Config, steps: seq<Step>)
    requires Runs(cfg, START, steps)
    ensures Inv(cfg, Reached(cfg, steps)) && Accounted(cfg, steps, Reached(cfg, steps))
    ensures ObjectByHistory(cfg, Reached(cfg, steps).log)
  {
    ReachedOk(cfg, steps);
    InvAtStart(cfg);
    assert [] + steps == steps;
    RunAccounted(cfg, START, [], steps, steps, Reached(cfg, steps));
    ObjectFromHistory(cfg, Reached(cfg, steps).log);
  }

  /** The log of a run holds its creates, deletes and lapses of time, all of them and in their order. */
  lemma LogIsTheRun(cfg: Config, steps: seq<Step>)
    requires Runs(cfg, START, steps)
    ensures StoreOps(Reached(cfg, steps).log) == OpsOf(steps)
  {
    ReachedAccounted(cfg, steps);
  }

  // ---- What a verify call is answered ----

  /** The answer of a call that got this from the embedding service, with this past behind its entry. */
  ghost predicate AnsweredFor(cfg: Config, past: seq<LogEntry>, sid: SessionId, given: Option<Option<seq<real>>>, r: Response) {
    match given
    case None => if !Made(past, sid) || HasGone(cfg, past, sid) then r == NotFound else HasWinner(past, sid) && r == Completed
    case Some(None) => r == Busy
    case Some(Some(v)) =>
      && Made(past, sid)
      && match cfg.score(ChallengeOf(past, sid).vector, v)
         case None => r == Fault
         case Some(score) =>
           if HasGone(cfg, past, sid) then r == NotFound
           else if HasWinner(past, sid) then r == Completed
           else IsResult(cfg, r, ChallengeOf(past, sid), score)
  }

  /**
   Every answered call, by what happened: 404 for a session that was not there, 409 for one already won,
   503 exactly when the embedding service gave nothing, 500 exactly when np.dot raised, and else the result
   of its own vector against the session's.
   */
  lemma CallsByHistory(cfg: Config, steps: seq<Step>, c: nat)
    requires Runs(cfg, START, steps)
    requires c in Reached(cfg, steps).calls && Reached(cfg, steps).calls[c].pc.Replied?
    ensures var s := Reached(cfg, steps); var call := s.calls[c];
      && call.pc.at < |s.log|
      && AnsweredFor(cfg, s.log[..call.pc.at], call.sid, EmbedOf(steps, c), call.pc.response)
  {
    ReachedAccounted(cfg, steps);
    var s := Reached(cfg, steps);
    var at := s.calls[c].pc.at;
    assert CallAccounted(cfg, EmbedOf(steps, c), s.calls[c], s.log);
    assert CallOk(cfg, c, s.calls[c], Replay(cfg, s.log), s.log);
    AnswersFromHistory(cfg, s.log, at);
  }
}
