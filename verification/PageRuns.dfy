/** What the pages show in any run of pages and service, and which key pairs Alice's page uploads. */
module PageRuns {
  import opened Domain
  import opened SessionStore
  import opened AtomicSession
  import opened Pages
  import opened KeyAgreement
  import opened PageObjects
  import System
  import SystemInvariant
  import Guarantees
  import SystemProofs

  // ---- Bob's screens ----

  /** The answers that a verify request can get. */
  lemma VerifyAnswers(cfg: Config, s: System.Sys, call: nat)
    requires SystemInvariant.Inv(cfg, s) && call in s.calls && s.calls[call].pc.Replied?
    ensures var r := s.calls[call].pc.response;
      r.Pass? || r.Fail? || r.NotFound? || r.Completed? || r.Busy? || r.Fault?
  {
    assert SystemInvariant.CallOk(cfg, call, s.calls[call], Replay(cfg, s.log), s.log);
  }

  /** What a page that awaits an answer shows when it comes. */
  ghost predicate ShowsAnswer(x: Bob, r: Response) {
    && (x.screen == BobFail <==> r.Fail?)
    && (x.screen == LinkExpired <==> r.NotFound? || r.Completed?)
    && (x.screen == BobChallenge && x.submitEnabled <==> r.Busy? || r.Fault?)
    && (r.Pass? ==> x.screen == Scoring && BImporting(r.aliceKey) in x.tasks)
  }

  lemma AnswerOnPage(ecdh: Ecdh, x: Bob, call: nat, r: Response)
    requires x.screen == Scoring && BAwaiting(call) in x.tasks
    requires r.Pass? || r.Fail? || r.NotFound? || r.Completed? || r.Busy? || r.Fault?
    ensures ShowsAnswer(BobDo(ecdh, x, BAnswered(call, VerdictOf(r))), r)
  {
  }

  /** What Bob's page shows when the answer to his request arrives. */
  lemma BobIsAnswered(ecdh: Ecdh, cfg: Config, steps: seq<WorldStep>, b: nat, call: nat)
    requires Runs(ecdh, cfg, BEGINNING, steps) && Can(After(ecdh, cfg, BEGINNING, steps), BobHears(b, call))
    ensures var w := After(ecdh, cfg, BEGINNING, steps); var v := Do(ecdh, cfg, w, BobHears(b, call));
      b in v.bobs && ShowsAnswer(v.bobs[b], w.sys.calls[call].pc.response)
  {
    RunOk(ecdh, cfg, steps);
    var w := After(ecdh, cfg, BEGINNING, steps);
    VerifyAnswers(cfg, w.sys, call);
    BobOnly(ecdh, w.bobs[b], w.sys, Obj(cfg, w), BAwaiting(call));
    AnswerOnPage(ecdh, w.bobs[b], call, w.sys.calls[call].pc.response);
  }

  /** What GET tells a page is whether its session waits for Bob at that moment ... */
  lemma BobLooksAtSession(ecdh: Ecdh, cfg: Config, steps: seq<WorldStep>, b: nat)
    requires Runs(ecdh, cfg, BEGINNING, steps) && Can(After(ecdh, cfg, BEGINNING, steps), BobLooks(b))
    ensures var w := After(ecdh, cfg, BEGINNING, steps); var v := Do(ecdh, cfg, w, BobLooks(b));
      var sid := w.bobs[b].sid; var o := Obj(cfg, w);
      && b in v.bobs
      && (BFetching(Some(true)) in v.bobs[b].tasks <==> !Gone(o, sid) && o.sessions[sid].outcome.None?)
      && (BFetching(Some(false)) in v.bobs[b].tasks <==> Gone(o, sid) || o.sessions[sid].outcome.Some?)
  {
    RunOk(ecdh, cfg, steps);
    var w := After(ecdh, cfg, BEGINNING, steps);
    var o, sid := Obj(cfg, w), w.bobs[b].sid;
    BobOnly(ecdh, w.bobs[b], w.sys, o, BFetching(None));
    if !Gone(o, sid) {
      SystemProofs.PhaseOf(o.sessions[sid]);
    }
  }

  /** ... and the page shows the challenge exactly if it does, and that the link has expired if not. */
  lemma BobIsShown(ecdh: Ecdh, cfg: Config, steps: seq<WorldStep>, b: nat, waiting: bool)
    requires Runs(ecdh, cfg, BEGINNING, steps) && Can(After(ecdh, cfg, BEGINNING, steps), BobMoves(b, BFetched(waiting)))
    ensures var v := Do(ecdh, cfg, After(ecdh, cfg, BEGINNING, steps), BobMoves(b, BFetched(waiting)));
      && b in v.bobs
      && (v.bobs[b].screen == BobChallenge <==> waiting)
      && (v.bobs[b].screen == LinkExpired <==> !waiting)
  {
  }

  /** What a page shows after its own click and after failures. */
  ghost predicate ShowsOwnStep(ecdh: Ecdh, before: Bob, x: Bob, step: BobStep) {
    match step
    case ClickSubmit =>
      before.keyPair.Some? && x.screen == Scoring && !x.submitEnabled && x.tasks == multiset{BExporting(ecdh.pub(before.keyPair.value))}
    case BRejected(task) =>
      if task.BGenerating? || task.BEnabling? then x.screen == Loading && x.tasks == multiset{BFetching(None)}
      else if task.BFetching? then x.screen == LinkExpired && x.tasks == multiset{}
      else x.screen == BobChallenge && x.submitEnabled && x.tasks == multiset{}
    case _ => true
  }

  lemma OwnStepOnPage(ecdh: Ecdh, x: Bob, sys: System.Sys, o: Object, step: BobStep)
    requires BobOk(ecdh, x, sys, o) && BobCan(x, step) && (step.ClickSubmit? || step.BRejected?)
    ensures ShowsOwnStep(ecdh, x, BobDo(ecdh, x, step), step)
  {
    if step.BRejected? {
      BobOnly(ecdh, x, sys, o, step.task);
    } else {
      assert BobIdle(ecdh, x, o);
    }
  }

  /**
   A submitted answer hides the form; if anything fails on the way, the form comes back, and a failed key
   pair does not keep the challenge away.
   */
  lemma BobGoesOn(ecdh: Ecdh, cfg: Config, steps: seq<WorldStep>, b: nat, step: BobStep)
    requires Runs(ecdh, cfg, BEGINNING, steps) && Can(After(ecdh, cfg, BEGINNING, steps), BobMoves(b, step))
    requires step.ClickSubmit? || step.BRejected?
    ensures var w := After(ecdh, cfg, BEGINNING, steps); var v := Do(ecdh, cfg, w, BobMoves(b, step));
      b in v.bobs && ShowsOwnStep(ecdh, w.bobs[b], v.bobs[b], step)
  {
    RunOk(ecdh, cfg, steps);
    var w := After(ecdh, cfg, BEGINNING, steps);
    OwnStepOnPage(ecdh, w.bobs[b], w.sys, Obj(cfg, w), step);
  }

  /** A call of the page's own session that was answered FAIL. */
  ghost predicate HadFail(w: World, b: nat) {
    && b in w.bobs
    && exists c :: c in w.sys.calls && w.sys.calls[c].sid == w.bobs[b].sid
                   && w.sys.calls[c].pc.Replied? && w.sys.calls[c].pc.response.Fail?
  }

  lemma FailComesFromAnswer(ecdh: Ecdh, b: Bob, step: BobStep)
    requires BobCan(b, step) && BobDo(ecdh, b, step).screen == BobFail
    ensures b.screen == BobFail || (step.BAnswered? && step.verdict.NotPassed?)
  {
  }

  lemma FailStays(ecdh: Ecdh, cfg: Config, w: World, step: WorldStep, b: nat)
    requires Can(w, step) && HadFail(w, b)
    ensures HadFail(Do(ecdh, cfg, w, step), b)
  {
    BobOwnStep(ecdh, cfg, w, step, b);
    var own := BobOwn(w, step, b);
    if own.Some? {
      BobStaysInSession(ecdh, w.bobs[b], own.value);
    }
    var c :| c in w.sys.calls && w.sys.calls[c].sid == w.bobs[b].sid && w.sys.calls[c].pc.Replied? && w.sys.calls[c].pc.response.Fail?;
    CallStays(ecdh, cfg, w, step, c);
    assert c in Do(ecdh, cfg, w, step).sys.calls;
  }

  lemma CallStays(ecdh: Ecdh, cfg: Config, w: World, step: WorldStep, c: nat)
    requires Can(w, step) && c in w.sys.calls && w.sys.calls[c].pc.Replied?
    ensures var s := Do(ecdh, cfg, w, step).sys; c in s.calls && s.calls[c] == w.sys.calls[c]
  {
    match step
    case Service(x) => Guarantees.StepExtends(cfg, w.sys, x);
    case _ =>
  }

  lemma StepShowsFail(ecdh: Ecdh, cfg: Config, w: World, step: WorldStep, b: nat)
    requires Inv(ecdh, cfg, w) && Can(w, step)
    requires b in w.bobs && w.bobs[b].screen == BobFail ==> HadFail(w, b)
    ensures var v := Do(ecdh, cfg, w, step); b in v.bobs && v.bobs[b].screen == BobFail ==> HadFail(v, b)
  {
    var v := Do(ecdh, cfg, w, step);
    if b in w.bobs && b in v.bobs && v.bobs[b].screen == BobFail {
      BobOwnStep(ecdh, cfg, w, step, b);
      var own := BobOwn(w, step, b);
      if own.Some? {
        FailComesFromAnswer(ecdh, w.bobs[b], own.value);
      }
      if w.bobs[b].screen != BobFail {
        HeardFail(ecdh, cfg, w, step, b);
      }
      FailStays(ecdh, cfg, w, step, b);
    }
  }

  /** The one way to the screen: the page hears its own call's FAIL. */
  lemma HeardFail(ecdh: Ecdh, cfg: Config, w: World, step: WorldStep, b: nat)
    requires Inv(ecdh, cfg, w) && Can(w, step) && b in w.bobs
    requires var own := BobOwn(w, step, b); own.Some? && own.value.BAnswered? && own.value.verdict.NotPassed?
    ensures HadFail(w, b)
  {
    var call := step.call;
    VerifyAnswers(cfg, w.sys, call);
    BobOnly(ecdh, w.bobs[b], w.sys, Obj(cfg, w), BAwaiting(call));
    assert call in w.sys.calls && w.sys.calls[call].sid == w.bobs[b].sid;
  }

  lemma {:induction false} RunShowsFail(ecdh: Ecdh, cfg: Config, w: World, steps: seq<WorldStep>, b: nat)
    requires Inv(ecdh, cfg, w) && Runs(ecdh, cfg, w, steps)
    requires b in w.bobs && w.bobs[b].screen == BobFail ==> HadFail(w, b)
    ensures var v := After(ecdh, cfg, w, steps); b in v.bobs && v.bobs[b].screen == BobFail ==> HadFail(v, b)
    decreases |steps|
  {
    if steps != [] {
      StepShowsFail(ecdh, cfg, w, steps[0], b);
      KeepStep(ecdh, cfg, w, steps[0]);
      RunShowsFail(ecdh, cfg, Do(ecdh, cfg, w, steps[0]), steps[1..], b);
    }
  }

  /** Bob is shown "Verification Failed" only of a session in which a call was answered FAIL. */
  lemma FailIsTrue(ecdh: Ecdh, cfg: Config, steps: seq<WorldStep>, b: nat)
    requires Runs(ecdh, cfg, BEGINNING, steps)
    requires var w := After(ecdh, cfg, BEGINNING, steps); b in w.bobs && w.bobs[b].screen == BobFail
    ensures HadFail(After(ecdh, cfg, BEGINNING, steps), b)
  {
    SystemProofs.InvAtStart(cfg);
    RunShowsFail(ecdh, cfg, BEGINNING, steps, b);
  }

  // ---- Alice's screens ----

  /** What a page that listens shows when an event comes. */
  ghost predicate ShowsEvent(before: Alice, x: Alice, e: Event)
    requires before.source.Some?
  {
    && (x.screen == AliceFail <==> e.FailedEvent?)
    && (x.screen == CreateForm <==> e.ExpiredEvent?)
    && (x.screen == WaitingForResult <==> e.ConnectedEvent? || e.VerifiedEvent?)
    && (x.source.Some? <==> e.ConnectedEvent?)
    && (e.ConnectedEvent? ==> x == before)
    && (e.VerifiedEvent? ==> x.tasks == multiset{Importing(before.source.value, e.bobKey)})
    && (e.FailedEvent? ==> x.tasks == multiset{})
    && (e.ExpiredEvent? ==> x.tasks == multiset{Generating} && !x.createEnabled && x.session.None?)
  }

  lemma EventOnPage(ecdh: Ecdh, x: Alice, e: Event)
    requires x.source.Some? && x.screen == WaitingForResult && x.tasks == multiset{}
    ensures ShowsEvent(x, AliceDo(ecdh, x, Message(e)), e)
  {
  }

  lemma Listening(ecdh: Ecdh, x: Alice, o: Object)
    requires AliceOk(ecdh, x, o) && (x.source.Some? || x.screen == AlicePass || x.screen == AliceFail)
    ensures x.tasks == multiset{} && (x.source.Some? ==> x.screen == WaitingForResult)
  {
  }

  /** What Alice's page shows when an event of her session's stream arrives. */
  lemma AliceIsTold(ecdh: Ecdh, cfg: Config, steps: seq<WorldStep>, a: nat, q: nat, i: nat)
    requires Runs(ecdh, cfg, BEGINNING, steps) && Can(After(ecdh, cfg, BEGINNING, steps), AliceHears(a, q, i))
    ensures var w := After(ecdh, cfg, BEGINNING, steps); var v := Do(ecdh, cfg, w, AliceHears(a, q, i));
      a in v.alices && ShowsEvent(w.alices[a], v.alices[a], w.sys.streams[q].out[i].event)
  {
    RunOk(ecdh, cfg, steps);
    var w := After(ecdh, cfg, BEGINNING, steps);
    Listening(ecdh, w.alices[a], Obj(cfg, w));
    EventOnPage(ecdh, w.alices[a], w.sys.streams[q].out[i].event);
  }

  /** A form that stays shut until there is a new pair. */
  predicate ShutForm(x: Alice) {
    x.screen == CreateForm && !x.createEnabled && x.session.None? && x.tasks == multiset{Generating}
  }

  lemma AgainOnPage(ecdh: Ecdh, x: Alice)
    requires AliceCan(x, ClickAgain) && x.tasks == multiset{}
    ensures ShutForm(AliceDo(ecdh, x, ClickAgain))
  {
  }

  /** "Start New Verification" and "Try Again" lead to such a form. */
  lemma AliceStartsAgain(ecdh: Ecdh, cfg: Config, steps: seq<WorldStep>, a: nat)
    requires Runs(ecdh, cfg, BEGINNING, steps) && Can(After(ecdh, cfg, BEGINNING, steps), AliceMoves(a, ClickAgain))
    ensures var v := Do(ecdh, cfg, After(ecdh, cfg, BEGINNING, steps), AliceMoves(a, ClickAgain));
      a in v.alices && ShutForm(v.alices[a])
  {
    RunOk(ecdh, cfg, steps);
    var w := After(ecdh, cfg, BEGINNING, steps);
    Listening(ecdh, w.alices[a], Obj(cfg, w));
    AgainOnPage(ecdh, w.alices[a]);
  }

  /** What the page shows when its create request comes back, or something fails. */
  ghost predicate ShowsOutcome(before: Alice, x: Alice, step: AliceStep) {
    match step
    case PostOk(_, sid) => x.screen == WaitingForResult && x.source == Some(sid) && x.session == Some(sid) && x.tasks == multiset{}
    case PostBroken(_, sid) =>
      x.screen == WaitingForResult && x.source.None? && x.session == Some(sid) && x.createEnabled && x.tasks == multiset{}
    case Rejected(task) =>
      && x.tasks == multiset{} && x.keyPair == before.keyPair && x.source.None?
      && (if task.Exporting? || task.Posting? then x.screen == CreateForm && x.createEnabled && x.keyPair.Some?
          else if task.Generating? || task.Enabling? then (x.screen == Landing || x.screen == CreateForm) && !x.createEnabled
          else x.screen == WaitingForResult)
    case _ => true
  }

  lemma OutcomeOnPage(ecdh: Ecdh, x: Alice, o: Object, step: AliceStep)
    requires AliceOk(ecdh, x, o) && AliceCan(x, step) && (step.PostOk? || step.PostBroken? || step.Rejected?)
    ensures ShowsOutcome(x, AliceDo(ecdh, x, step), step)
  {
    match step
    case PostOk(pub, sid) => AliceOnly(ecdh, x, o, Posting(pub, Some(sid)));
    case PostBroken(pub, sid) => AliceOnly(ecdh, x, o, Posting(pub, Some(sid)));
    case Rejected(task) => AliceOnly(ecdh, x, o, task);
  }

  /**
   A session made leads to the waiting screen with its stream open, or without one if the page fails in
   between; a failed request leaves the form ready to try again.
   */
  lemma AliceGoesOn(ecdh: Ecdh, cfg: Config, steps: seq<WorldStep>, a: nat, step: AliceStep)
    requires Runs(ecdh, cfg, BEGINNING, steps) && Can(After(ecdh, cfg, BEGINNING, steps), AliceMoves(a, step))
    requires step.PostOk? || step.PostBroken? || step.Rejected?
    ensures var w := After(ecdh, cfg, BEGINNING, steps); var v := Do(ecdh, cfg, w, AliceMoves(a, step));
      a in v.alices && ShowsOutcome(w.alices[a], v.alices[a], step)
  {
    RunOk(ecdh, cfg, steps);
    var w := After(ecdh, cfg, BEGINNING, steps);
    OutcomeOnPage(ecdh, w.alices[a], Obj(cfg, w), step);
  }

  // ---- Alice's key pairs ----

  /** reset() is called. */
  predicate Resets(step: AliceStep) {
    step == ClickAgain || step == Message(ExpiredEvent)
  }

  /** The pair generated last, if there was no reset since. */
  function LastKey(trace: seq<AliceStep>): Option<PrivateKey> {
    if trace == [] then None
    else
      var last := trace[|trace| - 1];
      if last.Generated? then Some(last.key)
      else if Resets(last) then None
      else LastKey(trace[..|trace| - 1])
  }

  /** A request that failed in the browser after the server had made a session of it. */
  predicate ResponseLost(step: AliceStep) {
    step.Rejected? && step.task.Posting? && step.task.made.Some?
  }

  /** The session for which the pair has been uploaded since it was generated, unless the response was lost. */
  function Bound(trace: seq<AliceStep>): Option<SessionId> {
    if trace == [] then None
    else
      var last := trace[|trace| - 1];
      if last.Generated? then None
      else if last.PostHandled? then Some(last.sid)
      else if ResponseLost(last) then None
      else Bound(trace[..|trace| - 1])
  }

  /** Since the pair was generated the page has got a session for it. */
  predicate Adopted(trace: seq<AliceStep>) {
    trace != [] &&
    var last := trace[|trace| - 1];
    !last.Generated? && (last.PostOk? || last.PostBroken? || Adopted(trace[..|trace| - 1]))
  }

  predicate OnForm(x: Alice) {
    x.screen == Landing || x.screen == CreateForm
  }

  /** The page after its trace: without a fresh pair the form is shut; a pair in use is not used again. */
  ghost predicate KeyFresh(trace: seq<AliceStep>, x: Alice) {
    && (LastKey(trace).Some? ==> x.keyPair == LastKey(trace))
    && (LastKey(trace).None? ==> OnForm(x) && !x.createEnabled && forall t :: t in x.tasks ==> t.Generating?)
    && (Bound(trace).Some? ==>
          || (exists pub :: Posting(pub, Bound(trace)) in x.tasks)
          || Spent(trace, x))
    && (Adopted(trace) ==> Spent(trace, x))
  }

  /** The pair is on no way to the server, and cannot get there any more. */
  ghost predicate Spent(trace: seq<AliceStep>, x: Alice) {
    (forall t :: t in x.tasks ==> !t.Exporting? && !t.Posting?) && (OnForm(x) ==> LastKey(trace).None?)
  }

  lemma OneMoreStep(trace: seq<AliceStep>, step: AliceStep)
    ensures LastKey(trace + [step]) == if step.Generated? then Some(step.key) else if Resets(step) then None else LastKey(trace)
    ensures Bound(trace + [step]) ==
      if step.Generated? then None else if step.PostHandled? then Some(step.sid)
      else if ResponseLost(step) then None else Bound(trace)
    ensures Adopted(trace + [step]) == (!step.Generated? && (step.PostOk? || step.PostBroken? || Adopted(trace)))
  {
    assert (trace + [step])[..|trace|] == trace;
  }

  /** The page itself, with the single task t pending, or with none. */
  ghost predicate Busy(x: Alice, t: AliceTask) {
    && x.tasks == multiset{t} && x.source.None?
    && match t
       case Generating | Enabling => OnForm(x) && !x.createEnabled
       case Exporting(_) | Posting(_, _) => x.screen == CreateForm && !x.createEnabled
       case Importing(_, _) | Deriving(_, _, _) => x.screen == WaitingForResult
  }

  ghost predicate Idle(x: Alice) {
    && x.tasks == multiset{}
    && (x.source.Some? ==> x.screen == WaitingForResult)
    && (OnForm(x) && x.createEnabled ==> x.keyPair.Some?)
  }

  lemma BusyOrIdle(ecdh: Ecdh, x: Alice, o: Object)
    requires AliceOk(ecdh, x, o)
    ensures Idle(x) || exists t :: Busy(x, t)
  {
    if !AliceIdle(ecdh, x, o) {
      var t :| AliceBusy(ecdh, x, o, t);
      assert Busy(x, t);
    }
  }

  /** The tasks after a step that resumes t. */
  lemma Resumed(ecdh: Ecdh, x: Alice, step: AliceStep, t: AliceTask)
    requires Busy(x, t) && AliceCan(x, step) && !step.Start?
    ensures var y := AliceDo(ecdh, x, step);
      match step
      case Generated(_) => t == Generating && y.tasks == multiset{Enabling}
      case Ready => t == Enabling && y.tasks == multiset{}
      case Exported(pub) => t == Exporting(pub) && y.tasks == multiset{Posting(pub, None)}
      case PostHandled(pub, sid) => t == Posting(pub, None) && y.tasks == multiset{Posting(pub, Some(sid))}
      case PostOk(pub, sid) => t == Posting(pub, Some(sid)) && y.tasks == multiset{}
      case PostBroken(pub, sid) => t == Posting(pub, Some(sid)) && y.tasks == multiset{}
      case Imported(sid, j) => t == Importing(sid, j) && forall u :: u in y.tasks ==> u.Deriving?
      case Derived(sid, mine, j) => t == Deriving(sid, mine, j) && y.tasks == multiset{}
      case Rejected(u) => u == t && y.tasks == multiset{}
      case _ => false
  {
  }

  lemma GeneratingKeepsFresh(ecdh: Ecdh, trace: seq<AliceStep>, x: Alice, step: AliceStep, t: AliceTask)
    requires Busy(x, t) && AliceCan(x, step) && KeyFresh(trace, x) && !step.Start? && (t.Generating? || t.Enabling?)
    ensures KeyFresh(trace + [step], AliceDo(ecdh, x, step)) && !step.PostHandled?
  {
    OneMoreStep(trace, step);
    Resumed(ecdh, x, step, t);
  }

  lemma ExportKeepsFresh(ecdh: Ecdh, trace: seq<AliceStep>, x: Alice, step: AliceStep, t: AliceTask)
    requires Busy(x, t) && AliceCan(x, step) && KeyFresh(trace, x) && !step.Start? && t.Exporting?
    ensures KeyFresh(trace + [step], AliceDo(ecdh, x, step)) && !step.PostHandled?
  {
    OneMoreStep(trace, step);
    Resumed(ecdh, x, step, t);
    assert Bound(trace).None? && !Adopted(trace);
  }

  lemma UploadKeepsFresh(ecdh: Ecdh, trace: seq<AliceStep>, x: Alice, step: AliceStep, t: AliceTask)
    requires Busy(x, t) && AliceCan(x, step) && KeyFresh(trace, x) && !step.Start? && t.Posting?
    ensures KeyFresh(trace + [step], AliceDo(ecdh, x, step))
    ensures step.PostHandled? ==> Bound(trace).None? && !Adopted(trace)
  {
    OneMoreStep(trace, step);
    Resumed(ecdh, x, step, t);
    assert !Adopted(trace);
    if step.PostHandled? {
      assert Posting(step.pub, Some(step.sid)) in AliceDo(ecdh, x, step).tasks;
    }
  }

  /** Away from the form, with nothing on its way to the server, a pair that was fresh still is. */
  lemma AwayIsFresh(trace: seq<AliceStep>, x: Alice, more: seq<AliceStep>, y: Alice)
    requires KeyFresh(trace, x) && !OnForm(x) && !OnForm(y) && y.keyPair == x.keyPair && LastKey(more) == LastKey(trace)
    requires forall u :: u in y.tasks ==> !u.Exporting? && !u.Posting?
    ensures KeyFresh(more, y)
  {
  }

  lemma DerivingStep(ecdh: Ecdh, x: Alice, step: AliceStep, t: AliceTask)
    requires Busy(x, t) && AliceCan(x, step) && !step.Start? && (t.Importing? || t.Deriving?)
    ensures step.Imported? || step.Derived? || step.Rejected?
    ensures var y := AliceDo(ecdh, x, step); !OnForm(y) && y.keyPair == x.keyPair && forall u :: u in y.tasks ==> u.Deriving?
  {
    Resumed(ecdh, x, step, t);
  }

  lemma DerivingKeepsFresh(ecdh: Ecdh, trace: seq<AliceStep>, x: Alice, step: AliceStep, t: AliceTask)
    requires Busy(x, t) && AliceCan(x, step) && KeyFresh(trace, x) && !step.Start? && (t.Importing? || t.Deriving?)
    ensures KeyFresh(trace + [step], AliceDo(ecdh, x, step)) && !step.PostHandled?
  {
    OneMoreStep(trace, step);
    DerivingStep(ecdh, x, step, t);
    AwayIsFresh(trace, x, trace + [step], AliceDo(ecdh, x, step));
  }

  lemma StartKeepsFresh(ecdh: Ecdh, trace: seq<AliceStep>, x: Alice)
    requires AliceCan(x, Start) && KeyFresh(trace, x)
    ensures KeyFresh(trace + [Start], AliceDo(ecdh, x, Start))
  {
    OneMoreStep(trace, Start);
  }

  lemma ResetKeepsFresh(ecdh: Ecdh, trace: seq<AliceStep>, x: Alice, step: AliceStep)
    requires Idle(x) && AliceCan(x, step) && KeyFresh(trace, x) && Resets(step)
    ensures KeyFresh(trace + [step], AliceDo(ecdh, x, step))
  {
    OneMoreStep(trace, step);
    var y := AliceDo(ecdh, x, step);
    assert y.screen == CreateForm && !y.createEnabled && y.tasks == multiset{Generating};
  }

  lemma ClickKeepsFresh(ecdh: Ecdh, trace: seq<AliceStep>, x: Alice)
    requires Idle(x) && AliceCan(x, ClickCreate) && KeyFresh(trace, x)
    ensures KeyFresh(trace + [ClickCreate], AliceDo(ecdh, x, ClickCreate))
  {
    OneMoreStep(trace, ClickCreate);
  }

  lemma NewsKeepsFresh(ecdh: Ecdh, trace: seq<AliceStep>, x: Alice, step: AliceStep)
    requires Idle(x) && AliceCan(x, step) && KeyFresh(trace, x) && !Resets(step) && (step.Message? || step.SourceLost?)
    ensures KeyFresh(trace + [step], AliceDo(ecdh, x, step))
  {
    OneMoreStep(trace, step);
    AwayIsFresh(trace, x, trace + [step], AliceDo(ecdh, x, step));
  }

  lemma IdleKeepsFresh(ecdh: Ecdh, trace: seq<AliceStep>, x: Alice, step: AliceStep)
    requires Idle(x) && AliceCan(x, step) && KeyFresh(trace, x) && !step.Start?
    ensures KeyFresh(trace + [step], AliceDo(ecdh, x, step)) && !step.PostHandled?
  {
    assert step.ClickCreate? || step.Message? || step.SourceLost? || step.ClickAgain?;
    if Resets(step) {
      ResetKeepsFresh(ecdh, trace, x, step);
    } else if step.ClickCreate? {
      ClickKeepsFresh(ecdh, trace, x);
    } else {
      NewsKeepsFresh(ecdh, trace, x, step);
    }
  }

  lemma StepKeepsFresh(ecdh: Ecdh, trace: seq<AliceStep>, x: Alice, o: Object, step: AliceStep)
    requires AliceOk(ecdh, x, o) && AliceCan(x, step) && KeyFresh(trace, x)
    ensures KeyFresh(trace + [step], AliceDo(ecdh, x, step))
    ensures step.PostHandled? ==> Bound(trace).None? && !Adopted(trace)
  {
    BusyOrIdle(ecdh, x, o);
    if step.Start? {
      StartKeepsFresh(ecdh, trace, x);
    } else if t :| Busy(x, t) {
      match t
      case Generating | Enabling => GeneratingKeepsFresh(ecdh, trace, x, step, t);
      case Exporting(_) => ExportKeepsFresh(ecdh, trace, x, step, t);
      case Posting(_, _) => UploadKeepsFresh(ecdh, trace, x, step, t);
      case Importing(_, _) | Deriving(_, _, _) => DerivingKeepsFresh(ecdh, trace, x, step, t);
    } else {
      IdleKeepsFresh(ecdh, trace, x, step);
    }
  }

  // ---- After a lost response ----

  /** The key of the last upload. */
  function Sent(trace: seq<AliceStep>): Option<Jwk> {
    if trace == [] then None
    else
      var last := trace[|trace| - 1];
      if last.PostHandled? then Some(last.pub) else Sent(trace[..|trace| - 1])
  }

  /** Since the last upload a response has been lost. */
  predicate Lost(trace: seq<AliceStep>) {
    trace != [] &&
    var last := trace[|trace| - 1];
    !last.PostHandled? && (ResponseLost(last) || Lost(trace[..|trace| - 1]))
  }

  /** Since the last upload a pair has been generated. */
  predicate NewPair(trace: seq<AliceStep>) {
    trace != [] &&
    var last := trace[|trace| - 1];
    !last.PostHandled? && (last.Generated? || NewPair(trace[..|trace| - 1]))
  }

  predicate Uploading(t: AliceTask) {
    t.Exporting? || t.Posting?
  }

  /** The page holds, and has on its way, the key of the last upload and no other. */
  ghost predicate HoldsSent(ecdh: Ecdh, trace: seq<AliceStep>, x: Alice) {
    && x.screen == CreateForm && x.source.None? && x.keyPair.Some? && Sent(trace) == Some(ecdh.pub(x.keyPair.value))
    && forall t :: t in x.tasks ==> Uploading(t) && t.pub == ecdh.pub(x.keyPair.value)
  }

  /** A handled request and a lost response leave the page with the pair that was sent. */
  ghost predicate StillSent(ecdh: Ecdh, trace: seq<AliceStep>, x: Alice) {
    && (Lost(trace) ==> !NewPair(trace) && HoldsSent(ecdh, trace, x) && forall t :: t in x.tasks && t.Posting? ==> t.made.None?)
    && ((exists t :: t in x.tasks && t.Posting? && t.made.Some?) ==> !Lost(trace) && !NewPair(trace) && HoldsSent(ecdh, trace, x))
  }

  lemma OneMoreSent(trace: seq<AliceStep>, step: AliceStep)
    ensures Sent(trace + [step]) == if step.PostHandled? then Some(step.pub) else Sent(trace)
    ensures Lost(trace + [step]) == (!step.PostHandled? && (ResponseLost(step) || Lost(trace)))
    ensures NewPair(trace + [step]) == (!step.PostHandled? && (step.Generated? || NewPair(trace)))
  {
    assert (trace + [step])[..|trace|] == trace;
  }

  lemma UploadKeepsSent(ecdh: Ecdh, trace: seq<AliceStep>, x: Alice, o: Object, step: AliceStep, t: AliceTask)
    requires AliceBusy(ecdh, x, o, t) && AliceCan(x, step) && StillSent(ecdh, trace, x) && !step.Start? && Uploading(t)
    ensures StillSent(ecdh, trace + [step], AliceDo(ecdh, x, step))
  {
    OneMoreSent(trace, step);
    Resumed(ecdh, x, step, t);
    assert t in x.tasks;
  }

  lemma OtherTaskKeepsSent(ecdh: Ecdh, trace: seq<AliceStep>, x: Alice, step: AliceStep, t: AliceTask)
    requires Busy(x, t) && AliceCan(x, step) && StillSent(ecdh, trace, x) && !step.Start? && !Uploading(t)
    ensures StillSent(ecdh, trace + [step], AliceDo(ecdh, x, step))
  {
    OneMoreSent(trace, step);
    Resumed(ecdh, x, step, t);
    assert t in x.tasks;
    assert !Lost(trace) && !Lost(trace + [step]);
    var y := AliceDo(ecdh, x, step);
    assert forall u :: u in y.tasks ==> !u.Posting?;
  }

  lemma IdleKeepsSent(ecdh: Ecdh, trace: seq<AliceStep>, x: Alice, step: AliceStep)
    requires Idle(x) && AliceCan(x, step) && StillSent(ecdh, trace, x)
    ensures StillSent(ecdh, trace + [step], AliceDo(ecdh, x, step))
  {
    OneMoreSent(trace, step);
    var y := AliceDo(ecdh, x, step);
    assert forall u :: u in y.tasks ==> !u.Posting?;
  }

  lemma StepKeepsSent(ecdh: Ecdh, trace: seq<AliceStep>, x: Alice, o: Object, step: AliceStep)
    requires AliceOk(ecdh, x, o) && AliceCan(x, step) && StillSent(ecdh, trace, x)
    ensures StillSent(ecdh, trace + [step], AliceDo(ecdh, x, step))
  {
    if step.Start? {
      OneMoreSent(trace, step);
    } else if t :| AliceBusy(ecdh, x, o, t) {
      if Uploading(t) {
        UploadKeepsSent(ecdh, trace, x, o, step, t);
      } else {
        assert Busy(x, t);
        OtherTaskKeepsSent(ecdh, trace, x, step, t);
      }
    } else {
      IdleKeepsSent(ecdh, trace, x, step);
    }
  }

  // ---- Whole runs ----

  /** The page's pair is as its trace says. */
  ghost predicate PairByTrace(ecdh: Ecdh, trace: seq<AliceStep>, x: Alice) {
    KeyFresh(trace, x) && StillSent(ecdh, trace, x)
  }

  function OwnPart(w: World, step: WorldStep, a: nat): seq<AliceStep>
    requires Can(w, step)
  {
    if AliceOwn(w, step, a).Some? then [AliceOwn(w, step, a).value] else []
  }

  lemma WorldStepKeepsFresh(ecdh: Ecdh, cfg: Config, w: World, step: WorldStep, a: nat, before: seq<AliceStep>)
    requires Inv(ecdh, cfg, w) && Can(w, step) && PairByTrace(ecdh, before, AliceNow(w, a))
    ensures PairByTrace(ecdh, before + OwnPart(w, step, a), AliceNow(Do(ecdh, cfg, w, step), a))
  {
    AliceProjectsStep(ecdh, cfg, w, step, a);
    var own := AliceOwn(w, step, a);
    if own.Some? {
      StepKeepsFresh(ecdh, before, AliceNow(w, a), Obj(cfg, w), own.value);
      StepKeepsSent(ecdh, before, AliceNow(w, a), Obj(cfg, w), own.value);
    } else {
      assert before + [] == before;
    }
  }

  /** A run of the world takes page a from x to y along this trace. */
  ghost predicate Takes(ecdh: Ecdh, cfg: Config, w: World, steps: seq<WorldStep>, a: nat, trace: seq<AliceStep>, y: Alice) {
    Runs(ecdh, cfg, w, steps) && trace == AliceTrace(ecdh, cfg, w, steps, a) && y == AliceNow(After(ecdh, cfg, w, steps), a)
  }

  lemma TakesFirst(ecdh: Ecdh, cfg: Config, w: World, steps: seq<WorldStep>, a: nat, trace: seq<AliceStep>, y: Alice)
    returns (v: World, own: seq<AliceStep>, rest: seq<AliceStep>)
    requires Takes(ecdh, cfg, w, steps, a, trace, y) && steps != []
    ensures Can(w, steps[0]) && v == Do(ecdh, cfg, w, steps[0]) && own == OwnPart(w, steps[0], a)
    ensures Takes(ecdh, cfg, v, steps[1..], a, rest, y) && trace == own + rest
  {
    v, own := Do(ecdh, cfg, w, steps[0]), OwnPart(w, steps[0], a);
    rest := AliceTrace(ecdh, cfg, v, steps[1..], a);
  }

  lemma TakesNothing(ecdh: Ecdh, cfg: Config, w: World, a: nat, trace: seq<AliceStep>, y: Alice)
    requires Takes(ecdh, cfg, w, [], a, trace, y)
    ensures trace == [] && y == AliceNow(w, a)
  {
  }

  /** Page and service are regular, and the page's pair is as its trace so far says. */
  ghost predicate FreshAt(ecdh: Ecdh, cfg: Config, w: World, a: nat, before: seq<AliceStep>) {
    Inv(ecdh, cfg, w) && PairByTrace(ecdh, before, AliceNow(w, a))
  }

  lemma FirstKeepsFresh(ecdh: Ecdh, cfg: Config, w: World, steps: seq<WorldStep>, a: nat, before: seq<AliceStep>,
                        trace: seq<AliceStep>, y: Alice)
    returns (v: World, own: seq<AliceStep>, rest: seq<AliceStep>)
    requires FreshAt(ecdh, cfg, w, a, before) && Takes(ecdh, cfg, w, steps, a, trace, y) && steps != []
    ensures FreshAt(ecdh, cfg, v, a, before + own) && Takes(ecdh, cfg, v, steps[1..], a, rest, y)
    ensures trace == own + rest
  {
    v, own, rest := TakesFirst(ecdh, cfg, w, steps, a, trace, y);
    KeepStep(ecdh, cfg, w, steps[0]);
    WorldStepKeepsFresh(ecdh, cfg, w, steps[0], a, before);
  }

  lemma {:induction false} RunKeepsFresh(ecdh: Ecdh, cfg: Config, w: World, steps: seq<WorldStep>, a: nat,
                                         before: seq<AliceStep>, trace: seq<AliceStep>, whole: seq<AliceStep>, y: Alice)
    requires FreshAt(ecdh, cfg, w, a, before) && Takes(ecdh, cfg, w, steps, a, trace, y)
    requires whole == before + trace
    ensures PairByTrace(ecdh, whole, y)
    decreases |steps|
  {
    if steps == [] {
      TakesNothing(ecdh, cfg, w, a, trace, y);
      assert whole == before;
    } else {
      var v, own, rest := FirstKeepsFresh(ecdh, cfg, w, steps, a, before, trace, y);
      assert whole == before + own + rest;
      RunKeepsFresh(ecdh, cfg, v, steps[1..], a, before + own, rest, whole, y);
    }
  }

  lemma FreshAfterRun(ecdh: Ecdh, cfg: Config, steps: seq<WorldStep>, a: nat)
    requires Runs(ecdh, cfg, BEGINNING, steps)
    ensures PairByTrace(ecdh, AliceTrace(ecdh, cfg, BEGINNING, steps, a), AliceNow(After(ecdh, cfg, BEGINNING, steps), a))
  {
    SystemProofs.InvAtStart(cfg);
    var trace := AliceTrace(ecdh, cfg, BEGINNING, steps, a);
    assert [] + trace == trace;
    RunKeepsFresh(ecdh, cfg, BEGINNING, steps, a, [], trace, trace, AliceNow(After(ecdh, cfg, BEGINNING, steps), a));
  }

  lemma {:induction false} LastKeyIsLast(trace: seq<AliceStep>) returns (g: nat)
    requires LastKey(trace).Some?
    ensures g < |trace| && trace[g] == Generated(LastKey(trace).value)
    ensures forall m :: g < m < |trace| ==> !trace[m].Generated? && !Resets(trace[m])
    decreases |trace|
  {
    if trace[|trace| - 1].Generated? {
      g := |trace| - 1;
    } else {
      g := LastKeyIsLast(trace[..|trace| - 1]);
    }
  }

  lemma {:induction false} UnboundMeans(trace: seq<AliceStep>, p: nat)
    requires p < |trace| && trace[p].PostHandled? && Bound(trace).None?
    ensures exists m :: p < m < |trace| && (trace[m].Generated? || ResponseLost(trace[m]))
    decreases |trace|
  {
    var last := |trace| - 1;
    if !(trace[last].Generated? || ResponseLost(trace[last])) {
      UnboundMeans(trace[..last], p);
      var m :| p < m < last && (trace[..last][m].Generated? || ResponseLost(trace[..last][m]));
      assert trace[m] == trace[..last][m];
    }
  }

  lemma {:induction false} UnadoptedMeans(trace: seq<AliceStep>, p: nat)
    requires p < |trace| && (trace[p].PostOk? || trace[p].PostBroken?) && !Adopted(trace)
    ensures exists m :: p < m < |trace| && trace[m].Generated?
    decreases |trace|
  {
    var last := |trace| - 1;
    if !trace[last].Generated? {
      UnadoptedMeans(trace[..last], p);
      var m :| p < m < last && trace[..last][m].Generated?;
      assert trace[m] == trace[..last][m];
    }
  }

  /**
   When Alice clicks "Generate Challenge Link", her page has a pair that was generated since the last reset,
   and what it goes on to upload is the public half of the pair generated last.
   */
  lemma ExportsFreshKey(ecdh: Ecdh, cfg: Config, steps: seq<WorldStep>, a: nat) returns (g: nat)
    requires Runs(ecdh, cfg, BEGINNING, steps) && Can(After(ecdh, cfg, BEGINNING, steps), AliceMoves(a, ClickCreate))
    ensures var trace := AliceTrace(ecdh, cfg, BEGINNING, steps, a);
      var v := Do(ecdh, cfg, After(ecdh, cfg, BEGINNING, steps), AliceMoves(a, ClickCreate));
      && g < |trace| && trace[g].Generated?
      && (forall m :: g < m < |trace| ==> !trace[m].Generated? && trace[m] != ClickAgain && trace[m] != Message(ExpiredEvent))
      && a in v.alices && v.alices[a].tasks == multiset{Exporting(ecdh.pub(trace[g].key))}
  {
    FreshAfterRun(ecdh, cfg, steps, a);
    RunOk(ecdh, cfg, steps);
    var w := After(ecdh, cfg, BEGINNING, steps);
    g := LastKeyIsLast(AliceTrace(ecdh, cfg, BEGINNING, steps, a));
    BusyOrIdle(ecdh, w.alices[a], Obj(cfg, w));
    CreateOnPage(ecdh, w.alices[a]);
  }

  lemma CreateOnPage(ecdh: Ecdh, x: Alice)
    requires AliceCan(x, ClickCreate) && x.keyPair.Some? && (Idle(x) || exists t :: Busy(x, t))
    ensures AliceDo(ecdh, x, ClickCreate).tasks == multiset{Exporting(ecdh.pub(x.keyPair.value))}
  {
  }

  /** A pair is uploaded again only after a request whose response was lost. */
  lemma UploadsOnce(ecdh: Ecdh, cfg: Config, steps: seq<WorldStep>, create: WorldStep, p: nat)
    requires Runs(ecdh, cfg, BEGINNING, steps) && create.AlicePosts? && Can(After(ecdh, cfg, BEGINNING, steps), create)
    requires var trace := AliceTrace(ecdh, cfg, BEGINNING, steps, create.a); p < |trace| && trace[p].PostHandled?
    ensures var trace := AliceTrace(ecdh, cfg, BEGINNING, steps, create.a);
      exists m :: p < m < |trace| && (trace[m].Generated? || ResponseLost(trace[m]))
  {
    var trace := AliceTrace(ecdh, cfg, BEGINNING, steps, create.a);
    FreshAfterRun(ecdh, cfg, steps, create.a);
    RunOk(ecdh, cfg, steps);
    var w := After(ecdh, cfg, BEGINNING, steps);
    StepKeepsFresh(ecdh, trace, w.alices[create.a], Obj(cfg, w), PostHandled(create.pub, create.sid));
    UnboundMeans(trace, p);
  }

  /** Two sessions that a page has got come from two pairs: after the first it uploads nothing before a new one is generated. */
  lemma NextSessionNextPair(ecdh: Ecdh, cfg: Config, steps: seq<WorldStep>, create: WorldStep, p: nat)
    requires Runs(ecdh, cfg, BEGINNING, steps) && create.AlicePosts? && Can(After(ecdh, cfg, BEGINNING, steps), create)
    requires var trace := AliceTrace(ecdh, cfg, BEGINNING, steps, create.a); p < |trace| && (trace[p].PostOk? || trace[p].PostBroken?)
    ensures var trace := AliceTrace(ecdh, cfg, BEGINNING, steps, create.a);
      exists m :: p < m < |trace| && trace[m].Generated?
  {
    var trace := AliceTrace(ecdh, cfg, BEGINNING, steps, create.a);
    FreshAfterRun(ecdh, cfg, steps, create.a);
    RunOk(ecdh, cfg, steps);
    var w := After(ecdh, cfg, BEGINNING, steps);
    StepKeepsFresh(ecdh, trace, w.alices[create.a], Obj(cfg, w), PostHandled(create.pub, create.sid));
    UnadoptedMeans(trace, p);
  }

  lemma {:induction false} SinceLastUpload(trace: seq<AliceStep>, p: nat)
    requires p < |trace| && trace[p].PostHandled? && forall m :: p < m < |trace| ==> !trace[m].PostHandled?
    ensures Sent(trace) == Some(trace[p].pub)
    ensures Lost(trace) <==> exists m :: p < m < |trace| && ResponseLost(trace[m])
    ensures NewPair(trace) <==> exists m :: p < m < |trace| && trace[m].Generated?
    decreases |trace|
  {
    var init, last := trace[..|trace| - 1], |trace| - 1;
    if p < last {
      SinceLastUpload(init, p);
      assert forall m :: p < m < last ==> init[m] == trace[m];
    }
  }

  /**
   From one upload to the next: a new pair is generated in between if and only if no response was lost in
   between, and if one was, the same key is uploaded again.
   */
  lemma NewPairExactly(ecdh: Ecdh, cfg: Config, steps: seq<WorldStep>, create: WorldStep, p: nat)
    requires Runs(ecdh, cfg, BEGINNING, steps) && create.AlicePosts? && Can(After(ecdh, cfg, BEGINNING, steps), create)
    requires var trace := AliceTrace(ecdh, cfg, BEGINNING, steps, create.a);
      p < |trace| && trace[p].PostHandled? && forall m :: p < m < |trace| ==> !trace[m].PostHandled?
    ensures var trace := AliceTrace(ecdh, cfg, BEGINNING, steps, create.a);
      && ((exists m :: p < m < |trace| && trace[m].Generated?) <==> !(exists m :: p < m < |trace| && ResponseLost(trace[m])))
      && ((exists m :: p < m < |trace| && ResponseLost(trace[m])) ==> create.pub == trace[p].pub)
  {
    var trace := AliceTrace(ecdh, cfg, BEGINNING, steps, create.a);
    UploadsOnce(ecdh, cfg, steps, create, p);
    SinceLastUpload(trace, p);
    FreshAfterRun(ecdh, cfg, steps, create.a);
    if Lost(trace) {
      assert Posting(create.pub, None) in AliceNow(After(ecdh, cfg, BEGINNING, steps), create.a).tasks;
    }
  }

  // ---- A pair used twice ----

  /** The trace takes the page from x to y. */
  predicate Plays(ecdh: Ecdh, x: Alice, trace: seq<AliceStep>, y: Alice) {
    AlicePlays(ecdh, x, trace) && AliceAfter(ecdh, x, trace) == y
  }

  lemma FirstPlays(ecdh: Ecdh, x: Alice, first: AliceStep, m: Alice, rest: seq<AliceStep>, y: Alice)
    requires AliceCan(x, first) && m == AliceDo(ecdh, x, first) && Plays(ecdh, m, rest, y)
    ensures Plays(ecdh, x, [first] + rest, y)
  {
    assert ([first] + rest)[1..] == rest;
  }

  /** The form with a pair in place, ready or with a task pending. */
  function Form(key: PrivateKey, tasks: multiset<AliceTask>): Alice {
    Alice(CreateForm, Some(key), tasks == multiset{}, None, None, tasks, None)
  }

  /** One click brings the request on its way. */
  lemma Uploads(ecdh: Ecdh, key: PrivateKey, sid: SessionId, rest: seq<AliceStep>, y: Alice) returns (trace: seq<AliceStep>)
    requires Plays(ecdh, Form(key, multiset{Posting(ecdh.pub(key), Some(sid))}), rest, y)
    ensures trace == [ClickCreate, Exported(ecdh.pub(key)), PostHandled(ecdh.pub(key), sid)] + rest
    ensures Plays(ecdh, Form(key, multiset{}), trace, y)
  {
    var pub := ecdh.pub(key);
    var posting := Form(key, multiset{Posting(pub, None)});
    var exporting := Form(key, multiset{Exporting(pub)});
    FirstPlays(ecdh, posting, PostHandled(pub, sid), Form(key, multiset{Posting(pub, Some(sid))}), rest, y);
    trace := [PostHandled(pub, sid)] + rest;
    FirstPlays(ecdh, exporting, Exported(pub), posting, trace, y);
    trace := [Exported(pub)] + trace;
    FirstPlays(ecdh, Form(key, multiset{}), ClickCreate, exporting, trace, y);
    trace := [ClickCreate] + trace;
  }

  lemma Begins(ecdh: Ecdh, key: PrivateKey, rest: seq<AliceStep>, y: Alice) returns (trace: seq<AliceStep>)
    requires Plays(ecdh, Form(key, multiset{}), rest, y)
    ensures trace == [Generated(key), Ready, Start] + rest
    ensures Plays(ecdh, ALICE_LOADED, trace, y)
  {
    var enabling := Alice(Landing, Some(key), false, None, None, multiset{Enabling}, None);
    var landing := Alice(Landing, Some(key), true, None, None, multiset{}, None);
    FirstPlays(ecdh, landing, Start, Form(key, multiset{}), rest, y);
    trace := [Start] + rest;
    FirstPlays(ecdh, enabling, Ready, landing, trace, y);
    trace := [Ready] + trace;
    FirstPlays(ecdh, ALICE_LOADED, Generated(key), enabling, trace, y);
    trace := [Generated(key)] + trace;
  }

  lemma OnePair(trace: seq<AliceStep>, key: PrivateKey, pub: Jwk, first: SessionId, second: SessionId)
    requires trace == [Generated(key), Ready, Start]
      + ([ClickCreate, Exported(pub), PostHandled(pub, first)]
         + ([Rejected(Posting(pub, Some(first)))] + ([ClickCreate, Exported(pub), PostHandled(pub, second)] + [])))
    ensures PostHandled(pub, first) in trace && PostHandled(pub, second) in trace
    ensures forall i, j :: 0 <= i < |trace| && 0 <= j < |trace| && trace[i].Generated? && trace[j].Generated? ==> i == j
  {
    assert trace[5] == PostHandled(pub, first) && trace[9] == PostHandled(pub, second);
  }

  /**
   That does happen: the response to the first request is lost, Alice clicks again, and
   two sessions have the same key although only one pair was generated.
   */
  lemma PairUploadedTwice(ecdh: Ecdh, key: PrivateKey, first: SessionId, second: SessionId) returns (trace: seq<AliceStep>)
    ensures AlicePlays(ecdh, ALICE_LOADED, trace)
    ensures PostHandled(ecdh.pub(key), first) in trace && PostHandled(ecdh.pub(key), second) in trace
    ensures forall i, j :: 0 <= i < |trace| && 0 <= j < |trace| && trace[i].Generated? && trace[j].Generated? ==> i == j
  {
    var pub := ecdh.pub(key);
    var end := Form(key, multiset{Posting(pub, Some(second))});
    var lost := Rejected(Posting(pub, Some(first)));
    trace := Uploads(ecdh, key, second, [], end);
    FirstPlays(ecdh, Form(key, multiset{Posting(pub, Some(first))}), lost, Form(key, multiset{}), trace, end);
    trace := Uploads(ecdh, key, first, [lost] + trace, end);
    trace := Begins(ecdh, key, trace, end);
    OnePair(trace, key, pub, first, second);
  }
}
