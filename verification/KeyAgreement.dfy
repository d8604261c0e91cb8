/** Pages and service together: whoever sees "Identity Verified" on both sides holds one and the same key. */
module KeyAgreement {
  import opened Domain
  import opened SessionStore
  import opened AtomicSession
  import opened StreamMachine
  import opened System
  import opened SystemInvariant
  import opened Pages
  import SystemProofs
  import Guarantees

  /** Any number of Alices and Bobs in front of the running service. */
  datatype World = World(sys: Sys, alices: map<nat, Alice>, bobs: map<nat, Bob>)

  datatype WorldStep =
    | Service(step: Step)                                   // the service by itself, and everybody else's requests
    | LoadAlice(a: nat)
    | LoadBob(b: nat, sid: SessionId)
    | AliceMoves(a: nat, astep: AliceStep)
    | AlicePosts(a: nat, pub: Jwk, sid: SessionId, name: string, question: string, vector: seq<real>)
    | AliceHears(a: nat, q: nat, i: nat)                    // chunk i of stream q reaches her page
    | BobMoves(b: nat, bstep: BobStep)
    | BobLooks(b: nat)                                      // GET /session/<id> is handled
    | BobPosts(b: nat, pub: Jwk, call: nat, name: string)
    | BobHears(b: nat, call: nat)

  function VerdictOf(r: Response): Verdict {
    match r
    case NotFound | Completed => Unavailable
    case Pass(_, aliceKey) => Passed(aliceKey)
    case Fail(_) => NotPassed
    case _ => Trouble
  }

  predicate Can(w: World, step: WorldStep) {
    match step
    case Service(s) => System.Enabled(w.sys, s)
    case LoadAlice(a) => a !in w.alices
    case LoadBob(b, _) => b !in w.bobs
    case AliceMoves(a, s) =>
      a in w.alices && AliceCan(w.alices[a], s) && !s.PostHandled? && !s.Message?
    case AlicePosts(a, pub, sid, _, _, _) =>
      a in w.alices && AliceCan(w.alices[a], PostHandled(pub, sid)) && sid !in w.sys.used
    case AliceHears(a, q, i) =>
      && a in w.alices && w.alices[a].source.Some?
      && q in w.sys.streams && w.sys.streams[q].sid == w.alices[a].source.value
      && i < |w.sys.streams[q].out| && w.sys.streams[q].out[i].Data?
    case BobMoves(b, s) => b in w.bobs && BobCan(w.bobs[b], s) && !s.BLooked? && !s.BSent? && !s.BAnswered?
    case BobLooks(b) => b in w.bobs && BFetching(None) in w.bobs[b].tasks
    case BobPosts(b, pub, call, _) => b in w.bobs && BobCan(w.bobs[b], BSent(pub, call)) && call !in w.sys.calls
    case BobHears(b, call) =>
      && b in w.bobs && BAwaiting(call) in w.bobs[b].tasks
      && call in w.sys.calls && w.sys.calls[call].pc.Replied?
  }

  function Do(ecdh: Ecdh, cfg: Config, w: World, step: WorldStep): World
    requires Can(w, step)
  {
    match step
    case Service(s) => w.(sys := System.Do(cfg, w.sys, s))
    case LoadAlice(a) => w.(alices := w.alices[a := ALICE_LOADED])
    case LoadBob(b, sid) => w.(bobs := w.bobs[b := BobLoaded(sid)])
    case AliceMoves(a, s) => w.(alices := w.alices[a := AliceDo(ecdh, w.alices[a], s)])
    case AlicePosts(a, pub, sid, name, question, vector) =>
      w.(sys := System.Do(cfg, w.sys, CreateStep(sid, Challenge(name, question, vector, pub))),
         alices := w.alices[a := AliceDo(ecdh, w.alices[a], PostHandled(pub, sid))])
    case AliceHears(a, q, i) =>
      w.(alices := w.alices[a := AliceDo(ecdh, w.alices[a], Message(w.sys.streams[q].out[i].event))])
    case BobMoves(b, s) => w.(bobs := w.bobs[b := BobDo(ecdh, w.bobs[b], s)])
    case BobLooks(b) => w.(bobs := w.bobs[b := BobDo(ecdh, w.bobs[b], BLooked(GetPhase(w.sys.db, w.bobs[b].sid) == Some(WaitingForBob)))])
    case BobPosts(b, pub, call, name) =>
      w.(sys := System.Do(cfg, w.sys, BeginStep(call, w.bobs[b].sid, BobRequest(name, pub))),
         bobs := w.bobs[b := BobDo(ecdh, w.bobs[b], BSent(pub, call))])
    case BobHears(b, call) =>
      w.(bobs := w.bobs[b := BobDo(ecdh, w.bobs[b], BAnswered(call, VerdictOf(w.sys.calls[call].pc.response)))])
  }

  predicate Runs(ecdh: Ecdh, cfg: Config, w: World, steps: seq<WorldStep>)
    decreases |steps|
  {
    steps == [] || (Can(w, steps[0]) && Runs(ecdh, cfg, Do(ecdh, cfg, w, steps[0]), steps[1..]))
  }

  function After(ecdh: Ecdh, cfg: Config, w: World, steps: seq<WorldStep>): World
    requires Runs(ecdh, cfg, w, steps)
    decreases |steps|
  {
    if steps == [] then w else After(ecdh, cfg, Do(ecdh, cfg, w, steps[0]), steps[1..])
  }

  /** What a step of the world means to Alice's page a. */
  function AliceOwn(w: World, step: WorldStep, a: nat): Option<AliceStep>
    requires Can(w, step)
  {
    match step
    case AliceMoves(x, s) => if x == a then Some(s) else None
    case AlicePosts(x, pub, sid, _, _, _) => if x == a then Some(PostHandled(pub, sid)) else None
    case AliceHears(x, q, i) => if x == a then Some(Message(w.sys.streams[q].out[i].event)) else None
    case _ => None
  }

  /** The rest of the world moves Alice's page by her own steps only. */
  lemma AliceOwnStep(ecdh: Ecdh, cfg: Config, w: World, step: WorldStep, a: nat)
    requires Can(w, step) && a in w.alices
    ensures var v := Do(ecdh, cfg, w, step);
      && a in v.alices
      && match AliceOwn(w, step, a)
         case None => v.alices[a] == w.alices[a]
         case Some(s) => AliceCan(w.alices[a], s) && v.alices[a] == AliceDo(ecdh, w.alices[a], s)
  {
  }

  function BobOwn(w: World, step: WorldStep, b: nat): Option<BobStep>
    requires Can(w, step)
  {
    match step
    case BobMoves(x, s) => if x == b then Some(s) else None
    case BobLooks(x) => if x == b then Some(BLooked(GetPhase(w.sys.db, w.bobs[b].sid) == Some(WaitingForBob))) else None
    case BobPosts(x, pub, call, _) => if x == b then Some(BSent(pub, call)) else None
    case BobHears(x, call) => if x == b then Some(BAnswered(call, VerdictOf(w.sys.calls[call].pc.response))) else None
    case _ => None
  }

  lemma BobOwnStep(ecdh: Ecdh, cfg: Config, w: World, step: WorldStep, b: nat)
    requires Can(w, step) && b in w.bobs
    ensures var v := Do(ecdh, cfg, w, step);
      && b in v.bobs
      && match BobOwn(w, step, b)
         case None => v.bobs[b] == w.bobs[b]
         case Some(s) => BobCan(w.bobs[b], s) && v.bobs[b] == BobDo(ecdh, w.bobs[b], s)
  {
  }

  const BEGINNING := World(START, map[], map[])

  // ---- What a page knows of the service ----

  /** Session sid was created with Alice's public key j. */
  ghost predicate AliceKeyIs(o: Object, sid: SessionId, j: Jwk) {
    sid in o.sessions && o.sessions[sid].challenge.aliceKey == j
  }

  /** Session sid was won by a Bob who passed, with public key j. */
  ghost predicate BobKeyIs(o: Object, sid: SessionId, j: Jwk) {
    Decided(o, sid) && Winner(o, sid).passed && Winner(o, sid).request.bobKey == j
  }

  /** Alice's page with nothing pending. */
  ghost predicate AliceIdle(ecdh: Ecdh, a: Alice, o: Object) {
    && a.tasks == multiset{}
    && (a.source.Some? ==>
          && a.screen == WaitingForResult
          && a.keyPair.Some? && AliceKeyIs(o, a.source.value, ecdh.pub(a.keyPair.value)))
    && ((a.screen == CreateForm || a.screen == Landing) && a.createEnabled ==> a.keyPair.Some?)
    && (a.screen == AlicePass ==>
          && a.channel.Some?
          && var c := a.channel.value;
          && AliceKeyIs(o, c.sid, ecdh.pub(c.mine)) && BobKeyIs(o, c.sid, c.theirs)
          && c.key == ecdh.derive(c.mine, c.theirs))
  }

  /** Alice's page with the single task t pending. */
  ghost predicate AliceBusy(ecdh: Ecdh, a: Alice, o: Object, t: AliceTask) {
    && a.tasks == multiset{t} && a.source.None?
    && match t
       case Generating | Enabling =>
         && (a.screen == Landing || a.screen == CreateForm)
         && !a.createEnabled && (t.Enabling? ==> a.keyPair.Some?)
       case Exporting(pub) =>
         a.screen == CreateForm && !a.createEnabled && a.keyPair.Some? && pub == ecdh.pub(a.keyPair.value)
       case Posting(pub, made) =>
         && a.screen == CreateForm && !a.createEnabled && a.keyPair.Some? && pub == ecdh.pub(a.keyPair.value)
         && (made.Some? ==> AliceKeyIs(o, made.value, pub))
       case Importing(sid, bobKey) =>
         a.screen == WaitingForResult && a.keyPair.Some? && AliceKeyIs(o, sid, ecdh.pub(a.keyPair.value)) && BobKeyIs(o, sid, bobKey)
       case Deriving(sid, mine, bobKey) =>
         a.screen == WaitingForResult && a.keyPair == Some(mine) && AliceKeyIs(o, sid, ecdh.pub(mine)) && BobKeyIs(o, sid, bobKey)
  }

  ghost predicate AliceOk(ecdh: Ecdh, a: Alice, o: Object) {
    AliceIdle(ecdh, a, o) || exists t :: AliceBusy(ecdh, a, o, t)
  }

  ghost predicate BobIdle(ecdh: Ecdh, b: Bob, o: Object) {
    && b.tasks == multiset{}
    && (b.screen == BobChallenge && b.submitEnabled ==> b.keyPair.Some?)
    && (b.screen == BobPass ==>
          && b.channel.Some?
          && var c := b.channel.value;
          && c.sid == b.sid
          && AliceKeyIs(o, c.sid, c.theirs) && BobKeyIs(o, c.sid, ecdh.pub(c.mine))
          && c.key == ecdh.derive(c.mine, c.theirs))
  }

  ghost predicate BobBusy(ecdh: Ecdh, b: Bob, sys: Sys, o: Object, t: BobTask) {
    && b.tasks == multiset{t}
    && match t
       case BGenerating => b.screen == Loading && !b.submitEnabled
       case BEnabling => b.screen == Loading && !b.submitEnabled && b.keyPair.Some?
       case BFetching(_) => b.screen == Loading && (b.submitEnabled ==> b.keyPair.Some?)
       case BExporting(pub) => b.screen == Scoring && b.keyPair.Some? && pub == ecdh.pub(b.keyPair.value)
       case BPosting(pub) => b.screen == Scoring && b.keyPair.Some? && pub == ecdh.pub(b.keyPair.value)
       case BAwaiting(call) =>
         && b.screen == Scoring && b.keyPair.Some? && call in sys.calls
         && sys.calls[call].sid == b.sid && sys.calls[call].request.bobKey == ecdh.pub(b.keyPair.value)
       case BImporting(aliceKey) =>
         b.screen == Scoring && b.keyPair.Some? && AliceKeyIs(o, b.sid, aliceKey) && BobKeyIs(o, b.sid, ecdh.pub(b.keyPair.value))
       case BDeriving(mine, aliceKey) =>
         b.screen == Scoring && b.keyPair.Some? && AliceKeyIs(o, b.sid, aliceKey) && BobKeyIs(o, b.sid, ecdh.pub(mine))
  }

  ghost predicate BobOk(ecdh: Ecdh, b: Bob, sys: Sys, o: Object) {
    BobIdle(ecdh, b, o) || exists t :: BobBusy(ecdh, b, sys, o, t)
  }

  function Obj(cfg: Config, w: World): Object {
    Replay(cfg, w.sys.log)
  }

  ghost predicate AlicesOk(ecdh: Ecdh, alices: map<nat, Alice>, o: Object) {
    forall a :: a in alices ==> AliceOk(ecdh, alices[a], o)
  }

  ghost predicate BobsOk(ecdh: Ecdh, bobs: map<nat, Bob>, sys: Sys, o: Object) {
    forall b :: b in bobs ==> BobOk(ecdh, bobs[b], sys, o)
  }

  ghost predicate Inv(ecdh: Ecdh, cfg: Config, w: World) {
    && SystemInvariant.Inv(cfg, w.sys)
    && AlicesOk(ecdh, w.alices, Obj(cfg, w))
    && BobsOk(ecdh, w.bobs, w.sys, Obj(cfg, w))
  }

  // ---- The service moves on ----

  lemma AliceStable(ecdh: Ecdh, a: Alice, o: Object, p: Object)
    requires AliceOk(ecdh, a, o) && Forward(o, p)
    ensures AliceOk(ecdh, a, p)
  {
    if !AliceIdle(ecdh, a, o) {
      var t :| AliceBusy(ecdh, a, o, t);
      assert AliceBusy(ecdh, a, p, t);
    }
  }

  lemma BobStable(ecdh: Ecdh, b: Bob, s: Sys, t: Sys, o: Object, p: Object)
    requires BobOk(ecdh, b, s, o) && Forward(o, p) && Guarantees.Extends(s, t)
    ensures BobOk(ecdh, b, t, p)
  {
    if !BobIdle(ecdh, b, o) {
      var x :| BobBusy(ecdh, b, s, o, x);
      assert BobBusy(ecdh, b, t, p, x);
    }
  }

  lemma ServiceKeeps(ecdh: Ecdh, cfg: Config, w: World, step: Step)
    requires Inv(ecdh, cfg, w) && System.Enabled(w.sys, step)
    ensures Inv(ecdh, cfg, w.(sys := System.Do(cfg, w.sys, step)))
    ensures Forward(Obj(cfg, w), Replay(cfg, System.Do(cfg, w.sys, step).log))
  {
    var t := System.Do(cfg, w.sys, step);
    var o, p := Obj(cfg, w), Replay(cfg, t.log);
    SystemProofs.KeepStep(cfg, w.sys, step);
    Guarantees.StepForward(cfg, w.sys, step);
    Guarantees.StepExtends(cfg, w.sys, step);
    forall a | a in w.alices
      ensures AliceOk(ecdh, w.alices[a], p)
    {
      AliceStable(ecdh, w.alices[a], o, p);
    }
    forall b | b in w.bobs
      ensures BobOk(ecdh, w.bobs[b], t, p)
    {
      BobStable(ecdh, w.bobs[b], w.sys, t, o, p);
    }
  }

  // ---- The pages move ----

  /** At most one task is ever pending, so the one that is resumed is the only one. */
  lemma AliceOnly(ecdh: Ecdh, a: Alice, o: Object, t: AliceTask)
    requires AliceOk(ecdh, a, o) && t in a.tasks
    ensures AliceBusy(ecdh, a, o, t)
    ensures a.tasks - multiset{t} == multiset{}
  {
    assert a.tasks != multiset{};
    var u :| AliceBusy(ecdh, a, o, u);
    assert multiset{u}[t] > 0;
  }

  /** An awaited task gives way to the next. */
  lemma AliceRelays(ecdh: Ecdh, a: Alice, o: Object, done: AliceTask, next: AliceTask, b: Alice)
    requires AliceBusy(ecdh, a, o, done) && b.tasks == Swap(a, done, next).tasks
    requires AliceBusy(ecdh, b.(tasks := multiset{next}), o, next)
    ensures AliceOk(ecdh, b, o)
  {
    assert b.tasks == multiset{next};
    assert b == b.(tasks := multiset{next});
  }

  lemma RelayKeeps(ecdh: Ecdh, a: Alice, o: Object, step: AliceStep)
    requires AliceOk(ecdh, a, o) && AliceCan(a, step)
    requires step.Generated? || step.Exported? || step.PostHandled? || step.Imported?
    requires step.PostHandled? ==> AliceKeyIs(o, step.sid, step.pub)
    ensures AliceOk(ecdh, AliceDo(ecdh, a, step), o)
  {
    var b := AliceDo(ecdh, a, step);
    match step
    case Generated(_) =>
      AliceOnly(ecdh, a, o, Generating);
      AliceRelays(ecdh, a, o, Generating, Enabling, b);
    case Exported(pub) =>
      AliceOnly(ecdh, a, o, Exporting(pub));
      AliceRelays(ecdh, a, o, Exporting(pub), Posting(pub, None), b);
    case PostHandled(pub, sid) =>
      AliceOnly(ecdh, a, o, Posting(pub, None));
      AliceRelays(ecdh, a, o, Posting(pub, None), Posting(pub, Some(sid)), b);
    case Imported(sid, bobKey) =>
      AliceOnly(ecdh, a, o, Importing(sid, bobKey));
      AliceRelays(ecdh, a, o, Importing(sid, bobKey), Deriving(sid, a.keyPair.value, bobKey), b);
  }

  lemma PostKeeps(ecdh: Ecdh, a: Alice, o: Object, step: AliceStep)
    requires AliceOk(ecdh, a, o) && AliceCan(a, step) && (step.PostOk? || step.PostBroken?)
    ensures AliceIdle(ecdh, AliceDo(ecdh, a, step), o)
  {
    AliceOnly(ecdh, a, o, Posting(step.pub, Some(step.sid)));
  }

  lemma DerivedKeeps(ecdh: Ecdh, a: Alice, o: Object, step: AliceStep)
    requires AliceOk(ecdh, a, o) && AliceCan(a, step) && step.Derived?
    ensures AliceIdle(ecdh, AliceDo(ecdh, a, step), o)
  {
    AliceOnly(ecdh, a, o, Deriving(step.sid, step.mine, step.bobKey));
  }

  /** Steps after which nothing is pending. */
  lemma FinishKeeps(ecdh: Ecdh, a: Alice, o: Object, step: AliceStep)
    requires AliceOk(ecdh, a, o) && AliceCan(a, step)
    requires step.Ready? || step.PostOk? || step.PostBroken? || step.Derived? || step.Rejected?
    ensures AliceIdle(ecdh, AliceDo(ecdh, a, step), o)
  {
    match step
    case Ready => AliceOnly(ecdh, a, o, Enabling);
    case PostOk(_, _) | PostBroken(_, _) => PostKeeps(ecdh, a, o, step);
    case Derived(_, _, _) => DerivedKeeps(ecdh, a, o, step);
    case Rejected(task) => AliceOnly(ecdh, a, o, task);
  }

  /** The stream is open only while nothing is pending. */
  lemma MessageKeeps(ecdh: Ecdh, a: Alice, o: Object, e: Event)
    requires AliceOk(ecdh, a, o) && a.source.Some?
    requires e.VerifiedEvent? ==> BobKeyIs(o, a.source.value, e.bobKey)
    ensures AliceOk(ecdh, OnMessage(a, e), o)
  {
    assert AliceIdle(ecdh, a, o);
    var b := OnMessage(a, e);
    match e
    case VerifiedEvent(_, bobKey, _) => assert AliceBusy(ecdh, b, o, Importing(a.source.value, bobKey));
    case ExpiredEvent => assert AliceBusy(ecdh, b, o, Generating);
    case _ => assert AliceIdle(ecdh, b, o);
  }

  /** While something is pending the user can at most leave the landing screen. */
  lemma BusyClick(ecdh: Ecdh, a: Alice, o: Object, step: AliceStep, t: AliceTask)
    requires AliceBusy(ecdh, a, o, t) && AliceCan(a, step)
    requires step.Start? || step.ClickCreate? || step.ClickAgain? || step.SourceLost?
    ensures AliceBusy(ecdh, AliceDo(ecdh, a, step), o, t)
  {
  }

  lemma IdleClick(ecdh: Ecdh, a: Alice, o: Object, step: AliceStep)
    requires AliceIdle(ecdh, a, o) && AliceCan(a, step)
    requires step.Start? || step.ClickCreate? || step.ClickAgain? || step.SourceLost?
    ensures AliceOk(ecdh, AliceDo(ecdh, a, step), o)
  {
    var b := AliceDo(ecdh, a, step);
    match step
    case ClickCreate => assert AliceBusy(ecdh, b, o, Exporting(ecdh.pub(a.keyPair.value)));
    case ClickAgain => assert AliceBusy(ecdh, b, o, Generating);
    case Start | SourceLost => assert AliceIdle(ecdh, b, o);
    case _ =>
  }

  lemma ClickKeeps(ecdh: Ecdh, a: Alice, o: Object, step: AliceStep)
    requires AliceOk(ecdh, a, o) && AliceCan(a, step)
    requires step.Start? || step.ClickCreate? || step.ClickAgain? || step.SourceLost?
    ensures AliceOk(ecdh, AliceDo(ecdh, a, step), o)
  {
    if AliceIdle(ecdh, a, o) {
      IdleClick(ecdh, a, o, step);
    } else {
      var t :| AliceBusy(ecdh, a, o, t);
      BusyClick(ecdh, a, o, step, t);
    }
  }

  lemma AliceKeeps(ecdh: Ecdh, a: Alice, o: Object, step: AliceStep)
    requires AliceOk(ecdh, a, o) && AliceCan(a, step) && !step.Message?
    requires step.PostHandled? ==> AliceKeyIs(o, step.sid, step.pub)
    ensures AliceOk(ecdh, AliceDo(ecdh, a, step), o)
  {
    match step
    case Generated(_) | Exported(_) | PostHandled(_, _) | Imported(_, _) => RelayKeeps(ecdh, a, o, step);
    case Ready | PostOk(_, _) | PostBroken(_, _) | Derived(_, _, _) | Rejected(_) => FinishKeeps(ecdh, a, o, step);
    case _ => ClickKeeps(ecdh, a, o, step);
  }

  lemma BobOnly(ecdh: Ecdh, b: Bob, sys: Sys, o: Object, t: BobTask)
    requires BobOk(ecdh, b, sys, o) && t in b.tasks
    ensures BobBusy(ecdh, b, sys, o, t)
    ensures b.tasks - multiset{t} == multiset{}
  {
    assert b.tasks != multiset{};
    var u :| BobBusy(ecdh, b, sys, o, u);
    assert multiset{u}[t] > 0;
  }

  lemma BobRelays(ecdh: Ecdh, b: Bob, sys: Sys, o: Object, done: BobTask, next: BobTask, c: Bob)
    requires b.tasks == multiset{done} && c.tasks == BSwap(b, done, next).tasks
    requires BobBusy(ecdh, c.(tasks := multiset{next}), sys, o, next)
    ensures BobOk(ecdh, c, sys, o)
  {
    assert c.tasks == multiset{next};
    assert c == c.(tasks := multiset{next});
  }

  lemma InitKeeps(ecdh: Ecdh, b: Bob, sys: Sys, o: Object, step: BobStep)
    requires BobOk(ecdh, b, sys, o) && BobCan(b, step)
    requires step.BGenerated? || step.BEnabled? || step.BLooked? || step.BFetched?
    ensures BobOk(ecdh, BobDo(ecdh, b, step), sys, o)
  {
    var c := BobDo(ecdh, b, step);
    match step
    case BGenerated(_) =>
      BobOnly(ecdh, b, sys, o, BGenerating);
      BobRelays(ecdh, b, sys, o, BGenerating, BEnabling, c);
    case BEnabled =>
      BobOnly(ecdh, b, sys, o, BEnabling);
      BobRelays(ecdh, b, sys, o, BEnabling, BFetching(None), c);
    case BLooked(waiting) =>
      BobOnly(ecdh, b, sys, o, BFetching(None));
      BobRelays(ecdh, b, sys, o, BFetching(None), BFetching(Some(waiting)), c);
    case BFetched(waiting) =>
      BobOnly(ecdh, b, sys, o, BFetching(Some(waiting)));
      assert BobIdle(ecdh, c, o);
  }

  lemma UploadKeeps(ecdh: Ecdh, b: Bob, sys: Sys, o: Object, step: BobStep)
    requires BobOk(ecdh, b, sys, o) && BobCan(b, step) && (step.BExported? || step.BSent?)
    requires step.BSent? ==>
      step.call in sys.calls && sys.calls[step.call].sid == b.sid && sys.calls[step.call].request.bobKey == step.pub
    ensures BobOk(ecdh, BobDo(ecdh, b, step), sys, o)
  {
    var c := BobDo(ecdh, b, step);
    match step
    case BExported(pub) =>
      BobOnly(ecdh, b, sys, o, BExporting(pub));
      BobRelays(ecdh, b, sys, o, BExporting(pub), BPosting(pub), c);
    case BSent(pub, call) =>
      BobOnly(ecdh, b, sys, o, BPosting(pub));
      BobRelays(ecdh, b, sys, o, BPosting(pub), BAwaiting(call), c);
  }

  lemma KeyKeeps(ecdh: Ecdh, b: Bob, sys: Sys, o: Object, step: BobStep)
    requires BobOk(ecdh, b, sys, o) && BobCan(b, step) && (step.BImported? || step.BDerived?)
    ensures BobOk(ecdh, BobDo(ecdh, b, step), sys, o)
  {
    var c := BobDo(ecdh, b, step);
    match step
    case BImported(aliceKey) =>
      BobOnly(ecdh, b, sys, o, BImporting(aliceKey));
      BobRelays(ecdh, b, sys, o, BImporting(aliceKey), BDeriving(b.keyPair.value, aliceKey), c);
    case BDerived(mine, aliceKey) =>
      BobOnly(ecdh, b, sys, o, BDeriving(mine, aliceKey));
      assert BobIdle(ecdh, c, o);
  }

  lemma AnswerKeeps(ecdh: Ecdh, b: Bob, sys: Sys, o: Object, call: nat, verdict: Verdict)
    requires BobOk(ecdh, b, sys, o) && BobCan(b, BAnswered(call, verdict))
    requires verdict.Passed? ==>
      AliceKeyIs(o, b.sid, verdict.aliceKey) && b.keyPair.Some? && BobKeyIs(o, b.sid, ecdh.pub(b.keyPair.value))
    ensures BobOk(ecdh, BobDo(ecdh, b, BAnswered(call, verdict)), sys, o)
  {
    var c := BobDo(ecdh, b, BAnswered(call, verdict));
    BobOnly(ecdh, b, sys, o, BAwaiting(call));
    if verdict.Passed? {
      BobRelays(ecdh, b, sys, o, BAwaiting(call), BImporting(verdict.aliceKey), c);
    } else {
      assert BobIdle(ecdh, c, o);
    }
  }

  lemma RejectKeeps(ecdh: Ecdh, b: Bob, sys: Sys, o: Object, task: BobTask)
    requires BobOk(ecdh, b, sys, o) && task in b.tasks
    ensures BobOk(ecdh, BobDo(ecdh, b, BRejected(task)), sys, o)
  {
    var c := BobDo(ecdh, b, BRejected(task));
    BobOnly(ecdh, b, sys, o, task);
    if task.BGenerating? || task.BEnabling? {
      BobRelays(ecdh, b, sys, o, task, BFetching(None), c);
    } else {
      assert BobIdle(ecdh, c, o);
    }
  }

  lemma BobKeeps(ecdh: Ecdh, b: Bob, sys: Sys, o: Object, step: BobStep)
    requires BobOk(ecdh, b, sys, o) && BobCan(b, step) && !step.BAnswered?
    requires step.BSent? ==>
      step.call in sys.calls && sys.calls[step.call].sid == b.sid && sys.calls[step.call].request.bobKey == step.pub
    ensures BobOk(ecdh, BobDo(ecdh, b, step), sys, o)
  {
    match step
    case BGenerated(_) | BEnabled | BLooked(_) | BFetched(_) => InitKeeps(ecdh, b, sys, o, step);
    case BRejected(task) => RejectKeeps(ecdh, b, sys, o, task);
    case ClickSubmit =>
      assert BobIdle(ecdh, b, o);
      assert BobBusy(ecdh, BobDo(ecdh, b, step), sys, o, BExporting(ecdh.pub(b.keyPair.value)));
    case BExported(_) | BSent(_, _) => UploadKeeps(ecdh, b, sys, o, step);
    case BImported(_) | BDerived(_, _) => KeyKeeps(ecdh, b, sys, o, step);
  }

  /** A PASS response carries the key of the session's Alice to the session's winner. */
  lemma PassIsTheWinners(cfg: Config, s: Sys, call: nat)
    requires SystemInvariant.Inv(cfg, s) && call in s.calls && s.calls[call].pc.Replied? && s.calls[call].pc.response.Pass?
    ensures var o := Replay(cfg, s.log);
      && AliceKeyIs(o, s.calls[call].sid, s.calls[call].pc.response.aliceKey)
      && BobKeyIs(o, s.calls[call].sid, s.calls[call].request.bobKey)
  {
    var o := Replay(cfg, s.log);
    assert CallOk(cfg, call, s.calls[call], o, s.log);
  }

  /** A VERIFIED on any stream of the session carries the winner's key. */
  lemma VerifiedIsTheWinners(cfg: Config, s: Sys, q: nat, i: nat)
    requires SystemInvariant.Inv(cfg, s) && q in s.streams && i < |s.streams[q].out|
    requires s.streams[q].out[i].Data? && s.streams[q].out[i].event.VerifiedEvent?
    ensures BobKeyIs(Replay(cfg, s.log), s.streams[q].sid, s.streams[q].out[i].event.bobKey)
  {
    var o := Replay(cfg, s.log);
    assert StreamOk(s.streams[q], o);
    ResultComesLast(s.streams[q], o, i);
    Guarantees.ToldTheResult(cfg, s, q, s.streams[q].out[i].event);
  }

  lemma ResultComesLast(st: Stream, o: Object, i: nat)
    requires StreamOk(st, o) && i < |st.out|
    ensures st.out[i].Data? && !st.out[i].event.ConnectedEvent? ==> i == |st.out| - 1 && |st.out| >= 3
  {
    if st.pc.Ended? {
      assert EndOk(st, o.sessions[st.sid]);
    } else if InLoop(st) {
      assert InLoopOk(st, o.sessions[st.sid], o.now);
    }
  }

  /** One page changes and stays regular. */
  lemma AliceReplaced(ecdh: Ecdh, cfg: Config, w: World, a: nat, x: Alice)
    requires Inv(ecdh, cfg, w) && AliceOk(ecdh, x, Obj(cfg, w))
    ensures Inv(ecdh, cfg, w.(alices := w.alices[a := x]))
  {
  }

  lemma BobReplaced(ecdh: Ecdh, cfg: Config, w: World, b: nat, x: Bob)
    requires Inv(ecdh, cfg, w) && BobOk(ecdh, x, w.sys, Obj(cfg, w))
    ensures Inv(ecdh, cfg, w.(bobs := w.bobs[b := x]))
  {
  }

  lemma KeepAlicePosts(ecdh: Ecdh, cfg: Config, w: World, step: WorldStep)
    requires Inv(ecdh, cfg, w) && Can(w, step) && step.AlicePosts?
    ensures Inv(ecdh, cfg, Do(ecdh, cfg, w, step))
  {
    var create := CreateStep(step.sid, Challenge(step.name, step.question, step.vector, step.pub));
    var v := w.(sys := System.Do(cfg, w.sys, create));
    var handled := PostHandled(step.pub, step.sid);
    ServiceKeeps(ecdh, cfg, w, create);
    ReplayOneMore(cfg, w.sys.log, LogEntry(CreateOp(step.sid, create.challenge), Created));
    assert AliceKeyIs(Obj(cfg, v), step.sid, step.pub);
    AliceKeeps(ecdh, v.alices[step.a], Obj(cfg, v), handled);
    AliceReplaced(ecdh, cfg, v, step.a, AliceDo(ecdh, v.alices[step.a], handled));
  }

  lemma HeardFromTheWinner(cfg: Config, w: World, a: nat, q: nat, i: nat)
    requires SystemInvariant.Inv(cfg, w.sys) && Can(w, AliceHears(a, q, i))
    ensures var e := w.sys.streams[q].out[i].event;
      e.VerifiedEvent? ==> BobKeyIs(Obj(cfg, w), w.alices[a].source.value, e.bobKey)
  {
    if w.sys.streams[q].out[i].event.VerifiedEvent? {
      VerifiedIsTheWinners(cfg, w.sys, q, i);
    }
  }

  lemma KeepAliceHears(ecdh: Ecdh, cfg: Config, w: World, a: nat, e: Event)
    requires Inv(ecdh, cfg, w) && a in w.alices && w.alices[a].source.Some?
    requires e.VerifiedEvent? ==> BobKeyIs(Obj(cfg, w), w.alices[a].source.value, e.bobKey)
    ensures Inv(ecdh, cfg, w.(alices := w.alices[a := AliceDo(ecdh, w.alices[a], Message(e))]))
  {
    MessageKeeps(ecdh, w.alices[a], Obj(cfg, w), e);
    AliceReplaced(ecdh, cfg, w, a, OnMessage(w.alices[a], e));
  }

  lemma KeepBobPosts(ecdh: Ecdh, cfg: Config, w: World, step: WorldStep)
    requires Inv(ecdh, cfg, w) && Can(w, step) && step.BobPosts?
    ensures Inv(ecdh, cfg, Do(ecdh, cfg, w, step))
  {
    var begin := BeginStep(step.call, w.bobs[step.b].sid, BobRequest(step.name, step.pub));
    var v := w.(sys := System.Do(cfg, w.sys, begin));
    var sent := BSent(step.pub, step.call);
    ServiceKeeps(ecdh, cfg, w, begin);
    assert BobOk(ecdh, v.bobs[step.b], v.sys, Obj(cfg, v));
    BobKeeps(ecdh, v.bobs[step.b], v.sys, Obj(cfg, v), sent);
    BobReplaced(ecdh, cfg, v, step.b, BobDo(ecdh, v.bobs[step.b], sent));
  }

  lemma KeepBobHears(ecdh: Ecdh, cfg: Config, w: World, b: nat, call: nat)
    requires Inv(ecdh, cfg, w) && Can(w, BobHears(b, call))
    ensures Inv(ecdh, cfg, Do(ecdh, cfg, w, BobHears(b, call)))
  {
    var o := Obj(cfg, w);
    var r := w.sys.calls[call].pc.response;
    var answered := BAnswered(call, VerdictOf(r));
    BobOnly(ecdh, w.bobs[b], w.sys, o, BAwaiting(call));
    if r.Pass? {
      PassIsTheWinners(cfg, w.sys, call);
    }
    AnswerKeeps(ecdh, w.bobs[b], w.sys, o, call, VerdictOf(r));
    BobReplaced(ecdh, cfg, w, b, BobDo(ecdh, w.bobs[b], answered));
  }

  lemma KeepStep(ecdh: Ecdh, cfg: Config, w: World, step: WorldStep)
    requires Inv(ecdh, cfg, w) && Can(w, step)
    ensures Inv(ecdh, cfg, Do(ecdh, cfg, w, step))
  {
    var o := Obj(cfg, w);
    match step
    case Service(s) => ServiceKeeps(ecdh, cfg, w, s);
    case LoadAlice(a) =>
      assert AliceBusy(ecdh, ALICE_LOADED, o, Generating);
      AliceReplaced(ecdh, cfg, w, a, ALICE_LOADED);
    case LoadBob(b, sid) =>
      assert BobBusy(ecdh, BobLoaded(sid), w.sys, o, BGenerating);
      BobReplaced(ecdh, cfg, w, b, BobLoaded(sid));
    case AlicePosts(_, _, _, _, _, _) => KeepAlicePosts(ecdh, cfg, w, step);
    case AliceHears(a, q, i) =>
      HeardFromTheWinner(cfg, w, a, q, i);
      KeepAliceHears(ecdh, cfg, w, a, w.sys.streams[q].out[i].event);
    case AliceMoves(a, s) =>
      AliceKeeps(ecdh, w.alices[a], o, s);
      AliceReplaced(ecdh, cfg, w, a, AliceDo(ecdh, w.alices[a], s));
    case BobPosts(_, _, _, _) => KeepBobPosts(ecdh, cfg, w, step);
    case BobHears(b, call) => KeepBobHears(ecdh, cfg, w, b, call);
    case BobLooks(b) =>
      var looked := BLooked(GetPhase(w.sys.db, w.bobs[b].sid) == Some(WaitingForBob));
      BobKeeps(ecdh, w.bobs[b], w.sys, o, looked);
      BobReplaced(ecdh, cfg, w, b, BobDo(ecdh, w.bobs[b], looked));
    case BobMoves(b, s) =>
      BobKeeps(ecdh, w.bobs[b], w.sys, o, s);
      BobReplaced(ecdh, cfg, w, b, BobDo(ecdh, w.bobs[b], s));
  }

  lemma {:induction false} KeepRun(ecdh: Ecdh, cfg: Config, w: World, steps: seq<WorldStep>)
    requires Inv(ecdh, cfg, w) && Runs(ecdh, cfg, w, steps)
    ensures Inv(ecdh, cfg, After(ecdh, cfg, w, steps))
    decreases |steps|
  {
    if steps != [] {
      KeepStep(ecdh, cfg, w, steps[0]);
      KeepRun(ecdh, cfg, Do(ecdh, cfg, w, steps[0]), steps[1..]);
    }
  }

  // ---- The theorem ----

  lemma AlicePassed(ecdh: Ecdh, a: Alice, o: Object)
    requires AliceOk(ecdh, a, o) && a.screen == AlicePass
    ensures AliceIdle(ecdh, a, o)
  {
  }

  lemma BobPassed(ecdh: Ecdh, b: Bob, sys: Sys, o: Object)
    requires BobOk(ecdh, b, sys, o) && b.screen == BobPass
    ensures BobIdle(ecdh, b, o)
  {
  }

  lemma RunOk(ecdh: Ecdh, cfg: Config, steps: seq<WorldStep>)
    requires Runs(ecdh, cfg, BEGINNING, steps)
    ensures Inv(ecdh, cfg, After(ecdh, cfg, BEGINNING, steps))
  {
    SystemProofs.InvAtStart(cfg);
    KeepRun(ecdh, cfg, BEGINNING, steps);
  }

  /** One session, two channels made by its Alice and its winner: one key. */
  lemma ChannelsMeet(ecdh: Ecdh, a: Alice, b: Bob, o: Object)
    requires Commutes(ecdh) && AliceIdle(ecdh, a, o) && BobIdle(ecdh, b, o)
    requires a.screen == AlicePass && b.screen == BobPass
    ensures a.channel.value.sid == b.channel.value.sid ==> a.channel.value.key == b.channel.value.key
  {
  }

  /** Alice and Bob, both told that the other is verified in the same session, hold the same key. */
  lemma SameKey(ecdh: Ecdh, cfg: Config, steps: seq<WorldStep>, a: nat, b: nat)
    requires Commutes(ecdh) && Runs(ecdh, cfg, BEGINNING, steps)
    requires var w := After(ecdh, cfg, BEGINNING, steps);
      && a in w.alices && w.alices[a].screen == AlicePass
      && b in w.bobs && w.bobs[b].screen == BobPass
    ensures var w := After(ecdh, cfg, BEGINNING, steps);
      && w.alices[a].channel.Some? && w.bobs[b].channel.Some?
      && var mine, theirs := w.alices[a].channel.value, w.bobs[b].channel.value;
      mine.sid == theirs.sid ==> mine.key == theirs.key
  {
    RunOk(ecdh, cfg, steps);
    var w := After(ecdh, cfg, BEGINNING, steps);
    AlicePassed(ecdh, w.alices[a], Obj(cfg, w));
    BobPassed(ecdh, w.bobs[b], w.sys, Obj(cfg, w));
    ChannelsMeet(ecdh, w.alices[a], w.bobs[b], Obj(cfg, w));
  }

  /** Her page listens for the result, or has it and is making the key from it. */
  predicate AwaitsKey(x: Alice, sid: SessionId) {
    || x.source == Some(sid)
    || (exists t :: t in x.tasks && (t.Importing? || t.Deriving?) && t.sid == sid)
  }

  /**
   While her stream is open, and until the key is derived, the pair in Alice's page is the one whose
   public half she uploaded for that session, although reset() replaces it asynchronously; and the pair
   that a pending derivation uses is that one.
   */
  lemma PairMatchesUpload(ecdh: Ecdh, cfg: Config, steps: seq<WorldStep>, a: nat, sid: SessionId)
    requires Runs(ecdh, cfg, BEGINNING, steps) && a in After(ecdh, cfg, BEGINNING, steps).alices
    ensures var w := After(ecdh, cfg, BEGINNING, steps); var x := w.alices[a];
      && |x.tasks| <= 1
      && (AwaitsKey(x, sid) ==> x.keyPair.Some? && AliceKeyIs(Obj(cfg, w), sid, ecdh.pub(x.keyPair.value)))
      && (forall mine, j :: Deriving(sid, mine, j) in x.tasks ==> x.keyPair == Some(mine))
  {
    RunOk(ecdh, cfg, steps);
    var w := After(ecdh, cfg, BEGINNING, steps);
    assert AliceOk(ecdh, w.alices[a], Obj(cfg, w));
    AwaitedPair(ecdh, w.alices[a], Obj(cfg, w), sid);
  }

  lemma AwaitedPair(ecdh: Ecdh, x: Alice, o: Object, sid: SessionId)
    requires AliceOk(ecdh, x, o)
    ensures |x.tasks| <= 1
    ensures AwaitsKey(x, sid) ==> x.keyPair.Some? && AliceKeyIs(o, sid, ecdh.pub(x.keyPair.value))
    ensures forall mine, j :: Deriving(sid, mine, j) in x.tasks ==> x.keyPair == Some(mine)
  {
    forall t | t in x.tasks
      ensures AliceBusy(ecdh, x, o, t)
    {
      AliceOnly(ecdh, x, o, t);
    }
  }

  lemma PairStaysOnPage(ecdh: Ecdh, x: Alice, o: Object, step: AliceStep, sid: SessionId)
    requires AliceOk(ecdh, x, o) && AliceCan(x, step) && AwaitsKey(x, sid)
    ensures AliceDo(ecdh, x, step).keyPair == x.keyPair
  {
    if step.Generated? {
      AliceOnly(ecdh, x, o, Generating);
      assert false;
    }
  }

  /** The pair stays in place over every step of anybody, as long as the page awaits the key. */
  lemma PairStays(ecdh: Ecdh, cfg: Config, steps: seq<WorldStep>, step: WorldStep, a: nat, sid: SessionId)
    requires Runs(ecdh, cfg, BEGINNING, steps) && Can(After(ecdh, cfg, BEGINNING, steps), step)
    requires var w := After(ecdh, cfg, BEGINNING, steps); a in w.alices && AwaitsKey(w.alices[a], sid)
    ensures var w := After(ecdh, cfg, BEGINNING, steps); var v := Do(ecdh, cfg, w, step);
      a in v.alices && v.alices[a].keyPair == w.alices[a].keyPair
  {
    RunOk(ecdh, cfg, steps);
    var w := After(ecdh, cfg, BEGINNING, steps);
    AliceOwnStep(ecdh, cfg, w, step, a);
    var own := AliceOwn(w, step, a);
    if own.Some? {
      PairStaysOnPage(ecdh, w.alices[a], Obj(cfg, w), own.value, sid);
    }
  }
}
