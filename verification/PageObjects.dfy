/**
 The two pages as objects: the closures of session.js, reassigned by their handlers. Played on its own
 part of any run of pages and service, each object ends as that run's page does, so what is proved of the
 run holds of the objects.
 */
module PageObjects {
  import opened Domain
  import opened AtomicSession
  import opened Pages
  import KeyAgreement

  // ---- A page's own steps, one after the other ----

  predicate AlicePlays(ecdh: Ecdh, a: Alice, steps: seq<AliceStep>)
    decreases |steps|
  {
    steps == [] || (AliceCan(a, steps[0]) && AlicePlays(ecdh, AliceDo(ecdh, a, steps[0]), steps[1..]))
  }

  function AliceAfter(ecdh: Ecdh, a: Alice, steps: seq<AliceStep>): Alice
    requires AlicePlays(ecdh, a, steps)
    decreases |steps|
  {
    if steps == [] then a else AliceAfter(ecdh, AliceDo(ecdh, a, steps[0]), steps[1..])
  }

  predicate BobPlays(ecdh: Ecdh, b: Bob, steps: seq<BobStep>)
    decreases |steps|
  {
    steps == [] || (BobCan(b, steps[0]) && BobPlays(ecdh, BobDo(ecdh, b, steps[0]), steps[1..]))
  }

  function BobAfter(ecdh: Ecdh, b: Bob, steps: seq<BobStep>): Bob
    requires BobPlays(ecdh, b, steps)
    decreases |steps|
  {
    if steps == [] then b else BobAfter(ecdh, BobDo(ecdh, b, steps[0]), steps[1..])
  }

  // ---- The closures of session.js, as they are reassigned ----

  class AlicePage {
    var screen: Screen
    var keyPair: Option<PrivateKey>
    var createEnabled: bool
    var session: Option<SessionId>
    var source: Option<SessionId>
    var tasks: multiset<AliceTask>
    var channel: Option<Channel>

    function View(): Alice
      reads this
    {
      Alice(screen, keyPair, createEnabled, session, source, tasks, channel)
    }

    constructor InitAlice()
      ensures View() == ALICE_LOADED
    {
      screen, keyPair, createEnabled, session, source, channel := Landing, None, false, None, None, None;
      tasks := multiset{Generating};
    }

    method Resume(t: AliceTask)
      requires t in tasks
      modifies this`tasks
      ensures tasks == old(tasks) - multiset{t}
    {
      tasks := tasks - multiset{t};
    }

    method Await(t: AliceTask)
      modifies this`tasks
      ensures tasks == old(tasks) + multiset{t}
    {
      tasks := tasks + multiset{t};
    }

    /** aliceKeyPair = await generateKeyPair(), in initAlice and in reset */
    method KeyPairGenerated(ecdh: Ecdh, key: PrivateKey)
      requires AliceCan(View(), Generated(key))
      modifies this
      ensures View() == AliceDo(ecdh, old(View()), Generated(key))
    {
      Resume(Generating);
      keyPair := Some(key);
      Await(Enabling);
    }

    method KeyPairExported(ecdh: Ecdh)
      requires AliceCan(View(), Ready)
      modifies this
      ensures View() == AliceDo(ecdh, old(View()), Ready)
    {
      Resume(Enabling);
      createEnabled := true;
    }

    method ShowCreateForm(ecdh: Ecdh)
      requires AliceCan(View(), Start)
      modifies this
      ensures View() == AliceDo(ecdh, old(View()), Start)
    {
      screen := CreateForm;
    }

    /** create() up to its first await */
    method Create(ecdh: Ecdh)
      requires AliceCan(View(), ClickCreate)
      modifies this
      ensures View() == AliceDo(ecdh, old(View()), ClickCreate)
    {
      if keyPair.None? {
        return;
      }
      createEnabled := false;
      Await(Exporting(ecdh.pub(keyPair.value)));
    }

    method PostChallenge(ecdh: Ecdh, pub: Jwk)
      requires AliceCan(View(), Exported(pub))
      modifies this
      ensures View() == AliceDo(ecdh, old(View()), Exported(pub))
    {
      Resume(Exporting(pub));
      Await(Posting(pub, None));
    }

    /** a good response: show the link and open the stream, unless the page trips over the preview in between */
    method Created(ecdh: Ecdh, pub: Jwk, sid: SessionId, broken: bool)
      requires Posting(pub, Some(sid)) in tasks
      modifies this
      ensures View() == AliceDo(ecdh, old(View()), if broken then PostBroken(pub, sid) else PostOk(pub, sid))
    {
      Resume(Posting(pub, Some(sid)));
      session := Some(sid);
      screen := WaitingForResult;
      if broken {
        createEnabled := true;
      } else {
        source := Some(sid);
      }
    }

    method CreateFailed(ecdh: Ecdh, t: AliceTask)
      requires t in tasks && (t.Exporting? || t.Posting?)
      modifies this
      ensures View() == AliceDo(ecdh, old(View()), Rejected(t))
    {
      Resume(t);
      createEnabled := true;
    }

    /** es.onmessage up to its first await */
    method OnMessage(ecdh: Ecdh, e: Event)
      requires AliceCan(View(), Message(e))
      modifies this
      ensures View() == AliceDo(ecdh, old(View()), Message(e))
    {
      match e {
        case ConnectedEvent(_) =>
        case VerifiedEvent(_, bobKey, _) =>
          var sid := source.value;
          source := None;
          Await(Importing(sid, bobKey));
        case FailedEvent(_) =>
          source := None;
          screen := AliceFail;
        case ExpiredEvent =>
          source := None;
          Reset();
          screen := CreateForm;
      }
    }

    method BobKeyImported(ecdh: Ecdh, sid: SessionId, bobKey: Jwk)
      requires AliceCan(View(), Imported(sid, bobKey))
      modifies this
      ensures View() == AliceDo(ecdh, old(View()), Imported(sid, bobKey))
    {
      Resume(Importing(sid, bobKey));
      if keyPair.Some? {
        Await(Deriving(sid, keyPair.value, bobKey));
      }
    }

    method KeyDerived(ecdh: Ecdh, sid: SessionId, mine: PrivateKey, bobKey: Jwk)
      requires AliceCan(View(), Derived(sid, mine, bobKey))
      modifies this
      ensures View() == AliceDo(ecdh, old(View()), Derived(sid, mine, bobKey))
    {
      Resume(Deriving(sid, mine, bobKey));
      channel := Some(Channel(sid, mine, bobKey, ecdh.derive(mine, bobKey)));
      screen := AlicePass;
    }

    method Reset()
      modifies this
      ensures View() == Renewed(old(View()))
    {
      createEnabled := false;
      session := None;
      channel := None;
      Await(Generating);
    }

    method StartAgain(ecdh: Ecdh)
      requires AliceCan(View(), ClickAgain)
      modifies this
      ensures View() == AliceDo(ecdh, old(View()), ClickAgain)
    {
      Reset();
      screen := CreateForm;
    }

    /** One step of the page, by the handler that the browser runs for it. */
    method Take(ecdh: Ecdh, step: AliceStep)
      requires AliceCan(View(), step)
      modifies this
      ensures View() == AliceDo(ecdh, old(View()), step)
    {
      match step {
        case Generated(key) => KeyPairGenerated(ecdh, key);
        case Ready => KeyPairExported(ecdh);
        case Start => ShowCreateForm(ecdh);
        case ClickCreate => Create(ecdh);
        case Exported(pub) => PostChallenge(ecdh, pub);
        case PostHandled(pub, sid) =>
          Resume(Posting(pub, None));
          Await(Posting(pub, Some(sid)));
        case PostOk(pub, sid) => Created(ecdh, pub, sid, false);
        case PostBroken(pub, sid) => Created(ecdh, pub, sid, true);
        case Message(e) => OnMessage(ecdh, e);
        case SourceLost => source := None;
        case Imported(sid, bobKey) => BobKeyImported(ecdh, sid, bobKey);
        case Derived(sid, mine, bobKey) => KeyDerived(ecdh, sid, mine, bobKey);
        case ClickAgain => StartAgain(ecdh);
        case Rejected(task) =>
          if task.Exporting? || task.Posting? {
            CreateFailed(ecdh, task);
          } else {
            Resume(task);
          }
      }
    }

    /** The page through any sequence of steps that it can take. */
    method Play(ecdh: Ecdh, steps: seq<AliceStep>)
      requires AlicePlays(ecdh, View(), steps)
      modifies this
      ensures View() == AliceAfter(ecdh, old(View()), steps)
    {
      var i := 0;
      while i < |steps|
        invariant 0 <= i <= |steps|
        invariant AlicePlays(ecdh, View(), steps[i..])
        invariant AliceAfter(ecdh, View(), steps[i..]) == AliceAfter(ecdh, old(View()), steps)
      {
        assert steps[i..][1..] == steps[i + 1..];
        Take(ecdh, steps[i]);
        i := i + 1;
      }
    }
  }

  class BobPage {
    const sid: SessionId
    var screen: Screen
    var keyPair: Option<PrivateKey>
    var submitEnabled: bool
    var tasks: multiset<BobTask>
    var channel: Option<Channel>

    function View(): Bob
      reads this
    {
      Bob(sid, screen, keyPair, submitEnabled, tasks, channel)
    }

    constructor InitBob(sid: SessionId)
      ensures View() == BobLoaded(sid)
    {
      this.sid := sid;
      screen, keyPair, submitEnabled, channel := Loading, None, false, None;
      tasks := multiset{BGenerating};
    }

    method Resume(t: BobTask)
      requires t in tasks
      modifies this`tasks
      ensures tasks == old(tasks) - multiset{t}
    {
      tasks := tasks - multiset{t};
    }

    method Await(t: BobTask)
      modifies this`tasks
      ensures tasks == old(tasks) + multiset{t}
    {
      tasks := tasks + multiset{t};
    }

    method KeyPairGenerated(ecdh: Ecdh, key: PrivateKey)
      requires BobCan(View(), BGenerated(key))
      modifies this
      ensures View() == BobDo(ecdh, old(View()), BGenerated(key))
    {
      Resume(BGenerating);
      Await(BEnabling);
      keyPair := Some(key);
    }

    method KeyPairExported(ecdh: Ecdh)
      requires BobCan(View(), BEnabled)
      modifies this
      ensures View() == BobDo(ecdh, old(View()), BEnabled)
    {
      Resume(BEnabling);
      Await(BFetching(None));
      submitEnabled := true;
    }

    method SessionFetched(ecdh: Ecdh, waiting: bool)
      requires BobCan(View(), BFetched(waiting))
      modifies this
      ensures View() == BobDo(ecdh, old(View()), BFetched(waiting))
    {
      Resume(BFetching(Some(waiting)));
      screen := if waiting then BobChallenge else LinkExpired;
    }

    /** submitAnswer() up to its first await */
    method SubmitAnswer(ecdh: Ecdh)
      requires BobCan(View(), ClickSubmit)
      modifies this
      ensures View() == BobDo(ecdh, old(View()), ClickSubmit)
    {
      if keyPair.None? {
        return;
      }
      submitEnabled := false;
      screen := Scoring;
      tasks := tasks + multiset{BExporting(ecdh.pub(keyPair.value))};
    }

    method PostAnswer(ecdh: Ecdh, pub: Jwk)
      requires BobCan(View(), BExported(pub))
      modifies this
      ensures View() == BobDo(ecdh, old(View()), BExported(pub))
    {
      Resume(BExporting(pub));
      Await(BPosting(pub));
    }

    method Answered(ecdh: Ecdh, call: nat, verdict: Verdict)
      requires BobCan(View(), BAnswered(call, verdict))
      modifies this
      ensures View() == BobDo(ecdh, old(View()), BAnswered(call, verdict))
    {
      Resume(BAwaiting(call));
      match verdict {
        case Unavailable => screen := LinkExpired;
        case Trouble => BackToForm();
        case Passed(aliceKey) => Await(BImporting(aliceKey));
        case NotPassed => screen := BobFail;
      }
    }

    method AliceKeyImported(ecdh: Ecdh, aliceKey: Jwk)
      requires BobCan(View(), BImported(aliceKey))
      modifies this
      ensures View() == BobDo(ecdh, old(View()), BImported(aliceKey))
    {
      if keyPair.None? {
        Resume(BImporting(aliceKey));
        BackToForm();
      } else {
        Resume(BImporting(aliceKey));
        Await(BDeriving(keyPair.value, aliceKey));
      }
    }

    method KeyDerived(ecdh: Ecdh, mine: PrivateKey, aliceKey: Jwk)
      requires BobCan(View(), BDerived(mine, aliceKey))
      modifies this
      ensures View() == BobDo(ecdh, old(View()), BDerived(mine, aliceKey))
    {
      Resume(BDeriving(mine, aliceKey));
      channel := Some(Channel(sid, mine, aliceKey, ecdh.derive(mine, aliceKey)));
      screen := BobPass;
    }

    /** the catch block */
    method BackToForm()
      modifies this
      ensures View() == Retry(old(View()))
    {
      screen := BobChallenge;
      submitEnabled := true;
    }

    method Take(ecdh: Ecdh, step: BobStep)
      requires BobCan(View(), step)
      modifies this
      ensures View() == BobDo(ecdh, old(View()), step)
    {
      match step {
        case BGenerated(key) => KeyPairGenerated(ecdh, key);
        case BEnabled => KeyPairExported(ecdh);
        case BLooked(waiting) =>
          Resume(BFetching(None));
          Await(BFetching(Some(waiting)));
        case BFetched(waiting) => SessionFetched(ecdh, waiting);
        case ClickSubmit => SubmitAnswer(ecdh);
        case BExported(pub) => PostAnswer(ecdh, pub);
        case BSent(pub, call) => Sent(ecdh, pub, call);
        case BAnswered(call, verdict) => Answered(ecdh, call, verdict);
        case BImported(aliceKey) => AliceKeyImported(ecdh, aliceKey);
        case BDerived(mine, aliceKey) => KeyDerived(ecdh, mine, aliceKey);
        case BRejected(task) => Failed(ecdh, task);
      }
    }

    method Sent(ecdh: Ecdh, pub: Jwk, call: nat)
      requires BobCan(View(), BSent(pub, call))
      modifies this
      ensures View() == BobDo(ecdh, old(View()), BSent(pub, call))
    {
      Resume(BPosting(pub));
      Await(BAwaiting(call));
    }

    /** An awaited promise is rejected: initBob goes on to the session, or gives up on it; submitAnswer goes back to the form. */
    method Failed(ecdh: Ecdh, task: BobTask)
      requires BobCan(View(), BRejected(task))
      modifies this
      ensures View() == BobDo(ecdh, old(View()), BRejected(task))
    {
      Resume(task);
      if task.BGenerating? || task.BEnabling? {
        Await(BFetching(None));
      } else if task.BFetching? {
        screen := LinkExpired;
      } else {
        BackToForm();
      }
    }

    method Play(ecdh: Ecdh, steps: seq<BobStep>)
      requires BobPlays(ecdh, View(), steps)
      modifies this
      ensures View() == BobAfter(ecdh, old(View()), steps)
    {
      var i := 0;
      while i < |steps|
        invariant 0 <= i <= |steps|
        invariant BobPlays(ecdh, View(), steps[i..])
        invariant BobAfter(ecdh, View(), steps[i..]) == BobAfter(ecdh, old(View()), steps)
      {
        assert steps[i..][1..] == steps[i + 1..];
        Take(ecdh, steps[i]);
        i := i + 1;
      }
    }
  }

  // ---- A page in a run of the world ----

  /** The part of a run that is Alice's page a's own. */
  function AliceTrace(ecdh: Ecdh, cfg: Config, w: KeyAgreement.World, steps: seq<KeyAgreement.WorldStep>, a: nat): seq<AliceStep>
    requires KeyAgreement.Runs(ecdh, cfg, w, steps)
    decreases |steps|
  {
    if steps == [] then []
    else
      var own := KeyAgreement.AliceOwn(w, steps[0], a);
      var rest := AliceTrace(ecdh, cfg, KeyAgreement.Do(ecdh, cfg, w, steps[0]), steps[1..], a);
      if own.Some? then [own.value] + rest else rest
  }

  function BobTrace(ecdh: Ecdh, cfg: Config, w: KeyAgreement.World, steps: seq<KeyAgreement.WorldStep>, b: nat): seq<BobStep>
    requires KeyAgreement.Runs(ecdh, cfg, w, steps)
    decreases |steps|
  {
    if steps == [] then []
    else
      var own := KeyAgreement.BobOwn(w, steps[0], b);
      var rest := BobTrace(ecdh, cfg, KeyAgreement.Do(ecdh, cfg, w, steps[0]), steps[1..], b);
      if own.Some? then [own.value] + rest else rest
  }

  function AliceNow(w: KeyAgreement.World, a: nat): Alice {
    if a in w.alices then w.alices[a] else ALICE_LOADED
  }

  function BobNow(w: KeyAgreement.World, b: nat, sid: SessionId): Bob {
    if b in w.bobs then w.bobs[b] else BobLoaded(sid)
  }

  /** What a step does to a page is the page's own step, or nothing, or its loading. */
  lemma AliceProjectsStep(ecdh: Ecdh, cfg: Config, w: KeyAgreement.World, step: KeyAgreement.WorldStep, a: nat)
    requires KeyAgreement.Can(w, step)
    ensures var own := KeyAgreement.AliceOwn(w, step, a); var v := KeyAgreement.Do(ecdh, cfg, w, step);
      && (own.None? ==> AliceNow(v, a) == AliceNow(w, a))
      && (own.Some? ==> AliceCan(AliceNow(w, a), own.value) && AliceNow(v, a) == AliceDo(ecdh, AliceNow(w, a), own.value))
  {
    if a in w.alices {
      KeyAgreement.AliceOwnStep(ecdh, cfg, w, step, a);
    }
  }

  lemma {:induction false} AliceProjects(ecdh: Ecdh, cfg: Config, w: KeyAgreement.World, steps: seq<KeyAgreement.WorldStep>, a: nat)
    requires KeyAgreement.Runs(ecdh, cfg, w, steps)
    ensures var trace := AliceTrace(ecdh, cfg, w, steps, a);
      && AlicePlays(ecdh, AliceNow(w, a), trace)
      && AliceAfter(ecdh, AliceNow(w, a), trace) == AliceNow(KeyAgreement.After(ecdh, cfg, w, steps), a)
    decreases |steps|
  {
    if steps != [] {
      AliceProjectsStep(ecdh, cfg, w, steps[0], a);
      AliceProjects(ecdh, cfg, KeyAgreement.Do(ecdh, cfg, w, steps[0]), steps[1..], a);
      var trace, rest := AliceTrace(ecdh, cfg, w, steps, a), AliceTrace(ecdh, cfg, KeyAgreement.Do(ecdh, cfg, w, steps[0]), steps[1..], a);
      if KeyAgreement.AliceOwn(w, steps[0], a).Some? {
        assert trace[1..] == rest;
      }
    }
  }

  /** A Bob's page stays with the session of its link. */
  lemma BobProjectsStep(ecdh: Ecdh, cfg: Config, w: KeyAgreement.World, step: KeyAgreement.WorldStep, b: nat)
    requires KeyAgreement.Can(w, step) && b in w.bobs
    ensures var own := KeyAgreement.BobOwn(w, step, b); var v := KeyAgreement.Do(ecdh, cfg, w, step);
      && b in v.bobs && v.bobs[b].sid == w.bobs[b].sid
      && (own.None? ==> v.bobs[b] == w.bobs[b])
      && (own.Some? ==> BobCan(w.bobs[b], own.value) && v.bobs[b] == BobDo(ecdh, w.bobs[b], own.value))
  {
    KeyAgreement.BobOwnStep(ecdh, cfg, w, step, b);
    var own := KeyAgreement.BobOwn(w, step, b);
    if own.Some? {
      BobStaysInSession(ecdh, w.bobs[b], own.value);
    }
  }

  lemma BobStaysInSession(ecdh: Ecdh, b: Bob, step: BobStep)
    requires BobCan(b, step)
    ensures BobDo(ecdh, b, step).sid == b.sid
  {
  }

  lemma BobAppears(ecdh: Ecdh, cfg: Config, w: KeyAgreement.World, step: KeyAgreement.WorldStep, b: nat)
    requires KeyAgreement.Can(w, step) && b !in w.bobs
    ensures KeyAgreement.BobOwn(w, step, b).None?
    ensures var v := KeyAgreement.Do(ecdh, cfg, w, step); b in v.bobs ==> v.bobs[b] == BobLoaded(v.bobs[b].sid)
  {
  }

  lemma {:induction false} BobProjects(ecdh: Ecdh, cfg: Config, w: KeyAgreement.World, steps: seq<KeyAgreement.WorldStep>, b: nat)
    requires KeyAgreement.Runs(ecdh, cfg, w, steps) && b in KeyAgreement.After(ecdh, cfg, w, steps).bobs
    ensures var trace := BobTrace(ecdh, cfg, w, steps, b); var end := KeyAgreement.After(ecdh, cfg, w, steps).bobs[b];
      && (b in w.bobs ==> w.bobs[b].sid == end.sid)
      && BobPlays(ecdh, BobNow(w, b, end.sid), trace)
      && BobAfter(ecdh, BobNow(w, b, end.sid), trace) == end
    decreases |steps|
  {
    if steps != [] {
      var v := KeyAgreement.Do(ecdh, cfg, w, steps[0]);
      BobProjects(ecdh, cfg, v, steps[1..], b);
      if b in w.bobs {
        BobProjectsStep(ecdh, cfg, w, steps[0], b);
        var trace, rest := BobTrace(ecdh, cfg, w, steps, b), BobTrace(ecdh, cfg, v, steps[1..], b);
        if KeyAgreement.BobOwn(w, steps[0], b).Some? {
          assert trace[1..] == rest;
        }
      } else {
        BobAppears(ecdh, cfg, w, steps[0], b);
      }
    }
  }

  /**
   Two page objects taken through their own parts of any run of pages and service. They end as the run's
   pages do; while Alice's page awaits the key, its pair is the uploaded one; and if both end on their pass
   screens for one session, the keys that their handlers derived are the same.
   */
  method Meet(ecdh: Ecdh, cfg: Config, steps: seq<KeyAgreement.WorldStep>, a: nat, b: nat)
    returns (alice: AlicePage, bob: BobPage)
    requires Commutes(ecdh) && KeyAgreement.Runs(ecdh, cfg, KeyAgreement.BEGINNING, steps)
    requires var w := KeyAgreement.After(ecdh, cfg, KeyAgreement.BEGINNING, steps); a in w.alices && b in w.bobs
    ensures var w := KeyAgreement.After(ecdh, cfg, KeyAgreement.BEGINNING, steps);
      && alice.View() == w.alices[a] && bob.View() == w.bobs[b]
      && (alice.source.Some? ==>
            && alice.keyPair.Some?
            && KeyAgreement.AliceKeyIs(KeyAgreement.Obj(cfg, w), alice.source.value, ecdh.pub(alice.keyPair.value)))
    ensures alice.screen == AlicePass && bob.screen == BobPass ==>
      && alice.channel.Some? && bob.channel.Some? && bob.channel.value.sid == bob.sid
      && (alice.channel.value.sid == bob.sid ==> alice.channel.value.key == bob.channel.value.key)
  {
    var w := KeyAgreement.BEGINNING;
    ghost var end := KeyAgreement.After(ecdh, cfg, w, steps);
    AliceProjects(ecdh, cfg, w, steps, a);
    BobProjects(ecdh, cfg, w, steps, b);
    alice := new AlicePage.InitAlice();
    alice.Play(ecdh, AliceTrace(ecdh, cfg, w, steps, a));
    bob := new BobPage.InitBob(KeyAgreement.After(ecdh, cfg, w, steps).bobs[b].sid);
    bob.Play(ecdh, BobTrace(ecdh, cfg, w, steps, b));
    if alice.source.Some? {
      KeyAgreement.PairMatchesUpload(ecdh, cfg, steps, a, alice.source.value);
    }
    if alice.screen == AlicePass && bob.screen == BobPass {
      KeyAgreement.SameKey(ecdh, cfg, steps, a, b);
      KeyAgreement.RunOk(ecdh, cfg, steps);
      KeyAgreement.BobPassed(ecdh, end.bobs[b], end.sys, KeyAgreement.Obj(cfg, end));
    }
  }
}
