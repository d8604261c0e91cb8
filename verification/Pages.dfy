/**
 The two browser pages of session.js. An async handler runs in pieces, from one await to the next; a
 pending await is a task that the browser may resume or reject at any later time. The user can only use
 buttons that are on the visible screen and enabled.
 */
module Pages {
  import opened Domain

  type PrivateKey(==,!new)
  type SharedKey(==,!new)

  /** deriveKey and the public half of a key pair. */
  datatype Ecdh = Ecdh(pub: PrivateKey -> Jwk, derive: (PrivateKey, Jwk) -> SharedKey)

  ghost predicate Commutes(ecdh: Ecdh) {
    forall a, b :: ecdh.derive(a, ecdh.pub(b)) == ecdh.derive(b, ecdh.pub(a))
  }

  datatype Screen =
    | Landing | CreateForm | WaitingForResult | AlicePass | AliceFail            // index.html
    | Loading | BobChallenge | Scoring | BobPass | BobFail | LinkExpired         // session.html

  /** The shared key, and what it was made from. */
  datatype Channel = Channel(sid: SessionId, mine: PrivateKey, theirs: Jwk, key: SharedKey)

  // ---- Alice ----

  datatype AliceTask =
    | Generating                                            // initAlice, reset: generateKeyPair
    | Enabling                                              // and then exportPublicKey
    | Exporting(pub: Jwk)                                   // create: exportPublicKey
    | Posting(pub: Jwk, made: Option<SessionId>)            // create: fetch; made once the server has handled it
    | Importing(sid: SessionId, bobKey: Jwk)                // VERIFIED: importPublicKey
    | Deriving(sid: SessionId, mine: PrivateKey, bobKey: Jwk)

  datatype Alice = Alice(
    screen: Screen, keyPair: Option<PrivateKey>, createEnabled: bool,
    session: Option<SessionId>, source: Option<SessionId>, tasks: multiset<AliceTask>, channel: Option<Channel>)

  datatype AliceStep =
    | Generated(key: PrivateKey) | Ready | Start | ClickCreate | Exported(pub: Jwk)
    | PostHandled(pub: Jwk, sid: SessionId)
    | PostOk(pub: Jwk, sid: SessionId) | PostBroken(pub: Jwk, sid: SessionId)
    | Message(event: Event) | SourceLost
    | Imported(sid: SessionId, bobKey: Jwk) | Derived(sid: SessionId, mine: PrivateKey, bobKey: Jwk)
    | ClickAgain
    | Rejected(task: AliceTask)

  /** initAlice up to its first await. */
  const ALICE_LOADED := Alice(Landing, None, false, None, None, multiset{Generating}, None)

  predicate AliceCan(a: Alice, step: AliceStep) {
    match step
    case Generated(_) => Generating in a.tasks
    case Ready => Enabling in a.tasks
    case Start => a.screen == Landing
    case ClickCreate => a.screen == CreateForm && a.createEnabled
    case Exported(pub) => Exporting(pub) in a.tasks
    case PostHandled(pub, _) => Posting(pub, None) in a.tasks
    case PostOk(pub, sid) => Posting(pub, Some(sid)) in a.tasks
    case PostBroken(pub, sid) => Posting(pub, Some(sid)) in a.tasks
    case Message(_) => a.source.Some?
    case SourceLost => a.source.Some?
    case Imported(sid, bobKey) => Importing(sid, bobKey) in a.tasks
    case Derived(sid, mine, bobKey) => Deriving(sid, mine, bobKey) in a.tasks
    case ClickAgain => a.screen == AlicePass || a.screen == AliceFail
    case Rejected(task) => task in a.tasks
  }

  function Swap(a: Alice, done: AliceTask, next: AliceTask): Alice {
    a.(tasks := a.tasks - multiset{done} + multiset{next})
  }

  function Drop(a: Alice, done: AliceTask): Alice {
    a.(tasks := a.tasks - multiset{done})
  }

  /** reset(): the old key pair stays in place until the new one is there. */
  function Renewed(a: Alice): Alice {
    a.(createEnabled := false, session := None, channel := None, tasks := a.tasks + multiset{Generating})
  }

  function OnMessage(a: Alice, e: Event): Alice
    requires a.source.Some?
  {
    match e
    case ConnectedEvent(_) => a
    case VerifiedEvent(_, bobKey, _) =>
      a.(source := None, tasks := a.tasks + multiset{Importing(a.source.value, bobKey)})
    case FailedEvent(_) => a.(source := None, screen := AliceFail)
    case ExpiredEvent => Renewed(a.(source := None)).(screen := CreateForm)
  }

  function AliceDo(ecdh: Ecdh, a: Alice, step: AliceStep): Alice
    requires AliceCan(a, step)
  {
    match step
    case Generated(key) => Swap(a, Generating, Enabling).(keyPair := Some(key))
    case Ready => Drop(a, Enabling).(createEnabled := true)
    case Start => a.(screen := CreateForm)
    case ClickCreate =>
      if a.keyPair.None? then a      // alert("Keys still generating")
      else a.(createEnabled := false, tasks := a.tasks + multiset{Exporting(ecdh.pub(a.keyPair.value))})
    case Exported(pub) => Swap(a, Exporting(pub), Posting(pub, None))
    case PostHandled(pub, sid) => Swap(a, Posting(pub, None), Posting(pub, Some(sid)))
    case PostOk(pub, sid) =>
      Drop(a, Posting(pub, Some(sid))).(session := Some(sid), screen := WaitingForResult, source := Some(sid))
    case PostBroken(pub, sid) =>     // an exception after the screen has changed and before the stream is opened
      Drop(a, Posting(pub, Some(sid))).(session := Some(sid), screen := WaitingForResult, createEnabled := true)
    case Message(e) => OnMessage(a, e)
    case SourceLost => a.(source := None)
    case Imported(sid, bobKey) =>
      if a.keyPair.None? then Drop(a, Importing(sid, bobKey))
      else Swap(a, Importing(sid, bobKey), Deriving(sid, a.keyPair.value, bobKey))
    case Derived(sid, mine, bobKey) =>
      Drop(a, Deriving(sid, mine, bobKey))
        .(screen := AlicePass, channel := Some(Channel(sid, mine, bobKey, ecdh.derive(mine, bobKey))))
    case ClickAgain => Renewed(a).(screen := CreateForm)
    case Rejected(task) =>
      if task.Exporting? || task.Posting? then Drop(a, task).(createEnabled := true) else Drop(a, task)
  }

  // ---- Bob ----

  datatype BobTask =
    | BGenerating | BEnabling                               // initBob: the key pair
    | BFetching(found: Option<bool>)                        // initBob: fetch; found once the server has looked, true if it waits for Bob
    | BExporting(pub: Jwk) | BPosting(pub: Jwk)             // submitAnswer
    | BAwaiting(call: nat)                                  // the request has reached the server as this call
    | BImporting(aliceKey: Jwk) | BDeriving(mine: PrivateKey, aliceKey: Jwk)

  datatype Bob = Bob(
    sid: SessionId, screen: Screen, keyPair: Option<PrivateKey>, submitEnabled: bool,
    tasks: multiset<BobTask>, channel: Option<Channel>)

  /** What a response to the POST means to the page. */
  datatype Verdict = Unavailable | Trouble | Passed(aliceKey: Jwk) | NotPassed

  datatype BobStep =
    | BGenerated(key: PrivateKey) | BEnabled | BLooked(waiting: bool) | BFetched(waiting: bool)
    | ClickSubmit | BExported(pub: Jwk) | BSent(pub: Jwk, call: nat)
    | BAnswered(call: nat, verdict: Verdict)
    | BImported(aliceKey: Jwk) | BDerived(mine: PrivateKey, aliceKey: Jwk)
    | BRejected(task: BobTask)

  function BobLoaded(sid: SessionId): Bob {
    Bob(sid, Loading, None, false, multiset{BGenerating}, None)
  }

  predicate BobCan(b: Bob, step: BobStep) {
    match step
    case BGenerated(_) => BGenerating in b.tasks
    case BEnabled => BEnabling in b.tasks
    case BLooked(_) => BFetching(None) in b.tasks
    case BFetched(waiting) => BFetching(Some(waiting)) in b.tasks
    case ClickSubmit => b.screen == BobChallenge && b.submitEnabled
    case BExported(pub) => BExporting(pub) in b.tasks
    case BSent(pub, _) => BPosting(pub) in b.tasks
    case BAnswered(call, _) => BAwaiting(call) in b.tasks
    case BImported(aliceKey) => BImporting(aliceKey) in b.tasks
    case BDerived(mine, aliceKey) => BDeriving(mine, aliceKey) in b.tasks
    case BRejected(task) => task in b.tasks
  }

  function BSwap(b: Bob, done: BobTask, next: BobTask): Bob {
    b.(tasks := b.tasks - multiset{done} + multiset{next})
  }

  function BDrop(b: Bob, done: BobTask): Bob {
    b.(tasks := b.tasks - multiset{done})
  }

  /** The catch block of submitAnswer: back to the form. */
  function Retry(b: Bob): Bob {
    b.(screen := BobChallenge, submitEnabled := true)
  }

  function BobDo(ecdh: Ecdh, b: Bob, step: BobStep): Bob
    requires BobCan(b, step)
  {
    match step
    case BGenerated(key) => BSwap(b, BGenerating, BEnabling).(keyPair := Some(key))
    case BEnabled => BSwap(b, BEnabling, BFetching(None)).(submitEnabled := true)
    case BLooked(waiting) => BSwap(b, BFetching(None), BFetching(Some(waiting)))
    case BFetched(waiting) => BDrop(b, BFetching(Some(waiting))).(screen := if waiting then BobChallenge else LinkExpired)
    case ClickSubmit =>
      if b.keyPair.None? then b      // alert("Keys still generating")
      else b.(submitEnabled := false, screen := Scoring, tasks := b.tasks + multiset{BExporting(ecdh.pub(b.keyPair.value))})
    case BExported(pub) => BSwap(b, BExporting(pub), BPosting(pub))
    case BSent(pub, call) => BSwap(b, BPosting(pub), BAwaiting(call))
    case BAnswered(call, verdict) =>
      (match verdict
       case Unavailable => BDrop(b, BAwaiting(call)).(screen := LinkExpired)
       case Trouble => Retry(BDrop(b, BAwaiting(call)))
       case Passed(aliceKey) => BSwap(b, BAwaiting(call), BImporting(aliceKey))
       case NotPassed => BDrop(b, BAwaiting(call)).(screen := BobFail))
    case BImported(aliceKey) =>
      if b.keyPair.None? then Retry(BDrop(b, BImporting(aliceKey)))
      else BSwap(b, BImporting(aliceKey), BDeriving(b.keyPair.value, aliceKey))
    case BDerived(mine, aliceKey) =>
      BDrop(b, BDeriving(mine, aliceKey))
        .(screen := BobPass, channel := Some(Channel(b.sid, mine, aliceKey, ecdh.derive(mine, aliceKey))))
    case BRejected(task) =>
      match task
      case BGenerating => BSwap(b, BGenerating, BFetching(None))
      case BEnabling => BSwap(b, BEnabling, BFetching(None))
      case BFetching(_) => BDrop(b, task).(screen := LinkExpired)
      case _ => Retry(BDrop(b, task))
  }
}
