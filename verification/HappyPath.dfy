/** The protocol can succeed: when sessions live at all and some answer scores high enough, both pages get to their pass screens. */
module HappyPath {
  import opened Domain
  import opened Rounding
  import opened SessionStore
  import opened AtomicSession
  import opened StreamMachine
  import opened System
  import opened SystemInvariant
  import opened Pages
  import KeyAgreement
  import Decision

  type World = KeyAgreement.World

  // ---- Composing runs ----

  lemma {:induction false} RunsThen(ecdh: Ecdh, cfg: Config, w: World, steps: seq<KeyAgreement.WorldStep>, step: KeyAgreement.WorldStep)
    requires KeyAgreement.Runs(ecdh, cfg, w, steps) && KeyAgreement.Can(KeyAgreement.After(ecdh, cfg, w, steps), step)
    ensures KeyAgreement.Runs(ecdh, cfg, w, steps + [step])
    ensures KeyAgreement.After(ecdh, cfg, w, steps + [step]) == KeyAgreement.Do(ecdh, cfg, KeyAgreement.After(ecdh, cfg, w, steps), step)
    decreases |steps|
  {
    if steps == [] {
      assert steps + [step] == [step];
    } else {
      RunsThen(ecdh, cfg, KeyAgreement.Do(ecdh, cfg, w, steps[0]), steps[1..], step);
      assert (steps + [step])[1..] == steps[1..] + [step];
    }
  }

  ghost predicate Reachable(ecdh: Ecdh, cfg: Config, w: World) {
    exists steps ::
      KeyAgreement.Runs(ecdh, cfg, KeyAgreement.BEGINNING, steps) && KeyAgreement.After(ecdh, cfg, KeyAgreement.BEGINNING, steps) == w
  }

  lemma OneMore(ecdh: Ecdh, cfg: Config, w: World, step: KeyAgreement.WorldStep)
    requires Reachable(ecdh, cfg, w) && KeyAgreement.Can(w, step)
    ensures Reachable(ecdh, cfg, KeyAgreement.Do(ecdh, cfg, w, step))
  {
    var steps :| KeyAgreement.Runs(ecdh, cfg, KeyAgreement.BEGINNING, steps)
              && KeyAgreement.After(ecdh, cfg, KeyAgreement.BEGINNING, steps) == w;
    RunsThen(ecdh, cfg, KeyAgreement.BEGINNING, steps, step);
  }

  lemma AliceMoves(ecdh: Ecdh, cfg: Config, w: World, step: AliceStep, next: Alice) returns (u: World)
    requires Reachable(ecdh, cfg, w) && 0 in w.alices && AliceCan(w.alices[0], step)
    requires !step.PostHandled? && !step.Message? && AliceDo(ecdh, w.alices[0], step) == next
    ensures u == w.(alices := w.alices[0 := next]) && Reachable(ecdh, cfg, u)
  {
    OneMore(ecdh, cfg, w, KeyAgreement.AliceMoves(0, step));
    u := w.(alices := w.alices[0 := next]);
  }

  lemma BobMoves(ecdh: Ecdh, cfg: Config, w: World, step: BobStep, next: Bob) returns (u: World)
    requires Reachable(ecdh, cfg, w) && 0 in w.bobs && BobCan(w.bobs[0], step)
    requires !step.BLooked? && !step.BSent? && !step.BAnswered? && BobDo(ecdh, w.bobs[0], step) == next
    ensures u == w.(bobs := w.bobs[0 := next]) && Reachable(ecdh, cfg, u)
  {
    OneMore(ecdh, cfg, w, KeyAgreement.BobMoves(0, step));
    u := w.(bobs := w.bobs[0 := next]);
  }

  lemma ServiceMoves(ecdh: Ecdh, cfg: Config, w: World, step: Step) returns (u: World)
    requires Reachable(ecdh, cfg, w) && System.Enabled(w.sys, step)
    ensures u == w.(sys := System.Do(cfg, w.sys, step)) && Reachable(ecdh, cfg, u)
  {
    OneMore(ecdh, cfg, w, KeyAgreement.Service(step));
    u := w.(sys := System.Do(cfg, w.sys, step));
  }

  // ---- Alice creates a session ----

  lemma AliceLoads(ecdh: Ecdh, cfg: Config, key: PrivateKey) returns (w: World)
    ensures Reachable(ecdh, cfg, w) && w.sys == START && w.bobs == map[] && 0 in w.alices
    ensures w.alices[0] == Alice(CreateForm, Some(key), true, None, None, multiset{}, None)
  {
    w := KeyAgreement.BEGINNING;
    assert KeyAgreement.Runs(ecdh, cfg, w, []) && KeyAgreement.After(ecdh, cfg, w, []) == w;
    OneMore(ecdh, cfg, w, KeyAgreement.LoadAlice(0));
    w := KeyAgreement.Do(ecdh, cfg, w, KeyAgreement.LoadAlice(0));
    w := AliceMoves(ecdh, cfg, w, Generated(key), Alice(Landing, Some(key), false, None, None, multiset{Enabling}, None));
    w := AliceMoves(ecdh, cfg, w, Ready, Alice(Landing, Some(key), true, None, None, multiset{}, None));
    w := AliceMoves(ecdh, cfg, w, Start, Alice(CreateForm, Some(key), true, None, None, multiset{}, None));
  }

  lemma AliceUploads(ecdh: Ecdh, cfg: Config, key: PrivateKey) returns (w: World)
    ensures Reachable(ecdh, cfg, w) && w.sys == START && w.bobs == map[] && 0 in w.alices
    ensures w.alices[0] == Alice(CreateForm, Some(key), false, None, None, multiset{Posting(ecdh.pub(key), None)}, None)
  {
    w := AliceLoads(ecdh, cfg, key);
    var pub := ecdh.pub(key);
    w := AliceMoves(ecdh, cfg, w, ClickCreate, Alice(CreateForm, Some(key), false, None, None, multiset{Exporting(pub)}, None));
    w := AliceMoves(ecdh, cfg, w, Exported(pub), Alice(CreateForm, Some(key), false, None, None, multiset{Posting(pub, None)}, None));
  }

  /** What Alice's create request holds. */
  function ChallengeOf(ecdh: Ecdh, key: PrivateKey, vector: seq<real>): Challenge {
    Challenge("Alice", "Where?", vector, ecdh.pub(key))
  }

  const SID: SessionId := "s"

  /** Alice waits for the result of the session that the store holds. */
  ghost predicate AliceWaits(ecdh: Ecdh, w: World, key: PrivateKey) {
    0 in w.alices && w.alices[0] == Alice(WaitingForResult, Some(key), false, Some(SID), Some(SID), multiset{}, None)
  }

  ghost predicate Fresh(s: Sys, ch: Challenge) {
    && SID in s.db && s.db[SID].hash == NewHash(ch, s.now)
    && s.calls == map[] && s.streams == map[]
  }

  lemma Creating(cfg: Config, ch: Challenge)
    requires cfg.ttl > 0
    ensures Fresh(System.Do(cfg, START, CreateStep(SID, ch)), ch)
  {
    assert !(cfg.ttl <= 0);
  }

  lemma AliceCreates(ecdh: Ecdh, cfg: Config, key: PrivateKey, vector: seq<real>) returns (w: World)
    requires cfg.ttl > 0
    ensures Reachable(ecdh, cfg, w) && AliceWaits(ecdh, w, key) && Fresh(w.sys, ChallengeOf(ecdh, key, vector)) && w.bobs == map[]
  {
    w := AliceUploads(ecdh, cfg, key);
    var pub := ecdh.pub(key);
    var post := KeyAgreement.AlicePosts(0, pub, SID, "Alice", "Where?", vector);
    OneMore(ecdh, cfg, w, post);
    Creating(cfg, ChallengeOf(ecdh, key, vector));
    w := KeyAgreement.Do(ecdh, cfg, w, post);
    w := AliceMoves(ecdh, cfg, w, PostOk(pub, SID), Alice(WaitingForResult, Some(key), false, Some(SID), Some(SID), multiset{}, None));
  }

  // ---- Bob answers ----

  lemma BobGenerates(ecdh: Ecdh, cfg: Config, v: World, key: PrivateKey) returns (w: World)
    requires Reachable(ecdh, cfg, v) && v.bobs == map[]
    ensures Reachable(ecdh, cfg, w) && w == v.(bobs := w.bobs)
    ensures 0 in w.bobs && w.bobs[0] == Bob(SID, Loading, Some(key), true, multiset{BFetching(None)}, None)
  {
    OneMore(ecdh, cfg, v, KeyAgreement.LoadBob(0, SID));
    w := KeyAgreement.Do(ecdh, cfg, v, KeyAgreement.LoadBob(0, SID));
    w := BobMoves(ecdh, cfg, w, BGenerated(key), Bob(SID, Loading, Some(key), false, multiset{BEnabling}, None));
    w := BobMoves(ecdh, cfg, w, BEnabled, Bob(SID, Loading, Some(key), true, multiset{BFetching(None)}, None));
  }

  lemma BobLooks(ecdh: Ecdh, cfg: Config, v: World, key: PrivateKey) returns (w: World)
    requires Reachable(ecdh, cfg, v) && v.bobs == map[] && GetPhase(v.sys.db, SID) == Some(WaitingForBob)
    ensures Reachable(ecdh, cfg, w) && w == v.(bobs := w.bobs)
    ensures 0 in w.bobs && w.bobs[0] == Bob(SID, Loading, Some(key), true, multiset{BFetching(Some(true))}, None)
  {
    var u := BobGenerates(ecdh, cfg, v, key);
    OneMore(ecdh, cfg, u, KeyAgreement.BobLooks(0));
    w := KeyAgreement.Do(ecdh, cfg, u, KeyAgreement.BobLooks(0));
  }

  lemma BobLoads(ecdh: Ecdh, cfg: Config, v: World, key: PrivateKey) returns (w: World)
    requires Reachable(ecdh, cfg, v) && v.bobs == map[] && GetPhase(v.sys.db, SID) == Some(WaitingForBob)
    ensures Reachable(ecdh, cfg, w) && w == v.(bobs := w.bobs)
    ensures 0 in w.bobs && w.bobs[0] == Bob(SID, BobChallenge, Some(key), true, multiset{}, None)
  {
    w := BobLooks(ecdh, cfg, v, key);
    w := BobMoves(ecdh, cfg, w, BFetched(true), Bob(SID, BobChallenge, Some(key), true, multiset{}, None));
  }

  function RequestOf(ecdh: Ecdh, key: PrivateKey): BobRequest {
    BobRequest("Bob", ecdh.pub(key))
  }

  lemma BobUploads(ecdh: Ecdh, cfg: Config, v: World, key: PrivateKey) returns (w: World)
    requires Reachable(ecdh, cfg, v) && v.bobs == map[]
    requires GetPhase(v.sys.db, SID) == Some(WaitingForBob)
    ensures Reachable(ecdh, cfg, w) && w == v.(bobs := w.bobs)
    ensures 0 in w.bobs && w.bobs[0] == Bob(SID, Scoring, Some(key), false, multiset{BPosting(ecdh.pub(key))}, None)
  {
    w := BobLoads(ecdh, cfg, v, key);
    var pub := ecdh.pub(key);
    w := BobMoves(ecdh, cfg, w, ClickSubmit, Bob(SID, Scoring, Some(key), false, multiset{BExporting(pub)}, None));
    w := BobMoves(ecdh, cfg, w, BExported(pub), Bob(SID, Scoring, Some(key), false, multiset{BPosting(pub)}, None));
  }

  lemma BobSends(ecdh: Ecdh, key: PrivateKey, pub: Jwk)
    ensures BobDo(ecdh, Bob(SID, Scoring, Some(key), false, multiset{BPosting(pub)}, None), BSent(pub, 0))
         == Bob(SID, Scoring, Some(key), false, multiset{BAwaiting(0)}, None)
  {
  }

  lemma BobSubmits(ecdh: Ecdh, cfg: Config, v: World, key: PrivateKey) returns (w: World)
    requires Reachable(ecdh, cfg, v) && v.bobs == map[] && v.sys.calls == map[]
    requires GetPhase(v.sys.db, SID) == Some(WaitingForBob)
    ensures Reachable(ecdh, cfg, w) && w.alices == v.alices
    ensures 0 in w.bobs && w.bobs[0] == Bob(SID, Scoring, Some(key), false, multiset{BAwaiting(0)}, None)
    ensures 0 in w.sys.calls && w.sys.calls[0] == Call(SID, RequestOf(ecdh, key), |v.sys.log|, Reading)
    ensures w.sys == v.sys.(calls := w.sys.calls)
  {
    var u := BobUploads(ecdh, cfg, v, key);
    var pub := ecdh.pub(key);
    var post := KeyAgreement.BobPosts(0, pub, 0, "Bob");
    OneMore(ecdh, cfg, u, post);
    BobSends(ecdh, key, pub);
    w := KeyAgreement.Do(ecdh, cfg, u, post);
  }

  /** The answer scores at least the threshold. */
  ghost predicate GoodEnough(cfg: Config, vector: seq<real>, answer: seq<real>) {
    cfg.score(vector, answer).Some? && cfg.score(vector, answer).value >= cfg.threshold
  }

  ghost predicate Passed(s: Sys, ch: Challenge, request: BobRequest, score: real) {
    && SID in s.db && s.db[SID].hash == NewHash(ch, s.now) + Fields(Updates(request, score, true))
    && s.streams == map[]
    && 0 in s.calls && s.calls[0].pc.Replied? && s.calls[0].pc.response == Pass(LivePercent(score), ch.aliceKey)
  }

  lemma ReadAndEmbed(cfg: Config, s: Sys, ch: Challenge, request: BobRequest, answer: seq<real>) returns (t: Sys)
    requires SID in s.db && s.db[SID].hash == NewHash(ch, s.now) && GoodEnough(cfg, ch.vector, answer)
    requires 0 in s.calls && s.calls[0].sid == SID && s.calls[0].request == request && s.calls[0].pc.Reading?
    ensures t == System.Do(cfg, s, ReadStep(0)) && Enabled(t, EmbedStep(0, Some(answer)))
    ensures System.Do(cfg, t, EmbedStep(0, Some(answer)))
      == s.(calls := s.calls[0 := s.calls[0].(pc := Finalizing(NewHash(ch, s.now), answer, cfg.score(ch.vector, answer).value))])
  {
    t := System.Do(cfg, s, ReadStep(0));
    assert t == MoveCall(s, 0, Embedding(NewHash(ch, s.now)));
    var u := System.Do(cfg, t, EmbedStep(0, Some(answer)));
    assert u.calls == s.calls[0 := s.calls[0].(pc := Finalizing(NewHash(ch, s.now), answer, cfg.score(ch.vector, answer).value))];
  }

  lemma ScriptPasses(cfg: Config, s: Sys, ch: Challenge, request: BobRequest, answer: seq<real>, score: real)
    requires SID in s.db && s.db[SID].hash == NewHash(ch, s.now) && score >= cfg.threshold && s.streams == map[]
    requires 0 in s.calls && s.calls[0].sid == SID && s.calls[0].request == request
    requires s.calls[0].pc == Finalizing(NewHash(ch, s.now), answer, score)
    ensures Passed(System.Do(cfg, s, FinalizeStep(0, {})), ch, request, score)
  {
  }

  lemma ServiceAnswers(ecdh: Ecdh, cfg: Config, v: World, ch: Challenge, request: BobRequest, answer: seq<real>) returns (w: World)
    requires Reachable(ecdh, cfg, v) && GoodEnough(cfg, ch.vector, answer)
    requires SID in v.sys.db && v.sys.db[SID].hash == NewHash(ch, v.sys.now) && v.sys.streams == map[]
    requires 0 in v.sys.calls && v.sys.calls[0] == Call(SID, request, |v.sys.log|, Reading)
    ensures Reachable(ecdh, cfg, w) && w.alices == v.alices && w.bobs == v.bobs
    ensures Passed(w.sys, ch, request, cfg.score(ch.vector, answer).value)
  {
    w := ServiceMoves(ecdh, cfg, v, ReadStep(0));
    var t := ReadAndEmbed(cfg, v.sys, ch, request, answer);
    w := ServiceMoves(ecdh, cfg, w, EmbedStep(0, Some(answer)));
    ScriptPasses(cfg, w.sys, ch, request, answer, cfg.score(ch.vector, answer).value);
    w := ServiceMoves(ecdh, cfg, w, FinalizeStep(0, {}));
  }

  lemma BobTold(ecdh: Ecdh, key: PrivateKey, theirs: Jwk)
    ensures BobDo(ecdh, Bob(SID, Scoring, Some(key), false, multiset{BAwaiting(0)}, None), BAnswered(0, Verdict.Passed(theirs)))
         == Bob(SID, Scoring, Some(key), false, multiset{BImporting(theirs)}, None)
  {
  }

  lemma BobHears(ecdh: Ecdh, cfg: Config, v: World, theirs: Jwk, percent: int, key: PrivateKey) returns (w: World)
    requires Reachable(ecdh, cfg, v)
    requires 0 in v.sys.calls && v.sys.calls[0].pc.Replied? && v.sys.calls[0].pc.response == Pass(percent, theirs)
    requires 0 in v.bobs && v.bobs[0] == Bob(SID, Scoring, Some(key), false, multiset{BAwaiting(0)}, None)
    ensures Reachable(ecdh, cfg, w) && w.sys == v.sys && w.alices == v.alices
    ensures 0 in w.bobs && w.bobs[0] == Bob(SID, Scoring, Some(key), false, multiset{BImporting(theirs)}, None)
  {
    OneMore(ecdh, cfg, v, KeyAgreement.BobHears(0, 0));
    BobTold(ecdh, key, theirs);
    w := KeyAgreement.Do(ecdh, cfg, v, KeyAgreement.BobHears(0, 0));
  }

  lemma BobPasses(ecdh: Ecdh, cfg: Config, v: World, theirs: Jwk, percent: int, key: PrivateKey) returns (w: World)
    requires Reachable(ecdh, cfg, v)
    requires 0 in v.sys.calls && v.sys.calls[0].pc.Replied? && v.sys.calls[0].pc.response == Pass(percent, theirs)
    requires 0 in v.bobs && v.bobs[0] == Bob(SID, Scoring, Some(key), false, multiset{BAwaiting(0)}, None)
    ensures Reachable(ecdh, cfg, w) && w.sys == v.sys && w.alices == v.alices
    ensures 0 in w.bobs && w.bobs[0].screen == BobPass && w.bobs[0].sid == SID
  {
    w := BobHears(ecdh, cfg, v, theirs, percent, key);
    w := BobMoves(ecdh, cfg, w, BImported(theirs), Bob(SID, Scoring, Some(key), false, multiset{BDeriving(key, theirs)}, None));
    var channel := Channel(SID, key, theirs, ecdh.derive(key, theirs));
    w := BobMoves(ecdh, cfg, w, BDerived(key, theirs), Bob(SID, BobPass, Some(key), false, multiset{}, Some(channel)));
  }

  // ---- Alice hears of it ----

  /** The only stream stands at pc, with this output. */
  ghost predicate OneStream(s: Sys, pc: Pc, out: seq<Chunk>) {
    && s.streams.Keys == {0} && s.streams[0].sid == SID && s.streams[0].phase == Verified
    && s.streams[0].pc == pc && s.streams[0].out == out
  }

  lemma StreamMoves(ecdh: Ecdh, cfg: Config, v: World, pc: Pc, out: seq<Chunk>, pc': Pc, out': seq<Chunk>) returns (w: World)
    requires Reachable(ecdh, cfg, v) && OneStream(v.sys, pc, out) && CanAdvance(v.sys.streams[0], v.sys.now)
    requires var st := Advance(v.sys.streams[0], v.sys.now, TerminalEvent(v.sys.db, SID)); st.pc == pc' && st.out == out'
    ensures Reachable(ecdh, cfg, w) && OneStream(w.sys, pc', out') && w.sys.db == v.sys.db && w.sys.now == v.sys.now
    ensures w.alices == v.alices && w.bobs == v.bobs
  {
    w := ServiceMoves(ecdh, cfg, v, StreamStep(0));
  }

  lemma PassedInStore(s: Sys, ch: Challenge, request: BobRequest, score: real)
    requires Passed(s, ch, request, score)
    ensures GetPhase(s.db, SID) == Some(Verified)
    ensures TerminalEvent(s.db, SID) == Found(VerifiedEvent(request.bobName, request.bobKey, RebuiltPercent(score)))
  {
    var m := UpdatedFields(request, score, true);
  }

  lemma StreamConnects(ecdh: Ecdh, cfg: Config, v: World) returns (w: World)
    requires Reachable(ecdh, cfg, v) && v.sys.streams == map[] && GetPhase(v.sys.db, SID) == Some(Verified)
    ensures Reachable(ecdh, cfg, w) && w.alices == v.alices && w.bobs == v.bobs
    ensures w.sys.db == v.sys.db && OneStream(w.sys, Connecting, [Retry])
  {
    w := ServiceMoves(ecdh, cfg, v, OpenStep(0, 0, SID));
    w := StreamMoves(ecdh, cfg, w, Subscribing, [], Retrying, []);
    w := StreamMoves(ecdh, cfg, w, Retrying, [], Connecting, [Retry]);
  }

  lemma StreamTells(ecdh: Ecdh, cfg: Config, v: World, e: Event) returns (w: World)
    requires Reachable(ecdh, cfg, v) && v.sys.streams == map[]
    requires GetPhase(v.sys.db, SID) == Some(Verified) && TerminalEvent(v.sys.db, SID) == Found(e)
    ensures Reachable(ecdh, cfg, w) && w.alices == v.alices && w.bobs == v.bobs
    ensures 0 in w.sys.streams && w.sys.streams[0].sid == SID && w.sys.streams[0].out == Preamble(Verified) + [Data(e)]
  {
    w := StreamConnects(ecdh, cfg, v);
    w := StreamMoves(ecdh, cfg, w, Connecting, [Retry], FirstChecking, Preamble(Verified));
    w := StreamMoves(ecdh, cfg, w, FirstChecking, Preamble(Verified), Ended(ByFirstCheck, w.sys.now), Preamble(Verified) + [Data(e)]);
  }

  lemma AlicePasses(ecdh: Ecdh, cfg: Config, v: World, key: PrivateKey, e: Event) returns (w: World)
    requires Reachable(ecdh, cfg, v) && AliceWaits(ecdh, v, key) && e.VerifiedEvent?
    requires 0 in v.sys.streams && v.sys.streams[0].sid == SID && v.sys.streams[0].out == Preamble(Verified) + [Data(e)]
    ensures Reachable(ecdh, cfg, w) && w.bobs == v.bobs
    ensures 0 in w.alices && w.alices[0].screen == AlicePass && w.alices[0].channel.Some? && w.alices[0].channel.value.sid == SID
  {
    OneMore(ecdh, cfg, v, KeyAgreement.AliceHears(0, 0, 2));
    w := KeyAgreement.Do(ecdh, cfg, v, KeyAgreement.AliceHears(0, 0, 2));
    var theirs := e.bobKey;
    assert w.alices[0] == Alice(WaitingForResult, Some(key), false, Some(SID), None, multiset{Importing(SID, theirs)}, None);
    w := AliceMoves(ecdh, cfg, w, Imported(SID, theirs),
                    Alice(WaitingForResult, Some(key), false, Some(SID), None, multiset{Deriving(SID, key, theirs)}, None));
    var channel := Channel(SID, key, theirs, ecdh.derive(key, theirs));
    w := AliceMoves(ecdh, cfg, w, Derived(SID, key, theirs),
                    Alice(AlicePass, Some(key), false, Some(SID), None, multiset{}, Some(channel)));
  }

  // ---- The theorem ----

  /** After this run Alice a and Bob b are both on their pass screens, for one session. */
  ghost predicate BothPassed(ecdh: Ecdh, cfg: Config, steps: seq<KeyAgreement.WorldStep>, a: nat, b: nat) {
    && KeyAgreement.Runs(ecdh, cfg, KeyAgreement.BEGINNING, steps)
    && var w := KeyAgreement.After(ecdh, cfg, KeyAgreement.BEGINNING, steps);
    && a in w.alices && w.alices[a].screen == AlicePass && w.alices[a].channel.Some?
    && b in w.bobs && w.bobs[b].screen == BobPass && w.alices[a].channel.value.sid == w.bobs[b].sid
  }

  lemma BothCanPass(ecdh: Ecdh, cfg: Config, mine: PrivateKey, theirs: PrivateKey, vector: seq<real>, answer: seq<real>)
    requires cfg.ttl > 0 && GoodEnough(cfg, vector, answer)
    ensures exists steps :: BothPassed(ecdh, cfg, steps, 0, 0)
  {
    var ch, request, score := ChallengeOf(ecdh, mine, vector), RequestOf(ecdh, theirs), cfg.score(vector, answer).value;
    var w := AliceCreates(ecdh, cfg, mine, vector);
    w := BobSubmits(ecdh, cfg, w, theirs);
    w := ServiceAnswers(ecdh, cfg, w, ch, request, answer);
    w := BobPasses(ecdh, cfg, w, ch.aliceKey, LivePercent(score), theirs);
    var news := VerifiedEvent(request.bobName, request.bobKey, RebuiltPercent(score));
    PassedInStore(w.sys, ch, request, score);
    w := StreamTells(ecdh, cfg, w, news);
    w := AlicePasses(ecdh, cfg, w, mine, news);
    var steps :| KeyAgreement.Runs(ecdh, cfg, KeyAgreement.BEGINNING, steps)
              && KeyAgreement.After(ecdh, cfg, KeyAgreement.BEGINNING, steps) == w;
    assert BothPassed(ecdh, cfg, steps, 0, 0);
  }

  lemma PassNeedsScore(ecdh: Ecdh, cfg: Config, steps: seq<KeyAgreement.WorldStep>, a: nat, b: nat)
    requires BothPassed(ecdh, cfg, steps, a, b)
    ensures cfg.ttl > 0 && exists vector, answer :: GoodEnough(cfg, vector, answer)
  {
    KeyAgreement.RunOk(ecdh, cfg, steps);
    var w := KeyAgreement.After(ecdh, cfg, KeyAgreement.BEGINNING, steps);
    var o := Replay(cfg, w.sys.log);
    KeyAgreement.BobPassed(ecdh, w.bobs[b], w.sys, o);
    WinnerScored(cfg, w.sys, w.bobs[b].sid);
  }

  lemma WinnerScored(cfg: Config, s: Sys, sid: SessionId)
    requires SystemInvariant.Inv(cfg, s)
    requires var o := Replay(cfg, s.log); Decided(o, sid) && Winner(o, sid).passed
    ensures cfg.ttl > 0 && exists vector, answer :: GoodEnough(cfg, vector, answer)
  {
    var o := Replay(cfg, s.log);
    assert SessionOk(cfg, o.sessions[sid], o.now);
    var i := Decision.DecidedByScore(cfg, s.log, sid);
    assert GoodEnough(cfg, o.sessions[sid].challenge.vector, s.log[i].op.answer.v);
    assert cfg.ttl as real > 0.0;
  }

  /** Some run ends with both pages on their pass screens exactly when sessions live and some answer scores high enough. */
  lemma CanPassExactly(ecdh: Ecdh, cfg: Config, mine: PrivateKey, theirs: PrivateKey)
    ensures (exists steps, a, b :: BothPassed(ecdh, cfg, steps, a, b)) <==>
      cfg.ttl > 0 && exists vector, answer :: GoodEnough(cfg, vector, answer)
  {
    if cfg.ttl > 0 && exists vector, answer :: GoodEnough(cfg, vector, answer) {
      var vector, answer :| GoodEnough(cfg, vector, answer);
      BothCanPass(ecdh, cfg, mine, theirs, vector, answer);
    }
    forall steps, a, b | BothPassed(ecdh, cfg, steps, a, b)
      ensures cfg.ttl > 0 && exists vector, answer :: GoodEnough(cfg, vector, answer)
    {
      PassNeedsScore(ecdh, cfg, steps, a, b);
    }
  }
}
