/** Sessions as Redis hashes: the commands used, and what SessionStore builds from them. */
module SessionStore {
  import opened Domain
  import opened Rounding

  datatype Field =
    | PhaseField | AliceName | MemoryQuestion | AnswerEmbedding | AlicePubkey
    | BobName | BobPubkey | SimilarityScore | CreatedAt

  /** A stored text, by the encoder that wrote it; decoding is matching on the constructor. */
  datatype Text =
    | Str(text: string)
    | PhaseName(phase: Phase)
    | VectorJson(vector: seq<real>)
    | KeyJson(key: Jwk)
    | Decimal(tenThousandths: int)
    | Seconds(count: int)

  type Hash = map<Field, Text>

  datatype Entry = Entry(hash: Hash, expiresAt: Option<real>)

  type Db = map<SessionId, Entry>

  // ---- Redis commands ----

  /** HSET merges fields and leaves the expiry alone; a new key has none. */
  function HSet(db: Db, key: SessionId, fields: Hash): Db {
    if key in db then db[key := Entry(db[key].hash + fields, db[key].expiresAt)]
    else db[key := Entry(fields, None)]
  }

  /** EXPIRE with a non-positive time deletes at once. */
  function Expire(db: Db, key: SessionId, now: real, ttl: int): Db {
    if key !in db then db
    else if ttl <= 0 then db - {key}
    else db[key := db[key].(expiresAt := Some(now + ttl as real))]
  }

  predicate Overdue(e: Entry, now: real) {
    e.expiresAt.Some? && e.expiresAt.value <= now
  }

  /** Keys vanish at their expiry instant. */
  function Evict(db: Db, now: real): Db {
    map key | key in db && !Overdue(db[key], now) :: db[key]
  }

  function HGet(db: Db, key: SessionId, field: Field): Option<Text> {
    if key in db && field in db[key].hash then Some(db[key].hash[field]) else None
  }

  // ---- SessionStore ----

  function NewHash(ch: Challenge, now: real): Hash {
    map[PhaseField := PhaseName(WaitingForBob),
        AliceName := Str(ch.aliceName),
        MemoryQuestion := Str(ch.question),
        AnswerEmbedding := VectorJson(ch.vector),
        AlicePubkey := KeyJson(ch.aliceKey),
        BobName := Str(""),
        BobPubkey := Str(""),
        SimilarityScore := Str(""),
        CreatedAt := Seconds(now.Floor)]
  }

  /** The HSET + EXPIRE transaction. */
  function Create(db: Db, key: SessionId, ch: Challenge, now: real, ttl: int): Db {
    Expire(HSet(db, key, NewHash(ch, now)), key, now, ttl)
  }

  function PhaseIn(hash: Hash): Option<Phase> {
    if PhaseField in hash && hash[PhaseField].PhaseName? then Some(hash[PhaseField].phase) else None
  }

  function GetPhase(db: Db, key: SessionId): Option<Phase> {
    if key in db then PhaseIn(db[key].hash) else None
  }

  /** The fields that a list of field/value pairs writes, later pairs winning. */
  function Fields(pairs: seq<(Field, Text)>): Hash {
    if pairs == [] then map[]
    else Fields(pairs[..|pairs| - 1])[pairs[|pairs| - 1].0 := pairs[|pairs| - 1].1]
  }

  lemma FieldsOneMore(pairs: seq<(Field, Text)>, i: nat)
    requires i < |pairs|
    ensures Fields(pairs[..i + 1]) == Fields(pairs[..i])[pairs[i].0 := pairs[i].1]
  {
    assert pairs[..i + 1][..i] == pairs[..i];
  }

  datatype Finalized = Finalized(db: Db, code: int, published: Option<Event>)

  /** The Lua script: one atomic compare-and-set with a publish. */
  function Finalize(db: Db, key: SessionId, updates: Hash, event: Event): Finalized {
    if key !in db then Finalized(db, -1, None)
    else if PhaseIn(db[key].hash) != Some(WaitingForBob) then Finalized(db, 0, None)
    else Finalized(HSet(db, key, updates), 1, Some(event))
  }

  /** What terminal_event does: json.loads or float may raise on a malformed hash. */
  datatype Check = Raised | Found(event: Event) | StillWaiting

  function TerminalEvent(db: Db, key: SessionId): Check {
    match GetPhase(db, key)
    case None => Found(ExpiredEvent)
    case Some(WaitingForBob) => StillWaiting
    case Some(Verified) =>
      (match (HGet(db, key, BobName), HGet(db, key, BobPubkey), HGet(db, key, SimilarityScore))
       case (Some(Str(name)), Some(KeyJson(k)), Some(Decimal(n))) => Found(VerifiedEvent(name, k, PercentOfStored(n)))
       case _ => Raised)
    case Some(Failed) =>
      match HGet(db, key, SimilarityScore)
      case Some(Decimal(n)) => Found(FailedEvent(PercentOfStored(n)))
      case _ => Raised
  }

  // ---- What the verify route writes and announces ----

  function Updates(request: BobRequest, score: real, passed: bool): seq<(Field, Text)> {
    if passed then
      [(PhaseField, PhaseName(Verified)),
       (BobName, Str(request.bobName)),
       (BobPubkey, KeyJson(request.bobKey)),
       (SimilarityScore, Decimal(Stored(score)))]
    else
      [(PhaseField, PhaseName(Failed)), (SimilarityScore, Decimal(Stored(score)))]
  }

  function Announcement(request: BobRequest, score: real, passed: bool): Event {
    if passed then VerifiedEvent(request.bobName, request.bobKey, LivePercent(score))
    else FailedEvent(LivePercent(score))
  }

  function RebuiltAnnouncement(request: BobRequest, score: real, passed: bool): Event {
    if passed then VerifiedEvent(request.bobName, request.bobKey, RebuiltPercent(score))
    else FailedEvent(RebuiltPercent(score))
  }

  /** Fields(Updates(..)) field by field. */
  function UpdatedFields(request: BobRequest, score: real, passed: bool): (m: Hash)
    ensures m == Fields(Updates(request, score, passed))
  {
    var m: Hash :=
      if passed then
        map[PhaseField := PhaseName(Verified), BobName := Str(request.bobName),
            BobPubkey := KeyJson(request.bobKey), SimilarityScore := Decimal(Stored(score))]
      else
        map[PhaseField := PhaseName(Failed), SimilarityScore := Decimal(Stored(score))];
    assert Fields(Updates(request, score, passed)) == m by {
      var u := Updates(request, score, passed);
      assert u[..0] == [];
      FieldsOneMore(u, 0);
      FieldsOneMore(u, 1);
      if passed {
        FieldsOneMore(u, 2);
        FieldsOneMore(u, 3);
      }
      assert u[..|u|] == u;
    }
    m
  }

  // ---- What a hash holds, field by field ----

  /** What Alice's create request has put into the hash. */
  predicate HoldsChallenge(h: Hash, ch: Challenge, born: real) {
    && AliceName in h && h[AliceName] == Str(ch.aliceName)
    && MemoryQuestion in h && h[MemoryQuestion] == Str(ch.question)
    && AnswerEmbedding in h && h[AnswerEmbedding] == VectorJson(ch.vector)
    && AlicePubkey in h && h[AlicePubkey] == KeyJson(ch.aliceKey)
    && CreatedAt in h && h[CreatedAt] == Seconds(born.Floor)
  }

  predicate HoldsNoResult(h: Hash) {
    && PhaseField in h && h[PhaseField] == PhaseName(WaitingForBob)
    && BobName in h && h[BobName] == Str("")
    && BobPubkey in h && h[BobPubkey] == Str("")
    && SimilarityScore in h && h[SimilarityScore] == Str("")
  }

  /** What the winner's script has put into the hash: the score to four decimals, and Bob's name and key if he passed. */
  ghost predicate HoldsResult(h: Hash, request: BobRequest, score: real, passed: bool) {
    && PhaseField in h && h[PhaseField] == PhaseName(if passed then Verified else Failed)
    && BobName in h && h[BobName] == Str(if passed then request.bobName else "")
    && BobPubkey in h && h[BobPubkey] == (if passed then KeyJson(request.bobKey) else Str(""))
    && SimilarityScore in h && h[SimilarityScore].Decimal? && NearestEven(score * 10000.0, h[SimilarityScore].tenThousandths)
  }
}
