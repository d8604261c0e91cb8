/** SessionStore over one shared Redis server, as the code runs it: commands that change the stored hashes in place. */
module StoreServer {
  import opened Domain
  import opened Rounding
  import opened SessionStore
  import EventHub

  /** The arguments of a script call, in one flat list. */
  datatype Arg = ChannelArg(channel: string) | EventArg(event: Event) | FieldArg(field: Field) | ValueArg(value: Text)

  function Flat(pairs: seq<(Field, Text)>): seq<Arg> {
    if pairs == [] then []
    else Flat(pairs[..|pairs| - 1]) + [FieldArg(pairs[|pairs| - 1].0), ValueArg(pairs[|pairs| - 1].1)]
  }

  /** From index i on, args is a list of field/value pairs. */
  predicate PairsFrom(args: seq<Arg>, i: nat)
    decreases |args|
  {
    || i == |args|
    || (i + 2 <= |args| && args[|args| - 2].FieldArg? && args[|args| - 1].ValueArg? && PairsFrom(args[..|args| - 2], i))
  }

  /** HSET key unpack(ARGV, 3): the arguments from index i on, two by two. */
  function Unpacked(args: seq<Arg>, i: nat): Hash
    requires PairsFrom(args, i)
    decreases |args|
  {
    if i == |args| then map[]
    else Unpacked(args[..|args| - 2], i)[args[|args| - 2].field := args[|args| - 1].value]
  }

  lemma {:induction false} FlatUnpacks(head: seq<Arg>, pairs: seq<(Field, Text)>)
    ensures PairsFrom(head + Flat(pairs), |head|)
    ensures Unpacked(head + Flat(pairs), |head|) == Fields(pairs)
    decreases |pairs|
  {
    if pairs == [] {
      assert head + Flat(pairs) == head;
    } else {
      var shorter := pairs[..|pairs| - 1];
      var last := pairs[|pairs| - 1];
      FlatUnpacks(head, shorter);
      var args := head + Flat(pairs);
      assert args == (head + Flat(shorter)) + [FieldArg(last.0), ValueArg(last.1)];
      assert args[..|args| - 2] == head + Flat(shorter);
    }
  }

  class Redis {
    var db: Db
    var now: real
    var published: seq<(string, Event)>

    constructor ()
      ensures db == map[] && now == 0.0 && published == []
    {
      db, now, published := map[], 0.0, [];
    }

    method Create(sid: SessionId, ch: Challenge, ttl: int)
      modifies this`db
      ensures db == SessionStore.Create(old(db), sid, ch, now, ttl)
    {
      db := HSet(db, sid, NewHash(ch, now));
      db := Expire(db, sid, now, ttl);
    }

    method Get(sid: SessionId) returns (data: Option<Hash>)
      ensures data == if sid in db then Some(db[sid].hash) else None
    {
      data := if sid in db then Some(db[sid].hash) else None;
    }

    method Delete(sid: SessionId) returns (deleted: bool)
      modifies this`db
      ensures deleted == (sid in old(db)) && db == old(db) - {sid}
    {
      deleted := sid in db;
      db := db - {sid};
    }

    /** Time goes by, and keys go with it. */
    method Lapse(d: real)
      requires d > 0.0
      modifies this`db, this`now
      ensures now == old(now) + d && db == Evict(old(db), now)
    {
      now := now + d;
      db := Evict(db, now);
    }

    /** The Lua script. argv holds the channel, the event, then field/value pairs. */
    method FinalizeScript(sid: SessionId, argv: seq<Arg>) returns (code: int)
      requires |argv| >= 2 && argv[0].ChannelArg? && argv[1].EventArg? && PairsFrom(argv, 2)
      modifies this`db, this`published
      ensures var r := SessionStore.Finalize(old(db), sid, Unpacked(argv, 2), argv[1].event);
        && db == r.db && code == r.code
        && published == old(published) + (if r.published.Some? then [(argv[0].channel, r.published.value)] else [])
    {
      if sid !in db {
        return -1;
      }
      if PhaseIn(db[sid].hash) != Some(WaitingForBob) {
        return 0;
      }
      db := HSet(db, sid, Unpacked(argv, 2));
      published := published + [(argv[0].channel, argv[1].event)];
      code := 1;
    }

    /** SessionStore.finalize flattens the updates into script arguments. */
    method Finalize(sid: SessionId, updates: seq<(Field, Text)>, event: Event) returns (code: int)
      modifies this`db, this`published
      ensures var r := SessionStore.Finalize(old(db), sid, Fields(updates), event);
        && db == r.db && code == r.code
        && published == old(published) + (if r.published.Some? then [(EventHub.Channel(sid), event)] else [])
    {
      var args := [ChannelArg(EventHub.Channel(sid)), EventArg(event)];
      var i := 0;
      while i < |updates|
        invariant 0 <= i <= |updates|
        invariant args == [ChannelArg(EventHub.Channel(sid)), EventArg(event)] + Flat(updates[..i])
      {
        args := args + [FieldArg(updates[i].0), ValueArg(updates[i].1)];
        i := i + 1;
        assert updates[..i][..i - 1] == updates[..i - 1];
      }
      assert updates[..i] == updates;
      FlatUnpacks([ChannelArg(EventHub.Channel(sid)), EventArg(event)], updates);
      code := FinalizeScript(sid, args);
    }

    method TerminalEvent(sid: SessionId) returns (check: Check)
      ensures check == SessionStore.TerminalEvent(db, sid)
    {
      var phase := GetPhase(db, sid);
      if phase.None? {
        return Found(ExpiredEvent);
      }
      var name, key, score := HGet(db, sid, BobName), HGet(db, sid, BobPubkey), HGet(db, sid, SimilarityScore);
      match phase.value {
        case WaitingForBob => return StillWaiting;
        case Verified =>
          match (name, key, score) {
            case (Some(Str(n)), Some(KeyJson(k)), Some(Decimal(s))) => return Found(VerifiedEvent(n, k, PercentOfStored(s)));
            case _ => return Raised;
          }
        case Failed =>
          match score {
            case Some(Decimal(s)) => return Found(FailedEvent(PercentOfStored(s)));
            case _ => return Raised;
          }
      }
    }
  }
}
