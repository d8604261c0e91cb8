/** The dict of sets in which a worker keeps the queues of its open streams. */
module Registry {
  import opened Domain

  type Registry<Q(==)> = map<SessionId, set<Q>>

  function Listeners<Q(==)>(r: Registry<Q>, sid: SessionId): set<Q> {
    if sid in r then r[sid] else {}
  }

  /** setdefault(sid, set()).add(q) */
  function Add<Q(==)>(r: Registry<Q>, sid: SessionId, q: Q): Registry<Q> {
    r[sid := Listeners(r, sid) + {q}]
  }

  /** discard q, and drop the entry once its set is empty */
  function Remove<Q(==)>(r: Registry<Q>, sid: SessionId, q: Q): Registry<Q> {
    if sid !in r then r
    else if r[sid] - {q} == {} then r - {sid}
    else r[sid := r[sid] - {q}]
  }

  ghost predicate NoEmptySet<Q(!new)>(r: Registry<Q>) {
    forall sid :: sid in r ==> r[sid] != {}
  }

  /** Add and Remove change exactly one (session, queue) pair. */
  lemma AddExact<Q(!new)>(r: Registry<Q>, sid: SessionId, q: Q)
    ensures forall t, p :: p in Listeners(Add(r, sid, q), t) <==> p in Listeners(r, t) || (t == sid && p == q)
    ensures NoEmptySet(r) ==> NoEmptySet(Add(r, sid, q))
  {
    assert q in Add(r, sid, q)[sid];
  }

  lemma RemoveExact<Q(!new)>(r: Registry<Q>, sid: SessionId, q: Q)
    ensures forall t, p :: p in Listeners(Remove(r, sid, q), t) <==> p in Listeners(r, t) && !(t == sid && p == q)
    ensures NoEmptySet(r) ==> NoEmptySet(Remove(r, sid, q))
  {
    if sid in r && r[sid] - {q} == {} {
      forall p | p in r[sid]
        ensures p == q
      {
        assert p !in r[sid] - {q};
      }
    }
  }

  /** A registry without empty sets is determined by its pairs; with no pair left it is the empty dict. */
  lemma EmptyWhenNoPairs<Q(!new)>(r: Registry<Q>)
    requires NoEmptySet(r)
    requires forall sid, q :: q !in Listeners(r, sid)
    ensures r == map[]
  {
    forall sid
      ensures sid !in r
    {
      assert Listeners(r, sid) == {};
    }
  }
}
