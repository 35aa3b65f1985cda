/**
 * The in-memory session store: sessions kept in a map keyed by the inner
 * value of their session id, with load, store, update and remove, and a
 * stop that clears the map and drops it.
 */
module SessionStore {
  import opened Wrappers

  /** A session identifier: a wrapper object around an opaque key value. */
  class SessionId<K> {
    const id: K

    constructor (id: K)
      ensures this.id == id
    {
      this.id := id;
    }
  }

  /** A session: the model keeps only its identifier. */
  class PicketBoxSession<K> {
    const id: SessionId<K>

    constructor (id: SessionId<K>)
      ensures this.id == id
    {
      this.id := id;
    }
  }

  type Sessions<K(==)> = map<K, PicketBoxSession<K>>

  /** The map after `store` or `update` of `session`: its entry is keyed by the inner id value. */
  function Put<K(==)>(m: Sessions<K>, session: PicketBoxSession<K>): Sessions<K> {
    m[session.id.id := session]
  }

  /** The map after `remove` of `key`; an absent key leaves it as it is. */
  function Delete<K(==)>(m: Sessions<K>, key: K): (r: Sessions<K>)
    ensures key !in m ==> r == m
  {
    assert key !in m ==> m - {key} == m;
    m - {key}
  }

  /** Every session sits under the inner value of its own identifier. */
  ghost predicate KeyedByOwnId<K>(m: Sessions<K>) {
    forall k :: k in m ==> m[k].id.id == k
  }

  /** A call on a running store. */
  datatype Call<K> = StoreCall(session: PicketBoxSession<K>) | UpdateCall(session: PicketBoxSession<K>) | RemoveCall(sessionId: SessionId<K>) {
    /** The map key the call addresses. */
    function Key(): K {
      match this
      case StoreCall(s) => s.id.id
      case UpdateCall(s) => s.id.id
      case RemoveCall(i) => i.id
    }
  }

  function Apply<K(==)>(m: Sessions<K>, call: Call<K>): Sessions<K> {
    match call
    case StoreCall(s) => Put(m, s)
    case UpdateCall(s) => Put(m, s)
    case RemoveCall(i) => Delete(m, i.id)
  }

  /** The map after a sequence of calls. */
  function Replay<K(==)>(m: Sessions<K>, calls: seq<Call<K>>): Sessions<K>
    decreases |calls|
  {
    if calls == [] then m else Replay(Apply(m, calls[0]), calls[1..])
  }

  /** One call changes at most the entry it addresses, and puts nothing under a key but its own session. */
  lemma ApplyChangesOnlyItsKey<K>(m: Sessions<K>, call: Call<K>)
    ensures forall k :: k != call.Key() ==> (k in Apply(m, call) <==> k in m)
    ensures forall k :: k != call.Key() && k in m ==> Apply(m, call)[k] == m[k]
    ensures call.RemoveCall? ==> call.Key() !in Apply(m, call)
    ensures !call.RemoveCall? ==> call.Key() in Apply(m, call) && Apply(m, call)[call.Key()] == call.session
  {
  }

  /** Any sequence of calls keeps every session under its own inner id. */
  lemma {:induction false} ReplayKeepsKeying<K>(m: Sessions<K>, calls: seq<Call<K>>)
    requires KeyedByOwnId(m)
    ensures KeyedByOwnId(Replay(m, calls))
    decreases |calls|
  {
    if calls != [] {
      ReplayKeepsKeying(Apply(m, calls[0]), calls[1..]);
    }
  }

  /** Calls that never address `key` leave its entry, or its absence, as it was. */
  lemma {:induction false} ReplayLeavesOtherKeys<K>(m: Sessions<K>, calls: seq<Call<K>>, key: K)
    requires forall i :: 0 <= i < |calls| ==> calls[i].Key() != key
    ensures key in Replay(m, calls) <==> key in m
    ensures key in m ==> Replay(m, calls)[key] == m[key]
    decreases |calls|
  {
    if calls != [] {
      ApplyChangesOnlyItsKey(m, calls[0]);
      ReplayLeavesOtherKeys(Apply(m, calls[0]), calls[1..], key);
    }
  }

  /** A stored session is loaded back after any calls that address other keys. */
  lemma StoredSessionSurvives<K>(m: Sessions<K>, session: PicketBoxSession<K>, calls: seq<Call<K>>)
    requires forall i :: 0 <= i < |calls| ==> calls[i].Key() != session.id.id
    ensures session.id.id in Replay(Put(m, session), calls)
    ensures Replay(Put(m, session), calls)[session.id.id] == session
  {
    ReplayLeavesOtherKeys(Put(m, session), calls, session.id.id);
  }

  /** A removed key stays absent after any calls that address other keys. */
  lemma RemovedKeyStaysAbsent<K>(m: Sessions<K>, key: K, calls: seq<Call<K>>)
    requires forall i :: 0 <= i < |calls| ==> calls[i].Key() != key
    ensures key !in Replay(Delete(m, key), calls)
  {
    ReplayLeavesOtherKeys(Delete(m, key), calls, key);
  }

  /** In a map keyed by own ids no session is stored under two keys. */
  lemma KeyedMapHoldsEachSessionOnce<K>(m: Sessions<K>, k1: K, k2: K)
    requires KeyedByOwnId(m)
    requires k1 in m && k2 in m && m[k1] == m[k2]
    ensures k1 == k2
  {
  }

  /**
   * The store.  `sessions` is None once `DoStop` has dropped the map (the
   * source sets the field to null); every other operation then fails, so
   * each requires a map.
   */
  class AbstractSessionStore<K(==)> {
    var sessions: Option<Sessions<K>>

    ghost predicate Valid()
      reads this
    {
      sessions.Some? ==> KeyedByOwnId(sessions.value)
    }

    constructor ()
      ensures sessions == Some(map[]) && Valid()
    {
      sessions := Some(map[]);
    }

    /** The session stored under the inner value of `key`, or null. */
    method Load(key: SessionId<K>) returns (s: PicketBoxSession?<K>)
      requires Valid() && sessions.Some?
      ensures s != null <==> key.id in sessions.value
      ensures s != null ==> s == sessions.value[key.id] && s.id.id == key.id
    {
      var m := sessions.value;
      if key.id in m {
        s := m[key.id];
      } else {
        s := null;
      }
    }

    method Store(session: PicketBoxSession<K>)
      requires Valid() && sessions.Some?
      modifies this
      ensures Valid()
      ensures sessions == Some(Apply(old(sessions.value), StoreCall(session)))
    {
      sessions := Some(sessions.value[session.id.id := session]);
    }

    method Remove(id: SessionId<K>)
      requires Valid() && sessions.Some?
      modifies this
      ensures Valid()
      ensures sessions == Some(Apply(old(sessions.value), RemoveCall(id)))
    {
      sessions := Some(sessions.value - {id.id});
    }

    method Update(session: PicketBoxSession<K>)
      requires Valid() && sessions.Some?
      modifies this
      ensures Valid()
      ensures sessions == Some(Apply(old(sessions.value), UpdateCall(session)))
    {
      sessions := Some(sessions.value[session.id.id := session]);
    }

    method DoStart()
      ensures sessions == old(sessions)
    {
    }

    method DoStop()
      requires sessions.Some?
      modifies this
      ensures sessions == None && Valid()
    {
      sessions := None;
    }
  }

  /** store(s) followed by load of any identifier with the same inner value returns s. */
  method StoreThenLoad<K(==)>(store: AbstractSessionStore<K>, session: PicketBoxSession<K>, key: SessionId<K>)
    returns (loaded: PicketBoxSession?<K>)
    requires store.Valid() && store.sessions.Some?
    requires key.id == session.id.id
    modifies store
    ensures loaded == session
  {
    store.Store(session);
    loaded := store.Load(key);
  }

  /** remove(id) followed by load(id) returns null, whether or not the id was present. */
  method RemoveThenLoad<K(==)>(store: AbstractSessionStore<K>, id: SessionId<K>)
    returns (loaded: PicketBoxSession?<K>)
    requires store.Valid() && store.sessions.Some?
    modifies store
    ensures loaded == null
    ensures id.id !in old(store.sessions.value) ==> store.sessions == old(store.sessions)
  {
    store.Remove(id);
    loaded := store.Load(id);
  }
}
