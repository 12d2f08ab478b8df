/**
 The default in-memory store: one map from session id to record. A destroyed
 id keeps its slot, holding `undefined`.
 */
module MemoryStore {
  import opened JsValues
  import opened StoreApi

  datatype Store<R> = Store(slots: map<string, Option<R>>)

  /** `new Store()`: nothing is stored. */
  function Empty<R>(): (s: Store<R>)
    ensures forall id :: Get(s, id).record == None
  {
    Store(map[])
  }

  /** `get(id, cb)`: the callback always receives a null error, and `undefined`
      for an unknown or destroyed id. */
  function Get<R>(s: Store<R>, id: string): (r: GetReply<R>)
    ensures r.err == None
    ensures id !in s.slots ==> r.record == None
    ensures id in s.slots ==> r.record == s.slots[id]
  {
    GetReply(None, if id in s.slots then s.slots[id] else None)
  }

  /** `set(id, record, cb)`: overwrites unconditionally and touches no other id. */
  function Set<R>(s: Store<R>, id: string, record: R): (s': Store<R>)
    ensures Get(s', id).record == Some(record)
    ensures forall k :: k != id ==> Get(s', k) == Get(s, k)
    ensures s'.slots.Keys == s.slots.Keys + {id}
  {
    Store(s.slots[id := Some(record)])
  }

  /** `destroy(id, cb)`: blanks the slot (the key stays) and touches no other id. */
  function Destroy<R>(s: Store<R>, id: string): (s': Store<R>)
    ensures Get(s', id).record == None
    ensures forall k :: k != id ==> Get(s', k) == Get(s, k)
    ensures s'.slots.Keys == s.slots.Keys + {id}
  {
    Store(s.slots[id := None])
  }

  /** Two stores answer every `get` alike. */
  ghost predicate SameContents<R>(a: Store<R>, b: Store<R>) {
    forall id :: Get(a, id) == Get(b, id)
  }

  /** A second `set` of the same id replaces the first entirely. */
  lemma SetOverwrites<R>(s: Store<R>, id: string, a: R, b: R)
    ensures Set(Set(s, id, a), id, b) == Set(s, id, b)
  {
  }

  /** Destroying twice is destroying once. */
  lemma DestroyIdempotent<R>(s: Store<R>, id: string)
    ensures Destroy(Destroy(s, id), id) == Destroy(s, id)
  {
  }

  /** Destroying an id that holds nothing changes no answer of `get`. */
  lemma DestroyAbsentIsNoOp<R>(s: Store<R>, id: string)
    requires Get(s, id).record == None
    ensures SameContents(Destroy(s, id), s)
  {
  }
}
