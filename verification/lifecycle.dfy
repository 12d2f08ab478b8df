/**
 The two hooks driving the default in-memory store: what a request does to the
 store, and what a later request then finds there.
 */
module Lifecycle {
  import opened JsValues
  import opened Sessions
  import opened StoreApi
  import MemoryStore
  import opened Config
  import opened LoadPhase
  import opened SavePhase

  type Store = MemoryStore.Store<Session>

  /** The load phase when the options select the in-memory store, whose current
      contents are `store`: `get` reads the map, `destroy`
      always succeeds and blanks the slot it is given. */
  function LoadFromMemory(o: Options, store: Store, req: Request, unsign: string -> Option<string>, now: int): (res: (Store, LoadResult))
    requires Defaulted(o)
    requires o.store == Some(InMemory)
    ensures !res.1.outcome.Failed?
    ensures res.1.outcome != DestroyedThenNew ==> res.0 == store
    ensures res.1.outcome == DestroyedThenNew ==>
      RawCookie(o, req).Some? && res.0 == MemoryStore.Destroy(store, RawCookie(o, req).value)
    ensures res.1.outcome.Resumed? ==>
      VerifiedId(o, req, unsign).Some? &&
      MemoryStore.Get(store, VerifiedId(o, req, unsign).value).record == Some(res.1.outcome.record)
  {
    var r := HandleSession(o, req, unsign, id => MemoryStore.Get(store, id), id => None, now);
    if r.outcome == DestroyedThenNew then (MemoryStore.Destroy(store, r.calls[1].id), r)
    else (store, r)
  }

  /** The save phase when the options select the in-memory store, whose current
      contents are `store`: `set` always succeeds. */
  function SaveToMemory(o: Options, store: Store, req: Request, session: Option<Session>): (res: (Store, SaveOutcome))
    requires Defaulted(o)
    requires o.store == Some(InMemory)
    ensures !res.1.WriteFailed?
    ensures res.1 == NoWrite ==> res.0 == store
    ensures res.1.Written? ==>
      session.Some? &&
      res.0 == MemoryStore.Set(store, session.value.sessionId, session.value) &&
      res.1.setCookie.value == session.value.encryptedSessionId
  {
    var r := SaveSession(o, req, session, (id, s) => None);
    if r.Written? then (MemoryStore.Set(store, session.value.sessionId, session.value), r)
    else (store, r)
  }

  /** Round trip: a session written by one response is resumed by the next
      request that sends its cookie back, provided the signer recovers the id
      from the cookie value and the session has not expired. */
  lemma SaveThenLoadResumes(
    o: Options, store: Store, req1: Request, s: Session,
    req2: Request, unsign: string -> Option<string>, now: int)
    requires Defaulted(o)
    requires o.store == Some(InMemory)
    requires SaveToMemory(o, store, req1, Some(s)).1.Written?
    requires s.encryptedSessionId != ""
    requires CookieValue(req2, o.cookieName.value) == Some(s.encryptedSessionId)
    requires InScope(o, req2)
    requires unsign(s.encryptedSessionId) == Some(s.sessionId)
    requires !IsExpired(s.expires, now)
    ensures var store' := SaveToMemory(o, store, req1, Some(s)).0;
      LoadFromMemory(o, store', req2, unsign, now) == (store', LoadResult(Resumed(s), [GetCall(s.sessionId)]))
  {
    var store' := SaveToMemory(o, store, req1, Some(s)).0;
    assert VerifiedId(o, req2, unsign) == Some(s.sessionId);
    assert MemoryStore.Get(store', s.sessionId).record == Some(s);
  }

  /** The expired branch destroys the slot named by the raw (signed) cookie
      value, not the verified id the record was read under. Whenever the two
      differ, the stale record stays in the in-memory store, and replaying the
      same request finds and destroys-then-replaces it again. */
  lemma ExpiredRecordSurvives(o: Options, store: Store, req: Request, unsign: string -> Option<string>, now: int)
    requires Defaulted(o)
    requires o.store == Some(InMemory)
    requires VerifiedId(o, req, unsign).Some?
    requires VerifiedId(o, req, unsign).value != RawCookie(o, req).value
    requires ExpiredReply(MemoryStore.Get(store, VerifiedId(o, req, unsign).value), now)
    ensures var (store', r) := LoadFromMemory(o, store, req, unsign, now);
      && r.outcome == DestroyedThenNew
      && MemoryStore.Get(store', VerifiedId(o, req, unsign).value) == MemoryStore.Get(store, VerifiedId(o, req, unsign).value)
      && LoadFromMemory(o, store', req, unsign, now).1.outcome == DestroyedThenNew
  {
    var id := VerifiedId(o, req, unsign).value;
    var store' := LoadFromMemory(o, store, req, unsign, now).0;
    assert store' == MemoryStore.Destroy(store, RawCookie(o, req).value);
    assert MemoryStore.Get(store', id) == MemoryStore.Get(store, id);
  }
}
