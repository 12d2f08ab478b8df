/**
 The `preHandler` hook (`handleSession`), flattened: the signer and the store
 are parameters, and the result names the outcome together with the store
 calls made on the way.
 */
module LoadPhase {
  import opened JsValues
  import opened Sessions
  import opened StoreApi
  import opened Config

  /** What the hook leaves behind before the handler runs.
      Skip: `done()`, `request.session` untouched.
      New: `request.session` is a fresh session, `done()`.
      Resumed: `request.session` is built from `record`, `done()`.
      Failed: `done(error)`, no session assigned.
      DestroyedThenNew: the expired record was destroyed, then as New. */
  datatype LoadOutcome = Skip | New | Resumed(record: Session) | Failed(error: StoreError) | DestroyedThenNew

  datatype LoadResult = LoadResult(outcome: LoadOutcome, calls: seq<StoreCall>)

  /** `cookieOpts.path || '/'`. */
  function ScopePath(c: CookieOptions): string {
    if Present(c.path) then c.path.value else "/"
  }

  /** The request URL falls under the cookie path. */
  predicate InScope(o: Options, req: Request)
    requires Defaulted(o)
  {
    ScopePath(o.cookie.value) <= req.url
  }

  /** The raw cookie value, when truthy. */
  function RawCookie(o: Options, req: Request): Option<string>
    requires Defaulted(o)
  {
    var c := CookieValue(req, o.cookieName.value);
    if Present(c) then c else None
  }

  /** The id the store is asked for: the unsigned raw cookie, when the request
      is in scope, carries a cookie, and the signature checks out. */
  function VerifiedId(o: Options, req: Request, unsign: string -> Option<string>): Option<string>
    requires Defaulted(o)
  {
    if InScope(o, req) && RawCookie(o, req).Some? then unsign(RawCookie(o, req).value) else None
  }

  /** A `get` reply that counts as "no session": an ENOENT error or no record. */
  predicate Absorbed<R>(reply: GetReply<R>) {
    if reply.err.Some? then reply.err.value.code == NotFoundCode else reply.record.None?
  }

  /** A `get` reply whose error is passed on. */
  predicate Propagated<R>(reply: GetReply<R>) {
    reply.err.Some? && reply.err.value.code != NotFoundCode
  }

  /** A `get` reply carrying a record past its expiry. */
  predicate ExpiredReply(reply: GetReply<Session>, now: int) {
    reply.err.None? && reply.record.Some? && IsExpired(reply.record.value.expires, now)
  }

  /** A `get` reply carrying a usable record. */
  predicate LiveReply(reply: GetReply<Session>, now: int) {
    reply.err.None? && reply.record.Some? && !IsExpired(reply.record.value.expires, now)
  }

  /** `handleSession(request, reply, done)`. */
  function HandleSession(
    o: Options, req: Request, unsign: string -> Option<string>,
    get: string -> GetReply<Session>, destroy: string -> Option<StoreError>, now: int): (r: LoadResult)
    requires Defaulted(o)
    ensures r.outcome == Skip <==> !InScope(o, req)
    ensures r.calls == [] <==> VerifiedId(o, req, unsign).None?
    ensures r.outcome == New <==>
      (InScope(o, req) &&
       (VerifiedId(o, req, unsign).None? || Absorbed(get(VerifiedId(o, req, unsign).value))))
    ensures r.outcome.Resumed? <==>
      VerifiedId(o, req, unsign).Some? && LiveReply(get(VerifiedId(o, req, unsign).value), now)
    ensures r.outcome.Resumed? ==> Some(r.outcome.record) == get(VerifiedId(o, req, unsign).value).record
    ensures r.outcome.Failed? <==>
      (VerifiedId(o, req, unsign).Some? &&
       (Propagated(get(VerifiedId(o, req, unsign).value)) ||
        (ExpiredReply(get(VerifiedId(o, req, unsign).value), now) && destroy(RawCookie(o, req).value).Some?)))
    ensures r.outcome == DestroyedThenNew <==>
      (VerifiedId(o, req, unsign).Some? &&
       ExpiredReply(get(VerifiedId(o, req, unsign).value), now) && destroy(RawCookie(o, req).value).None?)
    ensures r.outcome.Failed? ==>
      if |r.calls| == 2 then destroy(RawCookie(o, req).value) == Some(r.outcome.error)
      else get(VerifiedId(o, req, unsign).value).err == Some(r.outcome.error)
    ensures r.calls != [] ==> r.calls[0] == GetCall(VerifiedId(o, req, unsign).value)
    ensures |r.calls| <= 2
    ensures |r.calls| == 2 <==>
      VerifiedId(o, req, unsign).Some? && ExpiredReply(get(VerifiedId(o, req, unsign).value), now)
    ensures |r.calls| == 2 ==> r.calls[1] == DestroyCall(RawCookie(o, req).value)
  {
    IndexOfZeroIffPrefix(req.url, ScopePath(o.cookie.value));
    if IndexOf(req.url, ScopePath(o.cookie.value)) != 0 then LoadResult(Skip, [])
    else
      var sessionId := CookieValue(req, o.cookieName.value);
      if !Present(sessionId) then LoadResult(New, [])
      else
        match unsign(sessionId.value)
        case None => LoadResult(New, [])
        case Some(decrypted) =>
          var reply := get(decrypted);
          var calls := [GetCall(decrypted)];
          if reply.err.Some? then
            if reply.err.value.code == NotFoundCode then LoadResult(New, calls)
            else LoadResult(Failed(reply.err.value), calls)
          else if reply.record.None? then LoadResult(New, calls)
          else if IsExpired(reply.record.value.expires, now) then
            var calls' := calls + [DestroyCall(sessionId.value)];
            match destroy(sessionId.value)
            case Some(e) => LoadResult(Failed(e), calls')
            case None => LoadResult(DestroyedThenNew, calls')
          else LoadResult(Resumed(reply.record.value), calls)
  }

  /** Outside the cookie path nothing is consulted: whatever the signer and the
      store would answer, the hook just continues. */
  lemma OutOfScopeSkips(
    o: Options, req: Request, unsign: string -> Option<string>,
    get: string -> GetReply<Session>, destroy: string -> Option<StoreError>, now: int)
    requires Defaulted(o)
    requires !(ScopePath(o.cookie.value) <= req.url)
    ensures HandleSession(o, req, unsign, get, destroy, now) == LoadResult(Skip, [])
  {
  }

  /** In scope without a (truthy) cookie, a fresh session is made and the store
      is never called, whatever the collaborators would answer. */
  lemma NoCookieStartsFresh(
    o: Options, req: Request, unsign: string -> Option<string>,
    get: string -> GetReply<Session>, destroy: string -> Option<StoreError>, now: int)
    requires Defaulted(o)
    requires InScope(o, req)
    requires !Present(CookieValue(req, o.cookieName.value))
    ensures HandleSession(o, req, unsign, get, destroy, now) == LoadResult(New, [])
  {
  }

  /** A cookie whose signature does not verify is treated exactly like no cookie
      at all: same outcome, and the store is never consulted. */
  lemma BadSignatureLikeNoCookie(
    o: Options, req: Request, unsign: string -> Option<string>,
    get: string -> GetReply<Session>, destroy: string -> Option<StoreError>, now: int)
    requires Defaulted(o)
    requires RawCookie(o, req).Some? && unsign(RawCookie(o, req).value).None?
    ensures var bare := req.(cookies := req.cookies - {o.cookieName.value});
      HandleSession(o, req, unsign, get, destroy, now) == HandleSession(o, bare, unsign, get, destroy, now)
    ensures HandleSession(o, req, unsign, get, destroy, now).calls == []
  {
    var bare := req.(cookies := req.cookies - {o.cookieName.value});
    assert RawCookie(o, bare).None?;
    assert InScope(o, bare) == InScope(o, req);
  }

  /** A record whose expiry equals the current time is expired: it is never
      resumed, and `destroy` is asked to remove it under the raw cookie value. */
  lemma ExpiryBoundary(
    o: Options, req: Request, unsign: string -> Option<string>,
    get: string -> GetReply<Session>, destroy: string -> Option<StoreError>, now: int)
    requires Defaulted(o)
    requires VerifiedId(o, req, unsign).Some?
    requires var reply := get(VerifiedId(o, req, unsign).value);
      reply.err.None? && reply.record.Some? && reply.record.value.expires == Some(now) && now != 0
    ensures var r := HandleSession(o, req, unsign, get, destroy, now);
      !r.outcome.Resumed? && r.calls == [GetCall(VerifiedId(o, req, unsign).value), DestroyCall(RawCookie(o, req).value)]
  {
  }

  /** A record with no expiry, or expiry zero, is resumed whatever the time. */
  lemma MissingExpiryNeverExpires(
    o: Options, req: Request, unsign: string -> Option<string>,
    get: string -> GetReply<Session>, destroy: string -> Option<StoreError>, now: int)
    requires Defaulted(o)
    requires VerifiedId(o, req, unsign).Some?
    requires var reply := get(VerifiedId(o, req, unsign).value);
      reply.err.None? && reply.record.Some? && (reply.record.value.expires == None || reply.record.value.expires == Some(0))
    ensures HandleSession(o, req, unsign, get, destroy, now).outcome ==
      Resumed(get(VerifiedId(o, req, unsign).value).record.value)
  {
  }
}
