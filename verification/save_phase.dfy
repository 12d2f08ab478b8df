/**
 The `onSend` hook (`saveSession`) and the save policy it applies
 (`shouldSaveSession`), with the store's `set` as a parameter.
 */
module SavePhase {
  import opened JsValues
  import opened Sessions
  import opened StoreApi
  import opened Config

  /** `reply.setCookie(name, value, attributes)`. */
  datatype SetCookie = SetCookie(name: string, value: string, attributes: CookieOptions)

  /** What the hook does before the response is sent.
      NoWrite: `done()` with no store write and no cookie.
      Written: `set` succeeded, then the cookie was set, `done()`.
      WriteFailed: `set` reported `error`, `done(error)`, no cookie. */
  datatype SaveOutcome = NoWrite | Written(setCookie: SetCookie) | WriteFailed(error: StoreError)

  /** The transport is confirmed secure: TLS on the connection, or a proxy
      reporting `x-forwarded-proto: https`. */
  predicate SecureTransport(req: Request) {
    req.encrypted || req.forwardedProto == Some("https")
  }

  /** `shouldSaveSession`: the ordered policy, first decisive test wins. Its
      meaning: the session is worth keeping, and a secure cookie is only
      issued over a secure transport. */
  function ShouldSaveSession(session: Session, req: Request, cookie: CookieOptions, saveUninitialized: JsValue): (r: bool)
    ensures r <==>
      (Truthy(saveUninitialized) || IsSessionModified(session)) &&
      (cookie.secure != Bool(true) || SecureTransport(req))
  {
    if !Truthy(saveUninitialized) && !IsSessionModified(session) then false
    else if cookie.secure != Bool(true) then true
    else if req.encrypted then true
    else req.forwardedProto == Some("https")
  }

  /** `saveSession(request, reply, payload, done)`; `session` is `request.session`. */
  function SaveSession(o: Options, req: Request, session: Option<Session>, storeSet: (string, Session) -> Option<StoreError>): (r: SaveOutcome)
    requires Defaulted(o)
    ensures r == NoWrite <==>
      (session.None? || session.value.sessionId == "" ||
       !ShouldSaveSession(session.value, req, o.cookie.value, o.saveUninitialized))
    ensures r.Written? ==>
      storeSet(session.value.sessionId, session.value).None? &&
      r.setCookie == SetCookie(o.cookieName.value, session.value.encryptedSessionId, session.value.cookie)
    ensures r.WriteFailed? ==> storeSet(session.value.sessionId, session.value) == Some(r.error)
    ensures r != NoWrite && storeSet(session.value.sessionId, session.value).None? ==> r.Written?
  {
    if session.None? then NoWrite
    else
      var s := session.value;
      var save := ShouldSaveSession(s, req, o.cookie.value, o.saveUninitialized);
      if s.sessionId == "" || !save then NoWrite
      else
        match storeSet(s.sessionId, s)
        case Some(e) => WriteFailed(e)
        case None => Written(SetCookie(o.cookieName.value, s.encryptedSessionId, s.cookie))
  }

  /** A `secure` cookie over an unconfirmed transport is never saved, however
      much the handler changed the session. */
  lemma SecureGateBlocks(o: Options, req: Request, session: Option<Session>, storeSet: (string, Session) -> Option<StoreError>)
    requires Defaulted(o)
    requires o.cookie.value.secure == Bool(true)
    requires !req.encrypted && req.forwardedProto != Some("https")
    ensures SaveSession(o, req, session, storeSet) == NoWrite
  {
  }

  /** With `saveUninitialized` off, an untouched session is neither stored nor cookied. */
  lemma UntouchedNotSaved(o: Options, req: Request, s: Session, storeSet: (string, Session) -> Option<StoreError>)
    requires Defaulted(o)
    requires !Truthy(o.saveUninitialized) && s.ownKeys == ReservedKeys
    ensures SaveSession(o, req, Some(s), storeSet) == NoWrite
  {
  }

  /** Without `secure: true`, a session worth keeping is always handed to `set`. */
  lemma InsecureCookieAlwaysWritten(o: Options, req: Request, s: Session, storeSet: (string, Session) -> Option<StoreError>)
    requires Defaulted(o)
    requires o.cookie.value.secure != Bool(true)
    requires s.sessionId != ""
    requires Truthy(o.saveUninitialized) || IsSessionModified(s)
    ensures SaveSession(o, req, Some(s), storeSet) != NoWrite
  {
  }

  /** Under the defaults (`secure: true`, `saveUninitialized: true`) any session
      with an id is written exactly when the transport is confirmed secure. */
  lemma DefaultsSaveOverSecureTransport(o: Options, req: Request, s: Session, storeSet: (string, Session) -> Option<StoreError>)
    requires o.cookie.None? && o.saveUninitialized == Undefined
    requires s.sessionId != ""
    ensures SaveSession(EnsureDefaults(o), req, Some(s), storeSet) != NoWrite <==> SecureTransport(req)
  {
  }
}
