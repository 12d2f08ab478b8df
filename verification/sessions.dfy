/**
 The values the two request hooks look at: the cookie attribute object, the
 session object (whose class is not part of this model, so only the fields the
 hooks read appear) and the incoming request.
 */
module Sessions {
  import opened JsValues

  /** The cookie attribute object (`options.cookie`, `session.cookie`). The hooks
      read only `path` and `secure`; other attributes travel to `setCookie` unread. */
  datatype CookieOptions = CookieOptions(path: Option<string>, secure: JsValue)

  /** A session object as the hooks see it. `sessionId == ""` stands for any falsy
      id; `expires` is in epoch milliseconds, `None` when undefined or null;
      `ownKeys` is `Object.keys(session).length`. A session record kept by a store
      is the same object, so the store holds values of this type too. */
  datatype Session = Session(
    sessionId: string,
    encryptedSessionId: string,
    expires: Option<int>,
    cookie: CookieOptions,
    ownKeys: nat)

  /** Own keys of a freshly built, untouched session object. */
  const ReservedKeys: nat := 4

  /** The mutation heuristic: any own-key count other than four means "modified". */
  predicate IsSessionModified(s: Session) {
    s.ownKeys != ReservedKeys
  }

  /** `session.expires && session.expires <= now`: a missing or zero expiry never expires. */
  predicate IsExpired(expires: Option<int>, now: int) {
    expires.Some? && expires.value != 0 && expires.value <= now
  }

  /** Only the own-key count decides: exactly four keys reads as untouched, so
      adding a field to an untouched session marks it modified, and so does
      deleting one of the four. */
  lemma ModificationRule(s: Session)
    ensures !IsSessionModified(s) <==> s.ownKeys == ReservedKeys
    ensures !IsSessionModified(s) ==> IsSessionModified(s.(ownKeys := s.ownKeys + 1))
    ensures !IsSessionModified(s) ==> IsSessionModified(s.(ownKeys := s.ownKeys - 1))
    ensures forall t: Session :: t.ownKeys == s.ownKeys ==> IsSessionModified(t) == IsSessionModified(s)
  {
  }

  /** Expiry needs a non-zero expiry time; the boundary `expires == now` is
      expired, and once expired a record stays expired as time goes on. */
  lemma ExpiryRule(expires: Option<int>, now: int, later: int)
    requires now <= later
    ensures IsExpired(expires, now) ==> expires.Some? && expires.value <= now
    ensures expires.None? || expires == Some(0) ==> !IsExpired(expires, now)
    ensures now != 0 ==> IsExpired(Some(now), now)
    ensures IsExpired(expires, now) ==> IsExpired(expires, later)
    ensures expires.Some? && expires.value != 0 && now < expires.value ==> !IsExpired(expires, now)
  {
  }

  /** The request as the hooks see it: `req.url`, the parsed cookies, whether
      `req.connection` exists with `encrypted === true`, and the
      `x-forwarded-proto` header. */
  datatype Request = Request(
    url: string,
    cookies: map<string, string>,
    encrypted: bool,
    forwardedProto: Option<string>)

  /** `request.cookies[name]`. */
  function CookieValue(req: Request, name: string): Option<string> {
    if name in req.cookies then Some(req.cookies[name]) else None
  }
}
