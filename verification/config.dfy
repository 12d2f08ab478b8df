/**
 Plugin options: the secret check done at registration and the defaults filled
 in before the hooks are built.
 */
module Config {
  import opened JsValues
  import opened Sessions

  /** The store option: the default in-memory store (`new Store()`, starting empty; its
      contents travel beside the options, see `Lifecycle`), or any other backend. */
  datatype StoreRef = InMemory | Backend(name: string)

  /** The options object. `None` stands for any falsy value of an object-valued
      or string-valued option; `secret`, `secure` and `saveUninitialized` keep
      their full JavaScript value because the code tests them differently. */
  datatype Options = Options(
    secret: JsValue,
    store: Option<StoreRef>,
    cookieName: Option<string>,
    cookie: Option<CookieOptions>,
    saveUninitialized: JsValue)

  datatype ConfigError = SecretRequired | SecretTooShort

  const MinSecretLength: nat := 32
  const DefaultCookieName := "sessionId"

  /** `checkOptions`: an error exactly when the secret is falsy or has a length
      below 32, counted in UTF-16 code units; a truthy value without a `length`
      passes. */
  function CheckOptions(o: Options): (r: Option<ConfigError>)
    ensures r == Some(SecretRequired) <==> !Truthy(o.secret)
    ensures r == Some(SecretTooShort) <==> o.secret.Str? && o.secret.s != "" && Utf16Length(o.secret.s) < MinSecretLength
    ensures r.None? <==> Truthy(o.secret) && !(o.secret.Str? && Utf16Length(o.secret.s) < MinSecretLength)
  {
    if !Truthy(o.secret) then Some(SecretRequired)
    else if Length(o.secret).Some? && Length(o.secret).value < MinSecretLength then Some(SecretTooShort)
    else None
  }

  /** A string secret is accepted exactly when it has at least 32 UTF-16 code
      units; 32 characters always suffice, 15 never do. */
  lemma StringSecretRule(o: Options, s: string)
    requires o.secret == Str(s)
    ensures CheckOptions(o).None? <==> Utf16Length(s) >= MinSecretLength
    ensures |s| >= MinSecretLength ==> CheckOptions(o).None?
    ensures |s| < MinSecretLength / 2 ==> CheckOptions(o).Some?
    ensures s == "" ==> CheckOptions(o) == Some(SecretRequired)
  {
  }

  /** A secret made only of characters outside the Basic Multilingual Plane
      counts two units per character, so sixteen of them already reach 32 and
      are accepted. */
  lemma AstralSecretAccepted(o: Options, s: string)
    requires o.secret == Str(s)
    requires |s| >= MinSecretLength / 2
    requires forall j :: 0 <= j < |s| ==> (s[j] as int) >= 0x1_0000
    ensures Utf16Length(s) == 2 * |s|
    ensures CheckOptions(o).None?
  {
    AstralLength(s, 0);
    assert s[0..] == s;
  }

  /** Every suffix of a string made only of astral characters has twice as
      many UTF-16 code units as characters. */
  lemma {:induction false} AstralLength(s: string, i: nat)
    requires i <= |s|
    requires forall j :: 0 <= j < |s| ==> (s[j] as int) >= 0x1_0000
    ensures Utf16Length(s[i..]) == 2 * (|s| - i)
    decreases |s| - i
  {
    if i < |s| {
      AstralLength(s, i + 1);
      assert s[i..][1..] == s[i + 1..];
    }
  }

  /** `option(obj, key, def)`: the default replaces `undefined` and nothing else. */
  function OptionOr(v: JsValue, def: JsValue): (r: JsValue)
    ensures v != Undefined ==> r == v
    ensures v == Undefined ==> r == def
    ensures def != Undefined ==> r != Undefined
  {
    if v == Undefined then def else v
  }

  /** The shape `ensureDefaults` leaves behind. */
  predicate Defaulted(o: Options) {
    && o.store.Some?
    && Present(o.cookieName)
    && o.cookie.Some?
    && o.cookie.value.secure != Undefined
    && o.saveUninitialized != Undefined
  }

  /** `ensureDefaults`: falsy store, cookie name and cookie object are replaced;
      `secure` and `saveUninitialized` default to `true` only when `undefined`. */
  function EnsureDefaults(o: Options): (r: Options)
    ensures Defaulted(r)
    ensures r.secret == o.secret
    ensures o.store.Some? ==> r.store == o.store
    ensures o.store.None? ==> r.store == Some(InMemory)
    ensures Present(o.cookieName) ==> r.cookieName == o.cookieName
    ensures !Present(o.cookieName) ==> r.cookieName == Some(DefaultCookieName)
    ensures o.cookie.Some? ==> r.cookie.value.path == o.cookie.value.path
    ensures o.cookie.None? ==> r.cookie.value.path == None
    ensures o.cookie.Some? && o.cookie.value.secure != Undefined ==> r.cookie.value.secure == o.cookie.value.secure
    ensures (o.cookie.None? || o.cookie.value.secure == Undefined) ==> r.cookie.value.secure == Bool(true)
    ensures o.saveUninitialized != Undefined ==> r.saveUninitialized == o.saveUninitialized
    ensures o.saveUninitialized == Undefined ==> r.saveUninitialized == Bool(true)
  {
    var store := if o.store.Some? then o.store else Some(InMemory);
    var cookieName := if Present(o.cookieName) then o.cookieName else Some(DefaultCookieName);
    var cookie := if o.cookie.Some? then o.cookie.value else CookieOptions(None, Undefined);
    var cookie' := cookie.(secure := OptionOr(cookie.secure, Bool(true)));
    Options(o.secret, store, cookieName, Some(cookie'), OptionOr(o.saveUninitialized, Bool(true)))
  }

  /** Defaults are applied once: a second pass changes nothing. */
  lemma EnsureDefaultsIdempotent(o: Options)
    ensures EnsureDefaults(EnsureDefaults(o)) == EnsureDefaults(o)
  {
  }

  /** An explicit `false` for `secure` or `saveUninitialized` survives defaulting. */
  lemma ExplicitFalseKept(o: Options)
    requires o.cookie.Some? && o.cookie.value.secure == Bool(false)
    requires o.saveUninitialized == Bool(false)
    ensures EnsureDefaults(o).cookie.value.secure == Bool(false)
    ensures EnsureDefaults(o).saveUninitialized == Bool(false)
  {
  }

  /** Registration: a rejected secret stops the plugin with the error, otherwise
      the hooks are built from the defaulted options. */
  function Setup(o: Options): (r: Registration)
    ensures r.Rejected? <==> CheckOptions(o).Some?
    ensures r.Rejected? ==> r.error == CheckOptions(o).value
    ensures r.Ready? ==> r.options == EnsureDefaults(o) && Defaulted(r.options) && Truthy(r.options.secret)
  {
    match CheckOptions(o)
    case Some(e) => Rejected(e)
    case None => Ready(EnsureDefaults(o))
  }

  datatype Registration = Ready(options: Options) | Rejected(error: ConfigError)
}
