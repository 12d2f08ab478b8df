# fastify-session: session lifecycle model

A Dafny model of the session plugin for Fastify. The plugin signs a session id into a cookie. It loads the matching record from a session store before the route handler runs (the `preHandler` hook). It writes the session back and re-issues the cookie before the response is sent (the `onSend` hook). The default session store is an in-memory map.

The model has no framework callbacks. Each hook is a pure function. The hook's collaborators are parameters:

- the cookie signer's `unsign`, already bound to the secret;
- the store's `get`, `destroy` and `set` replies;
- the current time.

The load phase returns an outcome plus the list of store calls it made. The save phase returns an outcome that says whether the store was written and which cookie was set.

Modules:

- `JsValues`: the JavaScript semantics the code relies on. This covers truthiness, `length` in UTF-16 code units, the prefix test behind `indexOf(...) !== 0` and an `Option` type that stands for `undefined`.
- `Sessions`: cookie attributes, the session object as the hooks see it, the request, `isSessionModified` and the expiry test.
- `StoreApi`: store errors, the `(err, record)` reply of `get`, and the store calls.
- `MemoryStore`: the default store, `lib/store.js`.
- `Config`: `checkOptions`, `option`, `ensureDefaults` and the registration sequence.
- `LoadPhase`: `handleSession`, including `getDestroyCallback` and `newSession`.
- `SavePhase`: `shouldSaveSession` and `saveSession`.
- `Lifecycle`: both hooks run against the in-memory store. This gives the round trip from save to load and shows what the expired branch does to the store.

In three places the code does something a reader of the plugin's documentation might not expect. The model follows the code:

- **Non-string secrets.** A truthy secret that is not a string passes `checkOptions`, for example `true` or a number. Its `length` is `undefined`, and `undefined < 32` is false. The documented rule mentions only the minimum length of 32.
- **Expired records.** The expired branch calls `destroy` with the raw, signed cookie value (lib/fastifySession.js:64). The record was read under the verified id (lib/fastifySession.js:47). With the in-memory store, the stale record therefore stays where it is. The evident intent is to remove the stale record. `Lifecycle.ExpiredRecordSurvives` states what the code does.
- **Modified sessions.** "Modified" means the session has a number of own keys other than four. A session with fewer keys counts as modified too.

## Model

| member | source | states |
|---|---|---|
| JsValues.IndexOfFrom | lib/fastifySession.js:29 | the search from a position gives the first occurrence, in characters, at or after it, or -1 exactly when there is none |
| JsValues.IndexOf | lib/fastifySession.js:29 | `url.indexOf(path)`, counted in characters, gives the first occurrence, with no earlier one, or -1 when the path never occurs |
| JsValues.Utf16Length | lib/fastifySession.js:122 | a string's `length` counts UTF-16 code units: between its number of characters and twice that, and equal to it exactly when no character lies outside the Basic Multilingual Plane |
| JsValues.IndexOfZeroIffPrefix | lib/fastifySession.js:29 | the scope test `indexOf(path) !== 0` fails exactly when the path is a prefix of the URL |
| MemoryStore.Empty | lib/store.js:6-9 | a new store answers every `get` with no record |
| MemoryStore.Get | lib/store.js:19-23 | `get` never reports an error; it gives the slot's record, or nothing for an unknown id |
| MemoryStore.Set | lib/store.js:13-17 | after `set(id, s)`, `get(id)` gives `s`; every other id reads as before; the id gets a slot |
| MemoryStore.Destroy | lib/store.js:25-29 | after `destroy(id)`, `get(id)` gives nothing; every other id reads as before; the slot key stays |
| MemoryStore.SetOverwrites | lib/store.js:13-17 | a second `set` of the same id fully replaces the first |
| MemoryStore.DestroyIdempotent | lib/store.js:25-29 | destroying twice leaves the same store as destroying once |
| MemoryStore.DestroyAbsentIsNoOp | lib/store.js:25-29 | destroying an id that holds nothing changes no answer of `get` |
| Config.CheckOptions | lib/fastifySession.js:118-125 | "secret required" exactly when the secret is falsy; "too short" exactly when it is a non-empty string of UTF-16 length below 32; otherwise no error |
| Config.StringSecretRule | lib/fastifySession.js:118-125 | a string secret is accepted exactly when its UTF-16 length is at least 32; 32 characters always suffice, fewer than 16 never do; the empty string counts as missing |
| Config.AstralSecretAccepted | lib/fastifySession.js:122 | a secret made only of characters outside the Basic Multilingual Plane has twice as many UTF-16 units as characters, so any such secret of at least sixteen characters is accepted |
| Config.OptionOr | lib/fastifySession.js:160-162 | `option` keeps every value except `undefined`, which becomes the default |
| Config.EnsureDefaults | lib/fastifySession.js:127-134 | the secret is kept; a falsy store, cookie name or cookie object is replaced by the in-memory store, `'sessionId'` or `{}`; `secure` and `saveUninitialized` become `true` only when `undefined`; given values are kept |
| Config.EnsureDefaultsIdempotent | lib/fastifySession.js:127-134 | applying the defaults a second time changes nothing |
| Config.ExplicitFalseKept | lib/fastifySession.js:131-132 | an explicit `secure: false` or `saveUninitialized: false` survives defaulting |
| Config.Setup | lib/fastifySession.js:9-13 | registration fails with the `checkOptions` error exactly when there is one; otherwise it proceeds with exactly `ensureDefaults(options)`, whose secret is truthy |
| LoadPhase.HandleSession | lib/fastifySession.js:26-77 | the outcome for each case: Skip exactly when out of scope; New when there is no cookie, a bad signature, an ENOENT error or no record; Failed on any other `get` error or a failed destroy, carrying that very error; DestroyedThenNew on an expired record; Resumed with the stored record otherwise. `get` is called once with the unsigned id and `destroy` only with the raw cookie value |
| LoadPhase.OutOfScopeSkips | lib/fastifySession.js:27-32 | outside the cookie path the hook continues without calling the signer or the store, whatever they would answer |
| LoadPhase.NoCookieStartsFresh | lib/fastifySession.js:33-37 | in scope with a missing or empty cookie, a fresh session is made and the store is never called |
| LoadPhase.BadSignatureLikeNoCookie | lib/fastifySession.js:40-44 | a cookie that fails verification gives the same result as sending no cookie, with no store call |
| LoadPhase.ExpiryBoundary | lib/fastifySession.js:62-65 | a record that expires exactly now is not resumed; `get` then `destroy` of the raw cookie value are issued |
| LoadPhase.MissingExpiryNeverExpires | lib/fastifySession.js:62-73 | a record with a missing or zero expiry is resumed, whatever the time |
| Sessions.ModificationRule | lib/fastifySession.js:156-158 | a session reads as untouched exactly when it has four own keys; adding a field or deleting one of the four both mark it modified; nothing but the key count matters |
| Sessions.ExpiryRule | lib/fastifySession.js:62 | a missing or zero `expires` never expires; `expires == now` is expired; an expiry in the future is not; once expired, a record stays expired as time advances |
| SavePhase.ShouldSaveSession | lib/fastifySession.js:136-158 | the ordered checks save exactly when the session is worth keeping (`saveUninitialized` or modified) and either `secure` is not strictly `true` or the transport is TLS or a forwarded `https` |
| SavePhase.SaveSession | lib/fastifySession.js:80-101 | no store write and no cookie exactly when the session or its id is missing or the policy says no; otherwise `set(id, session)` is called first; the cookie (name, signed id, the session's attributes) is set only when `set` succeeds; a `set` error is passed on |
| SavePhase.SecureGateBlocks | lib/fastifySession.js:143-153 | a `secure: true` cookie over a transport that is neither TLS nor forwarded `https` is never saved |
| SavePhase.UntouchedNotSaved | lib/fastifySession.js:139-141 | with `saveUninitialized` falsy, a session with exactly four own keys is not saved |
| SavePhase.InsecureCookieAlwaysWritten | lib/fastifySession.js:143-145 | without `secure: true`, a session with an id that is worth keeping is always handed to `set` |
| SavePhase.DefaultsSaveOverSecureTransport | lib/fastifySession.js:131-153 | under the default options, a session with an id is saved exactly when the transport is TLS or a forwarded `https` |
| Lifecycle.LoadFromMemory | lib/fastifySession.js:47-73 | against the in-memory store the load phase never fails; it changes the store only by blanking the raw-cookie slot on expiry; a resumed record is the one stored under the verified id |
| Lifecycle.SaveToMemory | lib/fastifySession.js:89-98 | against the in-memory store a save never fails; a written session is stored under its id and its signed id becomes the cookie value |
| Lifecycle.SaveThenLoadResumes | lib/fastifySession.js:89-96 | round trip: a session written to the in-memory store is resumed unchanged by a later in-scope request carrying its cookie, given that the signer recovers the id and the session has not expired |
| Lifecycle.ExpiredRecordSurvives | lib/fastifySession.js:62-65 | when the raw cookie value differs from the verified id, the expired record stays in the in-memory store, and the same request repeated destroys-then-replaces again |

## Left out

- Tracing with `console.log`. It has no effect on decisions, with these caveats. The tracing line at lib/fastifySession.js:147 reads `connection.encrypted` unconditionally, so it throws when the connection is missing. The same line also runs `JSON.stringify(connection)`, which throws a TypeError when the connection object refers back to itself. A Node socket probably does, through its HTTP message and parser. If so, the line throws whenever `secure === true` is reached, even over TLS. This depends on Node's socket objects, which are not part of this model. The model follows the decision at :148, which treats a missing connection as unencrypted.
- SavePhase.SaveSession: a null or undefined `request.session` is modelled as `NoWrite` (no store write, no cookie). In the code, `shouldSaveSession` runs at lib/fastifySession.js:83, before the guard at :85. The tracing line at :138 then always calls `Object.keys` on the missing session and throws. When `saveUninitialized` is falsy, the decision at :139 throws the same way. The model does not represent thrown exceptions, and this case is a simplification.
- MemoryStore: ids that name `Object.prototype` members are not modelled. The store is a plain object (lib/store.js:7), so `get('constructor')` yields a truthy function, and `set('__proto__', s)` replaces the prototype instead of adding a slot. The model treats the store as a map in which every id is an ordinary key. The plugin never uses such ids: stored ids are generated, and `destroy` receives a signed cookie value, which contains a '.'.
- JsValues.IndexOf: counts positions in characters, not UTF-16 code units, so its result matches JavaScript's `indexOf` only in whether it is 0. That is the only way the plugin uses it (lib/fastifySession.js:29). A character prefix and a UTF-16 prefix agree when there are no lone surrogates.
- Lone surrogates. A `string` here is a sequence of Unicode scalar values. A JavaScript string holding an unpaired surrogate has no counterpart.
- Plugin plumbing: `fastifyPlugin`, `decorateRequest` and `addHook`. They register hooks and add nothing to the decisions. `Config.Setup` covers the check-then-default sequence that registration runs.
- The cookie signer. `cookie-signature` is not part of this model. `unsign` is a parameter that returns the id or nothing. The round trip assumes, as a hypothesis, that it recovers the signed id. Nothing is proved about signing.
- The `Session` class. `lib/session.js` is not part of this model. A new session appears only as the outcome New or DestroyedThenNew. A resumed session appears as the record it is built from. Of a session, the model sees only its id, its signed id, `expires`, its cookie attributes and its own-key count.
- `Date.now()`: the current time is a parameter. `expires` is a number of milliseconds. A `Date` object for epoch 0, which is truthy, is not modelled.
- Asynchrony: each callback chain is a sequential function. Store replies are inputs, and concurrent requests are not modelled.
- The store's `EventEmitter` inheritance and the plugin's `metadata`. Neither takes part in a decision.
- Numbers that are not integers, such as NaN or fractions, for `secret`, `secure` or `saveUninitialized`. Objects that have a `length` property, such as an array secret, are not modelled either.
- Header values. A repeated `x-forwarded-proto` header, given as an array, is modelled as absent. An array is never `=== 'https'`, so the decision is the same.
