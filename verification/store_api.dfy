/**
 What the hooks consume from a session store: errors carrying a code, the
 `(err, record)` pair a `get` reports, and the calls the load phase issues.
 */
module StoreApi {
  import opened JsValues

  /** A store error; only its `code` is inspected. An error without a code is
      any code other than `NotFoundCode`. */
  datatype StoreError = StoreError(code: string)

  /** The one error code the load phase treats as "no session". */
  const NotFoundCode := "ENOENT"

  /** The arguments a store passes to the `get` callback: `(err, session)`. */
  datatype GetReply<R> = GetReply(err: Option<StoreError>, record: Option<R>)

  /** A store call made by the load phase, with the id it was made with. */
  datatype StoreCall = GetCall(id: string) | DestroyCall(id: string)
}
