/**
 * The parts of an inbound request the core reads, and the standard response envelope
 * `{ success, data?, error?: { code, message, details? } }` with its HTTP status.
 */
module Http {

  import opened Wrappers

  /**
   * Header names are stored lower-case, as `Headers.get` looks them up case-insensitively.
   * `path` is the URL's pathname.
   */
  datatype Request = Request(headers: map<string, string>, cookies: map<string, string>, path: string)

  /** `headers.get(name)`: null when the header is absent. */
  function Header(req: Request, name: string): Option<string> {
    if name in req.headers then Some(req.headers[name]) else None
  }

  /** `cookies.get(name)?.value`. */
  function Cookie(req: Request, name: string): Option<string> {
    if name in req.cookies then Some(req.cookies[name]) else None
  }

  /** A string that is present and non-empty, i.e. truthy in JavaScript. */
  predicate Present(o: Option<string>) {
    o.Some? && o.value != ""
  }

  /** The `details` of an error envelope; zod's issue lists are not modelled. */
  datatype Details = NoDetails | Usage(current: int, limit: int)

  datatype ApiError = ApiError(code: string, message: string, details: Details)

  /** A JSON response: `success: true` with data, or an error envelope with its status. */
  datatype Response<+T> = Ok(data: T) | Err(status: int, error: ApiError)

  /** What a route handler does: return a response, or throw. */
  datatype Outcome<+T> = Returned(response: Response<T>) | Threw

  function Fail<T>(status: int, code: string, message: string): Response<T> {
    Err(status, ApiError(code, message, NoDetails))
  }

  /** The catch-all every handler wrapper uses for an exception: 500 `INTERNAL_ERROR`. */
  function InternalError<T>(): Response<T> {
    Fail(500, "INTERNAL_ERROR", "服务器内部错误")
  }

  /** Status and code of a response, for stating contracts. */
  predicate IsErr<T>(r: Response<T>, status: int, code: string) {
    r.Err? && r.status == status && r.error.code == code
  }

  /**
   * What a middleware decides before calling the wrapped handler: deny with an
   * error response, or admit with the context the handler receives.
   */
  datatype Gate<+C> = Deny(status: int, error: ApiError) | Admit(context: C)

  /** The error response a denying gate returns. */
  function Denial<C, T>(g: Gate<C>): Response<T>
    requires g.Deny?
  {
    Err(g.status, g.error)
  }

  /** A wrapper's `try { return await handler(...) } catch { return 500 }`. */
  function Guarded<T>(o: Outcome<T>): (r: Outcome<T>)
    ensures r.Returned?
    ensures o.Returned? ==> r == o
    ensures o.Threw? ==> r.response == InternalError()
  {
    match o
    case Returned(_) => o
    case Threw => Returned(InternalError())
  }
}
