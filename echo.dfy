/**
 * The part of the Echo web framework that the middleware touches, reduced to
 * values: a request is what can be read from its headers and its query
 * string, and a request's fate at the middleware is one of three outcomes.
 */
module Echo {

  /** `echo.HeaderAuthorization`. */
  const HeaderAuthorization: string := "Authorization"

  /**
   * An inbound request, as the middleware sees it: header values and query
   * parameters by name. A name with no entry reads as the empty string, as
   * `Header.Get` and `QueryParam` do in Go.
   */
  datatype Request = Request(headers: map<string, string>, query: map<string, string>)

  /** `c.Request().Header.Get(name)`. */
  function HeaderValue(req: Request, name: string): string
  {
    if name in req.headers then req.headers[name] else ""
  }

  /** `c.QueryParam(name)`. */
  function QueryValue(req: Request, name: string): string
  {
    if name in req.query then req.query[name] else ""
  }

  /**
   * What the middleware does with one request: hand it on to the next
   * handler (whose own response then stands), answer 400 Bad Request with a
   * reason, or answer 401 Unauthorized (`echo.ErrUnauthorized`).
   */
  datatype Outcome = Next | BadRequest(msg: string) | Unauthorized
}
