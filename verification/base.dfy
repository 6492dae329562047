/** Values shared by the OAuth2 token engine and the social-login strategy:
    Java's nullable references, exceptions thrown by helpers, and the
    parameter map of an inbound servlet request. */
module Base {

  /** A Java reference that may be null. */
  datatype Option<+T> = None | Some(value: T)

  /** A computation that either returns a value or throws an error. */
  datatype Result<+T, +E> = Ok(value: T) | Err(error: E)

  /** A validation helper that either returns normally or throws with a message. */
  datatype Check = Pass | Fail(message: string)

  /** `StrUtil.isEmpty`: null or the empty string. */
  predicate IsEmpty(s: Option<string>) {
    s.None? || s.value == ""
  }

  /** The text Java's string concatenation produces for a possibly-null string. */
  function JavaText(s: Option<string>): string {
    match s
    case None => "null"
    case Some(t) => t
  }

  /** The value array of one request parameter. The servlet API never hands
      out an empty array, so the first element always exists. */
  type ParamValues = s: seq<string> | |s| > 0 witness [""]

  /** `HttpServletRequest.getParameterMap()`: a name bound to a null array is
      represented by `None`. */
  type ParameterMap = map<string, Option<ParamValues>>

  /** `HttpServletRequest.getParameter(name)`: the first value, or null. */
  function GetParameter(params: ParameterMap, name: string): Option<string> {
    if name in params && params[name].Some? then Some(params[name].value[0]) else None
  }
}
