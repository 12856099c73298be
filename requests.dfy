/** The inputs of one content-generation request, as the controller reads them
    from the HTTP request. */
module Requests {

  /** A value that may be absent, such as a request field that was not sent. */
  datatype Option<+T> = None | Some(value: T) {

    /** The value if present, otherwise `default` (PHP's `??`). */
    function GetOr(default: T): T
    {
      match this
      case Some(v) => v
      case None => default
    }
  }

  /** The request fields the controller uses. `keywords` is the only one it
      treats as optional; `variants` is the integer `(int) $request->variants`
      yields. */
  datatype Request = Request(
    objective: string,
    tone: string,
    language: string,
    keywords: Option<string>,
    creativity: string,
    variants: int)
}
