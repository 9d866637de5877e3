/** The part of an Express response the core writes in place: its
    `Set-Cookie` directives, and what a browser's cookie jar becomes when it
    receives them. */
module Http {

  datatype CookieOptions = CookieOptions(httpOnly: bool, secure: bool, sameSite: string, maxAge: int)

  /** `res.cookie(name, value, options)` or `res.clearCookie(name)`. */
  datatype CookieOp = SetCookie(value: string, options: CookieOptions) | ClearCookie

  /** The response object; a later directive for a cookie name replaces an
      earlier one, as a browser applies the last `Set-Cookie` it reads. */
  class Response {
    var cookies: map<string, CookieOp>

    constructor ()
      ensures cookies == map[]
    {
      cookies := map[];
    }
  }

  /** The browser's cookies (name to value) after it applies `ops`. */
  function ApplyToJar(jar: map<string, string>, ops: map<string, CookieOp>): (r: map<string, string>)
    ensures forall k :: k in ops && ops[k].SetCookie? ==> k in r && r[k] == ops[k].value
    ensures forall k :: k in ops && ops[k].ClearCookie? ==> k !in r
    ensures forall k :: k !in ops ==> (k in r <==> k in jar) && (k in jar ==> r[k] == jar[k])
  {
    map k | k in jar.Keys + ops.Keys && !(k in ops && ops[k].ClearCookie?) ::
      if k in ops then ops[k].value else jar[k]
  }
}
