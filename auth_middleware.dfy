/**
 * The rest_api authentication middleware: the checks it makes on a request
 * before handing it to the protected service. Decoding the JWT (signature
 * and expiry, with the server's secret) is a parameter.
 */
module AuthMiddleware {
  import opened Wrappers
  import opened ApiErrors
  import J = Jwt

  /** One byte of an HTTP header value. */
  newtype HeaderByte = x: int | 0 <= x < 256

  /**
   * The request as the middleware sees it: the method token, the cookies
   * by name, and header values by their (lower-case) name.
   */
  datatype Request = Request(
    verb: string,
    cookies: map<string, string>,
    headers: map<string, seq<HeaderByte>>)

  const CsrfHeaderName := "x-csrf-token"

  /** What `HeaderValue::to_str` accepts: tab and visible ASCII. */
  predicate IsVisibleAscii(b: HeaderByte) {
    b == 9 || 32 <= b < 127
  }

  /** `HeaderValue::to_str`: the value as text, or None when a byte is not visible ASCII. */
  function HeaderToStr(v: seq<HeaderByte>): (r: Option<string>)
    ensures r.Some? <==> forall i :: 0 <= i < |v| ==> IsVisibleAscii(v[i])
    ensures r.Some? ==> |r.value| == |v| && forall i :: 0 <= i < |v| ==> r.value[i] as int == v[i] as int
  {
    if v == [] then Some("")
    else if !IsVisibleAscii(v[0]) then None
    else match HeaderToStr(v[1..])
      case None => None
      case Some(rest) => Some([v[0] as int as char] + rest)
  }

  predicate IsAsciiText(s: string) {
    forall i :: 0 <= i < |s| ==> s[i] as int < 128
  }

  /** The bytes a client sends for an ASCII text. */
  function AsciiBytes(s: string): (v: seq<HeaderByte>)
    requires IsAsciiText(s)
    ensures |v| == |s| && forall i :: 0 <= i < |s| ==> v[i] as int == s[i] as int
  {
    if s == [] then [] else [s[0] as int as HeaderByte] + AsciiBytes(s[1..])
  }

  /** The `x-csrf-token` header as text; None when absent or unreadable. */
  function CsrfHeader(req: Request): Option<string> {
    if CsrfHeaderName in req.headers then HeaderToStr(req.headers[CsrfHeaderName]) else None
  }

  /** The `csrf_token` cookie's value, if any. */
  function CsrfCookie(req: Request): Option<string> {
    if J.CsrfCookieName in req.cookies then Some(req.cookies[J.CsrfCookieName]) else None
  }

  /** The double-submit rule: the cookie is present and the header repeats it. */
  predicate CsrfMatches(req: Request) {
    CsrfCookie(req).Some? && CsrfHeader(req) == CsrfCookie(req)
  }

  /** Either the request goes on to the protected service, or it is answered with an error. */
  datatype Outcome = Forward(request: Request) | Reject(error: ApiError)

  const MissingTokenMessage := "Token tidak ditemukan"
  const BadTokenMessage := "Token tidak valid atau expired"
  const CsrfMismatchMessage := "CSRF token tidak cocok"

  /**
   * `AuthMiddlewareImpl::call`: the token cookie must be present and decode;
   * on any method other than GET the CSRF cookie and header must also agree.
   * `decodes` says whether `decode_jwt` accepts a token.
   */
  function Check(req: Request, decodes: string -> bool): (o: Outcome)
    ensures o.Forward? ==> o.request == req
    ensures o.Forward? <==>
      J.AuthCookieName in req.cookies && decodes(req.cookies[J.AuthCookieName]) &&
      (req.verb == "GET" || CsrfMatches(req))
    ensures J.AuthCookieName !in req.cookies ==> o == Reject(Unauthorized(MissingTokenMessage))
    ensures J.AuthCookieName in req.cookies && !decodes(req.cookies[J.AuthCookieName]) ==>
      o == Reject(Unauthorized(BadTokenMessage))
    ensures o.Reject? && o.error.Forbidden? ==> o.error.msg == CsrfMismatchMessage && req.verb != "GET"
  {
    if J.AuthCookieName !in req.cookies then Reject(Unauthorized(MissingTokenMessage))
    else if !decodes(req.cookies[J.AuthCookieName]) then Reject(Unauthorized(BadTokenMessage))
    else if req.verb != "GET" && !CsrfMatches(req) then Reject(Forbidden(CsrfMismatchMessage))
    else Forward(req)
  }

  /** A rejection is answered 401 when the token is the problem and 403 when the CSRF check is. */
  lemma RejectionStatus(req: Request, decodes: string -> bool)
    requires Check(req, decodes).Reject?
    ensures var status := ErrorResponse(Check(req, decodes).error).status;
      status == 401 || status == 403
    ensures ErrorResponse(Check(req, decodes).error).status == 403 <==>
      J.AuthCookieName in req.cookies && decodes(req.cookies[J.AuthCookieName])
  {
  }

  /** A GET with a token cookie passes exactly when the token decodes, whatever its CSRF cookie and header. */
  lemma GetIgnoresCsrf(req: Request, decodes: string -> bool)
    requires req.verb == "GET"
    requires J.AuthCookieName in req.cookies
    ensures Check(req, decodes).Forward? <==> decodes(req.cookies[J.AuthCookieName])
  {
  }

  /** A header that is not visible ASCII fails the CSRF check on a write request, whatever the cookie. */
  lemma UnreadableHeaderForbidden(req: Request, decodes: string -> bool)
    requires req.verb != "GET"
    requires J.AuthCookieName in req.cookies && decodes(req.cookies[J.AuthCookieName])
    requires CsrfHeaderName in req.headers
    requires exists i :: 0 <= i < |req.headers[CsrfHeaderName]| && !IsVisibleAscii(req.headers[CsrfHeaderName][i])
    ensures Check(req, decodes) == Reject(Forbidden(CsrfMismatchMessage))
  {
  }

  /** `AsciiBytes` is read back unchanged by `HeaderToStr` when the text is letters and digits. */
  lemma {:induction false} AlphanumericHeaderReadsBack(s: string)
    requires forall i :: 0 <= i < |s| ==> J.IsAsciiAlphanumeric(s[i])
    ensures IsAsciiText(s) && HeaderToStr(AsciiBytes(s)) == Some(s)
  {
    if s != [] {
      AlphanumericHeaderReadsBack(s[1..]);
      assert AsciiBytes(s)[1..] == AsciiBytes(s[1..]);
      assert [s[0]] + s[1..] == s;
    }
  }

  /**
   * A client holding the two cookies the login handler sets (a token the
   * server accepts and a generated CSRF token) and echoing the CSRF token
   * in `x-csrf-token` passes the check on every method.
   */
  lemma LoginCookiesPass(verb: string, authToken: string, words: seq<J.Word>, decodes: string -> bool)
    requires decodes(authToken)
    requires J.GenerateCsrfToken(words).Some?
    ensures var csrf := J.GenerateCsrfToken(words).value;
      IsAsciiText(csrf) &&
      var auth := J.CreateAuthCookie(authToken);
      var csrfCookie := J.CreateCsrfCookie(csrf);
      Check(Request(verb, map[auth.name := auth.value, csrfCookie.name := csrfCookie.value],
                    map[CsrfHeaderName := AsciiBytes(csrf)]), decodes).Forward?
  {
    var csrf := J.GenerateCsrfToken(words).value;
    AlphanumericHeaderReadsBack(csrf);
  }
}
