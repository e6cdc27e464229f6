/**
 * Token and cookie helpers of the rest_api crate: the expiry test, the two
 * cookie builders, and the CSRF token generator (its random source is a
 * parameter).
 */
module Jwt {
  import opened Wrappers

  /** Rust `usize` on a 64-bit target. */
  const UsizeModulus: int := 0x1_0000_0000_0000_0000

  /** `t as usize` for an `i64` timestamp: two's complement reinterpretation. */
  function AsUsize(t: int): (u: nat)
    requires -0x8000_0000_0000_0000 <= t < 0x8000_0000_0000_0000
    ensures u < UsizeModulus
    ensures t >= 0 ==> u == t
  {
    t % UsizeModulus
  }

  /**
   * `is_jwt_expired(exp)`, with `now` the value of `Utc::now().timestamp()`
   * (Unix seconds).
   */
  function IsJwtExpired(exp: nat, now: int): (expired: bool)
    requires exp < UsizeModulus
    requires -0x8000_0000_0000_0000 <= now < 0x8000_0000_0000_0000
    ensures now >= 0 ==> (expired <==> exp < now)
  {
    exp < AsUsize(now)
  }

  /** A token is still valid at the very second of its `exp`, and stays expired once expired. */
  lemma ExpiryBoundary(exp: nat, now: int, later: int)
    requires exp < UsizeModulus && 0 <= now <= later < 0x8000_0000_0000_0000
    ensures exp == now ==> !IsJwtExpired(exp, now)
    ensures IsJwtExpired(exp, now) ==> IsJwtExpired(exp, later)
  {
  }

  datatype SameSite = Strict | Lax | NoSameSite

  /** The attributes a cookie builder sets; None for the ones it leaves unset. */
  datatype Cookie = Cookie(
    name: string,
    value: string,
    httpOnly: Option<bool>,
    secure: Option<bool>,
    sameSite: Option<SameSite>,
    path: Option<string>)

  const AuthCookieName := "auth_token"
  const CsrfCookieName := "csrf_token"

  /** `create_auth_cookie`: hidden from scripts, same-site only, whole site, not marked secure. */
  function CreateAuthCookie(token: string): (c: Cookie)
    ensures c.name == AuthCookieName && c.value == token
    ensures c.httpOnly == Some(true) && c.sameSite == Some(Strict) && c.path == Some("/")
    ensures c.secure.None?
  {
    Cookie(AuthCookieName, token, Some(true), None, Some(Strict), Some("/"))
  }

  /** `create_csrf_cookie`: readable by scripts, so a client can echo it in a header. */
  function CreateCsrfCookie(token: string): (c: Cookie)
    ensures c.name == CsrfCookieName && c.value == token
    ensures c.httpOnly == Some(false) && c.sameSite == Some(Strict) && c.path == Some("/")
    ensures c.secure.None?
  {
    Cookie(CsrfCookieName, token, Some(false), None, Some(Strict), Some("/"))
  }

  /** The two cookies never share a name, and only the CSRF one is visible to scripts. */
  lemma CookiesDiffer(auth: string, csrf: string)
    ensures CreateAuthCookie(auth).name != CreateCsrfCookie(csrf).name
    ensures CreateAuthCookie(auth).httpOnly == Some(true) && CreateCsrfCookie(csrf).httpOnly == Some(false)
  {
  }

  predicate IsAsciiAlphanumeric(c: char) {
    ('A' <= c <= 'Z') || ('a' <= c <= 'z') || ('0' <= c <= '9')
  }

  const AlphabetSize := 62

  /**
   * The `k`-th of the 62 characters `rand::distr::Alphanumeric` draws from:
   * upper-case letters, then lower-case letters, then digits.
   */
  function AlphabetChar(k: nat): (c: char)
    requires k < AlphabetSize
    ensures IsAsciiAlphanumeric(c)
    ensures k < 26 <==> 'A' <= c <= 'Z'
    ensures 52 <= k <==> '0' <= c <= '9'
  {
    if k < 26 then ('A' as int + k) as char
    else if k < 52 then ('a' as int + (k - 26)) as char
    else ('0' as int + (k - 52)) as char
  }

  /** A 32-bit word of the random generator's output. */
  newtype Word = x: int | 0 <= x < 0x1_0000_0000

  /** The top six bits of a word: the index `Alphanumeric` tries. */
  function TopSix(w: Word): nat {
    w as nat / 0x400_0000
  }

  /** Whether `Alphanumeric` keeps the word (indexes 62 and 63 are redrawn). */
  predicate Accepted(w: Word) {
    TopSix(w) < AlphabetSize
  }

  /**
   * `n` samples of `Alphanumeric` taken from the generator's output `words`:
   * each word's top six bits index the alphabet, and a word whose index is
   * 62 or 63 is skipped. None when `words` runs out first (the generator's
   * real output never does).
   */
  function SampleAlphanumeric(words: seq<Word>, n: nat): (r: Option<string>)
    ensures r.Some? ==> |r.value| == n
    ensures r.Some? ==> forall i :: 0 <= i < |r.value| ==> IsAsciiAlphanumeric(r.value[i])
  {
    if n == 0 then Some("")
    else if words == [] then None
    else if !Accepted(words[0]) then SampleAlphanumeric(words[1..], n)
    else match SampleAlphanumeric(words[1..], n - 1)
      case None => None
      case Some(rest) => Some([AlphabetChar(TopSix(words[0]))] + rest)
  }

  /** How many of `words` `Alphanumeric` keeps. */
  function AcceptedCount(words: seq<Word>): nat {
    if words == [] then 0 else (if Accepted(words[0]) then 1 else 0) + AcceptedCount(words[1..])
  }

  /** Sampling succeeds exactly when the words hold at least `n` accepted ones. */
  lemma {:induction false} SampleSucceedsIff(words: seq<Word>, n: nat)
    ensures SampleAlphanumeric(words, n).Some? <==> AcceptedCount(words) >= n
  {
    if n > 0 && words != [] {
      if Accepted(words[0]) {
        SampleSucceedsIff(words[1..], n - 1);
      } else {
        SampleSucceedsIff(words[1..], n);
      }
    }
  }

  const CsrfTokenLength := 32

  /** `generate_csrf_token`: 32 ASCII letters and digits. */
  function GenerateCsrfToken(words: seq<Word>): (token: Option<string>)
    ensures token.Some? <==> AcceptedCount(words) >= CsrfTokenLength
    ensures token.Some? ==> |token.value| == CsrfTokenLength
    ensures token.Some? ==> forall i :: 0 <= i < |token.value| ==> IsAsciiAlphanumeric(token.value[i])
  {
    SampleSucceedsIff(words, CsrfTokenLength);
    SampleAlphanumeric(words, CsrfTokenLength)
  }
}
