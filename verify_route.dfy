/** The token-check route: reads the bearer token from the `authorization`
    header and answers with the token's claims, or 401. Verifying the token
    is a library call, passed in as `verify`; `None` from it stands for the
    verifier throwing, which `verifyToken` turns into `null`. */
module VerifyRoute {

  import opened Options

  /** The length of `"Bearer"`, the number of characters dropped from the header. */
  const SchemeLength: nat := 6
  const Unauthorized: string := "Unauthorized"

  /** The characters `String.prototype.trimStart` removes: JavaScript's
      WhiteSpace and LineTerminator code points. */
  predicate IsWhitespace(c: char)
  {
    || c == '\t' || c == '\n' || c == '\U{000B}' || c == '\U{000C}' || c == '\r'
    || c == ' ' || c == '\U{00A0}' || c == '\U{1680}'
    || ('\U{2000}' <= c <= '\U{200A}')
    || c == '\U{2028}' || c == '\U{2029}' || c == '\U{202F}' || c == '\U{205F}'
    || c == '\U{3000}' || c == '\U{FEFF}'
  }

  /** `s.trimStart()`: the suffix of `s` left after its leading whitespace. */
  function TrimStart(s: string): (r: string)
    ensures |r| <= |s| && r == s[|s| - |r|..]
    ensures forall i :: 0 <= i < |s| - |r| ==> IsWhitespace(s[i])
    ensures r == [] || !IsWhitespace(r[0])
  {
    if s != [] && IsWhitespace(s[0]) then TrimStart(s[1..]) else s
  }

  /** Leading whitespace in front of a token that does not start with
      whitespace is exactly what TrimStart removes. */
  lemma {:induction false} TrimStartPadded(pad: string, token: string)
    requires forall i :: 0 <= i < |pad| ==> IsWhitespace(pad[i])
    requires token == [] || !IsWhitespace(token[0])
    ensures TrimStart(pad + token) == token
  {
    if pad != [] {
      assert (pad + token)[1..] == pad[1..] + token;
      TrimStartPadded(pad[1..], token);
    } else {
      assert pad + token == token;
    }
  }

  /** `substring("Bearer".length)`: the header without its first six
      characters, or empty when it is shorter. */
  function DropScheme(header: string): (r: string)
    ensures |header| <= SchemeLength ==> r == []
    ensures |header| > SchemeLength ==> r == header[SchemeLength..]
  {
    if |header| <= SchemeLength then [] else header[SchemeLength..]
  }

  /** The token read from an `authorization` header. */
  function ExtractToken(header: string): (t: string)
    ensures var rest := DropScheme(header);
            && |t| <= |rest| && t == rest[|rest| - |t|..]
            && (forall i :: 0 <= i < |rest| - |t| ==> IsWhitespace(rest[i]))
            && (t == [] || !IsWhitespace(t[0]))
  {
    TrimStart(DropScheme(header))
  }

  /** The usual `Bearer <token>` header yields the token. */
  lemma BearerToken(token: string)
    requires token == [] || !IsWhitespace(token[0])
    ensures ExtractToken("Bearer " + token) == token
  {
    assert DropScheme("Bearer " + token) == " " + token;
    TrimStartPadded(" ", token);
  }

  /** The first six characters are dropped whatever they are: the scheme is
      never checked to be `Bearer`. */
  lemma SchemeIgnored(scheme: string, rest: string)
    requires |scheme| == SchemeLength
    ensures ExtractToken(scheme + rest) == ExtractToken("Bearer" + rest)
  {
  }

  datatype Body<C> = ErrorBody(error: string) | ClaimsBody(claims: C)

  datatype Response<C> = Response(status: nat, body: Body<C>)

  /** A response together with the token passed to the verifier, if any. */
  datatype Handled<C> = Handled(response: Response<C>, verified: Option<string>)

  /** `GET /api/verify`: a missing or empty header is refused before any
      verification; otherwise the extracted token is verified and its claims
      returned, or 401 when verification fails. */
  function Get<C>(authorization: Option<string>, verify: string -> Option<C>): (h: Handled<C>)
    ensures (authorization.None? || authorization == Some("")) <==> h.verified.None?
    ensures h.verified.None? ==> h.response == Response(401, ErrorBody(Unauthorized))
    ensures h.verified.Some? ==>
              && h.verified.value == ExtractToken(authorization.value)
              && h.response == match verify(h.verified.value)
                               case None => Response(401, ErrorBody(Unauthorized))
                               case Some(claims) => Response(200, ClaimsBody(claims))
  {
    if authorization.None? || authorization.value == "" then
      Handled(Response(401, ErrorBody(Unauthorized)), None)
    else
      var token := ExtractToken(authorization.value);
      match verify(token)
      case None => Handled(Response(401, ErrorBody(Unauthorized)), Some(token))
      case Some(claims) => Handled(Response(200, ClaimsBody(claims)), Some(token))
  }
}
