/**
 * The HTTP authentication guard: a request passes when its `Authorization` header
 * starts with `Bearer ` (case-sensitive, the Bearer scheme of RFC 6750 section 2.1)
 * and the token after it verifies; the token is the second space-separated piece of
 * the header. Token verification is an oracle.
 */
module AuthMiddleware {
  import opened Common

  /** The claims a verified token carries; they become `req.user`. */
  datatype Claims = Claims(userId: string, email: string)

  datatype AuthResult =
    | Unauthorized(status: int, message: string)   // the response is sent, `next` is not called
    | Authorized(user: Claims)                      // `req.user` is set and `next` is called once

  const BearerPrefix := "Bearer "
  const NoTokenMessage := "Authentication required: No token provided."
  const InvalidTokenMessage := "Authentication failed: Invalid token."

  /** A header with the Bearer prefix splits into `Bearer` followed by the pieces of the rest. */
  lemma BearerSplit(header: string)
    requires StartsWith(header, BearerPrefix)
    ensures Split(header, ' ') == ["Bearer"] + Split(header[|BearerPrefix|..], ' ')
  {
    var tail := header[|BearerPrefix|..];
    assert header == "Bearer" + ([' '] + tail);
    SplitFreePrefix("Bearer", [' '] + tail, ' ');
    assert ([' '] + tail)[1..] == tail;
    assert Split([' '] + tail, ' ') == [[]] + Split(tail, ' ');
    assert "Bearer" + [] == "Bearer";
  }

  /** `header.split(' ')[1]` for a header that starts with the Bearer prefix. */
  function TokenOf(header: string): (token: string)
    requires StartsWith(header, BearerPrefix)
    ensures token == Split(header[|BearerPrefix|..], ' ')[0]
  {
    BearerSplit(header);
    Split(header, ' ')[1]
  }

  /** `authMiddleware`: 401 without a Bearer header, 401 for a token that does not verify, else the claims. */
  function Authenticate(header: Option<string>, verify: string -> Option<Claims>): (r: AuthResult)
    ensures r.Unauthorized? ==> r.status == 401
    ensures r == Unauthorized(401, NoTokenMessage) <==> !Truthy(header) || !StartsWith(header.value, BearerPrefix)
    ensures r.Authorized? <==>
              Truthy(header) && StartsWith(header.value, BearerPrefix) && verify(TokenOf(header.value)).Some?
    ensures r.Authorized? ==>
              Truthy(header) && StartsWith(header.value, BearerPrefix) && r.user == verify(TokenOf(header.value)).value
    ensures Truthy(header) && StartsWith(header.value, BearerPrefix) && verify(TokenOf(header.value)).None? ==>
              r == Unauthorized(401, InvalidTokenMessage)
  {
    if !Truthy(header) || !StartsWith(header.value, BearerPrefix) then Unauthorized(401, NoTokenMessage)
    else
      match verify(TokenOf(header.value))
      case Some(claims) => Authorized(claims)
      case None => Unauthorized(401, InvalidTokenMessage)
  }

  /** The token is the text after the prefix up to the next space; anything after that space is ignored. */
  lemma TokenUpToSpace(token: string, rest: string)
    requires ' ' !in token
    ensures StartsWith(BearerPrefix + token + rest, BearerPrefix)
    ensures rest == [] || rest[0] == ' ' ==> TokenOf(BearerPrefix + token + rest) == token
  {
    var h := BearerPrefix + token + rest;
    assert h[..|BearerPrefix|] == BearerPrefix;
    assert h[|BearerPrefix|..] == token + rest;
    SplitFreePrefix(token, rest, ' ');
    if rest == [] {
      assert token + rest == token && token + [] == token;
    } else if rest[0] == ' ' {
      assert Split(rest, ' ') == [[]] + Split(rest[1..], ' ');
      assert token + [] == token;
    }
  }

  /** A bare `Bearer ` header yields the empty token, which the verifier then judges. */
  lemma BareBearer(verify: string -> Option<Claims>)
    ensures TokenOf(BearerPrefix) == []
    ensures Authenticate(Some(BearerPrefix), verify)
         == if verify([]).Some? then Authorized(verify([]).value) else Unauthorized(401, InvalidTokenMessage)
  {
    TokenUpToSpace([], []);
    assert BearerPrefix + [] + [] == BearerPrefix;
  }

  /** The prefix test is case-sensitive: a lower-case scheme is refused before any verification. */
  lemma LowerCaseSchemeRefused(rest: string, verify: string -> Option<Claims>)
    ensures Authenticate(Some("bearer " + rest), verify) == Unauthorized(401, NoTokenMessage)
  {
    assert ("bearer " + rest)[0] == 'b';
  }
}
