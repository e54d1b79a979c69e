/**
 * Session tokens (server/utils/auth.js): `signToken` builds the payload of a
 * JSON Web Token from a user, and `authMiddleware` picks a token out of an
 * incoming request, verifies it and attaches the decoded identity to the request.
 *
 * The JSON Web Token library is not modelled: `jwt.sign` and `jwt.verify` are
 * parameters of type Signer and Verifier.
 */
module Auth {
  import opened Wrappers
  import opened JsString

  /** The secret every token is signed and verified with. */
  const Secret: string := "mysecretsshhhhh"

  /** The lifetime of a token, used as `expiresIn` when signing and `maxAge` when verifying. */
  const Expiration: string := "2h"

  /** The identity a token carries: `{username, email, _id}`. */
  datatype Claims = Claims(username: string, email: string, id: string)

  /** The JSON payload of a token, `{data: ...}`; a decoded token need not have the member. */
  datatype TokenPayload = TokenPayload(data: Option<Claims>)

  /** `{expiresIn: ...}`, the options of `jwt.sign`. */
  datatype SignOptions = SignOptions(expiresIn: string)

  /** `{maxAge: ...}`, the options of `jwt.verify`. */
  datatype VerifyOptions = VerifyOptions(maxAge: string)

  /**
   * `jwt.sign(payload, secret, options)` at one instant: the library stamps the
   * signing time (`iat`) into the token, so a Signer stands for signing at a
   * fixed moment, and two calls at different moments are two Signers.
   */
  type Signer = (TokenPayload, string, SignOptions) -> string

  /**
   * `jwt.verify(token, secret, options)`: the decoded payload, or None where the
   * library throws (malformed token, wrong signature, expired). The clock the
   * library reads is folded into the function.
   */
  type Verifier = (string, string, VerifyOptions) -> Option<TokenPayload>

  /** A user object as `signToken` receives it: a stored user, claims and all. */
  datatype UserObject = UserObject(
    username: string,
    email: string,
    id: string,
    password: string,
    thoughts: seq<string>,
    friends: seq<string>)

  /** The payload `signToken` signs: `{data: {username, email, _id}}` of the user. */
  function SignPayload(u: UserObject): (p: TokenPayload)
    ensures p.data.Some?
    ensures p.data.value.username == u.username && p.data.value.email == u.email && p.data.value.id == u.id
  {
    TokenPayload(Some(Claims(u.username, u.email, u.id)))
  }

  /** `signToken(user)`. */
  function SignToken(u: UserObject, sign: Signer): (t: string)
    ensures t == sign(TokenPayload(Some(Claims(u.username, u.email, u.id))), "mysecretsshhhhh", SignOptions("2h"))
  {
    sign(SignPayload(u), Secret, SignOptions(Expiration))
  }

  /**
   * Two users that agree on username, email and id get the same payload, so
   * every other field is dropped; signed at the same instant they get the same token.
   */
  lemma SignTokenDependsOnClaimsOnly(u: UserObject, v: UserObject, sign: Signer)
    requires u.username == v.username && u.email == v.email && u.id == v.id
    ensures SignPayload(u) == SignPayload(v)
    ensures SignToken(u, sign) == SignToken(v, sign)
  {
  }

  // ---------------------------------------------------------------------------
  // Choosing the token

  /** JavaScript truthiness of a string that may be undefined: defined and non-empty. */
  predicate Truthy(v: Option<string>) {
    v.Some? && v.value != ""
  }

  /** `a || b` on such values: a when it is truthy, b otherwise. */
  function Or(a: Option<string>, b: Option<string>): Option<string> {
    if Truthy(a) then a else b
  }

  /**
   * `req.body.token || req.query.token || req.headers.authorization`: the first
   * truthy of the three, and the header value (perhaps undefined or empty) when
   * none is; an empty string falls through like undefined.
   */
  function SelectToken(body: Option<string>, query: Option<string>, header: Option<string>): (t: Option<string>)
    ensures Truthy(body) ==> t == body
    ensures !Truthy(body) && Truthy(query) ==> t == query
    ensures !Truthy(body) && !Truthy(query) ==> t == header
    ensures Truthy(t) <==> Truthy(body) || Truthy(query) || Truthy(header)
  {
    Or(Or(body, query), header)
  }

  /** `token.split(' ').pop().trim()`: the text after the last space, trimmed. */
  function BearerValue(token: string): (r: string)
    ensures ' ' !in r
    ensures Trimmed(r)
    ensures ' ' !in token ==> r == Trim(token)
  {
    LastSpaceSegmentIsTextAfterLastSpace(token);
    TrimKeepsAbsent(LastSpaceSegment(token), ' ');
    Trim(LastSpaceSegment(token))
  }

  /**
   * Whatever comes before the last space, the space-free text t after it, trimmed,
   * is what `BearerValue` extracts: `"Bearer \tabc"` gives `"abc"`.
   */
  lemma BearerValueAfterSpace(prefix: string, t: string)
    requires ' ' !in t
    ensures BearerValue(prefix + " " + t) == Trim(t)
  {
    var s := prefix + " " + t;
    LastSpaceSegmentIsTextAfterLastSpace(s);
    var r := LastSpaceSegment(s);
    assert s[|s| - |t|..] == t;
    assert s[|s| - |t| - 1] == ' ';
    assert r == t;
  }

  /**
   * The value of `token` after lines 34-44: the chosen token, and when a truthy
   * Authorization header is present, the chosen token (whichever source it came
   * from) reduced to its last space-separated piece and trimmed.
   */
  function ResolvedToken(body: Option<string>, query: Option<string>, header: Option<string>): (t: Option<string>)
    ensures !Truthy(header) ==> t == SelectToken(body, query, header)
    ensures Truthy(header) ==> t.Some? && ' ' !in t.value && Trimmed(t.value)
    ensures Truthy(header) ==> t == Some(BearerValue(SelectToken(body, query, header).value))
  {
    var selected := SelectToken(body, query, header);
    if Truthy(header) then Some(BearerValue(selected.value)) else selected
  }

  /**
   * `req.user` once the middleware has run, given its value before: unchanged
   * when there is no token or verification fails, and otherwise exactly the
   * `data` member of the decoded payload (undefined if it has none).
   */
  function ContextUser(
    body: Option<string>, query: Option<string>, header: Option<string>,
    prior: Option<Claims>, verify: Verifier): (user: Option<Claims>)
    ensures user != prior ==>
              var token := ResolvedToken(body, query, header);
              Truthy(token) && verify(token.value, Secret, VerifyOptions(Expiration)) == Some(TokenPayload(user))
  {
    var token := ResolvedToken(body, query, header);
    if !Truthy(token) then prior
    else match verify(token.value, Secret, VerifyOptions(Expiration))
      case None => prior
      case Some(payload) => payload.data
  }

  /** Without a truthy token the request keeps its user, and the verifier is not consulted. */
  lemma NoTokenKeepsUser(
    body: Option<string>, query: Option<string>, header: Option<string>,
    prior: Option<Claims>, verify: Verifier, other: Verifier)
    requires !Truthy(ResolvedToken(body, query, header))
    ensures ContextUser(body, query, header, prior, verify) == prior
    ensures ContextUser(body, query, header, prior, other) == prior
  {
  }

  /** A failed verification is swallowed: the request keeps its user. */
  lemma FailedVerifyKeepsUser(
    body: Option<string>, query: Option<string>, header: Option<string>,
    prior: Option<Claims>, verify: Verifier)
    requires Truthy(ResolvedToken(body, query, header))
    requires verify(ResolvedToken(body, query, header).value, Secret, VerifyOptions(Expiration)).None?
    ensures ContextUser(body, query, header, prior, verify) == prior
  {
  }

  /** A successful verification sets the user to exactly the decoded `data`. */
  lemma VerifiedTokenSetsData(
    body: Option<string>, query: Option<string>, header: Option<string>,
    prior: Option<Claims>, verify: Verifier, payload: TokenPayload)
    requires Truthy(ResolvedToken(body, query, header))
    requires verify(ResolvedToken(body, query, header).value, Secret, VerifyOptions(Expiration)) == Some(payload)
    ensures ContextUser(body, query, header, prior, verify) == payload.data
  {
  }

  /** A header `"Bearer " + t` alone, t space-free, yields the token t trimmed. */
  lemma BearerHeaderYields(t: string)
    requires ' ' !in t
    ensures ResolvedToken(None, None, Some("Bearer " + t)) == Some(Trim(t))
  {
    var h := "Bearer " + t;
    assert h == "Bearer" + " " + t;
    BearerValueAfterSpace("Bearer", t);
    assert SelectToken(None, None, Some(h)) == Some(h);
  }

  /** A header `"Bearer " + t` alone, t space-free with no white space at its ends, yields t itself. */
  lemma BearerHeaderYieldsTrimmed(t: string)
    requires ' ' !in t && Trimmed(t)
    ensures ResolvedToken(None, None, Some("Bearer " + t)) == Some(t)
  {
    BearerHeaderYields(t);
    TrimOfTrimmed(t);
  }

  /** A header `"Bearer abc"` alone yields the token `"abc"`. */
  lemma BearerHeaderExample()
    ensures ResolvedToken(None, None, Some("Bearer abc")) == Some("abc")
  {
    var t := "abc";
    assert "Bearer " + t == "Bearer abc";
    assert |t| == 3 && t[0] == 'a' && t[1] == 'b' && t[2] == 'c';
    BearerHeaderYieldsTrimmed(t);
  }

  /** A header `"Bearer \tabc"` alone yields `"abc"`: the tab left after the split is trimmed away. */
  lemma BearerHeaderTabExample()
    ensures ResolvedToken(None, None, Some("Bearer \tabc")) == Some("abc")
  {
    var t := "\tabc";
    assert "Bearer " + t == "Bearer \tabc";
    assert t[0] != ' ' && t[1] != ' ' && t[2] != ' ' && t[3] != ' ';
    BearerHeaderYields(t);
    TrimLeadingTabExample();
  }

  /**
   * The normalisation also applies to a body token when a header is present:
   * a body token `x + " " + y` yields `y` trimmed, whatever the header says.
   */
  lemma BodyTokenNormalisedWhenHeaderPresent(x: string, y: string, header: string)
    requires ' ' !in y && header != ""
    ensures ResolvedToken(Some(x + " " + y), None, Some(header)) == Some(Trim(y))
  {
    BearerValueAfterSpace(x, y);
  }

  /** Without a header a body token is used verbatim, spaces and all. */
  lemma BodyTokenVerbatimWithoutHeader(body: string, query: Option<string>)
    requires body != ""
    ensures ResolvedToken(Some(body), query, None) == Some(body)
    ensures ResolvedToken(Some(body), query, Some("")) == Some(body)
  {
  }

  /** A header `"Bearer "` with a trailing space alone yields an empty token, so no user is set. */
  lemma TrailingSpaceHeaderYieldsNoToken(prior: Option<Claims>, verify: Verifier)
    ensures ResolvedToken(None, None, Some("Bearer ")) == Some("")
    ensures ContextUser(None, None, Some("Bearer "), prior, verify) == prior
  {
    BearerHeaderYields("");
    assert "Bearer " + "" == "Bearer ";
  }

  // ---------------------------------------------------------------------------
  // Round trip

  /** A character of a compact JSON Web Token: base64url digits and the dots between the parts. */
  predicate IsTokenChar(c: char) {
    ('A' <= c <= 'Z') || ('a' <= c <= 'z') || ('0' <= c <= '9') || c == '-' || c == '_' || c == '.'
  }

  /** The shape of a compact JSON Web Token: a non-empty run of base64url digits and dots. */
  predicate IsCompactToken(t: string) {
    t != [] && forall i :: 0 <= i < |t| ==> IsTokenChar(t[i])
  }

  /**
   * A token issued by `signToken` and presented as `Authorization: Bearer <token>`
   * (with no body or query token) authenticates exactly the signed user's
   * username, email and id, provided the library verifies what it signed.
   */
  lemma SignedTokenAuthenticates(u: UserObject, sign: Signer, verify: Verifier, prior: Option<Claims>)
    requires IsCompactToken(SignToken(u, sign))
    requires verify(SignToken(u, sign), Secret, VerifyOptions(Expiration)) == Some(SignPayload(u))
    ensures ResolvedToken(None, None, Some("Bearer " + SignToken(u, sign))) == Some(SignToken(u, sign))
    ensures ContextUser(None, None, Some("Bearer " + SignToken(u, sign)), prior, verify)
         == Some(Claims(u.username, u.email, u.id))
  {
    var t := SignToken(u, sign);
    assert ' ' !in t by {
      forall i | 0 <= i < |t| ensures t[i] != ' ' {
        assert IsTokenChar(t[i]);
      }
    }
    assert IsTokenChar(t[0]) && IsTokenChar(t[|t| - 1]);
    BearerHeaderYieldsTrimmed(t);
  }

  // ---------------------------------------------------------------------------
  // The middleware

  /** The parts of an Express request the middleware reads, and `req.user`, which it sets. */
  class Request {
    var bodyToken: Option<string>
    var queryToken: Option<string>
    var authorization: Option<string>
    var user: Option<Claims>

    /** A request as it arrives: no user attached yet. */
    constructor (body: Option<string>, query: Option<string>, header: Option<string>)
      ensures bodyToken == body && queryToken == query && authorization == header
      ensures user == None
    {
      bodyToken, queryToken, authorization := body, query, header;
      user := None;
    }
  }

  /**
   * `authMiddleware({req})`: returns the same request object, on which only
   * `user` may have changed, and it changes as ContextUser says.
   */
  method AuthMiddleware(req: Request, verify: Verifier) returns (r: Request)
    modifies req`user
    ensures r == req
    ensures req.user == ContextUser(req.bodyToken, req.queryToken, req.authorization, old(req.user), verify)
  {
    var token := Or(Or(req.bodyToken, req.queryToken), req.authorization);
    if Truthy(req.authorization) {
      token := Some(Trim(LastSpaceSegment(token.value)));
    }
    if !Truthy(token) {
      return req;
    }
    var decoded := verify(token.value, Secret, VerifyOptions(Expiration));
    match decoded {
      case Some(payload) =>
        req.user := payload.data;
      case None =>
        // the library threw: the error is logged and swallowed
    }
    return req;
  }

  /**
   * `context: authMiddleware` in the Apollo server set-up: every incoming
   * request starts with no user, and the resolvers see the user the
   * middleware leaves on it.
   */
  method RequestContext(body: Option<string>, query: Option<string>, header: Option<string>, verify: Verifier)
    returns (user: Option<Claims>)
    ensures user == ContextUser(body, query, header, None, verify)
    ensures !Truthy(ResolvedToken(body, query, header)) ==> user == None
  {
    var req := new Request(body, query, header);
    var r := AuthMiddleware(req, verify);
    user := r.user;
    if !Truthy(ResolvedToken(body, query, header)) {
      NoTokenKeepsUser(body, query, header, None, verify, verify);
    }
  }
}
