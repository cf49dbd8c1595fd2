/**
 * The authentication middleware of public/js/middleware/auth.js:
 * `verifyToken`, which resolves the caller's identity from the session cache
 * or from a bearer token, and the two guards that decide, from that identity
 * and the posts table, whether a request on a post may go on.
 *
 * Signature checking and expiry of tokens belong to the JWT library; they
 * enter as the oracle `verify`, which yields the decoded claims of a token it
 * accepts and None for one it rejects.
 */
module Auth {
  import opened Values
  import opened Text
  import opened Store

  /** The payload of a signed token, as `jwt.verify` decodes it. */
  datatype Claims = Claims(userId: Json, username: string, role: string)

  /** `req.user`: the caller as the guards see it. */
  datatype Identity = Identity(userId: Json, role: string)

  /** What `verifyToken` does with a request: hand it on with `req.user`
      set, or finish it with a response. */
  datatype Gate = Next(user: Identity) | Halt(resp: Response)

  /** What a guard does with a request: hand it on, or refuse it. */
  datatype Verdict = Pass | Deny(resp: Response)

  /** The values of the server-side session record of one client. */
  datatype SessionState = SessionState(token: Option<string>, role: Option<string>, userId: Option<Json>)

  const EmptySession := SessionState(None, None, None)

  /** `req.session.userId && req.session.role`: the session already holds an
      identity, and verifyToken trusts it without looking at any token. */
  predicate CacheHit(s: SessionState)
  {
    Truthy(s.userId) && TruthyText(s.role)
  }

  function CachedIdentity(s: SessionState): Identity
    requires CacheHit(s)
  {
    Identity(s.userId.value, s.role.value)
  }

  /** `req.headers.authorization?.split(" ")[1]`, kept only when truthy. */
  function BearerToken(authorization: Option<string>): (token: Option<string>)
    ensures token.Some? ==> authorization.Some? && token.value != "" && ' ' !in token.value
    ensures authorization.Some? && ' ' !in authorization.value ==> token.None?
  {
    match authorization
    case None => None
    case Some(header) =>
      var fields := Split(header, ' ');
      if |fields| >= 2 && fields[1] != "" then Some(fields[1]) else None
  }

  /** For a header made of space-separated fields, the token is the second
      field when there is one and it is non-empty, and there is none
      otherwise; so "Bearer <token>" yields <token>, while "Bearer",
      "Bearer " and "Bearer  <token>" (two spaces) yield none. */
  lemma BearerTokenOfFields(fields: seq<string>)
    requires |fields| >= 1 && Unseparated(fields, ' ')
    ensures BearerToken(Some(Join(fields, ' '))) ==
              if |fields| >= 2 && fields[1] != "" then Some(fields[1]) else None
  {
    SplitJoin(fields, ' ');
  }

  /** The usual header: a scheme word, one space, the token. */
  lemma BearerTokenOfScheme(scheme: string, token: string)
    requires ' ' !in scheme && ' ' !in token && token != ""
    ensures BearerToken(Some(scheme + " " + token)) == Some(token)
  {
    assert scheme + " " + token == Join([scheme, token], ' ');
    BearerTokenOfFields([scheme, token]);
  }

  /** verifyToken as a transition of the session: the new session values and
      what happens to the request. */
  function Authenticate(s: SessionState, authorization: Option<string>, verify: string -> Option<Claims>): (res: (SessionState, Gate))
    // a cached identity is used as it is, whatever the request carries
    ensures CacheHit(s) ==> res == (s, Next(CachedIdentity(s)))
    // no usable token: 401, and only then
    ensures res.1 == Halt(AccessDenied) <==> !CacheHit(s) && BearerToken(authorization).None?
    // a token the verifier rejects: 403, and only then
    ensures res.1 == Halt(InvalidToken) <==>
              !CacheHit(s) && BearerToken(authorization).Some? && verify(BearerToken(authorization).value).None?
    ensures res.1.Halt? ==> res.1.resp in {AccessDenied, InvalidToken}
    // a refused request leaves the session as it was
    ensures res.1.Halt? ==> res.0 == s
    // without a cached identity the caller is whoever the verified token names
    ensures !CacheHit(s) && res.1.Next? ==>
              var token := BearerToken(authorization);
              token.Some? && verify(token.value).Some? &&
              res.1.user == Identity(verify(token.value).value.userId, verify(token.value).value.role)
    // a request that goes on leaves its identity in the session
    ensures res.1.Next? ==> res.0.userId == Some(res.1.user.userId) && res.0.role == Some(res.1.user.role)
    // the stored token is never touched
    ensures res.0.token == s.token
  {
    if CacheHit(s) then
      (s, Next(CachedIdentity(s)))
    else
      match BearerToken(authorization)
      case None => (s, Halt(AccessDenied))
      case Some(token) =>
        match verify(token)
        case None => (s, Halt(InvalidToken))
        case Some(decoded) =>
          (s.(userId := Some(decoded.userId), role := Some(decoded.role)),
           Next(Identity(decoded.userId, decoded.role)))
  }

  /** Once a token has been verified and its claims are truthy, later
      requests of the same session take the cache path: they pass as the same
      caller whatever header they carry, even none, and even when the verifier
      would now reject the token (after its expiry, say). */
  lemma VerifiedIdentityIsCached(s: SessionState, authorization: Option<string>, verify: string -> Option<Claims>,
                                  later: Option<string>, laterVerify: string -> Option<Claims>)
    requires !CacheHit(s)
    requires Authenticate(s, authorization, verify).1.Next?
    requires var user := Authenticate(s, authorization, verify).1.user;
             Truthy(Some(user.userId)) && user.role != ""
    ensures var (s', gate) := Authenticate(s, authorization, verify);
            Authenticate(s', later, laterVerify) == (s', gate)
  {
  }

  /** A verified claim whose userId or role is falsy is stored but not
      trusted: the next request is authenticated from its header again. */
  lemma FalsyClaimsAreNotCached(s: SessionState, authorization: Option<string>, verify: string -> Option<Claims>)
    requires !CacheHit(s)
    requires Authenticate(s, authorization, verify).1.Next?
    requires var user := Authenticate(s, authorization, verify).1.user;
             !Truthy(Some(user.userId)) || user.role == ""
    ensures !CacheHit(Authenticate(s, authorization, verify).0)
  {
  }

  /** The session record of one client, which verifyToken updates in place. */
  class Session {
    var token: Option<string>
    var role: Option<string>
    var userId: Option<Json>

    function State(): SessionState
      reads this
    {
      SessionState(token, role, userId)
    }

    /** A fresh session holds nothing. */
    constructor ()
      ensures State() == EmptySession
    {
      token, role, userId := None, None, None;
    }

    /** verifyToken (auth.js:6-28). */
    method VerifyToken(authorization: Option<string>, verify: string -> Option<Claims>) returns (gate: Gate)
      modifies this
      ensures (State(), gate) == Authenticate(old(State()), authorization, verify)
    {
      if Truthy(userId) && TruthyText(role) {
        return Next(Identity(userId.value, role.value));
      }
      var bearer := BearerToken(authorization);
      if bearer.None? {
        return Halt(AccessDenied);
      }
      var decoded := verify(bearer.value);
      if decoded.None? {
        return Halt(InvalidToken);
      }
      userId := Some(decoded.value.userId);
      role := Some(decoded.value.role);
      gate := Next(Identity(decoded.value.userId, decoded.value.role));
    }
  }

  predicate IsAdmin(user: Identity)
  {
    user.role == "admin"
  }

  /** checkViewPermission (auth.js:30-44). The grants table is not an
      argument: a grant never lets a caller through. */
  function CheckViewPermission(user: Identity, postId: PostId, posts: map<PostId, Post>): (v: Verdict)
    ensures v.Pass? <==> IsAdmin(user) || Owns(posts, postId, user.userId)
    ensures v.Deny? ==> v.resp == PermissionDenied
    // a missing post is reported as forbidden, never as not found
    ensures !IsAdmin(user) && postId !in posts ==> v == Deny(PermissionDenied)
  {
    if IsAdmin(user) then Pass
    else if Owns(posts, postId, user.userId) then Pass
    else Deny(PermissionDenied)
  }

  /** checkOwnershipOrAdmin (auth.js:46-60). */
  function CheckOwnershipOrAdmin(user: Identity, blogId: PostId, posts: map<PostId, Post>): (v: Verdict)
    ensures v.Pass? <==> IsAdmin(user) || Owns(posts, blogId, user.userId)
    ensures v.Deny? ==> v.resp == PermissionDenied
  {
    if IsAdmin(user) then Pass
    else if Owns(posts, blogId, user.userId) then Pass
    else Deny(PermissionDenied)
  }
}
