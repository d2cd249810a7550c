/**
 The desktop session store's data, and the GoTrue server it talks to
 (SOURCE/auth/desktop_session.py).

 A refresh grant (section 6 of RFC 6749) rotates the refresh token; presenting a
 token that was already rotated away revokes the whole family (section 10.4 of
 RFC 6749, section 4.14.2 of RFC 9700).  One `Rotation` names the access token
 and the refresh token that one answer of the server carries.
 */
module SessionModel {
  type Hash = nat
  type Rotation = nat
  type Family = nat
  type User = nat

  /** Clock ticks are microseconds, the resolution of the stored datetimes. */
  const SECOND: int := 1_000_000
  const ACCESS_REFRESH_SKEW: int := 120 * SECOND
  const LOCAL_SESSION_TTL: int := 30 * 24 * 60 * 60 * SECOND

  datatype Row = Row(user: User, created: int, lastUsed: int, expires: int, accessExpires: int)

  // ---------------------------------------------------------------- the server

  /**
   `current[f]` is the only token of family `f` the server still accepts;
   `ended` are sessions the server itself closed, `replayed` are families it
   revoked because a spent token was presented.
   */
  datatype Server = Server(
    familyOf: map<Rotation, Family>,
    current: map<Family, Rotation>,
    ended: set<Family>,
    replayed: set<Family>)
  {
    predicate Live(t: Rotation) {
      t in familyOf && familyOf[t] in current && current[familyOf[t]] == t
    }
  }

  /** What the network and the server choose to do with one POST. */
  datatype Reply = Lost | Granted(user: User, accessExpires: int)

  datatype Answer =
    | Rotated(next: Rotation, user: User, accessExpires: int)
    | Verdict    // GoTrue itself said the session is over
    | NoVerdict  // 5xx, rate limit, gateway page, transport error, unreadable body

  /** One refresh grant at the server; `minted` is the token it would issue. */
  function Post(sv: Server, t: Rotation, reply: Reply, minted: Rotation): (Server, Answer) {
    if reply.Lost? then
      (sv, NoVerdict)
    else if t !in sv.familyOf then
      (sv, Verdict)
    else
      var f := sv.familyOf[t];
      if !sv.Live(t) then
        (sv.(replayed := sv.replayed + {f}), Verdict)
      else if f in sv.ended || f in sv.replayed then
        (sv, Verdict)
      else
        (sv.(familyOf := sv.familyOf[minted := f], current := sv.current[f := minted]),
         Rotated(minted, reply.user, reply.accessExpires))
  }

  // ------------------------------------------------------- reading the answer

  /**
   What the client looks at in an HTTP answer: the status, and of a JSON object
   the stripped, lower-cased error codes and whether its lower-cased message
   fields mention "invalid refresh token".
   */
  datatype Http =
    | Transport
    | Response(status: int, body: Body)
  datatype Body =
    | Unreadable
    | NotAnObject
    | Object(codes: set<string>, saysInvalidToken: bool)

  const REVOKED_CODES: set<string> := {
    "invalid_grant", "refresh_token_not_found", "refresh_token_already_used", "refresh_token_reused",
    "session_expired", "session_not_found", "user_banned", "user_not_found" }
  const REVOKED_STATUSES: set<int> := {400, 401, 403}

  predicate IsRevokedResponse(status: int, body: Body) {
    && status in REVOKED_STATUSES
    && body.Object?
    && (body.codes * REVOKED_CODES != {} || body.saysInvalidToken)
  }

  datatype Reading = SignedOut | KeepSession | Tokens

  /** `_refresh_gotrue_tokens`: None (signed out), a transient error, or a token payload. */
  function ReadAnswer(h: Http): Reading {
    match h
    case Transport => KeepSession
    case Response(status, body) =>
      if status >= 500 then KeepSession
      else if status >= 400 then
        if IsRevokedResponse(status, body) then SignedOut else KeepSession
      else if body.Object? then Tokens
      else KeepSession
  }

  /** GoTrue's own words that the refresh token is finished. */
  ghost predicate SaysFinished(body: Body) {
    body.Object? && (body.saysInvalidToken || exists code :: code in body.codes && code in REVOKED_CODES)
  }

  /**
   The transient/verdict split, in both directions: an answer signs the user
   out exactly when it is a 400, 401 or 403 in GoTrue's own words.  No transport
   error, 5xx, rate limit, gateway page or unreadable 200 does.
   */
  lemma OnlyGoTrueSignsOut(h: Http)
    ensures ReadAnswer(h).SignedOut? <==>
            h.Response? && (h.status == 400 || h.status == 401 || h.status == 403) && SaysFinished(h.body)
    ensures h.Response? && h.status >= 400 && h.status !in {400, 401, 403} ==> ReadAnswer(h).KeepSession?
    ensures ReadAnswer(h).Tokens? <==> h.Response? && h.status < 400 && h.body.Object?
  {
    if h.Response? && SaysFinished(h.body) && !h.body.saysInvalidToken {
      var code :| code in h.body.codes && code in REVOKED_CODES;
      assert code in h.body.codes * REVOKED_CODES;
    }
    if h.Response? && IsRevokedResponse(h.status, h.body) && !h.body.saysInvalidToken {
      var code :| code in h.body.codes * REVOKED_CODES;
      assert code in h.body.codes && code in REVOKED_CODES;
    }
  }
}
