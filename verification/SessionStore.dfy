/**
 `DesktopSessionStore` as its callers see it: the methods whose bodies run inside
 the critical section, on the store's own fields
 (SOURCE/auth/desktop_session.py).  Nothing interferes here; `SessionProtocol`
 models the interleavings.
 */
module SessionStore {
  import opened Common
  import opened SessionModel

  /** The cloud's refresh endpoint; `seen` is every refresh token ever presented to it. */
  class GoTrue {
    var sv: Server
    var minted: Rotation
    ghost var seen: seq<Rotation>

    constructor ()
      ensures sv == Server(map[], map[], {}, {}) && minted == 0 && seen == []
    {
      sv, minted, seen := Server(map[], map[], {}, {}), 0, [];
    }

    method Refresh(t: Rotation, reply: Reply) returns (answer: Answer)
      modifies this
      ensures (sv, answer) == Post(old(sv), t, reply, old(minted))
      ensures minted == old(minted) + 1 && seen == old(seen) + [t]
    {
      var (sv2, ans) := Post(sv, t, reply, minted);
      sv, answer, minted, seen := sv2, ans, minted + 1, seen + [t];
    }
  }

  datatype Refreshed =
    | Fresh(row: Row, access: Rotation)
    | Ended       // None: the session is gone or GoTrue ended it
    | Transient   // DesktopSessionRefreshTransientError: the session is kept
    | Rejected    // DesktopSessionRejected: another account's tokens
    | Failed      // sqlite3.Error: the pair is stored, the row's update was not

  datatype Grant =
    | Served(h: Hash, access: Rotation, refresh: Rotation)
    | NoSession
    | TryLater

  datatype Validation =
    | Authenticated(access: Rotation, refreshed: bool)
    | Unknown
    | Expired
    | StoreUnavailable
    | MissingTokens
    | RefreshTransient
    | RefreshFailed
    | RefreshInvalid
    | ValidationError
  {
    /** `DesktopSessionValidation.transient`: not signed in right now, but the session is still there. */
    predicate IsTransient() { StoreUnavailable? || RefreshTransient? || ValidationError? }
  }

  /** What a call cannot know: the reply, whether Viola starts to quit during the POST, and what fails. */
  datatype Fate = Fate(
    reply: Reply,
    quits: bool,       // the shutdown flag is set while the POST is on the wire
    deletes: bool,     // the SQLite DELETE succeeds
    updates: bool,     // the UPDATE with the new expiry succeeds
    touches: bool,     // the UPDATE of the last use succeeds
    rereads: bool)     // the grant can still read the refresh token after the refresh

  /** Every stored pair is of one rotation, the server still accepts it, and no two rows share a family. */
  ghost predicate Healthy(rows: map<Hash, Row>, access: map<Hash, Rotation>, refresh: map<Hash, Rotation>, sv: Server,
                          minted: Rotation)
  {
    && (forall r :: r in sv.familyOf ==> r < minted)
    && (forall h :: h in rows && h in access && h in refresh ==> access[h] == refresh[h])
    && (forall h :: h in rows && h in refresh ==> sv.Live(refresh[h]))
    && (forall h1, h2 :: h1 in rows && h1 in refresh && h2 in rows && h2 in refresh && h1 != h2 ==>
          sv.familyOf[refresh[h1]] != sv.familyOf[refresh[h2]])
    && sv.replayed == {}
  }

  function Moved<T>(m: map<Hash, T>, h: Hash, name: Hash): (r: map<Hash, T>)
    requires h in m
  {
    (m - {h})[name := m[h]]
  }

  /** Giving a session another name keeps the store healthy. */
  lemma MovedHealthy(rows: map<Hash, Row>, access: map<Hash, Rotation>, refresh: map<Hash, Rotation>, sv: Server,
                     minted: Rotation, h: Hash, name: Hash)
    requires Healthy(rows, access, refresh, sv, minted)
    requires h in rows && h in access && h in refresh && name !in rows && name !in access && name !in refresh
    ensures Healthy(Moved(rows, h, name), Moved(access, h, name), Moved(refresh, h, name), sv, minted)
  {
  }

  lemma UsedHealthy(rows: map<Hash, Row>, access: map<Hash, Rotation>, refresh: map<Hash, Rotation>, sv: Server,
                    minted: Rotation, h: Hash, now: int)
    requires Healthy(rows, access, refresh, sv, minted) && h in rows
    ensures Healthy(rows[h := rows[h].(lastUsed := now)], access, refresh, sv, minted)
  {
  }

  /** So does taking sessions or tokens away. */
  lemma FewerHealthy(rows: map<Hash, Row>, access: map<Hash, Rotation>, refresh: map<Hash, Rotation>, sv: Server,
                     minted: Rotation, gone: set<Hash>, dropped: set<Hash>)
    requires Healthy(rows, access, refresh, sv, minted)
    ensures Healthy(rows - gone, access - dropped, refresh - dropped, sv, minted)
  {
  }

  /** A rotation of one session's family is invisible to the others. */
  lemma RotatedHealthy(rows: map<Hash, Row>, access: map<Hash, Rotation>, refresh: map<Hash, Rotation>, sv: Server,
                       minted: Rotation, h: Hash, reply: Reply)
    requires Healthy(rows, access, refresh, sv, minted) && h in rows && h in refresh
    requires Post(sv, refresh[h], reply, minted).1.Rotated?
    ensures var sv2 := Post(sv, refresh[h], reply, minted).0;
            && sv2.Live(minted)
            && Healthy(rows, access - {h}, refresh - {h}, sv2, minted + 1)
            && Healthy(rows, access[h := minted], refresh[h := minted], sv2, minted + 1)
  {
    var sv2 := Post(sv, refresh[h], reply, minted).0;
    forall x | x in rows && x in refresh && x != h
      ensures sv2.Live(refresh[x]) && sv2.familyOf[refresh[x]] == sv.familyOf[refresh[x]] != sv.familyOf[refresh[h]]
    {
      assert sv.Live(refresh[x]);
    }
  }

  /** A POST of a stored token that is not answered with a pair changes nothing at the server. */
  lemma PostedHealthy(rows: map<Hash, Row>, access: map<Hash, Rotation>, refresh: map<Hash, Rotation>, sv: Server,
                      minted: Rotation, h: Hash, reply: Reply)
    requires Healthy(rows, access, refresh, sv, minted) && h in rows && h in access && h in refresh
    ensures access[h] == refresh[h] && sv.Live(refresh[h])
    ensures var (sv2, answer) := Post(sv, refresh[h], reply, minted);
            && (answer.NoVerdict? <==> reply.Lost?)
            && (answer.Verdict? <==> reply.Granted? && sv.familyOf[refresh[h]] in sv.ended)
            && (answer.Rotated? ==> answer == Rotated(minted, reply.user, reply.accessExpires) && !sv2.Live(refresh[h]))
            && (!answer.Rotated? ==> sv2 == sv && Healthy(rows, access, refresh, sv, minted + 1))
  {
    assert sv.Live(refresh[h]);
  }

  class DesktopSessionStore {
    var rows: map<Hash, Row>
    var access: map<Hash, Rotation>
    var refresh: map<Hash, Rotation>
    var unreadable: set<Hash>        // entries that cannot be decrypted at present
    var shutdown: bool
    const cloud: GoTrue

    ghost predicate Valid()
      reads this, cloud
    {
      Healthy(rows, access, refresh, cloud.sv, cloud.minted)
    }

    constructor (server: GoTrue)
      requires server.sv.replayed == {} && forall r :: r in server.sv.familyOf ==> r < server.minted
      ensures Valid() && cloud == server && rows == map[] && access == map[] && refresh == map[] && !shutdown
    {
      rows, access, refresh, unreadable, shutdown, cloud := map[], map[], map[], {}, false, server;
    }

    /** `_get_token` answers for both kinds. */
    predicate Readable(h: Hash)
      reads this
    {
      h in access && h in refresh && h !in unreadable
    }

    predicate EntriesPresent(h: Hash)
      reads this
    {
      h in access && h in refresh
    }

    /** Nothing about any session other than `h` has changed. */
    twostate predicate OthersKept(h: Hash)
      reads this
    {
      && rows - {h} == old(rows) - {h} && access - {h} == old(access) - {h} && refresh - {h} == old(refresh) - {h}
      && unreadable == old(unreadable) && (old(shutdown) ==> shutdown)
    }

    twostate predicate StoreKept()
      reads this
    {
      rows == old(rows) && access == old(access) && refresh == old(refresh) && unreadable == old(unreadable)
    }

    /**
     What a delete of `h` leaves: everything while Viola quits, else neither entry, and no row
     unless the DELETE failed.
     */
    twostate predicate Dropped(h: Hash, deletes: bool)
      reads this
    {
      if shutdown || h !in old(rows) then StoreKept()
      else
        && access == old(access) - {h} && refresh == old(refresh) - {h}
        && rows == if deletes then old(rows) - {h} else old(rows)
    }

    /** `delete_session_hash`; `dbOk` is whether the SQLite DELETE succeeds. */
    method DeleteSessionHash(h: Hash, dbOk: bool) returns (deleted: bool)
      modifies this
      ensures old(Valid()) ==> Valid()
      ensures OthersKept(h) && Dropped(h, dbOk) && shutdown == old(shutdown)
      ensures deleted <==> !shutdown && dbOk && h in old(rows)
    {
      if shutdown { return false; }
      if h in rows {
        access := access - {h};
        refresh := refresh - {h};
      }
      if !dbOk { return false; }
      deleted := h in rows;
      rows := rows - {h};
    }

    /** `_apply_refreshed_tokens`: the pair and the row are written, or another account's tokens end the session. */
    method ApplyRefreshedTokens(h: Hash, now: int, next: Rotation, user: User, exp: int, fate: Fate)
        returns (r: Refreshed)
      requires h in rows && h in access && h in refresh
      requires Healthy(rows, access - {h}, refresh - {h}, cloud.sv, cloud.minted)
      requires Healthy(rows, access[h := next], refresh[h := next], cloud.sv, cloud.minted)
      modifies this
      ensures OthersKept(h) && shutdown == old(shutdown)
      ensures !(r.Rejected? && shutdown) ==> Valid()
      ensures user != old(rows)[h].user ==> r == Rejected && Dropped(h, fate.deletes)
      ensures user == old(rows)[h].user ==> access == old(access)[h := next] && refresh == old(refresh)[h := next]
      ensures user == old(rows)[h].user && !fate.updates ==> r == Failed && rows == old(rows)
      // The session now lasts a whole local lifetime from this refresh on.
      ensures user == old(rows)[h].user && fate.updates ==>
                && rows == old(rows)[h := Row(user, old(rows)[h].created, now, now + LOCAL_SESSION_TTL, exp)]
                && r == Fresh(rows[h], next)
    {
      if user != rows[h].user {
        var _ := DeleteSessionHash(h, fate.deletes);
        return Rejected;
      }
      access := access[h := next];
      refresh := refresh[h := next];
      if !fate.updates { return Failed; }
      rows := rows[h := rows[h].(accessExpires := exp, lastUsed := now, expires := now + LOCAL_SESSION_TTL)];
      return Fresh(rows[h], next);
    }

    /** The access token of `h` is near its end and the pair can be read. */
    predicate Due(h: Hash, now: int)
      reads this
    {
      h in rows && Readable(h) && rows[h].accessExpires <= now + ACCESS_REFRESH_SKEW
    }

    /** The server has ended the session the stored refresh token belongs to. */
    predicate ServerEnded(h: Hash)
      reads this, cloud
    {
      h in refresh && refresh[h] in cloud.sv.familyOf && cloud.sv.familyOf[refresh[h]] in cloud.sv.ended
    }

    /** A POST for `h` at this moment has the outcome `Rotated`. */
    predicate Rotates(h: Hash, now: int, reply: Reply)
      reads this, cloud
    {
      Due(h, now) && !shutdown && reply.Granted? && !ServerEnded(h)
    }

    /** A POST for `h` at this moment rotates the pair for its own account. */
    predicate RotatesOwn(h: Hash, now: int, reply: Reply)
      reads this, cloud
    {
      Rotates(h, now, reply) && reply.user == rows[h].user
    }

    /** A refresh of `h` is due but cannot be had now, although nobody has said the session is over. */
    predicate Postponed(h: Hash, now: int, fate: Fate)
      reads this, cloud
    {
      Due(h, now) && (shutdown || fate.reply.Lost? || (RotatesOwn(h, now, fate.reply) && !fate.updates))
    }

    /** `_refresh_session_row_assume_locked`. */
    method RefreshSessionRowAssumeLocked(h: Hash, now: int, fate: Fate) returns (r: Refreshed)
      requires Valid()
      modifies this, cloud
      ensures OthersKept(h) && shutdown == (old(shutdown) || (fate.quits && cloud.seen != old(cloud.seen)))
      // Every stored pair stays good, save one: another account's answer that came while Viola began to quit.
      ensures !(r.Rejected? && shutdown) ==> Valid()
      // What the server is shown is the stored token, and only when the access token is near its end.
      ensures cloud.seen == if old(Due(h, now)) && !old(shutdown) then old(cloud.seen) + [old(refresh)[h]]
              else old(cloud.seen)
      // A transient outcome leaves the store and the server's answer to the stored token as they were.
      ensures r.Transient? <==> h in old(rows) && old(EntriesPresent(h))
                                && (h in old(unreadable) || (old(Due(h, now)) && (old(shutdown) || fate.reply.Lost?)))
      ensures r.Transient? ==> StoreKept() && cloud.sv == old(cloud.sv)
      // Reuse without a POST, or one rotation whose pair is stored before anybody else can look.
      ensures r.Fresh? <==> || (h in old(rows) && old(Readable(h)) && !old(Due(h, now)))
                            || (old(RotatesOwn(h, now, fate.reply)) && fate.updates)
      ensures r.Failed? <==> old(RotatesOwn(h, now, fate.reply)) && !fate.updates
      ensures r.Fresh? ==> h in rows && h in access && r.row == rows[h] && r.access == access[h]
      ensures r.Fresh? && !old(Due(h, now)) ==> StoreKept() && cloud.sv == old(cloud.sv)
      ensures old(RotatesOwn(h, now, fate.reply)) ==>
                h in rows && h in access && h in refresh && access[h] == refresh[h] == old(cloud.minted)
      ensures old(RotatesOwn(h, now, fate.reply)) && fate.updates ==>
                rows == old(rows)[h := Row(old(rows)[h].user, old(rows)[h].created, now, now + LOCAL_SESSION_TTL,
                                           fate.reply.accessExpires)]
      ensures r.Failed? ==> rows == old(rows)
      ensures r.Rejected? <==> old(Rotates(h, now, fate.reply)) && fate.reply.user != old(rows)[h].user
      // The session ends only when it is already gone, its tokens are missing, or the server ended its family.
      ensures r.Ended? <==> h !in old(rows) || !old(EntriesPresent(h))
                            || (old(Due(h, now)) && !old(shutdown) && fate.reply.Granted? && old(ServerEnded(h)))
      ensures r.Ended? || r.Rejected? ==> Dropped(h, fate.deletes)
      // A rotation spends the token that was stored.
      ensures old(Rotates(h, now, fate.reply)) ==> !cloud.sv.Live(old(refresh)[h])
    {
      hide Healthy, Post;
      if h !in rows { return Ended; }
      var row := rows[h];
      if h !in access || h !in refresh || h in unreadable {
        if EntriesPresent(h) { return Transient; }
        var _ := DeleteSessionHash(h, fate.deletes);
        return Ended;
      }
      PostedHealthy(rows, access, refresh, cloud.sv, cloud.minted, h, fate.reply);
      var accessToken, refreshToken := access[h], refresh[h];
      if row.accessExpires > now + ACCESS_REFRESH_SKEW {
        return Fresh(row, accessToken);
      }
      if shutdown { return Transient; }
      label Sent:
      var answer := cloud.Refresh(refreshToken, fate.reply);
      if fate.quits { shutdown := true; }
      match answer {
        case NoVerdict =>
          return Transient;
        case Verdict =>
          var _ := DeleteSessionHash(h, fate.deletes);
          return Ended;
        case Rotated(next, user, exp) =>
          RotatedHealthy(rows, access, refresh, old@Sent(cloud.sv), old@Sent(cloud.minted), h, fate.reply);
          r := ApplyRefreshedTokens(h, now, next, user, exp, fate);
      }
    }

    predicate Unexpired(h: Hash, now: int)
      reads this
    {
      h in rows && rows[h].expires > now
    }

    /** A validation now refreshes the session. */
    predicate Renews(h: Hash, now: int, fate: Fate)
      reads this, cloud
    {
      Unexpired(h, now) && RotatesOwn(h, now, fate.reply) && fate.updates
    }

    /** The session is good for a request now, refreshed on the way or not. */
    predicate SignedIn(h: Hash, now: int, fate: Fate)
      reads this, cloud
    {
      Unexpired(h, now) && Readable(h)
      && (!Due(h, now) || Renews(h, now, fate) || (Postponed(h, now, fate) && rows[h].accessExpires > now))
    }

    /** `_touch_session`. */
    method Touch(h: Hash, now: int)
      requires Valid() && h in rows
      modifies this
      ensures Valid() && rows == old(rows)[h := old(rows)[h].(lastUsed := now)]
      ensures access == old(access) && refresh == old(refresh) && unreadable == old(unreadable)
      ensures shutdown == old(shutdown)
    {
      hide Healthy;
      UsedHealthy(rows, access, refresh, cloud.sv, cloud.minted, h, now);
      rows := rows[h := rows[h].(lastUsed := now)];
    }

    /**
     What validation leaves of a session that is good for a request: renewed for a whole local
     lifetime, or just used.
     */
    twostate predicate Used(h: Hash, now: int, fate: Fate)
      requires h in old(rows)
      reads this, cloud
    {
      var row := if !old(Renews(h, now, fate)) then old(rows)[h]
        else Row(old(rows)[h].user, old(rows)[h].created, now, now + LOCAL_SESSION_TTL, fate.reply.accessExpires);
      rows == old(rows)[h := if fate.touches then row.(lastUsed := now) else row]
    }

    /** The pair of a session nobody has ended: the new one if the server rotated it, else as it was. */
    twostate predicate PairKept(h: Hash, now: int, fate: Fate)
      reads this, cloud
    {
      if old(RotatesOwn(h, now, fate.reply)) then
        h in access && h in refresh && access[h] == refresh[h] == old(cloud.minted)
      else access == old(access) && refresh == old(refresh)
    }

    /** `_validate_session_row`, once both tokens have been read. */
    method ValidateReadable(h: Hash, now: int, fate: Fate) returns (v: Validation)
      requires Valid() && Unexpired(h, now) && Readable(h)
      modifies this, cloud
      ensures OthersKept(h)
      ensures !(v.RefreshInvalid? && shutdown) ==> Valid()
      ensures v.RefreshFailed? <==> old(Due(h, now)) && !old(shutdown) && fate.reply.Granted? && old(ServerEnded(h))
      ensures v.RefreshInvalid? <==> old(Rotates(h, now, fate.reply)) && fate.reply.user != old(rows)[h].user
      ensures v.RefreshTransient? <==> old(Postponed(h, now, fate)) && old(rows)[h].accessExpires <= now
      ensures v.Authenticated? <==> old(SignedIn(h, now, fate)) && fate.touches
      ensures v.ValidationError? <==> old(SignedIn(h, now, fate)) && !fate.touches
      ensures v.Authenticated? ==> v == Authenticated(
                if old(Renews(h, now, fate)) then old(cloud.minted) else old(access)[h], old(Renews(h, now, fate)))
      ensures old(SignedIn(h, now, fate)) ==> Used(h, now, fate) && PairKept(h, now, fate)
      ensures v.RefreshTransient? ==> rows == old(rows) && PairKept(h, now, fate)
      ensures v.RefreshFailed? || v.RefreshInvalid? ==> Dropped(h, fate.deletes)
    {
      hide Healthy;
      var row, accessToken, refreshed := rows[h], access[h], false;
      if row.accessExpires <= now + ACCESS_REFRESH_SKEW {
        var r := RefreshSessionRowAssumeLocked(h, now, fate);
        match r {
          case Rejected => return RefreshInvalid;
          case Transient =>
            if row.accessExpires <= now { return RefreshTransient; }
          case Failed =>
            if row.accessExpires <= now { return RefreshTransient; }
          case Ended => return RefreshFailed;
          case Fresh(newRow, newAccess) =>
            row, accessToken, refreshed := newRow, newAccess, true;
        }
      }
      if !fate.touches { return ValidationError; }
      Touch(h, now);
      return Authenticated(accessToken, refreshed);
    }

    /** `validate_session_token` for one cookie's row: every answer, exactly when, from what was stored before. */
    method ValidateSessionToken(h: Hash, now: int, fate: Fate) returns (v: Validation)
      requires Valid()
      modifies this, cloud
      ensures OthersKept(h)
      ensures !(v.RefreshInvalid? && shutdown) ==> Valid()
      ensures v.Unknown? <==> h !in old(rows)
      ensures v.Expired? <==> h in old(rows) && old(rows)[h].expires <= now
      ensures v.MissingTokens? <==> old(Unexpired(h, now)) && !old(EntriesPresent(h))
      ensures v.StoreUnavailable? <==> old(Unexpired(h, now)) && old(EntriesPresent(h)) && h in old(unreadable)
      ensures v.RefreshFailed? <==> old(Unexpired(h, now)) && old(Due(h, now)) && !old(shutdown)
                                    && fate.reply.Granted? && old(ServerEnded(h))
      ensures v.RefreshInvalid? <==> old(Unexpired(h, now)) && old(Rotates(h, now, fate.reply))
                                     && fate.reply.user != old(rows)[h].user
      ensures v.RefreshTransient? <==> old(Unexpired(h, now)) && old(Postponed(h, now, fate))
                                       && old(rows)[h].accessExpires <= now
      // Signed in: with the stored token, with a new one, or with one that is good for now although a refresh is due.
      ensures v.Authenticated? <==> old(SignedIn(h, now, fate)) && fate.touches
      ensures v.ValidationError? <==> old(SignedIn(h, now, fate)) && !fate.touches
      ensures v.Authenticated? ==> v == Authenticated(
                if old(Renews(h, now, fate)) then old(cloud.minted) else old(access)[h], old(Renews(h, now, fate)))
      // A transient answer never costs the user the session; any other refusal does, unless that is not possible now.
      ensures v.IsTransient() ==> h in rows && EntriesPresent(h)
      ensures old(SignedIn(h, now, fate)) ==> Used(h, now, fate) && PairKept(h, now, fate)
      ensures v.RefreshTransient? ==> rows == old(rows) && PairKept(h, now, fate)
      ensures v.Unknown? || v.StoreUnavailable? ==> StoreKept()
      ensures v.Expired? || v.MissingTokens? || v.RefreshFailed? || v.RefreshInvalid? ==> Dropped(h, fate.deletes)
    {
      if h !in rows { return Unknown; }
      if rows[h].expires <= now {
        var _ := DeleteSessionHash(h, fate.deletes);
        return Expired;
      }
      if h !in access || h !in refresh || h in unreadable {
        if EntriesPresent(h) { return StoreUnavailable; }
        var _ := DeleteSessionHash(h, fate.deletes);
        return MissingTokens;
      }
      v := ValidateReadable(h, now, fate);
    }

    /** A session refreshed at `t` is not answered "expired" before its local lifetime from then on is over. */
    method RefreshedIsNotExpired(h: Hash, t: int, fate: Fate, now: int, later: Fate) returns (v: Validation)
      requires Valid() && RotatesOwn(h, t, fate.reply) && fate.updates && now < t + LOCAL_SESSION_TTL
      modifies this, cloud
      ensures !v.Expired? && !v.Unknown?
    {
      var _ := RefreshSessionRowAssumeLocked(h, t, fate);
      v := ValidateSessionToken(h, now, later);
    }

    /** What `_resolve_refresh_grant_session_hash` may answer with. */
    ghost predicate Resolves(cookie: Option<Hash>, presented: Option<Rotation>, h: Hash)
      reads this
    {
      && h in rows
      && (cookie == Some(h)
          || (!(cookie.Some? && cookie.value in rows) && h in refresh && h !in unreadable
              && presented == Some(refresh[h])))
    }

    /** The presented token picks one session, whatever the order of the scan. */
    lemma ResolutionIsUnique(cookie: Option<Hash>, presented: Option<Rotation>, h1: Hash, h2: Hash)
      requires Valid() && Resolves(cookie, presented, h1) && Resolves(cookie, presented, h2)
      ensures h1 == h2
    {
    }

    /**
     `byUse` lists every row's hash (`_session_rows_by_recent_use`).
     */
    method ResolveRefreshGrantSessionHash(cookie: Option<Hash>, presented: Option<Rotation>, byUse: seq<Hash>)
      returns (found: Option<Hash>)
      requires forall h :: h in rows <==> h in byUse
      ensures found.Some? ==> Resolves(cookie, presented, found.value)
      ensures found.None? ==> forall h :: !Resolves(cookie, presented, h)
    {
      if cookie.Some? && cookie.value in rows { return cookie; }
      if presented.Some? {
        for i := 0 to |byUse|
          invariant forall j :: 0 <= j < i ==> !Resolves(cookie, presented, byUse[j])
        {
          var h := byUse[i];
          if h in refresh && h !in unreadable && refresh[h] == presented.value { return Some(h); }
        }
      }
      return None;
    }

    /** What a refresh grant for session `h` leaves behind and answers. */
    twostate predicate Granted(h: Hash, now: int, fate: Fate, g: Grant)
      requires h in old(rows)
      reads this, cloud
    {
      var stranger := fate.reply.Granted? && fate.reply.user != old(rows)[h].user;
      // no other session is touched, and every stored pair stays good, save one case
      && OthersKept(h) && (!(stranger && shutdown) ==> Healthy(rows, access, refresh, cloud.sv, cloud.minted))
      // the server only ever sees the stored token
      && (cloud.seen == old(cloud.seen) || (h in old(refresh) && cloud.seen == old(cloud.seen) + [old(refresh)[h]]))
      // the answer is the session's stored pair, of one rotation, which the server accepts
      && (g.Served? ==>
            && g.h == h && h in rows && h in access && h in refresh
            && g.access == g.refresh && access[h] == g.access && refresh[h] == g.refresh && cloud.sv.Live(g.refresh))
      // each answer, exactly when
      && (g.Served? <==> old(Servable(h, now, fate)) && fate.rereads && fate.touches)
      && (g.Served? ==> g.access == if old(Due(h, now)) then old(cloud.minted) else old(access)[h])
      && (g.NoSession? <==> || old(rows)[h].expires <= now
                            || !old(EntriesPresent(h))
                            || (old(Due(h, now)) && !old(shutdown) && fate.reply.Granted? && old(ServerEnded(h)))
                            || (old(Servable(h, now, fate)) && !fate.rereads))
      // "try later" has kept the session, save when the answer was another account's
      && (g.TryLater? ==> (cloud.sv == old(cloud.sv) ==> rows == old(rows)) && (h !in rows ==> stranger))
      && (g.TryLater? && !stranger ==> h in access && h in refresh)
      && (g.NoSession? ==> shutdown || (h !in access && h !in refresh && (h in rows <==> !fate.deletes)))
      // what the session can be removed for
      && (h !in rows ==>
            || old(rows)[h].expires <= now
            || !old(EntriesPresent(h))
            || (old(Due(h, now)) && old(ServerEnded(h)))
            || stranger
            || !fate.rereads)
    }

    /** A grant has a pair to hand out: the stored one, or a new one written in full. */
    predicate Servable(h: Hash, now: int, fate: Fate)
      reads this, cloud
    {
      Unexpired(h, now) && Readable(h) && (!Due(h, now) || (RotatesOwn(h, now, fate.reply) && fate.updates))
    }

    /** A refresh grant for session `h`, under the refresh lock. */
    method GrantFor(h: Hash, now: int, fate: Fate) returns (g: Grant)
      requires Valid() && h in rows
      modifies this, cloud
      ensures Granted(h, now, fate, g)
    {
      if rows[h].expires <= now {
        var _ := DeleteSessionHash(h, fate.deletes);
        return NoSession;
      }
      var r := RefreshSessionRowAssumeLocked(h, now, fate);
      match r {
        case Transient => return TryLater;
        case Failed => return TryLater;
        case Rejected => return TryLater;      // caught as a DesktopSessionError, although the session was deleted
        case Ended => return NoSession;
        case Fresh(row, accessToken) =>
          if !fate.rereads {
            var _ := DeleteSessionHash(h, fate.deletes);
            return NoSession;
          }
          if !fate.touches { return TryLater; }
          Touch(h, now);
          return Served(h, accessToken, refresh[h]);
      }
    }

    /**
     `gotrue_refresh_grant`: the presented token, stale or not, only picks the session;
     it is never forwarded.
     */
    method GotrueRefreshGrant(cookie: Option<Hash>, presented: Option<Rotation>, byUse: seq<Hash>, now: int, fate: Fate)
      returns (g: Grant, ghost session: Option<Hash>)
      requires Valid() && forall h :: h in rows <==> h in byUse
      modifies this, cloud
      ensures session.Some? ==> old(Resolves(cookie, presented, session.value)) && Granted(session.value, now, fate, g)
      ensures session.None? ==>
                && (forall h :: !old(Resolves(cookie, presented, h)))
                && g.NoSession? && StoreKept() && Valid() && cloud.seen == old(cloud.seen)
    {
      var found := ResolveRefreshGrantSessionHash(cookie, presented, byUse);
      session := found;
      if found.None? {
        forall h ensures !old(Resolves(cookie, presented, h)) { assert !Resolves(cookie, presented, h); }
        return NoSession, None;
      }
      g := GrantFor(found.value, now, fate);
    }

    /** A session reattach may hand to the page. */
    predicate Usable(h: Hash, now: int)
      reads this
    {
      h in rows && rows[h].expires > now && Readable(h)
    }

    /** The session is found under `name` as it was under `h`, no longer under `h`, and the others are untouched. */
    twostate predicate MovedTo(h: Hash, name: Hash)
      requires h in old(rows) && h in old(access) && h in old(refresh)
      reads this
    {
      && name in rows && rows[name] == old(rows)[h] && rows - {name} == old(rows) - {h}
      && name in access && access[name] == old(access)[h] && access - {name} == old(access) - {h}
      && name in refresh && refresh[name] == old(refresh)[h] && refresh - {name} == old(refresh) - {h}
    }

    /** The pair is copied, the row renamed and the old pair removed; if the UPDATE fails the copy is removed. */
    method RenameSession(h: Hash, name: Hash, dbOk: bool) returns (ok: bool)
      requires Valid() && h in rows && h in access && h in refresh
      requires name !in rows && name !in access && name !in refresh
      modifies this
      ensures Valid() && ok == dbOk && shutdown == old(shutdown) && unreadable == old(unreadable)
      ensures !ok ==> StoreKept()
      ensures ok ==> MovedTo(h, name)
    {
      hide Healthy;
      var accessToken, refreshToken := access[h], refresh[h];
      MovedHealthy(rows, access, refresh, cloud.sv, cloud.minted, h, name);
      access := access[name := accessToken];
      refresh := refresh[name := refreshToken];
      if !dbOk {
        access := access - {name};
        refresh := refresh - {name};
        assert access == old(access) && refresh == old(refresh);
        return false;
      }
      rows := (rows - {h})[name := rows[h]];
      access := access - {h};
      refresh := refresh - {h};
      assert access == Moved(old(access), h, name) && refresh == Moved(old(refresh), h, name);
      return true;
    }

    /** `reattach_active_session`: the newest usable session gets the fresh name `name`. */
    method ReattachActiveSession(byUse: seq<Hash>, name: Hash, now: int, dbOk: bool) returns (moved: Option<Hash>)
      requires Valid() && forall h :: h in rows <==> h in byUse
      requires name !in rows && name !in access && name !in refresh && name !in unreadable
      modifies this
      ensures Valid() && shutdown == old(shutdown)
      ensures moved.None? ==> StoreKept()
      ensures moved.None? && dbOk ==> forall h :: !old(Usable(h, now))
      ensures moved.Some? ==>
                var h := moved.value;
                && dbOk && old(Usable(h, now))
                && (exists i ::
                      0 <= i < |byUse| && byUse[i] == h && forall j :: 0 <= j < i ==> !old(Usable(byUse[j], now)))
                && MovedTo(h, name)
    {
      hide Healthy;
      for i := 0 to |byUse|
        invariant forall j :: 0 <= j < i ==> !Usable(byUse[j], now)
        invariant Valid() && StoreKept()
      {
        var h := byUse[i];
        if rows[h].expires <= now { continue; }
        if h !in access || h !in refresh || h in unreadable { continue; }
        var renamed := RenameSession(h, name, dbOk);
        return if renamed then Some(h) else None;
      }
      return None;
    }

    /** `purge_user`. */
    method PurgeUser(user: User, dbOk: bool) returns (deleted: nat)
      requires Valid()
      modifies this
      ensures Valid() && shutdown == old(shutdown) && unreadable == old(unreadable)
      ensures var mine := set h | h in old(rows) && old(rows)[h].user == user;
              && access == old(access) - mine && refresh == old(refresh) - mine
              && rows == (if dbOk then old(rows) - mine else old(rows))
              && deleted == if dbOk then |mine| else 0
    {
      hide Healthy;
      var mine := set h | h in rows && rows[h].user == user;
      var todo := mine;
      while todo != {}
        invariant todo <= mine && rows == old(rows) && shutdown == old(shutdown) && unreadable == old(unreadable)
        invariant access == old(access) - (mine - todo) && refresh == old(refresh) - (mine - todo)
        decreases |todo|
      {
        var h :| h in todo;
        access, refresh, todo := access - {h}, refresh - {h}, todo - {h};
      }
      assert mine - todo == mine;
      FewerHealthy(old(rows), old(access), old(refresh), cloud.sv, cloud.minted, if dbOk then mine else {}, mine);
      assert rows - {} == rows;
      if dbOk {
        rows := rows - mine;
        deleted := |mine|;
      } else {
        deleted := 0;
      }
    }

    /** `create_session` with a fresh name for a family the store has never seen. */
    method CreateSession(name: Hash, user: User, first: Rotation, accessExpires: int, now: int, dbOk: bool)
        returns (ok: bool)
      requires Valid()
      requires name !in rows && name !in access && name !in refresh
      requires cloud.sv.Live(first)
      requires forall h :: h in rows && h in refresh ==> cloud.sv.familyOf[refresh[h]] != cloud.sv.familyOf[first]
      modifies this
      ensures Valid() && shutdown == old(shutdown) && ok == dbOk
      ensures !ok ==> StoreKept()
      ensures ok ==>
                && rows == old(rows)[name := Row(user, now, now, now + LOCAL_SESSION_TTL, accessExpires)]
                && access == old(access)[name := first] && refresh == old(refresh)[name := first]
    {
      access := access[name := first];
      refresh := refresh[name := first];
      if dbOk {
        rows := rows[name := Row(user, now, now, now + LOCAL_SESSION_TTL, accessExpires)];
      } else {
        access := access - {name};
        refresh := refresh - {name};
      }
      ok := dbOk;
    }
  }
}
