/** Runs that reach the corners of the code, statement by statement. */
module SessionCorners {
  import opened Common
  import opened SessionModel
  import opened SessionProtocol
  import opened SessionInvariant
  import opened SessionRuns
  import opened SessionTheorems
  import opened SessionShutdown
  import opened SessionReach

  // ------------------------------------------------- a dead token is replayed

  lemma GrantStarts(z: State, a: State, t: Tid, h: Hash) returns (r: State)
    requires Reaches(z, a) && t in a.pcs && a.pcs[t].Idle? && a.serial.None?
    ensures Reaches(z, r) && r == a.(pcs := a.pcs[t := GResolve(Some(h), None)], serial := Some(t))
  {
    hide NextValidate, NextSection, NextDelete, NextPurge, NextCreate, NextReattach, NextShutdown, Learn, Touched,
         Reaches;
    r := Act(z, a, t, Choice(GWait(Some(h), None), true, Lost, None), Go(a.sh, GWait(Some(h), None)));
    r := Act(z, r, t, FINE, Out(a.sh, GResolve(Some(h), None), Take, Keep));
  }

  /** A refresh grant for a live session gets as far as the refresh section. */
  lemma GrantEnters(z: State, a: State, t: Tid, h: Hash) returns (r: State)
    requires Reaches(z, a) && t in a.pcs && a.pcs[t].Idle? && a.serial.None? && h in a.sh.rows
             && a.sh.rows[h].expires > a.sh.now
    ensures Reaches(z, r) && r == a.(pcs := r.pcs, serial := Some(t)) && r.pcs.Keys == a.pcs.Keys
    ensures r.pcs[t] == CRow(h, true) && forall u :: u in a.pcs && u != t ==> r.pcs[u] == a.pcs[u]
  {
    hide NextValidate, NextSection, NextDelete, NextPurge, NextCreate, NextReattach, NextShutdown, Learn, Touched,
         Reaches;
    r := GrantStarts(z, a, t, h);
    r := Act(z, r, t, FINE, Go(a.sh, GRow(h)));
    r := Act(z, r, t, FINE, Go(a.sh, CRow(h, true)));
  }

  lemma SectionReadsOn(a: State, s: State, t: Tid, h: Hash, g: bool) returns (r: State)
    requires Reaches(a, s) && t in s.pcs && s.pcs[t] == CRow(h, g) && h in s.sh.rows && h in s.sh.access
             && h in s.sh.refresh
    ensures Reaches(a, r) && r == s.(pcs := r.pcs) && r.pcs.Keys == s.pcs.Keys
            && (forall u :: u in s.pcs && u != t ==> r.pcs[u] == s.pcs[u])
    ensures r.pcs[t] == CSkew(h, g, s.sh.rows[h], s.sh.access[h], s.sh.refresh[h])
  {
    hide NextValidate, NextGrant, NextDelete, NextPurge, NextCreate, NextReattach, NextShutdown, Post, Updated, Reaches;
    r := Act(a, s, t, FINE, Go(s.sh, CAccess(h, g, s.sh.rows[h])));
    r := Act(a, r, t, FINE, Go(s.sh, CRefresh(h, g, s.sh.rows[h], Some(s.sh.access[h]))));
    r := Act(a, r, t, FINE, Go(s.sh, CSkew(h, g, s.sh.rows[h], s.sh.access[h], s.sh.refresh[h])));
  }

  /** The section, entered for a session whose access token is due, gets as far as the POST. */
  lemma SectionComesToPost(a: State, s: State, t: Tid, h: Hash, g: bool) returns (r: State)
    requires Reaches(a, s) && t in s.pcs && s.pcs[t] == CRow(h, g) && !s.sh.shutdown
    requires h in s.sh.rows && h in s.sh.access && h in s.sh.refresh
    requires s.sh.rows[h].accessExpires <= s.sh.now + ACCESS_REFRESH_SKEW
    ensures Reaches(a, r) && r == s.(pcs := r.pcs) && r.pcs.Keys == s.pcs.Keys
            && (forall u :: u in s.pcs && u != t ==> r.pcs[u] == s.pcs[u])
    ensures r.pcs[t] == CPost(h, g, s.sh.rows[h], s.sh.refresh[h])
  {
    hide NextValidate, NextGrant, NextDelete, NextPurge, NextCreate, NextReattach, NextShutdown, Post, Updated, Reaches;
    r := SectionReadsOn(a, s, t, h, g);
    r := Act(a, r, t, FINE, Go(s.sh, CShutdown(h, g, s.sh.rows[h], s.sh.refresh[h])));
    r := Act(a, r, t, FINE, Go(s.sh, CPost(h, g, s.sh.rows[h], s.sh.refresh[h])));
  }

  lemma PostReplays(a: State, s: State, t: Tid) returns (r: State)
    requires Reaches(a, s) && t in s.pcs && s.pcs[t].CPost?
    requires s.pcs[t].t in s.sh.server.familyOf && !s.sh.server.Live(s.pcs[t].t)
    ensures Reaches(a, r) && r.sh.server.replayed != {}
  {
    hide NextValidate, NextGrant, NextDelete, NextPurge, NextCreate, NextReattach, NextShutdown, Updated;
    var c := Choice(Idle, true, Granted(0, 0), None);
    r := Act(a, s, t, c, Next(s.sh, s.pcs[t], c));
    assert s.sh.server.familyOf[s.pcs[t].t] in r.sh.server.replayed;
  }

  lemma TokensHaveFamilies(s: State, h: Hash)
    requires Inv(s) && h in s.sh.refresh
    ensures s.sh.refresh[h] in s.sh.server.familyOf
  {
    assert OfFamily(s.sh.owner, s.sh.server, h, s.sh.refresh[h]);
  }

  /** And when one is, a launch right after the True answer can replay it: one refresh grant is enough. */
  lemma ReplayableIsReplayed(s: State, t: Tid, h: Hash) returns (later: seq<Event>)
    requires Inv(s) && t in s.pcs && Replayable(s.sh, h)
    ensures Execute(Restart(s), later).sh.server.replayed != {}
  {
    TokensHaveFamilies(s, h);
    var a := Restart(s);
    hide Inv, Step;
    ReachSelf(a);
    var r := GrantEnters(a, a, t, h);
    var to := if a.sh.now < a.sh.rows[h].accessExpires then a.sh.rows[h].accessExpires else a.sh.now;
    r := Waited(a, r, to);
    r := SectionComesToPost(a, r, t, h, true);
    r := PostReplays(a, r, t);
    later :| Execute(a, later) == r;
  }

  /**
   The condition at the True answer is exact: no way to die after it and no
   interleaving of the next launch replays a token if and only if no unexpired
   session holds a token pair the server has rotated away.
   */
  lemma SafeToQuitExactlyWhen(s: State)
    requires Inv(s) && s.sh.quiesced && s.pcs != map[]
    ensures NothingReplayable(s.sh)
            <==> forall es, later :: Execute(Restart(Execute(s, es)), later).sh.server.replayed == {}
  {
    hide Inv, Step, Execute;
    if NothingReplayable(s.sh) {
      forall es, later ensures Execute(Restart(Execute(s, es)), later).sh.server.replayed == {} {
        SafeToQuit(s, es, later);
      }
    } else {
      var h :| Replayable(s.sh, h);
      var t :| t in s.pcs;
      var later := ReplayableIsReplayed(s, t, h);
      Nowhere(s);
      assert Execute(Restart(Execute(s, [])), later).sh.server.replayed != {};
    }
  }

  lemma Nowhere(s: State)
    ensures Execute(s, []) == s
  {
  }

  // ------------------------------------------------------- ways to lose a session

  /** A delete that is neither skipped nor hindered takes the row, for the fact it carries. */
  lemma DeleteTakesTheRow(z: State, s: State, t: Tid) returns (r: State)
    requires Reaches(z, s) && t in s.pcs && s.pcs[t].DCheck? && !s.sh.shutdown && s.lock.None?
             && s.pcs[t].h in s.sh.rows
    ensures Reaches(z, r)
    ensures var h := s.pcs[t].h;
            && h in r.sh.gone && h !in r.sh.rows && h in r.sh.causes && r.sh.causes[h] == s.pcs[t].why
            && r.sh.renamed == s.sh.renamed && r.sh.server == s.sh.server && r.sh.now == s.sh.now
            && r.sh.facts == s.sh.facts && r.lock.None?
            && r.sh.rows == s.sh.rows - {h} && r.sh.access == s.sh.access - {h} && r.sh.refresh == s.sh.refresh - {h}
            && r.pcs == s.pcs[t := Done(s.pcs[t].sec)] && r.serial == s.serial
  {
    hide NextValidate, NextSection, NextGrant, NextPurge, NextCreate, NextReattach, NextShutdown, Post, Removed,
         Without, Reaches;
    r := DeleteTakesTheLock(z, s, t);
    var pc := s.pcs[t];
    r := Act(z, r, t, FINE, Go(s.sh, DAccess(pc.h, pc.sec, pc.why)));
    r := DeleteEmptiesIt(z, r, t);
  }

  lemma DeleteTakesTheLock(z: State, s: State, t: Tid) returns (r: State)
    requires Reaches(z, s) && t in s.pcs && s.pcs[t].DCheck? && !s.sh.shutdown && s.lock.None?
    ensures var pc := s.pcs[t]; Reaches(z, r) && r == s.(pcs := s.pcs[t := DRow(pc.h, pc.sec, pc.why)], lock := Some(t))
  {
    hide NextValidate, NextSection, NextGrant, NextPurge, NextCreate, NextReattach, NextShutdown, Removed, Without,
         Reaches;
    var pc := s.pcs[t];
    r := Act(z, s, t, FINE, Go(s.sh, DWait(pc.h, pc.sec, pc.why)));
    r := Act(z, r, t, FINE, Out(s.sh, DRow(pc.h, pc.sec, pc.why), Keep, Take));
  }

  lemma DropsAccess(z: State, s: State, t: Tid) returns (r: State)
    requires Reaches(z, s) && t in s.pcs && s.pcs[t].DAccess?
    ensures var pc := s.pcs[t];
            Reaches(z, r)
                && r == s.(sh := s.sh.(access := Without(s.sh.access, pc.h)),
                           pcs := s.pcs[t := DRefresh(pc.h, pc.sec, pc.why)])
  {
    hide NextValidate, NextSection, NextGrant, NextPurge, NextCreate, NextReattach, NextShutdown, Post, Removed,
         Without, Reaches;
    var pc := s.pcs[t];
    r := Act(z, s, t, FINE, Go(s.sh.(access := Without(s.sh.access, pc.h)), DRefresh(pc.h, pc.sec, pc.why)));
  }

  lemma DropsRefresh(z: State, s: State, t: Tid) returns (r: State)
    requires Reaches(z, s) && t in s.pcs && s.pcs[t].DRefresh?
    ensures var pc := s.pcs[t];
            Reaches(z, r)
                && r == s.(sh := s.sh.(refresh := Without(s.sh.refresh, pc.h)),
                           pcs := s.pcs[t := DRemove(pc.h, pc.sec, pc.why)])
  {
    hide NextValidate, NextSection, NextGrant, NextPurge, NextCreate, NextReattach, NextShutdown, Post, Removed,
         Without, Reaches;
    var pc := s.pcs[t];
    r := Act(z, s, t, FINE, Go(s.sh.(refresh := Without(s.sh.refresh, pc.h)), DRemove(pc.h, pc.sec, pc.why)));
  }

  lemma DropsRow(z: State, s: State, t: Tid) returns (r: State)
    requires Reaches(z, s) && t in s.pcs && s.pcs[t].DRemove? && s.pcs[t].h in s.sh.rows
    ensures var pc := s.pcs[t];
            Reaches(z, r)
                && r == State(Removed(s.sh, {pc.h}, map[pc.h := pc.why]), s.pcs[t := Done(pc.sec)], s.serial, None)
  {
    hide NextValidate, NextSection, NextGrant, NextPurge, NextCreate, NextReattach, NextShutdown, Post, Removed,
         Without, Reaches;
    var pc := s.pcs[t];
    r := Act(z, s, t, FINE, Out(Removed(s.sh, {pc.h}, map[pc.h := pc.why]), Done(pc.sec), Keep, Free));
  }

  lemma DeleteEmptiesIt(z: State, s: State, t: Tid) returns (r: State)
    requires Reaches(z, s) && t in s.pcs && s.pcs[t].DAccess? && s.pcs[t].h in s.sh.rows
    ensures Reaches(z, r)
    ensures var h := s.pcs[t].h;
            && h in r.sh.gone && h !in r.sh.rows && h in r.sh.causes && r.sh.causes[h] == s.pcs[t].why
            && r.sh.renamed == s.sh.renamed && r.sh.server == s.sh.server && r.sh.now == s.sh.now
            && r.sh.facts == s.sh.facts && r.lock.None?
            && r.sh.rows == s.sh.rows - {h} && r.sh.access == s.sh.access - {h} && r.sh.refresh == s.sh.refresh - {h}
            && r.pcs == s.pcs[t := Done(s.pcs[t].sec)] && r.serial == s.serial
  {
    hide Reaches, Without;
    r := DropsAccess(z, s, t);
    r := DropsRefresh(z, r, t);
    r := DropsRow(z, r, t);
  }

  /**
   Validation decides on the row it read, without a lock: a session whose expiry a
   refresh has moved into the future since that read is deleted all the same.
   */
  lemma RenewedRowIsDropped(s: State, t: Tid) returns (r: State)
    requires t in s.pcs && s.pcs[t].VExpiry? && s.pcs[t].row.expires <= s.sh.now && s.lock.None? && !s.sh.shutdown
    requires s.pcs[t].h in s.sh.rows && s.sh.rows[s.pcs[t].h].expires > s.sh.now
    ensures Reaches(s, r) && s.pcs[t].h in r.sh.gone && s.pcs[t].h !in r.sh.rows && r.sh.now == s.sh.now
            && r.sh.renamed == s.sh.renamed
  {
    hide NextSection, NextGrant, NextDelete, NextPurge, NextCreate, NextReattach, NextShutdown, Post;
    var pc := s.pcs[t];
    ReachSelf(s);
    r := Act(s, s, t, FINE, Drop(s.sh, SawExpired(pc.h, pc.row.expires, s.sh.now), false));
    hide NextValidate;
    r := DeleteTakesTheRow(s, r, t);
  }

  /**
   A session one of whose token entries was already missing at launch is deleted by
   the first validation of it, although it has not expired, nobody asked, and
   nothing else was found out about it.
   */
  lemma BareSessionEnds(s: State, t: Tid, h: Hash) returns (r: State)
    requires Boot(s) && t in s.pcs && h in Bare(s.sh) && s.sh.rows[h].expires > s.sh.now
    ensures Reaches(s, r) && h in r.sh.gone && h !in r.sh.renamed && h in r.sh.causes && r.sh.causes[h] == Missing(h)
    ensures r.sh.facts == {} && r.sh.server == s.sh.server && r.sh.now == s.sh.now
  {
    ReachSelf(s);
    hide Global, Reaches;
    r := ValidationReads(s, s, t, h);
    r := ValidationMisses(s, r, t);
    r := DeleteTakesTheRow(s, r, t);
  }

  lemma ValidationMisses(z: State, s: State, t: Tid) returns (r: State)
    requires Reaches(z, s) && t in s.pcs && s.pcs[t].VExpiry? && s.pcs[t].row.expires > s.sh.now
             && s.pcs[t].h in Bare(s.sh)
    ensures Reaches(z, r) && r == s.(pcs := s.pcs[t := DCheck(s.pcs[t].h, false, Missing(s.pcs[t].h))])
  {
    hide NextSection, NextGrant, NextDelete, NextPurge, NextCreate, NextReattach, NextShutdown, Post, Learn, Touched,
         Reaches;
    var pc := s.pcs[t];
    r := Act(z, s, t, FINE, Go(s.sh, VAccess(pc.h, pc.row, s.sh.now)));
    r := Act(z, r, t, FINE, Go(s.sh, VRefresh(pc.h, pc.row, s.sh.now, pc.h in s.sh.access)));
    r := Act(z, r, t, FINE, Go(s.sh, VPresent(pc.h)));
    r := Act(z, r, t, FINE, Go(s.sh, DCheck(pc.h, false, Missing(pc.h))));
  }

  /** The state after a session was created. */
  function Created(sh: Shared, u: User, exp: int): Shared {
    var f := Founded(sh);
    f.(access := f.access[sh.nextHash := sh.nextRotation], refresh := f.refresh[sh.nextHash := sh.nextRotation],
       rows := f.rows[sh.nextHash := Row(u, sh.now, sh.now, sh.now + LOCAL_SESSION_TTL, exp)])
  }

  lemma CreateFounds(z: State, s: State, t: Tid, u: User, exp: int) returns (r: State)
    requires Reaches(z, s) && t in s.pcs && s.pcs[t].Idle? && s.lock.None?
    ensures Reaches(z, r)
    ensures r == s.(sh := Founded(s.sh), pcs := s.pcs[t := KStoreAccess(s.sh.nextHash, u, s.sh.nextRotation, exp)],
                    lock := Some(t))
  {
    hide NextValidate, NextSection, NextDelete, NextPurge, NextReattach, NextShutdown, Post, Founded, Learn, Reaches;
    r := Act(z, s, t, Choice(KWait(u, exp), true, Lost, None), Go(s.sh, KWait(u, exp)));
    r := Act(z, r, t, FINE, Out(Founded(s.sh), KStoreAccess(s.sh.nextHash, u, s.sh.nextRotation, exp), Keep, Take));
  }

  lemma CreateStores(z: State, s: State, t: Tid) returns (r: State)
    requires Reaches(z, s) && t in s.pcs && s.pcs[t].KStoreAccess?
    ensures var pc := s.pcs[t];
            Reaches(z, r)
                && r == s.(sh := s.sh.(access := s.sh.access[pc.h := pc.r], refresh := s.sh.refresh[pc.h := pc.r]),
                                     pcs := s.pcs[t := KInsert(pc.h, pc.u, pc.r, pc.exp)])
  {
    hide NextValidate, NextSection, NextDelete, NextPurge, NextReattach, NextShutdown, Post, Founded, Reaches;
    var pc := s.pcs[t];
    var sh := s.sh.(access := s.sh.access[pc.h := pc.r]);
    r := Act(z, s, t, FINE, Go(sh, KStoreRefresh(pc.h, pc.u, pc.r, pc.exp)));
    r := Act(z, r, t, FINE, Go(sh.(refresh := sh.refresh[pc.h := pc.r]), KInsert(pc.h, pc.u, pc.r, pc.exp)));
  }

  lemma CreateInserts(z: State, s: State, t: Tid) returns (r: State)
    requires Reaches(z, s) && t in s.pcs && s.pcs[t].KInsert?
    ensures var pc := s.pcs[t];
            Reaches(z, r)
                && r == State(s.sh.(rows :=
                                    s.sh.rows[pc.h :=
                                              Row(pc.u, s.sh.now, s.sh.now, s.sh.now + LOCAL_SESSION_TTL, pc.exp)]),
                                        s.pcs[t := Idle], s.serial, None)
  {
    hide NextValidate, NextSection, NextDelete, NextPurge, NextReattach, NextShutdown, Post, Founded, Reaches;
    var pc := s.pcs[t];
    r := Act(z, s, t, FINE,
             Out(s.sh.(rows := s.sh.rows[pc.h := Row(pc.u, s.sh.now, s.sh.now, s.sh.now + LOCAL_SESSION_TTL, pc.exp)]),
                 Idle, Keep, Free));
  }

  lemma SessionIsCreated(z: State, s: State, t: Tid, u: User, exp: int) returns (r: State)
    requires Reaches(z, s) && t in s.pcs && s.pcs[t].Idle? && s.lock.None?
    ensures Reaches(z, r) && r == s.(sh := Created(s.sh, u, exp), pcs := r.pcs) && r.pcs.Keys == s.pcs.Keys
    ensures r.pcs[t] == Idle && forall v :: v in s.pcs && v != t ==> r.pcs[v] == s.pcs[v]
  {
    hide Reaches, Founded;
    FoundedClock(s.sh);
    r := CreateFounds(z, s, t, u, exp);
    r := CreateStores(z, r, t);
    r := CreateInserts(z, r, t);
  }

  lemma FoundedClock(sh: Shared)
    ensures Founded(sh).now == sh.now && Founded(sh).rows == sh.rows && Founded(sh).refresh == sh.refresh
            && Founded(sh).access == sh.access
  {
  }

  /** The new session's token is the one the server accepts. */
  lemma CreatedIsLive(sh: Shared, u: User, exp: int)
    ensures var b := Created(sh, u, exp); var h := sh.nextHash;
            && h in b.rows && b.rows[h] == Row(u, sh.now, sh.now, sh.now + LOCAL_SESSION_TTL, exp)
            && h in b.access && h in b.refresh && b.refresh[h] == sh.nextRotation && h in b.owner
               && b.owner[h] == sh.nextFamily
            && b.server.Live(sh.nextRotation) && b.server.ended == sh.server.ended
               && b.server.replayed == sh.server.replayed
            && b.server.familyOf[sh.nextRotation] == sh.nextFamily
            && b.now == sh.now && b.shutdown == sh.shutdown && b.renamed == sh.renamed
               && b.nextRotation == sh.nextRotation + 1
  {
  }

  /**
   A session whose stored refresh token cannot be read at one moment of a refresh
   grant is deleted, although its row has not expired, its token entries are
   there, and the server still accepts the token and has not ended the family.
   */
  lemma UnreadableTokenEndsASession(s: State, t: Tid) returns (r: State, h: Hash)
    requires Boot(s) && t in s.pcs && s.sh.nextFamily !in s.sh.server.ended
    ensures Reaches(s, r) && h in r.sh.gone && h !in r.sh.rows && h !in r.sh.renamed && h in r.sh.causes
            && r.sh.causes[h] == SawUnreadable(h)
    ensures r.sh.server.Live(s.sh.nextRotation) && r.sh.server.familyOf[s.sh.nextRotation] !in r.sh.server.ended
            && r.sh.now == s.sh.now
  {
    h := s.sh.nextHash;
    var exp := s.sh.now + ACCESS_REFRESH_SKEW + 1;
    NewHashIsUnused(s);
    ReachSelf(s);
    hide Global;
    r := SessionIsCreated(s, s, t, 0, exp);
    CreatedIsLive(s.sh, 0, exp);
    hide Created;
    var sh := r.sh;
    r := GrantEnters(s, r, t, h);
    r := SectionReadsOn(s, r, t, h, true);
    r := GrantCannotRead(s, r, t);
    r := DeleteTakesTheRow(s, r, t);
  }

  lemma NewHashIsUnused(s: State)
    requires Boot(s)
    ensures s.sh.nextHash !in s.sh.renamed && s.serial.None? && s.lock.None? && !s.sh.shutdown
  {
  }

  lemma GrantCannotRead(z: State, s: State, t: Tid) returns (r: State)
    requires Reaches(z, s) && t in s.pcs && s.pcs[t].CSkew? && s.pcs[t].g && s.pcs[t].h in s.sh.refresh
    requires s.pcs[t].row.accessExpires > s.sh.now + ACCESS_REFRESH_SKEW
    ensures Reaches(z, r) && r.sh == Learn(s.sh, SawUnreadable(s.pcs[t].h)) && r.lock == s.lock && t in r.pcs
    ensures r.pcs[t] == DCheck(s.pcs[t].h, true, SawUnreadable(s.pcs[t].h))
  {
    hide NextValidate, NextDelete, NextPurge, NextCreate, NextReattach, NextShutdown, Post, Updated, Learn;
    var pc := s.pcs[t];
    r := Act(z, s, t, FINE, Go(s.sh, GRead(pc.h, pc.a)));
    hide NextSection;
    r := Act(z, r, t, Choice(Idle, false, Lost, None), Drop(s.sh, SawUnreadable(pc.h), true));
  }

  // ----------------------------------------------------------- a refresh, up to and past the answer

  /** The server rotates the token of a family it still honours. */
  lemma PostAnswers(z: State, s: State, t: Tid, user: User, exp: int) returns (r: State)
    requires Reaches(z, s) && t in s.pcs && s.pcs[t].CPost? && s.sh.server.Live(s.pcs[t].t)
    requires s.sh.server.familyOf[s.pcs[t].t] !in s.sh.server.ended + s.sh.server.replayed
    ensures var pc := s.pcs[t];
            Reaches(z, r) && r.pcs == s.pcs[t := CAnswered(pc.h, pc.g, pc.row, s.sh.nextRotation, user, exp)]
            && r.serial == s.serial && r.lock == s.lock && SameRows(s.sh, r.sh) && r.sh.refresh == s.sh.refresh
            && r.sh.access == s.sh.access && r.sh.grants == s.sh.grants && r.sh.posts == s.sh.posts + 1
            && r.sh.server.Live(s.sh.nextRotation)
  {
    hide NextValidate, NextGrant, NextDelete, NextPurge, NextCreate, NextReattach, NextShutdown, Updated, Learn,
         Reaches;
    var c := Choice(Idle, true, Granted(user, exp), None);
    r := Act(z, s, t, c, Next(s.sh, s.pcs[t], c));
  }

  /** What the steps of a refresh leave alone. */
  predicate SameRows(a: Shared, b: Shared) {
    b.rows == a.rows && b.now == a.now && b.shutdown == a.shutdown && b.owner == a.owner && b.renamed == a.renamed
        && b.gone == a.gone
  }

  /** The pair is stored and the row updated. */
  lemma AnswerIsStored(z: State, s: State, t: Tid) returns (r: State)
    requires Reaches(z, s) && t in s.pcs && s.pcs[t].CAnswered? && s.pcs[t].user == s.pcs[t].row.user
    ensures var pc := s.pcs[t];
            Reaches(z, r) && r.pcs == s.pcs[t := CUpdate(pc.h, pc.g, pc.row, pc.next, pc.exp)]
            && r.serial == s.serial && r.lock == s.lock && SameRows(s.sh, r.sh) && r.sh.server == s.sh.server
            && r.sh.grants == s.sh.grants && r.sh.access == s.sh.access[pc.h := pc.next]
               && r.sh.refresh == s.sh.refresh[pc.h := pc.next]
  {
    hide NextValidate, NextGrant, NextDelete, NextPurge, NextCreate, NextReattach, NextShutdown, Post, Updated, Learn,
         Reaches;
    var pc := s.pcs[t];
    r := Act(z, s, t, FINE, Go(s.sh, CStoreAccess(pc.h, pc.g, pc.row, pc.next, pc.exp)));
    var sh := s.sh.(access := s.sh.access[pc.h := pc.next]);
    r := Act(z, r, t, FINE, Go(sh, CStoreRefresh(pc.h, pc.g, pc.row, pc.next, pc.exp)));
    r := Act(z, r, t, FINE,
             Go(sh.(refresh := sh.refresh[pc.h := pc.next]), CUpdate(pc.h, pc.g, pc.row, pc.next, pc.exp)));
  }

  /** The row of a refreshed session lasts a whole local lifetime from then on. */
  lemma UpdateRenews(z: State, s: State, t: Tid) returns (r: State)
    requires Reaches(z, s) && t in s.pcs && s.pcs[t].CUpdate? && s.pcs[t].h in s.sh.rows
    requires s.sh.rows[s.pcs[t].h].user == s.pcs[t].row.user
    ensures var pc := s.pcs[t];
            && Reaches(z, r)
            && r.pcs == s.pcs[t := if pc.g then GRead(pc.h, pc.next) else CRelease(Some(pc.h))]
            && r.serial == s.serial && r.lock == s.lock && r.sh.now == s.sh.now && r.sh.shutdown == s.sh.shutdown
            && r.sh.renamed == s.sh.renamed && r.sh.access == s.sh.access && r.sh.refresh == s.sh.refresh
            && r.sh.server == s.sh.server && r.sh.grants == s.sh.grants
            && r.sh.rows == s.sh.rows[pc.h := Row(pc.row.user, s.sh.rows[pc.h].created, s.sh.now,
                                                  s.sh.now + 30 * 24 * 60 * 60 * SECOND, pc.exp)]
  {
    hide NextValidate, NextGrant, NextDelete, NextPurge, NextCreate, NextReattach, NextShutdown, Post, Learn, Reaches;
    var pc := s.pcs[t];
    r := Act(z, s, t, FINE,
             Go(Updated(s.sh, pc.h, pc.row.user, pc.exp), if pc.g then GRead(pc.h, pc.next) else CRelease(Some(pc.h))));
  }

  lemma ValidationReads(z: State, s: State, t: Tid, h: Hash) returns (r: State)
    requires Reaches(z, s) && t in s.pcs && s.pcs[t].Idle? && h in s.sh.rows
    ensures Reaches(z, r) && r == s.(pcs := s.pcs[t := VExpiry(h, s.sh.rows[h])])
  {
    hide NextSection, NextGrant, NextDelete, NextPurge, NextCreate, NextReattach, NextShutdown, Post, Learn, Reaches;
    r := Act(z, s, t, Choice(VRow(h), true, Lost, None), Go(s.sh, VRow(h)));
    r := Act(z, r, t, FINE, Go(s.sh, VExpiry(h, s.sh.rows[h])));
  }

  /** A session of account 0 whose access token is due at once. */
  lemma DueSession(z: State, t: Tid) returns (r: State, h: Hash)
    requires Boot(z) && t in z.pcs
    ensures Reaches(z, r) && r.pcs.Keys == z.pcs.Keys && (forall v :: v in r.pcs ==> r.pcs[v] == Idle)
    ensures r.serial.None? && r.lock.None? && !r.sh.shutdown && r.sh.now == z.sh.now && h !in r.sh.renamed
    ensures h in r.sh.rows && r.sh.rows[h] == Row(0, z.sh.now, z.sh.now, z.sh.now + LOCAL_SESSION_TTL, z.sh.now)
    ensures h in r.sh.access && h in r.sh.refresh && r.sh.server.Live(r.sh.refresh[h])
    ensures r.sh.server.familyOf[r.sh.refresh[h]] == z.sh.nextFamily && r.sh.server.ended == z.sh.server.ended
            && r.sh.server.replayed == {}
  {
    h := z.sh.nextHash;
    NewHashIsUnused(z);
    ReachSelf(z);
    CreatedIsLive(z.sh, 0, z.sh.now);
    assert forall v :: v in z.pcs ==> z.pcs[v] == Idle;
    hide Global, Reaches, Created;
    r := SessionIsCreated(z, z, t, 0, z.sh.now);
  }

  /** Thread `t` asks for that session's tokens and the server answers, for account `user`. */
  lemma DueSessionIsAnswered(z: State, s: State, t: Tid, h: Hash, user: User, exp: int) returns (r: State)
    requires Reaches(z, s) && t in s.pcs && s.pcs[t].Idle? && s.serial.None? && !s.sh.shutdown
    requires h in s.sh.rows && s.sh.rows[h].expires > s.sh.now && s.sh.rows[h].accessExpires <= s.sh.now
    requires h in s.sh.access && h in s.sh.refresh && s.sh.server.Live(s.sh.refresh[h])
    requires s.sh.server.familyOf[s.sh.refresh[h]] !in s.sh.server.ended + s.sh.server.replayed
    ensures Reaches(z, r) && r.pcs.Keys == s.pcs.Keys && (forall v :: v in s.pcs && v != t ==> r.pcs[v] == s.pcs[v])
    ensures r.pcs[t] == CAnswered(h, true, s.sh.rows[h], s.sh.nextRotation, user, exp)
    ensures SameRows(s.sh, r.sh) && r.sh.access == s.sh.access && r.sh.refresh == s.sh.refresh && r.lock == s.lock
            && r.serial == Some(t)
    ensures r.sh.server.Live(s.sh.nextRotation)
  {
    hide Reaches;
    r := GrantEnters(z, s, t, h);
    r := SectionComesToPost(z, r, t, h, true);
    r := PostAnswers(z, r, t, user, exp);
  }

  /**
   `RenewedRowIsDropped` happens: `t` reads the row, `u` renews it for thirty days,
   the old expiry passes, and `t` deletes a session that has most of them left.
   */
  lemma RenewedRowIsReached(s: State, t: Tid, u: Tid) returns (m: State, r: State, h: Hash)
    requires Boot(s) && t in s.pcs && u in s.pcs && t != u && s.sh.nextFamily !in s.sh.server.ended
    ensures Reaches(s, m) && h in m.sh.rows && m.sh.rows[h].expires > m.sh.now
    ensures Reaches(m, r) && r.sh.now == m.sh.now && h in r.sh.gone && h !in r.sh.rows && h !in r.sh.renamed
  {
    hide Global, Reaches;
    m, h := DueSession(s, t);
    var row := m.sh.rows[h];
    m := ValidationReads(s, m, t, h);
    m := Waited(s, m, s.sh.now + 1);
    m := DueSessionIsAnswered(s, m, u, h, 0, s.sh.now);
    m := AnswerIsStored(s, m, u);
    m := UpdateRenews(s, m, u);
    m := Waited(s, m, row.expires);
    r := RenewedRowIsDropped(m, t);
  }

  // ----------------------------------------------------------- what a clean shutdown leaves behind

  /**
   Why the handshake waits: dying between GoTrue's answer and the write of the
   rotated refresh token leaves a session the next launch replays.
   */
  lemma UnwrittenRotationIsLost(s: State, t: Tid) returns (later: seq<Event>)
    requires Inv(s) && t in s.pcs && (s.pcs[t].CAnswered? || s.pcs[t].CStoreAccess? || s.pcs[t].CStoreRefresh?)
    requires var h := s.pcs[t].h;
             h in s.sh.rows && h in s.sh.access && h in s.sh.refresh && s.sh.rows[h].expires > s.sh.now
    ensures Replayable(s.sh, s.pcs[t].h) && Execute(Restart(s), later).sh.server.replayed != {}
  {
    SpentWhenAnswered(s, t);
    hide Inv, Execute;
    later := ReplayableIsReplayed(s, t, s.pcs[t].h);
  }

  lemma SpentWhenAnswered(s: State, t: Tid)
    requires Inv(s) && t in s.pcs && (s.pcs[t].CAnswered? || s.pcs[t].CStoreAccess? || s.pcs[t].CStoreRefresh?)
    ensures SpentAt(s.sh, s.pcs[t].h) && s.pcs[t].h in s.sh.owner && s.serial == Some(t) && t in s.pcs
  {
    assert ThreadInv(s.sh, s.pcs[t]) && HoldsSerial(s.pcs[t]);
  }

  /** The refresh is abandoned: the tokens are another account's, and once the flag is set the delete is skipped. */
  lemma StrangerIsKept(z: State, s: State, t: Tid) returns (r: State)
    requires Reaches(z, s) && t in s.pcs && s.pcs[t].CAnswered? && s.pcs[t].user != s.pcs[t].row.user && s.sh.shutdown
    ensures Reaches(z, r) && r.pcs == s.pcs[t := Idle] && r.serial.None? && r.lock == s.lock
    ensures SameRows(s.sh, r.sh) && r.sh.access == s.sh.access && r.sh.refresh == s.sh.refresh
            && r.sh.server == s.sh.server
  {
    hide Reaches;
    r := StrangerIsSeen(z, s, t);
    r := DeleteIsSkipped(z, r, t);
  }

  lemma StrangerIsSeen(z: State, s: State, t: Tid) returns (r: State)
    requires Reaches(z, s) && t in s.pcs && s.pcs[t].CAnswered? && s.pcs[t].user != s.pcs[t].row.user
    ensures Reaches(z, r) && r.pcs == s.pcs[t := DCheck(s.pcs[t].h, true, SawStranger(s.pcs[t].h))]
            && r.serial == s.serial && r.lock == s.lock
    ensures SameRows(s.sh, r.sh) && r.sh.access == s.sh.access && r.sh.refresh == s.sh.refresh
            && r.sh.server == s.sh.server
  {
    hide NextValidate, NextGrant, NextDelete, NextPurge, NextCreate, NextReattach, NextShutdown, Post, Updated, Reaches;
    r := Act(z, s, t, FINE, Next(s.sh, s.pcs[t], FINE));
  }

  lemma DeleteIsSkipped(z: State, s: State, t: Tid) returns (r: State)
    requires Reaches(z, s) && t in s.pcs && s.pcs[t].DCheck? && s.pcs[t].sec && s.sh.shutdown
    ensures Reaches(z, r) && r == State(s.sh, s.pcs[t := Idle], None, s.lock)
  {
    hide NextValidate, NextGrant, NextPurge, NextCreate, NextReattach, NextShutdown, Post, Updated, Learn, Reaches;
    r := Act(z, s, t, FINE, Go(s.sh, CRelease(None)));
    r := Act(z, r, t, FINE, Out(s.sh, Idle, Free, Keep));
  }

  lemma FlagIsSet(z: State, s: State, u: Tid) returns (r: State)
    requires Reaches(z, s) && u in s.pcs && s.pcs[u].Idle?
    ensures Reaches(z, r) && r == s.(sh := s.sh.(shutdown := true), pcs := s.pcs[u := SWait])
  {
    hide NextValidate, NextSection, NextGrant, NextDelete, NextPurge, NextCreate, NextReattach, Post, Updated, Learn,
         Reaches;
    r := Act(z, s, u, Choice(SFlag, true, Lost, None), Go(s.sh, SFlag));
    r := Act(z, r, u, FINE, Go(s.sh.(shutdown := true), SWait));
  }

  lemma HandshakeEnds(z: State, s: State, u: Tid) returns (r: State)
    requires Reaches(z, s) && u in s.pcs && s.pcs[u].SWait? && s.serial.None?
    ensures Reaches(z, r) && r == s.(sh := s.sh.(quiesced := true), pcs := s.pcs[u := Idle])
  {
    hide NextValidate, NextSection, NextGrant, NextDelete, NextPurge, NextCreate, NextReattach, Post, Updated, Learn,
         Reaches;
    r := Act(z, s, u, FINE, Out(s.sh, SHeld, Take, Keep));
    r := Act(z, r, u, FINE, Out(s.sh.(quiesced := true), Idle, Free, Keep));
  }

  /**
   The one rotation a clean shutdown does not write down.  `t` has just been
   given another account's tokens; `u` sets the flag, `t`'s delete is skipped, the
   handshake answers True, and the row is still there with a spent token.
   */
  lemma StrangerSurvivesShutdown(s: State, t: Tid, u: Tid) returns (r: State)
    requires Inv(s) && t in s.pcs && s.pcs[t].CAnswered? && s.pcs[t].user != s.pcs[t].row.user && u in s.pcs
             && s.pcs[u].Idle?
    requires var h := s.pcs[t].h;
             h in s.sh.rows && h in s.sh.access && h in s.sh.refresh && s.sh.rows[h].expires > s.sh.now
    ensures Reaches(s, r) && r.sh.quiesced && Replayable(r.sh, s.pcs[t].h)
  {
    SpentWhenAnswered(s, t);
    ReachSelf(s);
    hide Inv, Reaches;
    r := FlagIsSet(s, s, u);
    r := StrangerIsKept(s, r, t);
    r := HandshakeEnds(s, r, u);
  }

  /** Both happen from any start: a clean shutdown, a True answer, and a next launch that replays a token. */
  lemma TrueAnswerCanBeUnsafe(s: State, t: Tid, u: Tid) returns (m: State, r: State, later: seq<Event>)
    requires Boot(s) && t in s.pcs && u in s.pcs && t != u && s.sh.nextFamily !in s.sh.server.ended
    ensures Reaches(s, m) && t in m.pcs && m.pcs[t].CAnswered? && Reaches(m, r)
    ensures r.sh.quiesced && Execute(Restart(r), later).sh.server.replayed != {}
  {
    var h: Hash;
    BootInv(s);
    hide Boot, Inv, Reaches, Execute;
    m, h := DueSession(s, t);
    m := DueSessionIsAnswered(s, m, t, h, 1, s.sh.now);
    ReachesInv(s, m);
    r := StrangerSurvivesShutdown(m, t, u);
    ReachesInv(m, r);
    SameThreads(m, r);
    later := ReplayableIsReplayed(r, t, h);
  }

  // ----------------------------------------------------------------------- purging while quitting

  /** `purge_user` does not look at the flag: its account's sessions all go, shutting down or not. */
  lemma PurgeIgnoresTheFlag(z: State, s: State, t: Tid, u: User) returns (r: State)
    requires Reaches(z, s) && t in s.pcs && s.pcs[t].Idle? && s.lock.None?
    ensures Reaches(z, r) && r.sh.shutdown == s.sh.shutdown
    ensures forall h :: h in r.sh.rows <==> h in s.sh.rows && s.sh.rows[h].user != u
    ensures forall h :: h in s.sh.rows && s.sh.rows[h].user == u ==>
            h in r.sh.gone && h in r.sh.causes && r.sh.causes[h] == Purged(h)
    ensures var mine := set h | h in s.sh.rows && s.sh.rows[h].user == u;
            r.sh.access == s.sh.access - mine && r.sh.refresh == s.sh.refresh - mine && r.pcs == s.pcs && r.lock.None?
  {
    hide Reaches;
    assert s.pcs[t := Idle] == s.pcs;
    r := PurgeLists(z, s, t, u);
    r := PurgeEmpties(z, r, t);
    r := PurgeRemoves(z, r, t);
  }

  lemma PurgeLists(z: State, s: State, t: Tid, u: User) returns (r: State)
    requires Reaches(z, s) && t in s.pcs && s.pcs[t].Idle? && s.lock.None?
    ensures var mine := set h | h in s.sh.rows && s.sh.rows[h].user == u;
            && Reaches(z, r) && r.pcs == s.pcs[t := PAccess(u, mine)] && SameRows(s.sh, r.sh)
            && r.sh.access == s.sh.access && r.sh.refresh == s.sh.refresh
  {
    hide NextValidate, NextSection, NextGrant, NextDelete, NextCreate, NextReattach, NextShutdown, Removed, Learn,
         Reaches;
    r := Act(z, s, t, Choice(PWait(u), true, Lost, None), Go(s.sh, PWait(u)));
    r := Act(z, r, t, FINE, Out(s.sh, PList(u), Keep, Take));
    r := Act(z, r, t, FINE, Next(r.sh, PList(u), FINE));
  }

  lemma WithoutIsMinus<T>(m: map<Hash, T>, h: Hash)
    ensures Without(m, h) == m - {h}
  {
  }

  lemma {:induction false} PurgeEmpties(z: State, s: State, t: Tid) returns (r: State)
    requires Reaches(z, s) && t in s.pcs && s.pcs[t].PAccess?
    ensures Reaches(z, r) && r.pcs == s.pcs[t := PRemove(s.pcs[t].u)] && SameRows(s.sh, r.sh)
    ensures r.sh.access == s.sh.access - s.pcs[t].todo && r.sh.refresh == s.sh.refresh - s.pcs[t].todo
    decreases |s.pcs[t].todo|
  {
    hide NextValidate, NextSection, NextGrant, NextDelete, NextPurge, NextCreate, NextReattach, NextShutdown, Reaches;
    if s.pcs[t].todo == {} {
      r := PurgeHasListed(z, s, t);
    } else {
      var h :| h in s.pcs[t].todo;
      r := PurgeTakesOne(z, s, t, h);
      var m := r;
      r := PurgeEmpties(z, m, t);
      assert s.sh.access - {h} - (s.pcs[t].todo - {h}) == s.sh.access - s.pcs[t].todo;
      assert s.sh.refresh - {h} - (s.pcs[t].todo - {h}) == s.sh.refresh - s.pcs[t].todo;
    }
  }

  lemma PurgeHasListed(z: State, s: State, t: Tid) returns (r: State)
    requires Reaches(z, s) && t in s.pcs && s.pcs[t].PAccess? && s.pcs[t].todo == {}
    ensures Reaches(z, r) && r == s.(pcs := s.pcs[t := PRemove(s.pcs[t].u)])
  {
    hide NextValidate, NextSection, NextGrant, NextDelete, NextCreate, NextReattach, NextShutdown, Removed, Without,
         Reaches;
    r := Act(z, s, t, FINE, Go(s.sh, PRemove(s.pcs[t].u)));
  }

  lemma PurgeTakesOne(z: State, s: State, t: Tid, h: Hash) returns (r: State)
    requires Reaches(z, s) && t in s.pcs && s.pcs[t].PAccess? && h in s.pcs[t].todo
    ensures Reaches(z, r) && r.pcs == s.pcs[t := PAccess(s.pcs[t].u, s.pcs[t].todo - {h})] && SameRows(s.sh, r.sh)
    ensures r.sh.access == s.sh.access - {h} && r.sh.refresh == s.sh.refresh - {h}
  {
    hide NextValidate, NextSection, NextGrant, NextDelete, NextCreate, NextReattach, NextShutdown, Removed, Without,
         Reaches;
    var pc := s.pcs[t];
    var sh := s.sh.(access := Without(s.sh.access, h));
    WithoutIsMinus(s.sh.access, h);
    WithoutIsMinus(s.sh.refresh, h);
    r := Act(z, s, t, Choice(Idle, true, Lost, Some(h)), Go(sh, PRefresh(pc.u, pc.todo - {h}, h)));
    r := Act(z, r, t, FINE, Go(sh.(refresh := Without(sh.refresh, h)), PAccess(pc.u, pc.todo - {h})));
  }

  lemma PurgeRemoves(z: State, s: State, t: Tid) returns (r: State)
    requires Reaches(z, s) && t in s.pcs && s.pcs[t].PRemove?
    ensures Reaches(z, r) && r.sh.shutdown == s.sh.shutdown && r.pcs == s.pcs[t := Idle] && r.lock.None?
    ensures r.sh.access == s.sh.access && r.sh.refresh == s.sh.refresh
    ensures var u := s.pcs[t].u;
            && (forall h :: h in r.sh.rows <==> h in s.sh.rows && s.sh.rows[h].user != u)
            && (forall h :: h in s.sh.rows && s.sh.rows[h].user == u ==>
                h in r.sh.gone && h in r.sh.causes && r.sh.causes[h] == Purged(h))
  {
    hide NextValidate, NextSection, NextGrant, NextDelete, NextCreate, NextReattach, NextShutdown, Learn, Reaches;
    r := Act(z, s, t, FINE, Next(s.sh, s.pcs[t], FINE));
  }

  /** Where a delete would be skipped: a session purged after the flag was set. */
  lemma PurgedWhileQuitting(s: State, t: Tid, u: Tid) returns (m: State, r: State, h: Hash)
    requires Boot(s) && t in s.pcs && u in s.pcs && t != u
    ensures Reaches(s, m) && m.sh.shutdown && h in m.sh.rows && Reaches(m, r) && h !in r.sh.rows && h in r.sh.gone
  {
    hide Boot, Reaches;
    m, h := DueSession(s, t);
    m := FlagIsSet(s, m, u);
    ReachSelf(m);
    r := PurgeIgnoresTheFlag(m, m, t, 0);
  }
}
