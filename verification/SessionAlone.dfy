/**
 What each call of the protocol does when nobody disturbs it: the same as the
 class's method (`SessionStore`), said of the stored rows and tokens themselves.
 */
module SessionAlone {
  import opened Common
  import opened SessionModel
  import opened SessionProtocol
  import opened SessionInvariant
  import opened SessionReach
  import opened SessionCorners
  import opened SessionLeftovers

  /** Nobody holds a lock and `t` is between calls. */
  predicate Ready(s: State, t: Tid) { t in s.pcs && s.pcs[t].Idle? && s.serial.None? && s.lock.None? }

  /** `t` is between calls again, and nobody else has moved or holds a lock. */
  predicate Back(s: State, r: State) { r.pcs == s.pcs && r.serial.None? && r.lock.None? && r.sh.now == s.sh.now }

  predicate HasPair(sh: Shared, h: Hash) { h in sh.rows && h in sh.access && h in sh.refresh }

  predicate IsDue(sh: Shared, h: Hash)
    requires h in sh.rows
  {
    sh.rows[h].accessExpires <= sh.now + 120 * SECOND
  }

  /** The server would rotate the stored token of `h`. */
  predicate Renewable(sh: Shared, h: Hash)
    requires h in sh.refresh
  {
    && !sh.shutdown && sh.server.Live(sh.refresh[h])
    && sh.server.familyOf[sh.refresh[h]] !in sh.server.ended + sh.server.replayed
  }

  /** The row of `h` after a refresh now. */
  function Prolonged(sh: Shared, h: Hash, exp: int): Row
    requires h in sh.rows
  {
    Row(sh.rows[h].user, sh.rows[h].created, sh.now, sh.now + 30 * 24 * 60 * 60 * SECOND, exp)
  }

  // ------------------------------------------------------------ pieces

  lemma Touches(z: State, s: State, t: Tid) returns (r: State)
    requires Reaches(z, s) && t in s.pcs && s.pcs[t].Touch? && s.pcs[t].h in s.sh.rows
    ensures var h := s.pcs[t].h;
            && Reaches(z, r)
            && r == s.(sh := s.sh.(rows := s.sh.rows[h := s.sh.rows[h].(lastUsed := s.sh.now)]),
                       pcs := s.pcs[t := Idle])
  {
    hide NextSection, NextGrant, NextDelete, NextPurge, NextCreate, NextReattach, NextShutdown, Post, Learn, Reaches;
    var h := s.pcs[t].h;
    r := Act(z, s, t, FINE, Go(s.sh.(rows := s.sh.rows[h := s.sh.rows[h].(lastUsed := s.sh.now)]), Idle));
  }

  lemma Releases(z: State, s: State, t: Tid) returns (r: State)
    requires Reaches(z, s) && t in s.pcs && s.pcs[t].CRelease?
    ensures var next := if s.pcs[t].touch.Some? then Touch(s.pcs[t].touch.value) else Idle;
            Reaches(z, r) && r == s.(pcs := s.pcs[t := next], serial := None)
  {
    hide NextValidate, NextGrant, NextDelete, NextPurge, NextCreate, NextReattach, NextShutdown, Post, Updated, Learn;
    hide Reaches;
    var next := if s.pcs[t].touch.Some? then Touch(s.pcs[t].touch.value) else Idle;
    r := Act(z, s, t, FINE, Out(s.sh, next, Free, Keep));
  }

  /** The section, with the server's answer, down to the renewed row. */
  lemma SectionRefreshes(z: State, s: State, t: Tid, h: Hash, g: bool, exp: int) returns (r: State)
    requires Reaches(z, s) && t in s.pcs && s.pcs[t] == CRow(h, g) && HasPair(s.sh, h)
    requires IsDue(s.sh, h) && Renewable(s.sh, h)
    ensures var x := s.sh.nextRotation;
            && Reaches(z, r) && r.pcs == s.pcs[t := if g then GRead(h, x) else CRelease(Some(h))]
            && r.serial == s.serial && r.lock == s.lock && r.sh.now == s.sh.now && r.sh.grants == s.sh.grants
            && r.sh.rows == s.sh.rows[h := Prolonged(s.sh, h, exp)]
            && r.sh.access == s.sh.access[h := x] && r.sh.refresh == s.sh.refresh[h := x] && r.sh.server.Live(x)
  {
    hide Reaches;
    r := SectionComesToPost(z, s, t, h, g);
    assert r.pcs == s.pcs[t := r.pcs[t]];
    r := PostAnswers(z, r, t, s.sh.rows[h].user, exp);
    r := AnswerIsStored(z, r, t);
    r := UpdateRenews(z, r, t);
  }

  // ------------------------------------------------------------ validation

  lemma ValidationLooks(z: State, s: State, t: Tid, h: Hash) returns (r: State)
    requires Reaches(z, s) && t in s.pcs && s.pcs[t].Idle? && HasPair(s.sh, h) && s.sh.rows[h].expires > s.sh.now
    ensures Reaches(z, r) && r == s.(pcs := s.pcs[t := VRefresh(h, s.sh.rows[h], s.sh.now, true)])
  {
    hide NextSection, NextGrant, NextDelete, NextPurge, NextCreate, NextReattach, NextShutdown, Post, Learn, Touched;
    hide Reaches;
    r := ValidationReads(z, s, t, h);
    r := Act(z, r, t, FINE, Go(s.sh, VAccess(h, s.sh.rows[h], s.sh.now)));
    r := Act(z, r, t, FINE, Go(s.sh, VRefresh(h, s.sh.rows[h], s.sh.now, true)));
  }

  lemma ValidationDecides(z: State, s: State, t: Tid) returns (r: State)
    requires Reaches(z, s) && t in s.pcs && s.pcs[t].VRefresh? && s.pcs[t].had && s.pcs[t].h in s.sh.refresh
    ensures Reaches(z, r)
    ensures var pc := s.pcs[t];
            r == s.(pcs :=
                    s.pcs[t := if pc.row.accessExpires <= pc.at + 120 * SECOND then CWait(pc.h) else Touch(pc.h)])
  {
    hide NextSection, NextGrant, NextDelete, NextPurge, NextCreate, NextReattach, NextShutdown, Post, Learn, Touched;
    hide Reaches;
    var pc := s.pcs[t];
    r := Act(z, s, t, FINE,
             Go(s.sh, if pc.row.accessExpires <= pc.at + 120 * SECOND then CWait(pc.h) else Touch(pc.h)));
  }

  lemma ValidationEnters(z: State, s: State, t: Tid) returns (r: State)
    requires Reaches(z, s) && t in s.pcs && s.pcs[t].CWait? && s.serial.None?
    ensures Reaches(z, r) && r == s.(pcs := s.pcs[t := CRow(s.pcs[t].h, false)], serial := Some(t))
  {
    hide NextSection, NextGrant, NextDelete, NextPurge, NextCreate, NextReattach, NextShutdown, Post, Learn, Touched;
    hide Reaches;
    r := Act(z, s, t, FINE, Out(s.sh, CRow(s.pcs[t].h, false), Take, Keep));
  }

  /** A session with a good access token is just marked as used. */
  lemma ValidationUses(s: State, t: Tid, h: Hash) returns (r: State)
    requires Ready(s, t) && HasPair(s.sh, h) && s.sh.rows[h].expires > s.sh.now && !IsDue(s.sh, h)
    ensures Reaches(s, r) && Back(s, r)
    ensures r.sh == s.sh.(rows := s.sh.rows[h := s.sh.rows[h].(lastUsed := s.sh.now)])
  {
    ReachSelf(s);
    hide Reaches;
    r := ValidationLooks(s, s, t, h);
    r := ValidationDecides(s, r, t);
    r := Touches(s, r, t);
    assert s.pcs[t := Idle] == s.pcs;
  }

  /** One whose access token is near its end is refreshed and lasts another thirty days. */
  lemma ValidationRefreshes(s: State, t: Tid, h: Hash, exp: int) returns (r: State)
    requires Ready(s, t) && HasPair(s.sh, h) && s.sh.rows[h].expires > s.sh.now && IsDue(s.sh, h) && Renewable(s.sh, h)
    ensures Reaches(s, r) && Back(s, r)
    ensures var x := s.sh.nextRotation;
            && r.sh.rows == s.sh.rows[h := Prolonged(s.sh, h, exp)]
            && r.sh.access == s.sh.access[h := x] && r.sh.refresh == s.sh.refresh[h := x] && r.sh.server.Live(x)
  {
    ReachSelf(s);
    hide Reaches;
    r := ValidationLooks(s, s, t, h);
    r := ValidationDecides(s, r, t);
    r := ValidationEnters(s, r, t);
    r := SectionRefreshes(s, r, t, h, false, exp);
    r := Releases(s, r, t);
    r := Touches(s, r, t);
    assert s.pcs[t := Idle] == s.pcs;
  }

  /** One whose expiry has passed goes, with its tokens. */
  lemma ValidationExpires(s: State, t: Tid, h: Hash) returns (r: State)
    requires Ready(s, t) && h in s.sh.rows && s.sh.rows[h].expires <= s.sh.now && !s.sh.shutdown
    ensures Reaches(s, r) && Back(s, r) && h !in r.sh.rows && h in r.sh.gone
  {
    ReachSelf(s);
    hide Reaches;
    r := ValidationReads(s, s, t, h);
    r := ExpiryIsSeen(s, r, t);
    r := DeleteTakesTheRow(s, r, t);
    assert s.pcs[t := Idle] == s.pcs;
  }

  lemma ExpiryIsSeen(z: State, s: State, t: Tid) returns (r: State)
    requires Reaches(z, s) && t in s.pcs && s.pcs[t].VExpiry? && s.pcs[t].row.expires <= s.sh.now
    ensures var pc := s.pcs[t]; var f := SawExpired(pc.h, pc.row.expires, s.sh.now);
            Reaches(z, r) && r == s.(sh := Learn(s.sh, f), pcs := s.pcs[t := DCheck(pc.h, false, f)])
  {
    hide NextSection, NextGrant, NextDelete, NextPurge, NextCreate, NextReattach, NextShutdown, Post, Reaches;
    var pc := s.pcs[t];
    r := Act(z, s, t, FINE, Drop(s.sh, SawExpired(pc.h, pc.row.expires, s.sh.now), false));
  }

  // --------------------------------------------------------- refresh grants

  /** A cookie-less client is served the session whose stored token it presents. */
  lemma GrantResolves(z: State, s: State, t: Tid, h: Hash) returns (r: State)
    requires Reaches(z, s) && Ready(s, t) && HasPair(s.sh, h) && s.sh.rows[h].expires > s.sh.now
    ensures Reaches(z, r) && r == s.(pcs := s.pcs[t := CRow(h, true)], serial := Some(t))
  {
    hide NextValidate, NextSection, NextDelete, NextPurge, NextCreate, NextReattach, NextShutdown, Learn, Touched;
    hide Reaches;
    var want := GWait(None, Some(s.sh.refresh[h]));
    r := Act(z, s, t, Choice(want, true, Lost, None), Go(s.sh, want));
    r := Act(z, r, t, FINE, Out(s.sh, GResolve(None, Some(s.sh.refresh[h])), Take, Keep));
    r := Act(z, r, t, Choice(Idle, true, Lost, Some(h)), Go(s.sh, GRow(h)));
    r := Act(z, r, t, FINE, Go(s.sh, CRow(h, true)));
  }

  /**
   And nobody else is: a grant goes on for a session only if its cookie names it, or
   names none and the presented token is the one stored for it.
   */
  lemma GrantNeedsProof(s: State, t: Tid, c: Choice)
    requires t in s.pcs && s.pcs[t].GResolve?
    ensures var r, cookie := Step(s, Run(t, c)), s.pcs[t].cookie;
            && t in r.pcs && r.sh == s.sh && (r.pcs[t] == CRelease(None) || r.pcs[t].GRow?)
            && (r.pcs[t].GRow? ==>
                  var h := r.pcs[t].h;
                  && h in s.sh.rows
                  && (cookie == Some(h)
                      || ((cookie.None? || cookie.value !in s.sh.rows) && h in s.sh.refresh
                          && s.pcs[t].presented == Some(s.sh.refresh[h]))))
  {
    hide NextValidate, NextSection, NextDelete, NextPurge, NextCreate, NextReattach, NextShutdown, Learn, Touched;
  }

  /** Inside the refresh lock the pair found in the store is answered. */
  lemma GrantAnswers(z: State, s: State, t: Tid) returns (r: State)
    requires Reaches(z, s) && t in s.pcs && s.pcs[t].GRead? && s.pcs[t].h in s.sh.refresh && s.pcs[t].h in s.sh.rows
    ensures var h := s.pcs[t].h;
            && Reaches(z, r) && r.pcs == s.pcs[t := Idle] && r.serial.None? && r.lock == s.lock
            && r.sh == s.sh.(rows := s.sh.rows[h := s.sh.rows[h].(lastUsed := s.sh.now)],
                             grants := s.sh.grants + {GrantAnswer(h, s.pcs[t].a, s.sh.refresh[h])})
  {
    hide NextValidate, NextSection, NextDelete, NextPurge, NextCreate, NextReattach, NextShutdown, Learn, Reaches;
    var h, a := s.pcs[t].h, s.pcs[t].a;
    r := Act(z, s, t, FINE, Go(s.sh, GAnswer(h, a, s.sh.refresh[h])));
    r := Act(z, r, t, FINE,
             Go(Touched(s.sh, h).(grants := s.sh.grants + {GrantAnswer(h, a, s.sh.refresh[h])}), CRelease(None)));
    hide NextGrant;
    r := Releases(z, r, t);
  }

  lemma SectionReuses(z: State, s: State, t: Tid, h: Hash) returns (r: State)
    requires Reaches(z, s) && t in s.pcs && s.pcs[t] == CRow(h, true) && HasPair(s.sh, h) && !IsDue(s.sh, h)
    ensures Reaches(z, r) && r == s.(pcs := s.pcs[t := GRead(h, s.sh.access[h])])
  {
    hide NextValidate, NextGrant, NextDelete, NextPurge, NextCreate, NextReattach, NextShutdown, Post, Updated, Learn;
    hide Reaches;
    r := SectionReadsOn(z, s, t, h, true);
    assert r.pcs == s.pcs[t := r.pcs[t]];
    r := Act(z, r, t, FINE, Go(s.sh, GRead(h, s.sh.access[h])));
  }

  /** The stored pair is served while it is good. */
  lemma GrantServes(s: State, t: Tid, h: Hash, byCookie: bool) returns (r: State)
    requires Ready(s, t) && HasPair(s.sh, h) && s.sh.rows[h].expires > s.sh.now && !IsDue(s.sh, h)
    ensures Reaches(s, r) && Back(s, r)
    ensures r.sh.grants == s.sh.grants + {GrantAnswer(h, s.sh.access[h], s.sh.refresh[h])}
    ensures r.sh.access == s.sh.access && r.sh.refresh == s.sh.refresh && r.sh.server == s.sh.server
    ensures r.sh.rows == s.sh.rows[h := s.sh.rows[h].(lastUsed := s.sh.now)]
  {
    ReachSelf(s);
    hide Reaches;
    r := GrantComesIn(s, t, h, byCookie);
    r := SectionReuses(s, r, t, h);
    r := GrantAnswers(s, r, t);
    assert s.pcs[t := Idle] == s.pcs;
  }

  lemma GrantComesIn(s: State, t: Tid, h: Hash, byCookie: bool) returns (r: State)
    requires Ready(s, t) && HasPair(s.sh, h) && s.sh.rows[h].expires > s.sh.now
    ensures Reaches(s, r) && r == s.(pcs := s.pcs[t := CRow(h, true)], serial := Some(t))
  {
    ReachSelf(s);
    hide Reaches;
    if byCookie {
      r := GrantEnters(s, s, t, h);
      assert r.pcs == s.pcs[t := CRow(h, true)];
    } else {
      r := GrantResolves(s, s, t, h);
    }
  }

  /** A pair near its end is rotated first, and the new one served. */
  lemma GrantRefreshes(s: State, t: Tid, h: Hash, byCookie: bool, exp: int) returns (r: State)
    requires Ready(s, t) && HasPair(s.sh, h) && s.sh.rows[h].expires > s.sh.now && IsDue(s.sh, h) && Renewable(s.sh, h)
    ensures Reaches(s, r) && Back(s, r)
    ensures var x := s.sh.nextRotation;
            && r.sh.grants == s.sh.grants + {GrantAnswer(h, x, x)} && r.sh.server.Live(x)
            && r.sh.rows == s.sh.rows[h := Prolonged(s.sh, h, exp)]
            && r.sh.access == s.sh.access[h := x] && r.sh.refresh == s.sh.refresh[h := x]
  {
    hide Reaches;
    r := GrantComesIn(s, t, h, byCookie);
    r := SectionRefreshes(s, r, t, h, true, exp);
    r := GrantAnswers(s, r, t);
    assert s.pcs[t := Idle] == s.pcs;
  }

  /** A session the server has ended goes, whoever asks for a refresh of it. */
  lemma GrantEndsIt(s: State, t: Tid, h: Hash, byCookie: bool) returns (r: State)
    requires Ready(s, t) && HasPair(s.sh, h) && s.sh.rows[h].expires > s.sh.now && IsDue(s.sh, h) && !s.sh.shutdown
    requires s.sh.server.Live(s.sh.refresh[h]) && s.sh.server.familyOf[s.sh.refresh[h]] in s.sh.server.ended
    ensures Reaches(s, r) && Back(s, r) && h !in r.sh.rows && h in r.sh.gone
    ensures h in r.sh.causes && r.sh.causes[h] == SawVerdict(h) && r.sh.server == s.sh.server
  {
    hide Reaches;
    r := GrantComesIn(s, t, h, byCookie);
    r := SectionComesToPost(s, r, t, h, true);
    assert r.pcs == s.pcs[t := r.pcs[t]];
    r := PostIsRefused(s, r, t);
    r := DeleteTakesTheRow(s, r, t);
    r := Releases(s, r, t);
    assert s.pcs[t := Idle] == s.pcs;
  }

  lemma PostIsRefused(z: State, s: State, t: Tid) returns (r: State)
    requires Reaches(z, s) && t in s.pcs && s.pcs[t].CPost?
    requires s.sh.server.Live(s.pcs[t].t) && s.sh.server.familyOf[s.pcs[t].t] in s.sh.server.ended
    ensures var h := s.pcs[t].h;
            && Reaches(z, r) && r.pcs == s.pcs[t := DCheck(h, true, SawVerdict(h))]
            && r.serial == s.serial && r.lock == s.lock && SameRows(s.sh, r.sh) && r.sh.server == s.sh.server
  {
    hide NextValidate, NextGrant, NextDelete, NextPurge, NextCreate, NextReattach, NextShutdown, Updated, Reaches;
    var c := Choice(Idle, true, Granted(0, 0), None);
    r := Act(z, s, t, c, Next(s.sh, s.pcs[t], c));
  }

  /** A reply that is lost costs nothing: the session and its pair are as they were. */
  lemma GrantKeepsIt(s: State, t: Tid, h: Hash, byCookie: bool) returns (r: State)
    requires Ready(s, t) && HasPair(s.sh, h) && s.sh.rows[h].expires > s.sh.now && IsDue(s.sh, h) && !s.sh.shutdown
    ensures Reaches(s, r) && Back(s, r) && r.sh.posts == s.sh.posts + 1 && r.sh.server == s.sh.server
    ensures r.sh.rows == s.sh.rows && r.sh.access == s.sh.access && r.sh.refresh == s.sh.refresh
  {
    hide Reaches;
    r := GrantComesIn(s, t, h, byCookie);
    r := SectionComesToPost(s, r, t, h, true);
    assert r.pcs == s.pcs[t := r.pcs[t]];
    r := ReplyIsLost(s, r, t);
    r := Releases(s, r, t);
    assert s.pcs[t := Idle] == s.pcs;
  }

  lemma ReplyIsLost(z: State, s: State, t: Tid) returns (r: State)
    requires Reaches(z, s) && t in s.pcs && s.pcs[t].CPost? && s.pcs[t].g
    ensures Reaches(z, r) && r.pcs == s.pcs[t := CRelease(None)] && r.serial == s.serial && r.lock == s.lock
    ensures r.sh == s.sh.(posts := s.sh.posts + 1, nextRotation := s.sh.nextRotation + 1)
  {
    hide NextValidate, NextGrant, NextDelete, NextPurge, NextCreate, NextReattach, NextShutdown, Updated, Learn;
    hide Reaches;
    r := Act(z, s, t, FINE, Go(s.sh.(posts := s.sh.posts + 1, nextRotation := s.sh.nextRotation + 1), CRelease(None)));
  }

  // -------------------------------------------------------------- reattaching

  /** The session is found under the new name as it was under the old one, with its pair, and no longer under that. */
  lemma ReattachRenames(s: State, t: Tid, h: Hash) returns (r: State)
    requires Ready(s, t) && HasPair(s.sh, h) && s.sh.rows[h].expires > s.sh.now && h in s.sh.owner
    requires s.sh.nextHash !in s.sh.rows && s.sh.nextHash != h
    ensures Reaches(s, r) && Back(s, r)
    ensures var name := s.sh.nextHash;
            && r.sh.rows == (s.sh.rows - {h})[name := s.sh.rows[h]]
            && r.sh.access == s.sh.access[name := s.sh.access[h]] - {h}
            && r.sh.refresh == s.sh.refresh[name := s.sh.refresh[h]] - {h}
            && r.sh.server == s.sh.server
  {
    ReachSelf(s);
    hide Reaches;
    r := ReattachTakesLocks(s, s, t);
    r := ReattachPicks(s, r, t, h);
    r := ReattachCopies(s, r, t);
    r := ReattachMoves(s, r, t);
    assert s.pcs[t := Idle] == s.pcs;
  }

  lemma ReattachTakesLocks(z: State, s: State, t: Tid) returns (r: State)
    requires Reaches(z, s) && Ready(s, t)
    ensures Reaches(z, r) && r == State(s.sh, s.pcs[t := RScan], Some(t), Some(t))
  {
    hide NextValidate, NextSection, NextGrant, NextDelete, NextPurge, NextCreate, NextShutdown, Renamed, Named, Learn;
    hide Reaches;
    r := Act(z, s, t, Choice(RWaitSerial, true, Lost, None), Go(s.sh, RWaitSerial));
    r := Act(z, r, t, FINE, Out(s.sh, RWaitLock, Take, Keep));
    r := Act(z, r, t, FINE, Out(s.sh, RScan, Keep, Take));
  }

  lemma ReattachPicks(z: State, s: State, t: Tid, h: Hash) returns (r: State)
    requires Reaches(z, s) && t in s.pcs && s.pcs[t].RScan? && HasPair(s.sh, h) && s.sh.rows[h].expires > s.sh.now
    requires h in s.sh.owner
    ensures Reaches(z, r) && r.pcs == s.pcs[t := RStoreAccess(h, s.sh.nextHash, s.sh.access[h], s.sh.refresh[h])]
    ensures r.serial == s.serial && r.lock == s.lock && r.sh.rows == s.sh.rows && r.sh.access == s.sh.access
            && r.sh.refresh == s.sh.refresh && r.sh.now == s.sh.now && r.sh.server == s.sh.server
  {
    hide NextValidate, NextSection, NextGrant, NextDelete, NextPurge, NextCreate, NextShutdown, Renamed, Reaches;
    r := Act(z, s, t, Choice(Idle, true, Lost, Some(h)),
             Go(Named(s.sh, h), RStoreAccess(h, s.sh.nextHash, s.sh.access[h], s.sh.refresh[h])));
  }

  lemma ReattachCopies(z: State, s: State, t: Tid) returns (r: State)
    requires Reaches(z, s) && t in s.pcs && s.pcs[t].RStoreAccess?
    ensures var pc := s.pcs[t];
            && Reaches(z, r)
            && r == s.(sh := s.sh.(access := s.sh.access[pc.h2 := pc.a], refresh := s.sh.refresh[pc.h2 := pc.t]),
                       pcs := s.pcs[t := RRename(pc.h, pc.h2, pc.t)])
  {
    hide NextValidate, NextSection, NextGrant, NextDelete, NextPurge, NextCreate, NextShutdown, Renamed, Named, Reaches;
    var pc := s.pcs[t];
    var sh := s.sh.(access := s.sh.access[pc.h2 := pc.a]);
    r := Act(z, s, t, FINE, Go(sh, RStoreRefresh(pc.h, pc.h2, pc.a, pc.t)));
    r := Act(z, r, t, FINE, Go(sh.(refresh := sh.refresh[pc.h2 := pc.t]), RRename(pc.h, pc.h2, pc.t)));
  }

  lemma ReattachMoves(z: State, s: State, t: Tid) returns (r: State)
    requires Reaches(z, s) && t in s.pcs && s.pcs[t].RRename? && s.pcs[t].h in s.sh.rows
    ensures var h, name := s.pcs[t].h, s.pcs[t].h2;
            && Reaches(z, r) && r.pcs == s.pcs[t := Idle] && r.serial.None? && r.lock.None?
            && r.sh.rows == (s.sh.rows - {h})[name := s.sh.rows[h]]
            && r.sh.access == s.sh.access - {h} && r.sh.refresh == s.sh.refresh - {h}
            && r.sh.now == s.sh.now && r.sh.server == s.sh.server
  {
    hide NextValidate, NextSection, NextGrant, NextDelete, NextPurge, NextCreate, NextShutdown, Named, Reaches;
    var h, name := s.pcs[t].h, s.pcs[t].h2;
    r := Act(z, s, t, FINE, Go(Renamed(s.sh, h, name), RDropAccess(h)));
    hide Renamed;
    r := ReattachDrops(z, r, t);
  }

  lemma ReattachDrops(z: State, s: State, t: Tid) returns (r: State)
    requires Reaches(z, s) && t in s.pcs && s.pcs[t].RDropAccess?
    ensures var h := s.pcs[t].h;
            && Reaches(z, r)
            && r == State(s.sh.(access := s.sh.access - {h}, refresh := s.sh.refresh - {h}), s.pcs[t := Idle], None,
                          None)
  {
    hide NextValidate, NextSection, NextGrant, NextDelete, NextPurge, NextCreate, NextShutdown, Renamed, Named, Reaches;
    var h := s.pcs[t].h;
    var sh := s.sh.(access := s.sh.access - {h});
    r := Act(z, s, t, FINE, Go(sh, RDropRefresh(h)));
    r := ReattachUnlocks(z, r, t);
  }

  lemma ReattachUnlocks(z: State, s: State, t: Tid) returns (r: State)
    requires Reaches(z, s) && t in s.pcs && s.pcs[t].RDropRefresh?
    ensures Reaches(z, r)
    ensures r == State(s.sh.(refresh := s.sh.refresh - {s.pcs[t].h}), s.pcs[t := Idle], None, None)
  {
    hide NextValidate, NextSection, NextGrant, NextDelete, NextPurge, NextCreate, NextShutdown, Renamed, Named, Without;
    hide Reaches;
    var h := s.pcs[t].h;
    WithoutIsMinus(s.sh.refresh, h);
    r := Act(z, s, t, FINE, Go(s.sh.(refresh := Without(s.sh.refresh, h)), RUnlock));
    r := FreesBoth(z, r, t);
  }

  lemma FreesBoth(z: State, s: State, t: Tid) returns (r: State)
    requires Reaches(z, s) && t in s.pcs && s.pcs[t].RUnlock?
    ensures Reaches(z, r) && r == State(s.sh, s.pcs[t := Idle], None, None)
  {
    hide NextValidate, NextSection, NextGrant, NextDelete, NextPurge, NextCreate, NextShutdown, Renamed, Named, Without;
    hide Reaches;
    r := Act(z, s, t, FINE, Out(s.sh, Idle, Free, Free));
  }

  // -------------------------------------------------------------- deleting

  /** A delete nobody disturbs leaves neither row nor tokens. */
  lemma DeleteCleans(s: State, t: Tid, h: Hash) returns (r: State)
    requires Ready(s, t) && h in s.sh.rows && !s.sh.shutdown
    ensures Reaches(s, r) && Back(s, r) && h in r.sh.causes && r.sh.causes[h] == Asked(h)
    ensures r.sh.rows == s.sh.rows - {h} && r.sh.access == s.sh.access - {h} && r.sh.refresh == s.sh.refresh - {h}
  {
    ReachSelf(s);
    hide Reaches;
    r := DeleteIsAsked(s, s, t, h);
    r := DeleteTakesTheRow(s, r, t);
    assert s.pcs[t := Idle] == s.pcs;
  }

  // -------------------------------------------------------- failing writes

  /** A session whose row cannot be written leaves no tokens behind. */
  lemma CreateUndoes(z: State, s: State, t: Tid) returns (r: State)
    requires Reaches(z, s) && t in s.pcs && s.pcs[t].KInsert?
    ensures var h := s.pcs[t].h;
            && Reaches(z, r) && r.pcs == s.pcs[t := Idle] && r.lock.None? && r.serial == s.serial
            && r.sh == s.sh.(access := s.sh.access - {h}, refresh := s.sh.refresh - {h})
  {
    hide NextValidate, NextSection, NextGrant, NextDelete, NextPurge, NextReattach, NextShutdown, Founded, Reaches;
    hide Without;
    var h := s.pcs[t].h;
    WithoutIsMinus(s.sh.access, h);
    WithoutIsMinus(s.sh.refresh, h);
    var c := Choice(Idle, false, Lost, None);
    r := Act(z, s, t, c, Go(s.sh, KUndo(h)));
    r := Act(z, r, t, FINE,
             Out(s.sh.(access := Without(s.sh.access, h), refresh := Without(s.sh.refresh, h)), Idle, Keep, Free));
  }

  /** A rename that cannot be written leaves the session under its name and removes the copy of its pair. */
  lemma ReattachUndoes(z: State, s: State, t: Tid) returns (r: State)
    requires Reaches(z, s) && t in s.pcs && s.pcs[t].RRename?
    ensures var name := s.pcs[t].h2;
            && Reaches(z, r) && r.pcs == s.pcs[t := Idle] && r.lock.None? && r.serial.None?
            && r.sh == s.sh.(access := s.sh.access - {name}, refresh := s.sh.refresh - {name})
  {
    hide NextValidate, NextSection, NextGrant, NextDelete, NextPurge, NextCreate, NextShutdown, Renamed, Named, Reaches;
    hide Without;
    var name := s.pcs[t].h2;
    WithoutIsMinus(s.sh.access, name);
    WithoutIsMinus(s.sh.refresh, name);
    var c := Choice(Idle, false, Lost, None);
    r := Act(z, s, t, c, Go(s.sh, RUndo(name)));
    r := Act(z, r, t, FINE,
             Go(s.sh.(access := Without(s.sh.access, name), refresh := Without(s.sh.refresh, name)), RUnlock));
    r := FreesBoth(z, r, t);
  }

  /** Quitting: a refresh that has not been sent is not sent, and nothing is lost. */
  lemma QuittingSendsNothing(s: State, t: Tid, h: Hash, byCookie: bool) returns (r: State)
    requires Ready(s, t) && HasPair(s.sh, h) && s.sh.rows[h].expires > s.sh.now && IsDue(s.sh, h) && s.sh.shutdown
    ensures Reaches(s, r) && Back(s, r) && r.sh == s.sh
  {
    hide Reaches;
    r := GrantComesIn(s, t, h, byCookie);
    r := SectionReadsOn(s, r, t, h, true);
    assert r.pcs == s.pcs[t := r.pcs[t]];
    r := SectionStops(s, r, t);
    r := Releases(s, r, t);
    assert s.pcs[t := Idle] == s.pcs;
  }

  lemma SectionStops(z: State, s: State, t: Tid) returns (r: State)
    requires Reaches(z, s) && t in s.pcs && s.pcs[t].CSkew? && s.pcs[t].g && s.sh.shutdown
    requires s.pcs[t].row.accessExpires <= s.sh.now + 120 * SECOND
    ensures Reaches(z, r) && r == s.(pcs := s.pcs[t := CRelease(None)])
  {
    hide NextValidate, NextGrant, NextDelete, NextPurge, NextCreate, NextReattach, NextShutdown, Post, Updated, Learn;
    hide Reaches;
    var pc := s.pcs[t];
    r := Act(z, s, t, FINE, Go(s.sh, CShutdown(pc.h, pc.g, pc.row, pc.t)));
    r := Act(z, r, t, FINE, Go(s.sh, CRelease(None)));
  }
}
