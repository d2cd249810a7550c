/** Token entries that outlive their session. */
module SessionLeftovers {
  import opened Common
  import opened SessionModel
  import opened SessionProtocol
  import opened SessionInvariant
  import opened SessionRuns
  import opened SessionTheorems
  import opened SessionEndings
  import opened SessionReach
  import opened SessionCorners

  /**
   The thread can still store tokens under `h` without looking at its row again: it
   has read the old pair and nothing will keep it from the POST and its answer,
   or the answer is here.
   */
  predicate CanStore(sh: Shared, pc: Pc, h: Hash) {
    match pc
    case CSkew(x, _, _, _, _) => x == h && !sh.shutdown && Honoured(sh, h)
    case CShutdown(x, _, _, _) => x == h && !sh.shutdown && Honoured(sh, h)
    case CPost(x, _, _, _) => x == h && Honoured(sh, h)
    case CAnswered(x, _, row, _, user, _) => x == h && user == row.user
    case CStoreAccess(x, _, _, _, _) => x == h
    case CStoreRefresh(x, _, _, _, _) => x == h
    case _ => false
  }

  /** The server has not ended the session. */
  predicate Honoured(sh: Shared, h: Hash) { h in sh.owner && sh.owner[h] !in sh.server.ended }

  predicate NoEntry(sh: Shared, h: Hash) { h !in sh.access && h !in sh.refresh }

  /** No token entry of `h` is left and nobody can store one. */
  ghost predicate Clean(s: State, h: Hash) {
    NoEntry(s.sh, h) && forall t :: t in s.pcs ==> !CanStore(s.sh, s.pcs[t], h)
  }

  // ------------------------------------------------------------ clean stays clean

  /** What only ever changes one way. */
  predicate Onward(a: Shared, b: Shared, h: Hash) {
    (a.shutdown ==> b.shutdown) && (Honoured(b, h) ==> Honoured(a, h))
  }

  /** After the action of a thread that cannot store under `h` there is still no entry, and it still cannot. */
  predicate StaysOff(a: Shared, out: Out, h: Hash) {
    NoEntry(out.sh, h) && !CanStore(out.sh, out.pc, h) && Onward(a, out.sh, h)
  }

  predicate SameTokens(a: Shared, b: Shared) {
    b.access == a.access && b.refresh == a.refresh && b.owner == a.owner && b.server == a.server
        && b.shutdown == a.shutdown
  }

  lemma LearnKeepsTokens(a: Shared, f: Fact)
    ensures SameTokens(a, Learn(a, f))
  {
  }

  lemma TouchKeepsTokens(a: Shared, h: Hash)
    ensures SameTokens(a, Touched(a, h))
  {
  }

  lemma UpdateKeepsTokens(a: Shared, h: Hash, user: User, exp: int)
    ensures SameTokens(a, Updated(a, h, user, exp))
  {
  }

  lemma ExpiryStaysOff(a: Shared, pc: Pc, c: Choice, h: Hash)
    requires (pc.VExpiry? || pc.Touch?) && NoEntry(a, h)
    ensures StaysOff(a, NextValidate(a, pc, c), h)
  {
    hide Learn, Touched;
    if pc.VExpiry? { LearnKeepsTokens(a, SawExpired(pc.h, pc.row.expires, a.now)); }
    if pc.Touch? { TouchKeepsTokens(a, pc.h); }
  }

  lemma ValidateStaysOff(a: Shared, pc: Pc, c: Choice, h: Hash)
    requires PartOf(pc).Validate? && NoEntry(a, h)
    ensures StaysOff(a, NextValidate(a, pc, c), h)
  {
    if pc.VExpiry? || pc.Touch? { hide NextValidate, StaysOff; ExpiryStaysOff(a, pc, c, h); }
    else { hide Learn, Touched; }
  }

  lemma ReadsStayOff(a: Shared, pc: Pc, c: Choice, h: Hash)
    requires pc.CRow? || pc.CAccess? || pc.CRefresh? || pc.CPresent? || pc.CSkew? || pc.CShutdown? || pc.CRelease?
    requires NoEntry(a, h) && !CanStore(a, pc, h)
    ensures StaysOff(a, NextSection(a, pc, c), h)
  {
  }

  /** Without the server's honour there is no answer to store. */
  lemma PostEndsNothing(sv: Server, t: Rotation, reply: Reply, minted: Rotation)
    ensures var (sv2, answer) := Post(sv, t, reply, minted);
            sv2.ended == sv.ended && (answer.Rotated? ==> t in sv.familyOf && sv.familyOf[t] !in sv.ended)
  {
  }

  lemma PostStaysOff(a: Shared, pc: Pc, c: Choice, h: Hash)
    requires pc.CPost? && NoEntry(a, h) && !CanStore(a, pc, h) && SectionInv(a, pc)
    ensures StaysOff(a, NextSection(a, pc, c), h)
  {
    PostOwnFamily(a, pc);
    PostKeepsTokens(a, pc, c);
    PostGoesOn(a, pc, c);
    hide NextSection, SectionInv;
  }

  lemma PostKeepsTokens(a: Shared, pc: Pc, c: Choice)
    requires pc.CPost?
    ensures var b := NextSection(a, pc, c).sh;
            && b.access == a.access && b.refresh == a.refresh && b.owner == a.owner && b.shutdown == a.shutdown
            && b.server.ended == a.server.ended
  {
    hide Learn, Post;
    PostEndsNothing(a.server, pc.t, c.reply, a.nextRotation);
    var sv := Post(a.server, pc.t, c.reply, a.nextRotation).0;
    LearnKeepsTokens(a.(server := sv, posts := a.posts + 1, nextRotation := a.nextRotation + 1), SawVerdict(pc.h));
  }

  lemma PostGoesOn(a: Shared, pc: Pc, c: Choice)
    requires pc.CPost?
    ensures var next := NextSection(a, pc, c).pc;
            && (next.DCheck? || next.CRelease? || next.CAnswered?)
            && (next.CAnswered? ==>
                next.h == pc.h && pc.t in a.server.familyOf && a.server.familyOf[pc.t] !in a.server.ended)
  {
    hide Learn, Post;
    PostEndsNothing(a.server, pc.t, c.reply, a.nextRotation);
  }

  lemma PostOwnFamily(a: Shared, pc: Pc)
    requires pc.CPost? && SectionInv(a, pc)
    ensures pc.h in a.owner && pc.t in a.server.familyOf && a.server.familyOf[pc.t] == a.owner[pc.h]
  {
  }

  lemma WritesStayOff(a: Shared, pc: Pc, c: Choice, h: Hash)
    requires pc.CAnswered? || pc.CStoreAccess? || pc.CStoreRefresh? || pc.CUpdate?
    requires NoEntry(a, h) && !CanStore(a, pc, h)
    ensures StaysOff(a, NextSection(a, pc, c), h)
  {
    hide Learn, Updated;
    if pc.CUpdate? { UpdateKeepsTokens(a, pc.h, pc.row.user, pc.exp); }
    if pc.CAnswered? {
      LearnKeepsTokens(a, SawStranger(pc.h));
      if pc.h in a.owner { LearnKeepsTokens(a.(strangers := a.strangers + {a.owner[pc.h]}), SawStranger(pc.h)); }
    }
  }

  lemma GrantStaysOff(a: Shared, pc: Pc, c: Choice, h: Hash)
    requires PartOf(pc).Grant? && NoEntry(a, h)
    ensures StaysOff(a, NextGrant(a, pc, c), h)
  {
    hide Learn, Touched;
    if pc.GRow? && pc.h in a.rows { LearnKeepsTokens(a, SawExpired(pc.h, a.rows[pc.h].expires, a.now)); }
    if pc.GRead? { LearnKeepsTokens(a, SawUnreadable(pc.h)); }
    if pc.GAnswer? { TouchKeepsTokens(a, pc.h); }
    assert SameTokens(a, NextGrant(a, pc, c).sh);
  }

  lemma DeleteStaysOff(a: Shared, pc: Pc, c: Choice, h: Hash)
    requires PartOf(pc).Delete? && NoEntry(a, h)
    ensures StaysOff(a, NextDelete(a, pc, c), h)
  {
  }

  lemma RemovalKeepsTokens(a: Shared, pc: Pc, c: Choice)
    requires pc.PRemove?
    ensures SameTokens(a, NextPurge(a, pc, c).sh) && NextPurge(a, pc, c).pc.Idle?
  {
  }

  lemma NamingKeepsTokens(a: Shared, h: Hash, x: Hash)
    requires h in a.owner && x < a.nextHash && x in a.owner
    ensures var b := Named(a, h);
            && b.access == a.access && b.refresh == a.refresh && x in b.owner && b.owner[x] == a.owner[x]
            && b.server == a.server && b.shutdown == a.shutdown
  {
  }

  lemma RenamingKeepsTokens(a: Shared, h: Hash, h2: Hash)
    requires h in a.rows
    ensures SameTokens(a, Renamed(a, h, h2))
  {
  }

  lemma PurgeStaysOff(a: Shared, pc: Pc, c: Choice, h: Hash)
    requires PartOf(pc).Purge? && NoEntry(a, h)
    ensures StaysOff(a, NextPurge(a, pc, c), h)
  {
    hide Removed;
    if pc.PRemove? { RemovalKeepsTokens(a, pc, c); hide NextPurge; }
  }

  lemma CreateStaysOff(a: Shared, pc: Pc, c: Choice, h: Hash)
    requires PartOf(pc).Create? && NoEntry(a, h) && CreateInv(a, pc) && h in a.gone && h < a.nextHash && h in a.owner
    ensures StaysOff(a, NextCreate(a, pc, c), h)
  {
    hide Founded;
    if pc.KWait? { FoundingKeepsTokens(a, h); }
  }

  lemma FoundingKeepsTokens(a: Shared, h: Hash)
    requires h < a.nextHash && h in a.owner
    ensures var b := Founded(a);
            && b.access == a.access && b.refresh == a.refresh && h in b.owner && b.owner[h] == a.owner[h]
            && b.server.ended == a.server.ended && b.shutdown == a.shutdown
  {
  }

  lemma ReattachStaysOff(a: Shared, pc: Pc, c: Choice, h: Hash)
    requires PartOf(pc).Reattach? && NoEntry(a, h) && ReattachInv(a, pc) && h in a.gone && h < a.nextHash
             && h in a.owner
    ensures StaysOff(a, NextReattach(a, pc, c), h)
  {
    hide Renamed, Named;
    if pc.RScan? && c.pick.Some? && c.pick.value in a.owner { NamingKeepsTokens(a, c.pick.value, h); }
    if pc.RRename? && pc.h in a.rows { RenamingKeepsTokens(a, pc.h, pc.h2); }
  }

  lemma ShutdownStaysOff(a: Shared, pc: Pc, c: Choice, h: Hash)
    requires PartOf(pc).Shutdown? && NoEntry(a, h)
    ensures StaysOff(a, NextShutdown(a, pc, c), h)
  {
  }

  lemma StartStaysOff(a: Shared, c: Choice, h: Hash)
    requires NoEntry(a, h)
    ensures StaysOff(a, NextIdle(a, c), h)
  {
    hide Learn;
    if c.op.DCheck? { LearnKeepsTokens(a, c.op.why); }
    assert SameTokens(a, NextIdle(a, c).sh);
  }

  lemma ActionStaysOff(a: Shared, pc: Pc, c: Choice, h: Hash)
    requires NoEntry(a, h) && !CanStore(a, pc, h) && ThreadInv(a, pc) && h in a.gone && h < a.nextHash && h in a.owner
    ensures StaysOff(a, Next(a, pc, c), h)
  {
    hide StaysOff, NextValidate, NextSection, NextGrant, NextDelete, NextPurge, NextCreate, NextReattach, NextShutdown;
    hide ValidateInv, SectionInv, GrantInv, DeleteInv, PurgeInv, CreateInv, ReattachInv, ShutdownInv, NoEntry, CanStore;
    match PartOf(pc) {
      case Start => StartStaysOff(a, c, h);
      case Validate => ValidateStaysOff(a, pc, c, h);
      case Section =>
        if pc.CPost? { PostStaysOff(a, pc, c, h); }
        else if pc.CAnswered? || pc.CStoreAccess? || pc.CStoreRefresh? || pc.CUpdate? { WritesStayOff(a, pc, c, h); }
        else { ReadsStayOff(a, pc, c, h); }
      case Grant => GrantStaysOff(a, pc, c, h);
      case Delete => DeleteStaysOff(a, pc, c, h);
      case Purge => PurgeStaysOff(a, pc, c, h);
      case Create => CreateStaysOff(a, pc, c, h);
      case Reattach => ReattachStaysOff(a, pc, c, h);
      case Shutdown => ShutdownStaysOff(a, pc, c, h);
    }
  }

  lemma OnwardKeepsOff(a: Shared, b: Shared, pc: Pc, h: Hash)
    requires Onward(a, b, h) && !CanStore(a, pc, h)
    ensures !CanStore(b, pc, h)
  {
  }

  lemma GoneIsOwned(s: State, h: Hash)
    requires Inv(s) && h in s.sh.gone
    ensures h in s.sh.owner && h < s.sh.nextHash
  {
    assert Global(s.sh, SerialPhase(s));
  }

  lemma CleanStep(s: State, e: Event, h: Hash)
    requires Inv(s) && h in s.sh.gone && Clean(s, h)
    ensures Clean(Step(s, e), h)
  {
    GoneIsOwned(s, h);
    hide Global, ThreadInv, Next, CanStore, NoEntry, LockInv;
    var b := Step(s, e);
    if e.Run? && e.t in s.pcs { ActionStaysOff(s.sh, s.pcs[e.t], e.c, h); }
    OutsideOnward(s, e, h);
    forall t | t in b.pcs ensures !CanStore(b.sh, b.pcs[t], h) {
      if b.pcs[t] == s.pcs[t] { OnwardKeepsOff(s.sh, b.sh, s.pcs[t], h); }
    }
  }

  /** The clock and the server's own closing of sessions. */
  lemma OutsideOnward(s: State, e: Event, h: Hash)
    ensures !e.Run? ==> Onward(s.sh, Step(s, e).sh, h) && (NoEntry(s.sh, h) ==> NoEntry(Step(s, e).sh, h))
  {
  }

  lemma {:induction false} CleanRun(s: State, es: seq<Event>, h: Hash)
    requires Inv(s) && h in s.sh.gone && Clean(s, h)
    ensures NoEntry(Execute(s, es).sh, h)
    decreases |es|
  {
    if es != [] {
      CleanStep(s, es[0], h);
      StepInv(s, es[0]);
      StepKnown(s, es[0], h);
      hide Inv, Clean, Step;
      CleanRun(Step(s, es[0]), es[1..], h);
    }
  }

  // ------------------------------------------------------------ and nothing else does

  lemma StoresAccess(z: State, s: State, t: Tid) returns (r: State)
    requires Reaches(z, s) && t in s.pcs && s.pcs[t].CStoreAccess?
    ensures Reaches(z, r) && s.pcs[t].h in r.sh.access
  {
    hide NextValidate, NextGrant, NextDelete, NextPurge, NextCreate, NextReattach, NextShutdown, Post, Updated, Learn,
         Reaches;
    r := Act(z, s, t, FINE, Next(s.sh, s.pcs[t], FINE));
  }

  lemma StoresRefresh(z: State, s: State, t: Tid) returns (r: State)
    requires Reaches(z, s) && t in s.pcs && s.pcs[t].CStoreRefresh?
    ensures Reaches(z, r) && s.pcs[t].h in r.sh.refresh
  {
    hide NextValidate, NextGrant, NextDelete, NextPurge, NextCreate, NextReattach, NextShutdown, Post, Updated, Learn,
         Reaches;
    r := Act(z, s, t, FINE, Next(s.sh, s.pcs[t], FINE));
  }

  lemma AnswerGoesOn(z: State, s: State, t: Tid) returns (r: State)
    requires Reaches(z, s) && t in s.pcs && s.pcs[t].CAnswered? && s.pcs[t].user == s.pcs[t].row.user
    ensures Reaches(z, r) && t in r.pcs && r.pcs[t].CStoreAccess? && r.pcs[t].h == s.pcs[t].h
  {
    hide NextValidate, NextGrant, NextDelete, NextPurge, NextCreate, NextReattach, NextShutdown, Post, Updated, Learn,
         Reaches;
    var pc := s.pcs[t];
    r := Act(z, s, t, FINE, Go(s.sh, CStoreAccess(pc.h, pc.g, pc.row, pc.next, pc.exp)));
  }

  lemma SkewGoesOn(z: State, s: State, t: Tid) returns (r: State)
    requires Reaches(z, s) && t in s.pcs && s.pcs[t].CSkew? && s.pcs[t].row.accessExpires <= s.sh.now
    ensures var pc := s.pcs[t]; Reaches(z, r) && r == s.(pcs := s.pcs[t := CShutdown(pc.h, pc.g, pc.row, pc.t)])
  {
    hide NextValidate, NextGrant, NextDelete, NextPurge, NextCreate, NextReattach, NextShutdown, Post, Updated, Learn,
         Reaches;
    var pc := s.pcs[t];
    r := Act(z, s, t, FINE, Go(s.sh, CShutdown(pc.h, pc.g, pc.row, pc.t)));
  }

  lemma CheckGoesOn(z: State, s: State, t: Tid) returns (r: State)
    requires Reaches(z, s) && t in s.pcs && s.pcs[t].CShutdown? && !s.sh.shutdown
    ensures var pc := s.pcs[t]; Reaches(z, r) && r == s.(pcs := s.pcs[t := CPost(pc.h, pc.g, pc.row, pc.t)])
  {
    hide NextValidate, NextGrant, NextDelete, NextPurge, NextCreate, NextReattach, NextShutdown, Post, Updated, Learn,
         Reaches;
    var pc := s.pcs[t];
    r := Act(z, s, t, FINE, Go(s.sh, CPost(pc.h, pc.g, pc.row, pc.t)));
  }

  /** The thread goes to the server with the pair it has read. */
  lemma GoesToPost(z: State, s: State, t: Tid) returns (r: State)
    requires Reaches(z, s) && t in s.pcs && (s.pcs[t].CSkew? || s.pcs[t].CShutdown?) && !s.sh.shutdown
    ensures Reaches(z, r) && t in r.pcs && r.pcs[t].CPost? && r.pcs[t].h == s.pcs[t].h
            && r.sh.server == s.sh.server && r.sh.owner == s.sh.owner
  {
    hide Reaches;
    r := s;
    if s.pcs[t].CSkew? {
      var due := s.pcs[t].row.accessExpires;
      r := Waited(z, s, if s.sh.now < due then due else s.sh.now);
      r := SkewGoesOn(z, r, t);
    }
    r := CheckGoesOn(z, r, t);
  }

  /** What `PostAnswers` asks of the server. */
  lemma PostIsHonoured(s: State, t: Tid)
    requires Inv(s) && t in s.pcs && s.pcs[t].CPost? && Honoured(s.sh, s.pcs[t].h)
    ensures s.sh.server.Live(s.pcs[t].t)
            && s.sh.server.familyOf[s.pcs[t].t] !in s.sh.server.ended + s.sh.server.replayed
  {
    assert ThreadInv(s.sh, s.pcs[t]);
    assert s.sh.server.replayed == {};
  }

  lemma GetsAnswered(z: State, s: State, t: Tid) returns (r: State)
    requires Inv(z) && Reaches(z, s) && t in s.pcs && s.pcs[t].CPost? && Honoured(s.sh, s.pcs[t].h)
    ensures Reaches(z, r) && t in r.pcs && r.pcs[t].CAnswered? && r.pcs[t].h == s.pcs[t].h
            && r.pcs[t].user == r.pcs[t].row.user
  {
    ReachesInv(z, s);
    PostIsHonoured(s, t);
    hide Inv, Reaches;
    r := PostAnswers(z, s, t, s.pcs[t].row.user, s.sh.now);
  }

  /** A thread that can store does, if nobody hinders it. */
  lemma CanStoreStores(s: State, t: Tid, h: Hash) returns (r: State)
    requires Inv(s) && t in s.pcs && CanStore(s.sh, s.pcs[t], h)
    ensures Reaches(s, r) && !NoEntry(r.sh, h)
  {
    ReachSelf(s);
    hide Inv, Reaches;
    r := s;
    if r.pcs[t].CSkew? || r.pcs[t].CShutdown? { r := GoesToPost(s, r, t); }
    if r.pcs[t].CPost? { r := GetsAnswered(s, r, t); }
    if r.pcs[t].CAnswered? { r := AnswerGoesOn(s, r, t); }
    if r.pcs[t].CStoreAccess? { r := StoresAccess(s, r, t); } else { r := StoresRefresh(s, r, t); }
  }

  /**
   Once a session's row is gone, whether by a delete, a purge or a reattach: no token
   entry of it is ever found again, in any continuation, if and only if none is
   there now and no thread is so far with a refresh of it that it can still store one.
   */
  lemma EntriesStayGoneExactlyWhen(s: State, h: Hash)
    requires Inv(s) && h in s.sh.gone
    ensures Clean(s, h) <==> forall es :: NoEntry(Execute(s, es).sh, h)
  {
    if Clean(s, h) {
      forall es ensures NoEntry(Execute(s, es).sh, h) { CleanRun(s, es, h); }
    } else if !NoEntry(s.sh, h) {
      assert Execute(s, []) == s;
      assert !NoEntry(Execute(s, []).sh, h);
    } else {
      var t :| t in s.pcs && CanStore(s.sh, s.pcs[t], h);
      var r := CanStoreStores(s, t, h);
      var es :| Execute(s, es) == r;
      assert !NoEntry(Execute(s, es).sh, h);
    }
  }

  /**
   And it happens, from any start: `u` deletes the session while `t` waits for its
   refresh; then `t` stores the new pair, which the server accepts, under a
   session that is gone.
   */
  lemma LeftoverIsReached(s: State, t: Tid, u: Tid) returns (r: State, h: Hash)
    requires Boot(s) && t in s.pcs && u in s.pcs && t != u && s.sh.nextFamily !in s.sh.server.ended
    ensures Reaches(s, r) && h in r.sh.gone && h !in r.sh.rows && h in r.sh.access && h in r.sh.refresh
    ensures r.sh.server.Live(r.sh.refresh[h])
  {
    hide Global, Reaches;
    r, h := DueSession(s, t);
    r := DueSessionIsAnswered(s, r, t, h, 0, s.sh.now);
    r := DeleteIsAsked(s, r, u, h);
    r := DeleteTakesTheRow(s, r, u);
    r := AnswerIsStored(s, r, t);
  }

  lemma DeleteIsAsked(z: State, s: State, u: Tid, h: Hash) returns (r: State)
    requires Reaches(z, s) && u in s.pcs && s.pcs[u].Idle?
    ensures Reaches(z, r) && r == s.(sh := Learn(s.sh, Asked(h)), pcs := s.pcs[u := DCheck(h, false, Asked(h))])
  {
    hide NextValidate, NextSection, NextGrant, NextDelete, NextPurge, NextCreate, NextReattach, NextShutdown, Learn,
         Reaches;
    r := Act(z, s, u, Choice(DCheck(h, false, Asked(h)), true, Lost, None),
             Go(Learn(s.sh, Asked(h)), DCheck(h, false, Asked(h))));
  }
}
