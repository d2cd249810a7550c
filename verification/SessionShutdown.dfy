/** What shutting down guarantees, and what a process that is killed leaves to the next one. */
module SessionShutdown {
  import opened Common
  import opened SessionModel
  import opened SessionProtocol
  import opened SessionInvariant
  import opened SessionEffects
  import opened SessionRuns
  import opened SessionTheorems

  /** A delete that has passed its shutdown check. */
  predicate PastCheck(pc: Pc) {
    pc.DWait? || pc.DRow? || pc.DAccess? || pc.DRefresh? || pc.DRemove?
  }

  /** The three statements that take a row away, and what they record. */
  predicate Removes(a: Shared, pc: Pc, b: Shared, h: Hash)
    requires h in a.rows
  {
    || (pc.PRemove? && a.rows[h].user == pc.u && h in b.causes && b.causes[h] == Purged(h))
    || (pc.RRename? && pc.h == h && h in b.renamed)
    || (pc.DRemove? && pc.h == h && h in b.causes && b.causes[h] == pc.why)
  }

  /** What a single action can do to the counters, the flags and the rows. */
  ghost predicate Discipline(a: Shared, pc: Pc, out: Out) {
    && (!pc.CPost? ==> out.sh.posts == a.posts)
    && (a.quiesced ==> out.sh.quiesced) && (a.shutdown ==> out.sh.shutdown)
    && (a.shutdown && PastCheck(out.pc) ==> PastCheck(pc))
    && (forall h :: h in a.rows && h !in out.sh.rows ==> Removes(a, pc, out.sh, h))
  }

  lemma DisciplineReads(a: Shared, pc: Pc, c: Choice)
    requires pc.CRow? || pc.CAccess? || pc.CRefresh? || pc.CPresent? || pc.CSkew? || pc.CShutdown? || pc.CRelease?
    ensures Discipline(a, pc, NextSection(a, pc, c))
  {
  }

  predicate SameStore(a: Shared, b: Shared) {
    b.rows == a.rows && b.access == a.access && b.refresh == a.refresh && b.server == a.server && b.now == a.now
  }

  lemma LearningKeepsRows(a: Shared, f: Fact)
    ensures var b := Learn(a, f);
            SameStore(a, b) && b.posts == a.posts && b.quiesced == a.quiesced && b.shutdown == a.shutdown
  {
  }

  lemma PostKeepsRows(a: Shared, pc: Pc, c: Choice)
    requires pc.CPost?
    ensures var b := NextSection(a, pc, c).sh; b.rows == a.rows && b.quiesced == a.quiesced && b.shutdown == a.shutdown
  {
    hide Post, Learn;
    var counted :=
        a.(server := Post(a.server, pc.t, c.reply, a.nextRotation).0, posts := a.posts + 1,
           nextRotation := a.nextRotation + 1);
    LearningKeepsRows(counted, SawVerdict(pc.h));
  }

  lemma PostLeadsOn(a: Shared, pc: Pc, c: Choice)
    requires pc.CPost?
    ensures !PastCheck(NextSection(a, pc, c).pc)
  {
    hide Post, Learn;
  }

  lemma DisciplineStores(a: Shared, pc: Pc, c: Choice)
    requires pc.CStoreAccess? || pc.CStoreRefresh? || pc.CUpdate?
    ensures Discipline(a, pc, NextSection(a, pc, c))
  {
    hide Updated;
    if pc.CUpdate? { UpdateKeepsRows(a, pc.h, pc.row.user, pc.exp); }
  }

  lemma UpdateKeepsRows(a: Shared, h: Hash, user: User, exp: int)
    ensures var b := Updated(a, h, user, exp);
            b.rows.Keys == a.rows.Keys && b.posts == a.posts && b.quiesced == a.quiesced && b.shutdown == a.shutdown
  {
  }

  lemma DisciplineAnswer(a: Shared, pc: Pc, c: Choice)
    requires pc.CAnswered?
    ensures Discipline(a, pc, NextSection(a, pc, c))
  {
  }

  lemma DisciplineSection(a: Shared, pc: Pc, c: Choice)
    requires PartOf(pc).Section?
    ensures Discipline(a, pc, NextSection(a, pc, c))
  {
    hide NextSection;
    if pc.CPost? { PostKeepsRows(a, pc, c); PostLeadsOn(a, pc, c); }
    else if pc.CAnswered? { hide Discipline; DisciplineAnswer(a, pc, c); }
    else if pc.CStoreAccess? || pc.CStoreRefresh? || pc.CUpdate? { hide Discipline; DisciplineStores(a, pc, c); }
    else { hide Discipline; DisciplineReads(a, pc, c); }
  }

  lemma DisciplineValidate(a: Shared, pc: Pc, c: Choice)
    requires PartOf(pc).Validate?
    ensures Discipline(a, pc, NextValidate(a, pc, c))
  {
    hide Discipline, NextValidate;
    if pc.Touch? { TouchDisciplined(a, pc, c); }
    else if pc.VExpiry? { ExpiryDisciplined(a, pc, c); }
    else { ReadsDisciplined(a, pc, c); }
  }

  lemma TouchDisciplined(a: Shared, pc: Pc, c: Choice)
    requires pc.Touch?
    ensures Discipline(a, pc, NextValidate(a, pc, c))
  {
  }

  lemma ExpiryDisciplined(a: Shared, pc: Pc, c: Choice)
    requires pc.VExpiry?
    ensures Discipline(a, pc, NextValidate(a, pc, c))
  {
    hide Learn;
    LearningKeepsRows(a, SawExpired(pc.h, pc.row.expires, a.now));
  }

  lemma ReadsDisciplined(a: Shared, pc: Pc, c: Choice)
    requires PartOf(pc).Validate? && !pc.Touch? && !pc.VExpiry?
    ensures Discipline(a, pc, NextValidate(a, pc, c))
  {
    hide Touched, Learn;
    assert NextValidate(a, pc, c).sh == a;
  }

  lemma DisciplineGrant(a: Shared, pc: Pc, c: Choice)
    requires PartOf(pc).Grant?
    ensures Discipline(a, pc, NextGrant(a, pc, c))
  {
    hide Discipline, NextGrant;
    if pc.GRow? || pc.GRead? { GrantDropDisciplined(a, pc, c); } else { GrantDisciplined(a, pc, c); }
  }

  lemma GrantDropDisciplined(a: Shared, pc: Pc, c: Choice)
    requires pc.GRow? || pc.GRead?
    ensures Discipline(a, pc, NextGrant(a, pc, c))
  {
    hide Learn;
    if pc.GRow? && pc.h in a.rows { LearningKeepsRows(a, SawExpired(pc.h, a.rows[pc.h].expires, a.now)); }
    if pc.GRead? { LearningKeepsRows(a, SawUnreadable(pc.h)); }
  }

  lemma GrantDisciplined(a: Shared, pc: Pc, c: Choice)
    requires pc.GWait? || pc.GResolve? || pc.GAnswer?
    ensures Discipline(a, pc, NextGrant(a, pc, c))
  {
    hide Touched;
    if pc.GAnswer? { TouchKeepsRows(a, pc.h); }
  }

  lemma TouchKeepsRows(a: Shared, h: Hash)
    ensures var b := Touched(a, h);
            b.rows.Keys == a.rows.Keys && b.posts == a.posts && b.quiesced == a.quiesced && b.shutdown == a.shutdown
  {
  }

  lemma DisciplineDelete(a: Shared, pc: Pc, c: Choice)
    requires PartOf(pc).Delete?
    ensures Discipline(a, pc, NextDelete(a, pc, c))
  {
  }

  lemma DisciplinePurge(a: Shared, pc: Pc, c: Choice)
    requires PartOf(pc).Purge?
    ensures Discipline(a, pc, NextPurge(a, pc, c))
  {
    if !pc.PRemove? { hide Removed; DisciplinePurging(a, pc, c); }
  }

  lemma DisciplinePurging(a: Shared, pc: Pc, c: Choice)
    requires PartOf(pc).Purge? && !pc.PRemove?
    ensures Discipline(a, pc, NextPurge(a, pc, c))
  {
    hide Removed;
    assert NextPurge(a, pc, c).sh.rows == a.rows;
  }

  lemma DisciplineCreate(a: Shared, pc: Pc, c: Choice)
    requires PartOf(pc).Create?
    ensures Discipline(a, pc, NextCreate(a, pc, c))
  {
  }

  lemma DisciplineReattach(a: Shared, pc: Pc, c: Choice)
    requires PartOf(pc).Reattach?
    ensures Discipline(a, pc, NextReattach(a, pc, c))
  {
    hide Renamed, Named;
    if pc.RRename? && pc.h in a.rows { RenameTakesOne(a, pc.h, pc.h2); }
    if pc.RScan? && c.pick.Some? && c.pick.value in a.owner { NamingKeepsRows(a, c.pick.value); }
  }

  lemma RenameTakesOne(a: Shared, h: Hash, h2: Hash)
    requires h in a.rows
    ensures var b := Renamed(a, h, h2);
            && (forall x :: x in a.rows && x !in b.rows ==> x == h) && h in b.renamed
            && b.posts == a.posts && b.quiesced == a.quiesced && b.shutdown == a.shutdown
  {
  }

  lemma NamingKeepsRows(a: Shared, h: Hash)
    requires h in a.owner
    ensures var b := Named(a, h);
            b.rows == a.rows && b.posts == a.posts && b.quiesced == a.quiesced && b.shutdown == a.shutdown
  {
  }

  lemma DisciplineShutdown(a: Shared, pc: Pc, c: Choice)
    requires PartOf(pc).Shutdown?
    ensures Discipline(a, pc, NextShutdown(a, pc, c))
  {
  }

  lemma DisciplineStart(a: Shared, c: Choice)
    ensures Discipline(a, Idle, NextIdle(a, c))
  {
  }

  lemma Disciplined(a: Shared, pc: Pc, c: Choice)
    ensures Discipline(a, pc, Next(a, pc, c))
  {
    hide Discipline, NextValidate, NextSection, NextGrant, NextDelete, NextPurge, NextCreate, NextReattach,
         NextShutdown;
    match PartOf(pc) {
      case Start => DisciplineStart(a, c);
      case Validate => DisciplineValidate(a, pc, c);
      case Section => DisciplineSection(a, pc, c);
      case Grant => DisciplineGrant(a, pc, c);
      case Delete => DisciplineDelete(a, pc, c);
      case Purge => DisciplinePurge(a, pc, c);
      case Create => DisciplineCreate(a, pc, c);
      case Reattach => DisciplineReattach(a, pc, c);
      case Shutdown => DisciplineShutdown(a, pc, c);
    }
  }

  /** Once `begin_desktop_session_shutdown` has returned True, no refresh is or will be under way. */
  lemma {:induction false} NoPostAfterShutdown(s: State, es: seq<Event>)
    requires Inv(s) && s.sh.quiesced
    ensures var r := Execute(s, es);
            && r.sh.quiesced && r.sh.posts == s.sh.posts
            && forall t :: t in r.pcs ==> !RefreshUnderWay(PhaseOf(r.pcs[t]))
    decreases |es|
  {
    QuiescedThreads(s);
    if es != [] {
      StepInv(s, es[0]);
      QuiescedStep(s, es[0]);
      NoPostAfterShutdown(Step(s, es[0]), es[1..]);
    }
  }

  lemma QuiescedThreads(s: State)
    requires Inv(s) && s.sh.quiesced
    ensures forall t :: t in s.pcs ==> !RefreshUnderWay(PhaseOf(s.pcs[t]))
  {
    forall t | t in s.pcs ensures !RefreshUnderWay(PhaseOf(s.pcs[t])) {
      if RefreshUnderWay(PhaseOf(s.pcs[t])) { UnderWayHoldsSerial(s.pcs[t]); }
    }
  }

  lemma QuiescedStep(s: State, e: Event)
    requires Inv(s) && s.sh.quiesced
    ensures Step(s, e).sh.quiesced && Step(s, e).sh.posts == s.sh.posts
  {
    QuiescedThreads(s);
    if e.Run? && e.t in s.pcs {
      hide Global, ThreadInv;
      Disciplined(s.sh, s.pcs[e.t], e.c);
      hide Next;
    }
  }

  /**
   After the shutdown flag is set no delete gets past its check any more: a thread
   inside one now was already inside one when the flag was set.
   */
  lemma {:induction false} LateDeletesAreSkipped(s: State, es: seq<Event>)
    requires s.sh.shutdown
    ensures var r := Execute(s, es);
            && r.sh.shutdown && r.pcs.Keys == s.pcs.Keys
            && forall t :: t in r.pcs && PastCheck(r.pcs[t]) ==> PastCheck(s.pcs[t])
    decreases |es|
  {
    if es != [] {
      ShutdownStep(s, es[0]);
      LateDeletesAreSkipped(Step(s, es[0]), es[1..]);
    }
  }

  lemma ShutdownStep(s: State, e: Event)
    requires s.sh.shutdown
    ensures var r := Step(s, e);
            && r.sh.shutdown && r.pcs.Keys == s.pcs.Keys
            && forall t :: t in r.pcs && PastCheck(r.pcs[t]) ==> PastCheck(s.pcs[t])
  {
    if e.Run? && e.t in s.pcs {
      Disciplined(s.sh, s.pcs[e.t], e.c);
      hide Next;
    }
  }

  /**
   Only three statements take a row away: a delete's, for the fact it carries, a
   purge's, for its account's rows, and a reattach's rename.
   */
  lemma WhoRemovesRows(s: State, e: Event, h: Hash)
    requires h in s.sh.rows && h !in Step(s, e).sh.rows
    ensures e.Run? && e.t in s.pcs && Removes(s.sh, s.pcs[e.t], Step(s, e).sh, h)
  {
    if e.Run? && e.t in s.pcs {
      Disciplined(s.sh, s.pcs[e.t], e.c);
      hide Next;
    }
  }

  // -------------------------------------------------------- killing the process, starting it again

  /** The process ends here, whatever its threads were doing; the next launch finds rows and tokens as they are. */
  function Restart(s: State): State {
    State(Relaunched(s.sh), map t | t in s.pcs :: Idle, None, None)
  }

  /** The history starts again with the process. */
  function Relaunched(sh: Shared): Shared {
    sh.(shutdown := false, quiesced := false, booted := sh.now,
        facts := {}, gone := {}, renamed := {}, causes := map[], strangers := {}, bare := Bare(sh))
  }

  /** A session the next launch would refresh, with a token the server has rotated away. */
  predicate Replayable(sh: Shared, h: Hash) {
    && h in sh.rows && h in sh.access && h in sh.refresh && sh.rows[h].expires > sh.now
    && !sh.server.Live(sh.refresh[h])
  }

  ghost predicate NothingReplayable(sh: Shared) { forall h :: !Replayable(sh, h) }

  /**
   Whenever no refresh is under way, the store is a legitimate start exactly when no stored session
   could be replayed.
   */
  lemma RestartBootsExactlyWhen(r: State)
    requires Inv(r)
    requires forall t :: t in r.pcs ==> !RefreshUnderWay(PhaseOf(r.pcs[t]))
    ensures Boot(Restart(r)) <==> NothingReplayable(r.sh)
  {
    var ph := SerialPhase(r);
    assert Global(r.sh, ph) && !RefreshUnderWay(ph);
    hide Inv, LockInv, Global;
    if NothingReplayable(r.sh) { RestartBoots(r.sh, ph); } else { ReplayableForbidsBoot(r); }
  }

  lemma RestartBoots(a: Shared, ph: Phase)
    requires Global(a, ph) && !RefreshUnderWay(ph) && NothingReplayable(a)
    ensures Global(Relaunched(a), Quiet)
  {
    hide Global;
    forall h | h in a.rows && h in a.access && h in a.refresh && a.rows[h].expires > a.now
      ensures a.server.Live(a.refresh[h])
    {
      assert !Replayable(a, h);
    }
    BootGlobal(a, ph);
  }

  lemma ReplayableForbidsBoot(r: State)
    requires !NothingReplayable(r.sh)
    ensures !Boot(Restart(r))
  {
    var h :| Replayable(r.sh, h);
    var sh := Restart(r).sh;
    assert !StoredIsLive(sh.rows, sh.access, sh.refresh, sh.server, sh.owner, {}, false, sh.now, Quiet);
  }

  lemma BootGlobal(a: Shared, ph: Phase)
    requires Global(a, ph) && !RefreshUnderWay(ph)
    requires forall h :: h in a.rows && h in a.access && h in a.refresh && a.rows[h].expires > a.now ==>
             a.server.Live(a.refresh[h])
    ensures Global(Relaunched(a), Quiet)
  {
  }

  // ------------------------------- nothing becomes replayable once the handshake has ended

  /** `b` has no session that `a` had not, with the same tokens and expiry, and no token died. */
  ghost predicate Calmer(a: Shared, b: Shared) {
    && a.now <= b.now
    && (forall h :: h in b.rows && h in b.access && h in b.refresh ==>
          h in a.rows && h in a.access && h in a.refresh && b.refresh[h] == a.refresh[h]
              && b.rows[h].expires == a.rows[h].expires)
    && (forall h :: h in b.rows && h in b.access && h in b.refresh && a.server.Live(a.refresh[h]) ==>
        b.server.Live(a.refresh[h]))
  }

  lemma CalmStaysSafe(a: Shared, b: Shared)
    requires Calmer(a, b) && NothingReplayable(a)
    ensures NothingReplayable(b)
  {
    forall h ensures !Replayable(b, h) { assert !Replayable(a, h); }
  }

  lemma SameIsCalm(a: Shared, b: Shared)
    requires SameStore(a, b)
    ensures Calmer(a, b)
  {
  }

  lemma TouchIsCalm(a: Shared, h: Hash)
    ensures Calmer(a, Touched(a, h))
  {
  }

  lemma CalmStart(a: Shared, c: Choice)
    ensures Calmer(a, NextIdle(a, c).sh)
  {
    hide Calmer, Learn;
    if c.op.DCheck? { LearningKeepsRows(a, c.op.why); }
    SameIsCalm(a, NextIdle(a, c).sh);
  }

  lemma CalmValidate(a: Shared, pc: Pc, c: Choice)
    requires PartOf(pc).Validate?
    ensures Calmer(a, NextValidate(a, pc, c).sh)
  {
    hide Calmer, Touched, Learn;
    if pc.VExpiry? { LearningKeepsRows(a, SawExpired(pc.h, pc.row.expires, a.now)); }
    if pc.Touch? { TouchIsCalm(a, pc.h); } else { SameIsCalm(a, NextValidate(a, pc, c).sh); }
  }

  lemma CalmSection(a: Shared, pc: Pc, c: Choice)
    requires PartOf(pc).Section? && !RefreshUnderWay(PhaseOf(pc))
    ensures Calmer(a, NextSection(a, pc, c).sh)
  {
    hide Calmer, Post, Updated;
    SameIsCalm(a, NextSection(a, pc, c).sh);
  }

  lemma GrantTouches(a: Shared, pc: Pc, c: Choice)
    requires pc.GAnswer?
    ensures SameStore(Touched(a, pc.h), NextGrant(a, pc, c).sh)
  {
    hide Touched;
  }

  lemma SameAsCalm(a: Shared, m: Shared, b: Shared)
    requires Calmer(a, m) && SameStore(m, b)
    ensures Calmer(a, b)
  {
  }

  lemma CalmGrant(a: Shared, pc: Pc, c: Choice)
    requires PartOf(pc).Grant?
    ensures Calmer(a, NextGrant(a, pc, c).sh)
  {
    hide Calmer, Touched;
    if pc.GAnswer? {
      GrantTouches(a, pc, c);
      TouchIsCalm(a, pc.h);
      hide NextGrant;
      SameAsCalm(a, Touched(a, pc.h), NextGrant(a, pc, c).sh);
    } else {
      if pc.GRow? && pc.h in a.rows { LearningKeepsRows(a, SawExpired(pc.h, a.rows[pc.h].expires, a.now)); }
      if pc.GRead? { LearningKeepsRows(a, SawUnreadable(pc.h)); }
      hide Learn;
      SameIsCalm(a, NextGrant(a, pc, c).sh);
    }
  }

  lemma CalmDelete(a: Shared, pc: Pc, c: Choice)
    requires PartOf(pc).Delete?
    ensures Calmer(a, NextDelete(a, pc, c).sh)
  {
  }

  lemma CalmPurge(a: Shared, pc: Pc, c: Choice)
    requires PartOf(pc).Purge?
    ensures Calmer(a, NextPurge(a, pc, c).sh)
  {
    hide Calmer;
    if pc.PRemove? { CalmPurged(a, pc, c); }
    else if pc.PWait? || pc.PList? { SameIsCalm(a, NextPurge(a, pc, c).sh); }
    else { CalmPurging(a, pc, c); }
  }

  lemma CalmPurged(a: Shared, pc: Pc, c: Choice)
    requires pc.PRemove?
    ensures Calmer(a, NextPurge(a, pc, c).sh)
  {
  }

  lemma CalmPurging(a: Shared, pc: Pc, c: Choice)
    requires pc.PAccess? || pc.PRefresh?
    ensures Calmer(a, NextPurge(a, pc, c).sh)
  {
    hide Removed;
    if pc.PRefresh? { FewerTokensCalm(a, a.access, Without(a.refresh, pc.h)); }
    else if c.pick.Some? { FewerTokensCalm(a, Without(a.access, c.pick.value), a.refresh); }
  }

  lemma FewerTokensCalm(a: Shared, access: map<Hash, Rotation>, refresh: map<Hash, Rotation>)
    requires access.Keys <= a.access.Keys && refresh.Keys <= a.refresh.Keys
    requires forall h :: h in refresh ==> refresh[h] == a.refresh[h]
    ensures Calmer(a, a.(access := access, refresh := refresh))
  {
  }

  lemma CalmShutdown(a: Shared, pc: Pc, c: Choice)
    requires PartOf(pc).Shutdown?
    ensures Calmer(a, NextShutdown(a, pc, c).sh)
  {
  }

  lemma CalmFounding(a: Shared, ph: Phase)
    requires Global(a, ph)
    ensures Calmer(a, Founded(a))
  {
    forall h | h in a.rows && h in a.access && h in a.refresh && a.server.Live(a.refresh[h])
      ensures Founded(a).server.Live(a.refresh[h])
    {
      MintKeepsTokens(a, Founded(a), ph, h);
    }
  }

  lemma SafeInsert(a: Shared, h: Hash, r: Rotation, row: Row)
    requires Newborn(a, h, r) && h in a.access && h in a.refresh && BothAre(a, h, r) && NothingReplayable(a)
    ensures NothingReplayable(a.(rows := a.rows[h := row]))
  {
    var b := a.(rows := a.rows[h := row]);
    forall x ensures !Replayable(b, x) { assert !Replayable(a, x); }
  }

  lemma SafeCreate(a: Shared, ph: Phase, pc: Pc, c: Choice)
    requires PartOf(pc).Create? && Global(a, ph) && CreateInv(a, pc) && NothingReplayable(a)
    ensures NothingReplayable(NextCreate(a, pc, c).sh)
  {
    hide Global, Founded, NothingReplayable, Newborn;
    if pc.KWait? {
      CalmFounding(a, ph);
      CalmStaysSafe(a, Founded(a));
    } else if pc.KInsert? && c.ok {
      SafeInsert(a, pc.h, pc.r, Row(pc.u, a.now, a.now, a.now + LOCAL_SESSION_TTL, pc.exp));
    } else {
      CalmCreate(a, pc, c);
      CalmStaysSafe(a, NextCreate(a, pc, c).sh);
    }
  }

  lemma CalmCreate(a: Shared, pc: Pc, c: Choice)
    requires PartOf(pc).Create? && CreateInv(a, pc) && !pc.KWait? && !(pc.KInsert? && c.ok)
    ensures Calmer(a, NextCreate(a, pc, c).sh)
  {
    hide Founded;
  }

  lemma SafeRename(a: Shared, h: Hash, h2: Hash, t: Rotation)
    requires Copying(a, h, h2, t) && h2 in a.access && h2 in a.refresh && BothAre(a, h2, t) && NothingReplayable(a)
    ensures NothingReplayable(Renamed(a, h, h2))
  {
    var b := Renamed(a, h, h2);
    forall x ensures !Replayable(b, x) { assert !Replayable(a, x) && !Replayable(a, h); }
  }

  lemma SafeReattach(a: Shared, pc: Pc, c: Choice)
    requires PartOf(pc).Reattach? && ReattachInv(a, pc) && NothingReplayable(a)
    ensures NothingReplayable(NextReattach(a, pc, c).sh)
  {
    hide NothingReplayable, Renamed;
    if pc.RRename? && c.ok {
      SafeRename(a, pc.h, pc.h2, pc.t);
    } else {
      CalmReattach(a, pc, c);
      CalmStaysSafe(a, NextReattach(a, pc, c).sh);
    }
  }

  lemma CalmReattach(a: Shared, pc: Pc, c: Choice)
    requires PartOf(pc).Reattach? && ReattachInv(a, pc) && !(pc.RRename? && c.ok)
    ensures Calmer(a, NextReattach(a, pc, c).sh)
  {
    if pc.RScan? || pc.RWaitSerial? || pc.RWaitLock? || pc.RUnlock? || pc.RRename? {
      hide Calmer, Renamed;
      SameIsCalm(a, NextReattach(a, pc, c).sh);
    } else if pc.RStoreAccess? || pc.RStoreRefresh? {
      CalmCopying(a, pc, c);
    } else {
      CalmDropping(a, pc, c);
    }
  }

  /** A token under a hash that has no row yet. */
  lemma CalmCopying(a: Shared, pc: Pc, c: Choice)
    requires ReattachInv(a, pc) && (pc.RStoreAccess? || pc.RStoreRefresh?)
    ensures Calmer(a, NextReattach(a, pc, c).sh)
  {
    hide Renamed, Named;
  }

  lemma CalmDropping(a: Shared, pc: Pc, c: Choice)
    requires pc.RUndo? || pc.RDropAccess? || pc.RDropRefresh?
    ensures Calmer(a, NextReattach(a, pc, c).sh)
  {
    hide Renamed, Named, Calmer;
    if pc.RUndo? { FewerTokensCalm(a, Without(a.access, pc.h2), Without(a.refresh, pc.h2)); }
    else if pc.RDropAccess? { FewerTokensCalm(a, Without(a.access, pc.h), a.refresh); }
    else { FewerTokensCalm(a, a.access, Without(a.refresh, pc.h)); }
  }

  lemma SafeAction(a: Shared, ph: Phase, pc: Pc, c: Choice)
    requires Global(a, ph) && ThreadInv(a, pc) && !RefreshUnderWay(PhaseOf(pc)) && NothingReplayable(a)
    ensures NothingReplayable(Next(a, pc, c).sh)
  {
    hide Global, ValidateInv, SectionInv, GrantInv, DeleteInv, PurgeInv, CreateInv, ReattachInv, ShutdownInv;
    hide NothingReplayable, Calmer, PhaseOf;
    hide NextValidate, NextSection, NextGrant, NextDelete, NextPurge, NextCreate, NextReattach, NextShutdown;
    match PartOf(pc) {
      case Start => CalmStart(a, c); CalmStaysSafe(a, NextIdle(a, c).sh);
      case Validate => CalmValidate(a, pc, c); CalmStaysSafe(a, NextValidate(a, pc, c).sh);
      case Section => CalmSection(a, pc, c); CalmStaysSafe(a, NextSection(a, pc, c).sh);
      case Grant => CalmGrant(a, pc, c); CalmStaysSafe(a, NextGrant(a, pc, c).sh);
      case Delete => CalmDelete(a, pc, c); CalmStaysSafe(a, NextDelete(a, pc, c).sh);
      case Purge => CalmPurge(a, pc, c); CalmStaysSafe(a, NextPurge(a, pc, c).sh);
      case Create => SafeCreate(a, ph, pc, c);
      case Reattach => SafeReattach(a, pc, c);
      case Shutdown => CalmShutdown(a, pc, c); CalmStaysSafe(a, NextShutdown(a, pc, c).sh);
    }
  }

  lemma SafeStep(s: State, e: Event)
    requires Inv(s) && s.sh.quiesced && NothingReplayable(s.sh)
    ensures NothingReplayable(Step(s, e).sh)
  {
    hide Global, ThreadInv, Next, NothingReplayable, LockInv, Calmer;
    match e {
      case Run(t, c) =>
        if t in s.pcs {
          QuiescedThreads(s);
          SafeAction(s.sh, SerialPhase(s), s.pcs[t], c);
        }
      case _ =>
        OutsideIsCalm(s, e);
        CalmStaysSafe(s.sh, Step(s, e).sh);
    }
  }

  lemma OutsideIsCalm(s: State, e: Event)
    requires !e.Run?
    ensures Calmer(s.sh, Step(s, e).sh)
  {
  }

  lemma {:induction false} SafeRun(s: State, es: seq<Event>)
    requires Inv(s) && s.sh.quiesced && NothingReplayable(s.sh)
    ensures NothingReplayable(Execute(s, es).sh)
    decreases |es|
  {
    hide NothingReplayable;
    if es != [] {
      StepInv(s, es[0]);
      QuiescedStep(s, es[0]);
      SafeStep(s, es[0]);
      SafeRun(Step(s, es[0]), es[1..]);
    }
  }

  /**
   What the True answer is for: when no stored session is replayable at that
   moment, the process may from then on die at any instant, in the middle of any
   statement of any thread, and the next launch starts from a store on which no
   interleaving ever replays a token.
   */
  lemma SafeToQuit(s: State, es: seq<Event>, later: seq<Event>)
    requires Inv(s) && s.sh.quiesced && NothingReplayable(s.sh)
    ensures Boot(Restart(Execute(s, es)))
    ensures Execute(Restart(Execute(s, es)), later).sh.server.replayed == {}
  {
    ExecuteInv(s, es);
    NoPostAfterShutdown(s, es);
    SafeRun(s, es);
    var r := Execute(s, es);
    hide Execute, NothingReplayable;
    RestartBootsExactlyWhen(r);
    NoReplay(Restart(r), later);
  }
}
