/** What the store promises, over every run of any number of threads. */
module SessionTheorems {
  import opened Common
  import opened SessionModel
  import opened SessionProtocol
  import opened SessionInvariant
  import opened SessionStable
  import opened SessionRuns

  // ---------------------------------------------------------------- runs keep the invariant

  /**
   A process just started: no thread has begun, no lock is held, its history is
   empty.  Any rows may lack token entries.
   */
  ghost predicate Boot(s: State) {
    && s.serial.None? && s.lock.None?
    && (forall t :: t in s.pcs ==> s.pcs[t] == Idle)
    && Global(s.sh, Quiet)
    && !s.sh.shutdown && !s.sh.quiesced
    && NewHistory(s.sh)
  }

  /** Nothing has been found out and no row has gone; the sessions without a token entry are noted. */
  predicate NewHistory(sh: Shared) {
    sh.facts == {} && sh.gone == {} && sh.renamed == {} && sh.causes == map[] && sh.strangers == {}
        && sh.bare == Bare(sh)
  }

  function EmptyStore(threads: set<Tid>, now: int): State {
    var sh := Shared(map[], map[], map[], Server(map[], map[], {}, {}), false, now, 0, 0, 0,
                     map[], {}, {}, {}, {}, map[], 0, {}, map[], now, {}, false);
    State(sh, map t | t in threads :: Idle, None, None)
  }

  lemma EmptyStoreBoots(threads: set<Tid>, now: int)
    ensures Boot(EmptyStore(threads, now))
  {
  }

  lemma BootInv(s: State)
    requires Boot(s)
    ensures Inv(s)
  {
  }

  /** The clock, or the server closing a session, is a disturbance like another thread's. */
  lemma OutsideOk(s: State, b: Shared)
    requires Inv(s) && Env(s.sh, b, false, false) && b.gone == s.sh.gone && b.rows == s.sh.rows
             && Global(b, SerialPhase(s))
    ensures Inv(s.(sh := b))
  {
    GlobalNames(s.sh, SerialPhase(s));
    hide Global, Env, ThreadInv;
    forall t | t in s.pcs ensures ThreadInv(b, s.pcs[t]) { Stable(s.sh, b, false, false, s.pcs[t]); }
  }

  lemma TickOk(s: State, to: int)
    requires Inv(s) && to >= s.sh.now
    ensures Inv(s.(sh := s.sh.(now := to)))
  {
    hide ThreadInv;
    OutsideOk(s, s.sh.(now := to));
  }

  lemma EndOk(s: State, f: Family)
    requires Inv(s)
    ensures Inv(Step(s, EndFamily(f)))
  {
    hide ThreadInv;
    var b := Step(s, EndFamily(f)).sh;
    assert forall t :: s.sh.server.Live(t) == b.server.Live(t);
    OutsideOk(s, b);
  }

  lemma StepInv(s: State, e: Event)
    requires Inv(s)
    ensures Inv(Step(s, e))
  {
    hide Inv, Next;
    match e {
      case Run(t, c) => RunKeepsInv(s, t, c);
      case Tick(to) => if to >= s.sh.now { TickOk(s, to); }
      case EndFamily(f) => EndOk(s, f);
    }
  }

  lemma {:induction false} ExecuteInv(s: State, es: seq<Event>)
    requires Inv(s)
    ensures Inv(Execute(s, es))
    decreases |es|
  {
    hide Inv, Step;
    if es != [] {
      StepInv(s, es[0]);
      ExecuteInv(Step(s, es[0]), es[1..]);
    }
  }

  // -------------------------------------------------------------------- no replay

  /**
   In every interleaving no thread presents a token the server has rotated away:
   each POST carries the token the server still accepts, so no family is ever
   revoked for reuse.
   */
  lemma NoReplay(s: State, es: seq<Event>)
    requires Boot(s)
    ensures var r := Execute(s, es);
            && r.sh.server.replayed == {}
            && forall t :: t in r.pcs && r.pcs[t].CPost? ==> r.sh.server.Live(r.pcs[t].t)
  {
    BootInv(s);
    ExecuteInv(s, es);
    var r := Execute(s, es);
    hide Execute;
    forall t | t in r.pcs && r.pcs[t].CPost? ensures r.sh.server.Live(r.pcs[t].t) {
      assert ThreadInv(r.sh, r.pcs[t]);
    }
  }

  /**
   For every session with a token pair that had not expired at launch, the stored
   refresh token is the server's current one.  The exceptions last only while
   they are put right: a rotation of just that session is being written, or its
   last answer carried another account's tokens and it is being dropped for that
   (or may not be, because Viola is quitting).
   */
  lemma StoredTokenIsCurrent(s: State, es: seq<Event>, h: Hash)
    requires Boot(s)
    ensures var r := Execute(s, es);
            h in r.sh.rows && h in r.sh.access && h in r.sh.refresh && r.sh.rows[h].expires > r.sh.booted ==>
              || r.sh.server.Live(r.sh.refresh[h])
              || (exists t :: t in r.pcs && (PhaseOf(r.pcs[t]) == Unwritten(h) || PhaseOf(r.pcs[t]) == HalfWritten(h)))
              || (h in r.sh.owner && r.sh.owner[h] in r.sh.strangers
                  && (r.sh.shutdown || exists t :: t in r.pcs && PhaseOf(r.pcs[t]) == Dropping(h)))
  {
    BootInv(s);
    ExecuteInv(s, es);
  }

  // ----------------------------------------------------------------- single flight

  /** Thread `t` is between its shutdown check and the last write of a rotated pair. */
  predicate InFlight(s: State, t: Tid) { t in s.pcs && RefreshUnderWay(PhaseOf(s.pcs[t])) }

  /** At most one refresh is on the wire or being written, and it is for a token that really needs one. */
  lemma SingleFlight(s: State, es: seq<Event>)
    requires Boot(s)
    ensures var r := Execute(s, es);
            && (forall t, u :: InFlight(r, t) && InFlight(r, u) ==> t == u)
            && (forall t :: t in r.pcs && r.pcs[t].CPost? && r.pcs[t].h in r.sh.rows ==>
                  r.sh.rows[r.pcs[t].h].accessExpires <= r.sh.now + ACCESS_REFRESH_SKEW)
  {
    BootInv(s);
    ExecuteInv(s, es);
    var r := Execute(s, es);
    hide Execute, Global;
    forall t, u | InFlight(r, t) && InFlight(r, u)
      ensures t == u
    {
      UnderWayHoldsSerial(r.pcs[t]);
      UnderWayHoldsSerial(r.pcs[u]);
    }
    forall t | t in r.pcs && r.pcs[t].CPost? && r.pcs[t].h in r.sh.rows
      ensures r.sh.rows[r.pcs[t].h].accessExpires <= r.sh.now + ACCESS_REFRESH_SKEW
    {
      assert ThreadInv(r.sh, r.pcs[t]);
    }
  }

  lemma UnderWayHoldsSerial(pc: Pc)
    requires RefreshUnderWay(PhaseOf(pc))
    ensures HoldsSerial(pc)
  {
  }

  /** A family's current token and its stored expiry change only once that expiry is within the skew. */
  lemma OnlyNearExpiry(s: State, e: Event, f: Family)
    requires Inv(s) && f in s.sh.stored && f in s.sh.server.current && s.sh.now + ACCESS_REFRESH_SKEW < s.sh.stored[f]
    ensures var b := Step(s, e).sh;
            && f in b.stored && b.stored[f] == s.sh.stored[f]
            && f in b.server.current && b.server.current[f] == s.sh.server.current[f]
            && b.now >= s.sh.now
  {
    if e.Run? && e.t in s.pcs {
      var pc := s.pcs[e.t];
      assert ThreadInv(s.sh, pc);
      hide Global, Env, Inv;
      FamilyStep(s.sh, SerialPhase(s), pc, e.c, f);
    }
  }

  ghost predicate SameFamily(a: Shared, b: Shared, f: Family) {
    && f in a.stored && f in a.server.current && f in b.stored && b.stored[f] == a.stored[f]
    && f in b.server.current && b.server.current[f] == a.server.current[f]
  }

  predicate SameServer(a: Shared, b: Shared) { b.server == a.server && b.stored == a.stored }

  lemma ValidateKeepsServer(a: Shared, pc: Pc, c: Choice)
    requires PartOf(pc).Validate?
    ensures SameServer(a, NextValidate(a, pc, c).sh)
  {
  }

  lemma GrantKeepsServer(a: Shared, pc: Pc, c: Choice)
    requires PartOf(pc).Grant?
    ensures SameServer(a, NextGrant(a, pc, c).sh)
  {
  }

  lemma DeleteKeepsServer(a: Shared, pc: Pc, c: Choice)
    requires PartOf(pc).Delete?
    ensures SameServer(a, NextDelete(a, pc, c).sh)
  {
  }

  lemma PurgeKeepsServer(a: Shared, pc: Pc, c: Choice)
    requires PartOf(pc).Purge?
    ensures SameServer(a, NextPurge(a, pc, c).sh)
  {
  }

  lemma ShutdownKeepsServer(a: Shared, pc: Pc, c: Choice)
    requires PartOf(pc).Shutdown?
    ensures SameServer(a, NextShutdown(a, pc, c).sh)
  {
  }

  lemma FamilyStep(a: Shared, ph: Phase, pc: Pc, c: Choice, f: Family)
    requires ThreadInv(a, pc) && f in a.stored && f in a.server.current && a.now + ACCESS_REFRESH_SKEW < a.stored[f]
    requires f < a.nextFamily
    ensures SameFamily(a, Next(a, pc, c).sh, f)
  {
    hide ValidateInv, SectionInv, GrantInv, DeleteInv, PurgeInv, CreateInv, ReattachInv, ShutdownInv;
    hide NextValidate, NextSection, NextGrant, NextDelete, NextPurge, NextCreate, NextReattach, NextShutdown;
    match PartOf(pc) {
      case Start =>
      case Validate => ValidateKeepsServer(a, pc, c);
      case Section => FamilySection(a, pc, c, f);
      case Grant => GrantKeepsServer(a, pc, c);
      case Delete => DeleteKeepsServer(a, pc, c);
      case Purge => PurgeKeepsServer(a, pc, c);
      case Create => FamilyCreate(a, pc, c, f);
      case Reattach => FamilyReattach(a, pc, c, f);
      case Shutdown => ShutdownKeepsServer(a, pc, c);
    }
  }

  lemma FamilySection(a: Shared, pc: Pc, c: Choice, f: Family)
    requires PartOf(pc).Section?
    requires SectionInv(a, pc) && f in a.stored && f in a.server.current && a.now + ACCESS_REFRESH_SKEW < a.stored[f]
    ensures SameFamily(a, NextSection(a, pc, c).sh, f)
  {
    hide SectionInv;
    if pc.CPost? { FamilyPost(a, pc, c, f); }
    if pc.CUpdate? { FamilyUpdate(a, pc, c, f); }
  }

  /** A POST is only ever for a row within the skew, so never for `f`. */
  lemma PostIsDue(a: Shared, pc: Pc, f: Family)
    requires pc.CPost? && SectionInv(a, pc) && f in a.stored && a.now + ACCESS_REFRESH_SKEW < a.stored[f]
    ensures pc.t in a.server.familyOf && a.server.familyOf[pc.t] != f
  {
  }

  lemma OtherFamilies(sv: Server, t: Rotation, reply: Reply, minted: Rotation, f: Family)
    requires t in sv.familyOf && sv.familyOf[t] != f && f in sv.current
    ensures var next := Post(sv, t, reply, minted).0; f in next.current && next.current[f] == sv.current[f]
  {
  }

  lemma PostOut(a: Shared, pc: Pc, c: Choice)
    requires pc.CPost?
    ensures var b := NextSection(a, pc, c).sh;
            b.server == Post(a.server, pc.t, c.reply, a.nextRotation).0 && b.stored == a.stored
  {
    hide Post, Learn;
    var sv := Post(a.server, pc.t, c.reply, a.nextRotation).0;
    LearningKeepsServer(a.(server := sv, posts := a.posts + 1, nextRotation := a.nextRotation + 1), SawVerdict(pc.h));
  }

  lemma LearningKeepsServer(a: Shared, f: Fact)
    ensures Learn(a, f).server == a.server && Learn(a, f).stored == a.stored
  {
  }

  lemma FamilyPost(a: Shared, pc: Pc, c: Choice, f: Family)
    requires pc.CPost?
    requires SectionInv(a, pc) && f in a.stored && f in a.server.current && a.now + ACCESS_REFRESH_SKEW < a.stored[f]
    ensures SameFamily(a, NextSection(a, pc, c).sh, f)
  {
    hide SectionInv, Post, NextSection;
    PostOut(a, pc, c);
    PostIsDue(a, pc, f);
    OtherFamilies(a.server, pc.t, c.reply, a.nextRotation, f);
  }

  lemma FamilyUpdate(a: Shared, pc: Pc, c: Choice, f: Family)
    requires pc.CUpdate?
    requires SectionInv(a, pc) && f in a.stored && f in a.server.current && a.now + ACCESS_REFRESH_SKEW < a.stored[f]
    ensures SameFamily(a, NextSection(a, pc, c).sh, f)
  {
  }

  lemma FamilyCreate(a: Shared, pc: Pc, c: Choice, f: Family)
    requires PartOf(pc).Create? && f in a.stored && f in a.server.current && f < a.nextFamily
    ensures SameFamily(a, NextCreate(a, pc, c).sh, f)
  {
  }

  lemma FamilyReattach(a: Shared, pc: Pc, c: Choice, f: Family)
    requires PartOf(pc).Reattach? && f in a.stored && f in a.server.current
    ensures SameFamily(a, NextReattach(a, pc, c).sh, f)
  {
  }

  /** Nobody is about to POST for a family whose stored expiry is beyond the skew. */
  lemma NobodyPosts(s: State, f: Family, t: Tid)
    requires Inv(s) && f in s.sh.stored && s.sh.now + ACCESS_REFRESH_SKEW < s.sh.stored[f]
    requires t in s.pcs && s.pcs[t].CPost?
    ensures s.pcs[t].h in s.sh.owner && s.sh.owner[s.pcs[t].h] != f
  {
    assert ThreadInv(s.sh, s.pcs[t]);
    hide Global;
  }

  /** The refresh token a POST presents is one of the family of the session it is for. */
  lemma PostsItsOwn(s: State, t: Tid)
    requires Inv(s) && t in s.pcs && s.pcs[t].CPost?
    ensures TokenOf(s.sh, s.pcs[t].h, s.pcs[t].t)
  {
    assert ThreadInv(s.sh, s.pcs[t]);
    hide Global;
  }

  /** Thread `t`'s next action presents a token of family `f` to the server. */
  predicate PostsFor(s: State, t: Tid, f: Family) {
    t in s.pcs && s.pcs[t].CPost? && s.pcs[t].t in s.sh.server.familyOf && s.sh.server.familyOf[s.pcs[t].t] == f
  }

  /**
   Over any run in which the stored expiry stays beyond the skew, token and expiry
   are the same at the end, and nobody is about to POST a token of the family.
   */
  lemma {:induction false} WaitersReuse(s: State, es: seq<Event>, f: Family)
    requires Inv(s) && f in s.sh.stored && f in s.sh.server.current
    requires Execute(s, es).sh.now + ACCESS_REFRESH_SKEW < s.sh.stored[f]
    ensures var b := Execute(s, es).sh;
            && f in b.stored && b.stored[f] == s.sh.stored[f]
            && f in b.server.current && b.server.current[f] == s.sh.server.current[f]
    ensures forall t :: !PostsFor(Execute(s, es), t, f)
    decreases |es|
  {
    hide Inv, Step;
    if es != [] {
      var m := Step(s, es[0]);
      ClockNeverBack(m, es[1..]);
      StepClock(s, es[0]);
      OnlyNearExpiry(s, es[0], f);
      StepInv(s, es[0]);
      WaitersReuse(m, es[1..], f);
    } else {
      forall t | t in s.pcs && s.pcs[t].CPost? ensures !PostsFor(s, t, f) {
        NobodyPosts(s, f, t);
        PostsItsOwn(s, t);
      }
    }
  }

  lemma {:induction false} Joined(s: State, es: seq<Event>, fs: seq<Event>)
    ensures Execute(s, es + fs) == Execute(Execute(s, es), fs)
    decreases |es|
  {
    hide Step;
    if es == [] {
      assert es + fs == fs;
    } else {
      assert (es + fs)[1..] == es[1..] + fs;
      Joined(Step(s, es[0]), es[1..], fs);
    }
  }

  /** Single flight: all who wait for an expiry a refresh has stored reuse it; no point of the run has a second POST. */
  lemma NoSecondPost(s: State, es: seq<Event>, f: Family, k: nat, t: Tid)
    requires Inv(s) && f in s.sh.stored && f in s.sh.server.current
    requires Execute(s, es).sh.now + ACCESS_REFRESH_SKEW < s.sh.stored[f] && k <= |es|
    ensures !PostsFor(Execute(s, es[..k]), t, f)
  {
    hide Inv, Step, PostsFor;
    Joined(s, es[..k], es[k..]);
    assert es[..k] + es[k..] == es;
    ClockNeverBack(Execute(s, es[..k]), es[k..]);
    WaitersReuse(s, es[..k], f);
  }

  lemma StepClock(s: State, e: Event)
    ensures Step(s, e).sh.now >= s.sh.now
  {
    hide Next;
  }

  lemma {:induction false} ClockNeverBack(s: State, es: seq<Event>)
    ensures Execute(s, es).sh.now >= s.sh.now
    decreases |es|
  {
    if es != [] {
      StepClock(s, es[0]);
      ClockNeverBack(Step(s, es[0]), es[1..]);
    }
  }
}
