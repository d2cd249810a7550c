/**
 Every action of every thread keeps the invariant and disturbs only what it may.
 One lemma for each kind of action, on the state it leaves; the lemmas named
 after a part of the protocol put them together.
 */
module SessionSteps {
  import opened Common
  import opened SessionModel
  import opened SessionProtocol
  import opened SessionInvariant
  import opened SessionEffects

  /** The phase the refresh lock is in after a thread's action. */
  function PhaseAfter(ph: Phase, pc: Pc, next: Pc): Phase {
    if HoldsSerial(next) then PhaseOf(next) else if HoldsSerial(pc) then Quiet else ph
  }

  ghost predicate CanStep(a: Shared, ph: Phase, pc: Pc, out: Out) {
    && Global(a, ph) && ThreadInv(a, pc)
    && (HoldsSerial(pc) ==> ph == PhaseOf(pc))
    && (out.serial.Take? ==> ph == Quiet)
  }

  ghost predicate StepOk(a: Shared, ph: Phase, pc: Pc, out: Out) {
    && Global(out.sh, PhaseAfter(ph, pc, out.pc))
    && ThreadInv(out.sh, out.pc)
    && Env(a, out.sh, HoldsSerial(pc), HoldsLock(pc) || out.lock.Take?)
  }

  /** Points at which a thread has not looked at anything yet, or no longer relies on it. */
  predicate Unaware(pc: Pc) {
    pc.Idle? || pc.VRow? || pc.Touch? || pc.CRelease? || pc.GWait? || pc.GResolve? || pc.PWait? || pc.PList?
        || pc.KWait?
    || pc.RWaitSerial? || pc.RWaitLock? || pc.RScan? || pc.RUnlock? || pc.SFlag?
  }

  lemma KnowsNothing(sh: Shared, pc: Pc)
    requires Unaware(pc)
    ensures ThreadInv(sh, pc)
  {
  }

  /** An action that only looks, or only takes or frees a lock. */
  lemma Looks(a: Shared, ph: Phase, pc: Pc, out: Out)
    requires out.sh == a && Global(a, ph) && ThreadInv(a, out.pc)
    requires PhaseAfter(ph, pc, out.pc) == ph
    ensures StepOk(a, ph, pc, out)
  {
    hide Global, Env, ThreadInv;
    Nothing(a, HoldsSerial(pc), HoldsLock(pc) || out.lock.Take?);
  }

  /** A thread turns to deleting a session for a fact it records. */
  lemma Drops(a: Shared, ph: Phase, pc: Pc, why: Fact, sec: bool)
    requires Global(a, ph) && FactTrue(a.owner, a.strangers, a.server.ended, a.now, why)
    requires sec == HoldsSerial(pc) && !HoldsLock(pc) && (sec ==> ph == Quiet)
    requires sec ==> ExpiryAsRead(a.rows, a.gone, why.h, why)
    ensures StepOk(a, ph, pc, Drop(a, why, sec))
  {
    hide Global, Env, ThreadInv, StepOk, HoldsSerial, HoldsLock;
    if sec { Rephase(a, ph, Dropping(why.h)); }
    Learned(a, why, if sec then Dropping(why.h) else ph, sec, false);
    KnowsCause(Learn(a, why), why, sec);
    DropsTo(a, Learn(a, why), ph, pc, why.h, why, sec);
  }

  lemma DropsTo(a: Shared, b: Shared, ph: Phase, pc: Pc, h: Hash, why: Fact, sec: bool)
    requires Global(b, if sec then Dropping(h) else ph) && Env(a, b, sec, false) && ThreadInv(b, DCheck(h, sec, why))
    requires sec == HoldsSerial(pc) && !HoldsLock(pc) && (sec ==> ph == Quiet)
    ensures StepOk(a, ph, pc, Go(b, DCheck(h, sec, why)))
  {
    hide Global, Env, ThreadInv;
    assert HoldsSerial(DCheck(h, sec, why)) == sec;
    assert PhaseOf(DCheck(h, sec, why)) == if sec then Dropping(h) else Quiet;
    hide HoldsSerial, HoldsLock, PhaseOf;
  }

  lemma KnowsCause(sh: Shared, why: Fact, sec: bool)
    requires Ends(sh, why.h) && (why.Missing? || why in sh.facts)
    requires sec ==> ExpiryAsRead(sh.rows, sh.gone, why.h, why)
    ensures ThreadInv(sh, DCheck(why.h, sec, why))
  {
    hide Ends;
  }

  /** A thread turns to deleting a session whose token entry is gone. */
  lemma DropsMissing(a: Shared, ph: Phase, pc: Pc, h: Hash, sec: bool)
    requires Global(a, ph) && Known(a.rows, a.gone, h) && (h !in a.access || h !in a.refresh)
    requires sec == HoldsSerial(pc) && !HoldsLock(pc) && (sec ==> ph == Quiet)
    ensures StepOk(a, ph, pc, Go(a, DCheck(h, sec, Missing(h))))
  {
    MissingKnows(a, ph, h, sec);
    hide Global, Env, ThreadInv, Ends, StepOk, HoldsSerial, HoldsLock;
    if sec { Rephase(a, ph, Dropping(h)); }
    Nothing(a, sec, false);
    DropsTo(a, a, ph, pc, h, Missing(h), sec);
  }

  lemma MissingKnows(a: Shared, ph: Phase, h: Hash, sec: bool)
    requires Global(a, ph) && Known(a.rows, a.gone, h) && (h !in a.access || h !in a.refresh)
    ensures ThreadInv(a, DCheck(h, sec, Missing(h)))
  {
    hide Global, Ends, ThreadInv, Known;
    MissingEnds(a, h, ph);
    KnowsCause(a, Missing(h), sec);
  }

  lemma StartOk(a: Shared, ph: Phase, c: Choice)
    requires CanStep(a, ph, Idle, NextIdle(a, c))
    ensures StepOk(a, ph, Idle, NextIdle(a, c))
  {
    hide Global, Env, ThreadInv, StepOk;
    if Starts(c.op) && c.op.DCheck? {
      Drops(a, ph, Idle, c.op.why, false);
    } else {
      KnowsNothing(a, NextIdle(a, c).pc);
      Looks(a, ph, Idle, NextIdle(a, c));
    }
  }

  // ---------------------------------------------------------------- validating

  lemma ValidateLearns(a: Shared, ph: Phase, pc: Pc, c: Choice)
    requires pc.VRow? || pc.VAccess? || pc.VRefresh?
    requires Global(a, ph) && ValidateInv(a, pc)
    ensures NextValidate(a, pc, c).sh == a && ThreadInv(a, NextValidate(a, pc, c).pc)
    ensures !HoldsSerial(NextValidate(a, pc, c).pc)
  {
    hide Global;
  }

  lemma ValidateExpires(a: Shared, ph: Phase, pc: Pc)
    requires pc.VExpiry? && Global(a, ph) && ValidateInv(a, pc) && pc.row.expires > a.now
    ensures StepOk(a, ph, pc, Go(a, VAccess(pc.h, pc.row, a.now)))
  {
    ClockRuns(a, ph);
    hide Global, StepOk;
    Looks(a, ph, pc, Go(a, VAccess(pc.h, pc.row, a.now)));
  }

  lemma ValidateWaits(a: Shared, pc: Pc)
    requires pc.CWait? && Global(a, Quiet) && ValidateInv(a, pc)
    ensures StepOk(a, Quiet, pc, Out(a, CRow(pc.h, false), Take, Keep))
  {
    hide Global, StepOk;
    Looks(a, Quiet, pc, Out(a, CRow(pc.h, false), Take, Keep));
  }

  lemma Touches(a: Shared, ph: Phase, pc: Pc)
    requires pc.Touch? && Global(a, ph)
    ensures StepOk(a, ph, pc, Go(Touched(a, pc.h), Idle))
  {
    hide Global, Env;
    TouchOk(a, pc.h, ph, false, false);
  }

  lemma ValidateOk(a: Shared, ph: Phase, pc: Pc, c: Choice)
    requires PartOf(pc).Validate?
    requires CanStep(a, ph, pc, NextValidate(a, pc, c))
    ensures StepOk(a, ph, pc, NextValidate(a, pc, c))
  {
    hide Global, Env, StepOk, ValidateInv, Touched;
    var out := NextValidate(a, pc, c);
    if pc.Touch? { Touches(a, ph, pc); }
    else if pc.CWait? { ValidateWaits(a, pc); }
    else if pc.VExpiry? {
      if pc.row.expires <= a.now { Drops(a, ph, pc, SawExpired(pc.h, pc.row.expires, a.now), false); }
      else { ValidateExpires(a, ph, pc); }
    } else if pc.VPresent? {
      ValidateSawIt(a, pc);
      if out.pc.Idle? { KnowsNothing(a, Idle); Looks(a, ph, pc, out); } else { DropsMissing(a, ph, pc, pc.h, false); }
    } else {
      ValidateLearns(a, ph, pc, c);
      Looks(a, ph, pc, out);
    }
  }

  lemma ValidateSawIt(a: Shared, pc: Pc)
    requires pc.VPresent? && ValidateInv(a, pc)
    ensures Known(a.rows, a.gone, pc.h)
  {
  }

  // ------------------------------------------------------- the refresh section

  lemma SectionKnows(sh: Shared, pc: Pc)
    requires PartOf(pc).Section? && SectionInv(sh, pc)
    ensures ThreadInv(sh, pc)
  {
    hide SectionInv;
  }

  /** Reading the row and the two token entries. */
  lemma SectionLearns(a: Shared, pc: Pc, c: Choice)
    requires pc.CRow? || pc.CAccess? || pc.CRefresh?
    requires Global(a, Quiet) && SectionInv(a, pc)
    ensures var out := NextSection(a, pc, c);
            out.sh == a && PartOf(out.pc).Section? && SectionInv(a, out.pc) && PhaseAfter(Quiet, pc, out.pc) == Quiet
  {
    hide Global, RowRead;
    if pc.CRow? && pc.h in a.rows { ReadRow(a, pc.h); }
    if pc.CAccess? && pc.h in a.access { ReadPair(a, pc.h); }
    if pc.CRefresh? && pc.h in a.refresh { ReadRefresh(a, pc.h); }
    if pc.CRefresh? || pc.CAccess? { RowReadIsKnown(a, pc.h, pc.row); }
  }

  lemma RowReadIsKnown(a: Shared, h: Hash, row: Row)
    requires RowRead(a, h, row)
    ensures Known(a.rows, a.gone, h)
  {
  }

  lemma GrantKnows(sh: Shared, pc: Pc)
    requires PartOf(pc).Grant? && GrantInv(sh, pc)
    ensures ThreadInv(sh, pc)
  {
    hide GrantInv;
  }

  /** The stored access token is fresh enough: use it. */
  lemma SectionReuses(a: Shared, pc: Pc)
    requires pc.CSkew? && pc.g && Global(a, Quiet) && SectionInv(a, pc)
    ensures StepOk(a, Quiet, pc, Go(a, GRead(pc.h, pc.a)))
  {
    hide Global, StepOk;
    GrantKnows(a, GRead(pc.h, pc.a));
    Looks(a, Quiet, pc, Go(a, GRead(pc.h, pc.a)));
  }

  lemma SectionNeedsOne(a: Shared, pc: Pc)
    requires pc.CSkew? && Global(a, Quiet) && SectionInv(a, pc) && pc.row.accessExpires <= a.now + ACCESS_REFRESH_SKEW
    ensures StepOk(a, Quiet, pc, Go(a, CShutdown(pc.h, pc.g, pc.row, pc.t)))
  {
    hide Global, StepOk, RowRead;
    SectionKnows(a, CShutdown(pc.h, pc.g, pc.row, pc.t));
    Looks(a, Quiet, pc, Go(a, CShutdown(pc.h, pc.g, pc.row, pc.t)));
  }

  lemma SectionPosts(a: Shared, pc: Pc)
    requires pc.CShutdown? && !a.shutdown && Global(a, Quiet) && SectionInv(a, pc)
    ensures StepOk(a, Quiet, pc, Go(a, CPost(pc.h, pc.g, pc.row, pc.t)))
  {
    hide Global, Env, RowRead, ThreadInv;
    SectionKnows(a, CPost(pc.h, pc.g, pc.row, pc.t));
    Rephase(a, Quiet, Posting);
    Nothing(a, true, false);
  }

  /** The state once the server has rotated session `h`'s family. */
  function AfterRotation(a: Shared, h: Hash): Shared
    requires h in a.owner
  {
    a.(server := SessionEffects.Rotated(a.server, a.owner[h], a.nextRotation), posts := a.posts + 1,
       nextRotation := a.nextRotation + 1)
  }

  lemma RotationOf(a: Shared, pc: Pc, c: Choice)
    requires pc.CPost? && SectionInv(a, pc) && Post(a.server, pc.t, c.reply, a.nextRotation).1.Rotated?
    ensures pc.h in a.owner && c.reply.Granted?
    ensures NextSection(a, pc, c)
            == Go(AfterRotation(a, pc.h),
                  CAnswered(pc.h, pc.g, pc.row, a.nextRotation, c.reply.user, c.reply.accessExpires))
  {
  }

  lemma PostMay(a: Shared, pc: Pc)
    requires pc.CPost? && Global(a, Posting) && SectionInv(a, pc)
    ensures Known(a.rows, a.gone, pc.h) && SoleOwner(a.rows, a.owner, pc.h) && a.owner[pc.h] in a.server.current
            && !a.quiesced
    ensures a.nextRotation !in a.server.familyOf
  {
  }

  lemma RotatedIsKnown(a: Shared, pc: Pc, user: User, exp: int)
    requires pc.CPost? && SectionInv(a, pc) && pc.h in a.owner && a.nextRotation !in a.server.familyOf
    requires var b := AfterRotation(a, pc.h); TokenOf(b, pc.h, a.nextRotation) && b.server.Live(a.nextRotation)
    ensures SectionInv(AfterRotation(a, pc.h), CAnswered(pc.h, pc.g, pc.row, a.nextRotation, user, exp))
  {
  }

  lemma PostRotates(a: Shared, pc: Pc, c: Choice)
    requires pc.CPost? && Global(a, Posting) && SectionInv(a, pc)
    requires Post(a.server, pc.t, c.reply, a.nextRotation).1.Rotated?
    ensures StepOk(a, Posting, pc, NextSection(a, pc, c))
  {
    hide Global, Env, ThreadInv, SectionInv, NextSection;
    RotationOf(a, pc, c);
    PostMay(a, pc);
    RotateOk(a, pc.h, AfterRotation(a, pc.h));
    RotatedIsKnown(a, pc, c.reply.user, c.reply.accessExpires);
    hide AfterRotation, Post;
    SectionKnows(AfterRotation(a, pc.h),
                 CAnswered(pc.h, pc.g, pc.row, a.nextRotation, c.reply.user, c.reply.accessExpires));
  }

  /** A refusal of the live token is the server's own: the family was ended, not revoked for reuse. */
  lemma PostRefused(a: Shared, pc: Pc, reply: Reply)
    requires pc.CPost? && Global(a, Posting) && SectionInv(a, pc)
    ensures var (sv, answer) := Post(a.server, pc.t, reply, a.nextRotation);
            && (answer.Rotated? || sv == a.server)
            && (answer.Verdict? ==> pc.h in a.owner && a.owner[pc.h] in a.server.ended)
  {
  }

  /** What the store does with an answer that carries no new tokens. */
  function Counted(a: Shared): Shared { a.(posts := a.posts + 1, nextRotation := a.nextRotation + 1) }

  lemma RefusalOf(a: Shared, pc: Pc, c: Choice)
    requires pc.CPost? && !Post(a.server, pc.t, c.reply, a.nextRotation).1.Rotated?
    requires Post(a.server, pc.t, c.reply, a.nextRotation).0 == a.server
    ensures NextSection(a, pc, c) ==
              if Post(a.server, pc.t, c.reply, a.nextRotation).1.Verdict? then Drop(Counted(a), SawVerdict(pc.h), true)
              else Go(Counted(a), CRelease(if !pc.g && c.ok then Some(pc.h) else None))
  {
    hide Post;
  }

  lemma VerdictOk(a: Shared, pc: Pc)
    requires pc.CPost? && Global(a, Posting) && pc.h in a.owner && a.owner[pc.h] in a.server.ended
    ensures StepOk(a, Posting, pc, Drop(Counted(a), SawVerdict(pc.h), true))
  {
    hide Global, Env, ThreadInv;
    PostUnanswered(a, Learn(Counted(a), SawVerdict(pc.h)), Dropping(pc.h));
    assert SawVerdict(pc.h) in Learn(Counted(a), SawVerdict(pc.h)).facts;
    KnowsCause(Learn(Counted(a), SawVerdict(pc.h)), SawVerdict(pc.h), true);
  }

  lemma NoVerdictOk(a: Shared, pc: Pc, touch: Option<Hash>)
    requires pc.CPost? && Global(a, Posting)
    ensures StepOk(a, Posting, pc, Go(Counted(a), CRelease(touch)))
  {
    hide Global, Env, ThreadInv;
    PostUnanswered(a, Counted(a), Quiet);
    KnowsNothing(Counted(a), CRelease(touch));
  }

  lemma PostOk(a: Shared, pc: Pc, c: Choice)
    requires pc.CPost? && Global(a, Posting) && SectionInv(a, pc)
    ensures StepOk(a, Posting, pc, NextSection(a, pc, c))
  {
    hide Global, StepOk, NextSection, SectionInv, Drop, Counted;
    if Post(a.server, pc.t, c.reply, a.nextRotation).1.Rotated? {
      PostRotates(a, pc, c);
    } else {
      PostRefused(a, pc, c.reply);
      hide Post;
      RefusalOf(a, pc, c);
      if Post(a.server, pc.t, c.reply, a.nextRotation).1.Verdict? {
        VerdictOk(a, pc);
      } else {
        NoVerdictOk(a, pc, if !pc.g && c.ok then Some(pc.h) else None);
      }
    }
  }

  function Estranged(a: Shared, h: Hash): Shared
    requires h in a.owner
  {
    a.(strangers := a.strangers + {a.owner[h]})
  }

  lemma StrangersDropped(a: Shared, pc: Pc)
    requires pc.CAnswered? && Global(a, Unwritten(pc.h)) && SectionInv(a, pc)
    ensures pc.h in a.owner && StepOk(a, Unwritten(pc.h), pc, Drop(Estranged(a, pc.h), SawStranger(pc.h), true))
  {
    hide Global, Env, ThreadInv;
    StrangerOk(a, pc.h, Learn(Estranged(a, pc.h), SawStranger(pc.h)));
    KnowsCause(Learn(Estranged(a, pc.h), SawStranger(pc.h)), SawStranger(pc.h), true);
  }

  lemma OwnTokens(a: Shared, pc: Pc)
    requires pc.CAnswered? && Global(a, Unwritten(pc.h)) && SectionInv(a, pc)
    ensures StepOk(a, Unwritten(pc.h), pc, Go(a, CStoreAccess(pc.h, pc.g, pc.row, pc.next, pc.exp)))
  {
    hide Global, StepOk;
    SectionKnows(a, CStoreAccess(pc.h, pc.g, pc.row, pc.next, pc.exp));
    Looks(a, Unwritten(pc.h), pc, Go(a, CStoreAccess(pc.h, pc.g, pc.row, pc.next, pc.exp)));
  }

  lemma StoreAccessOk(a: Shared, pc: Pc)
    requires pc.CStoreAccess? && Global(a, Unwritten(pc.h)) && SectionInv(a, pc)
    ensures StepOk(a, Unwritten(pc.h), pc,
                   Go(a.(access := a.access[pc.h := pc.next]), CStoreRefresh(pc.h, pc.g, pc.row, pc.next, pc.exp)))
  {
    hide Global, Env, ThreadInv;
    StoreAccess(a, pc.h, pc.next);
    SectionKnows(a.(access := a.access[pc.h := pc.next]), CStoreRefresh(pc.h, pc.g, pc.row, pc.next, pc.exp));
  }

  lemma StoreRefreshOk(a: Shared, pc: Pc)
    requires pc.CStoreRefresh? && Global(a, HalfWritten(pc.h)) && SectionInv(a, pc)
    ensures StepOk(a, HalfWritten(pc.h), pc,
                   Go(a.(refresh := a.refresh[pc.h := pc.next]), CUpdate(pc.h, pc.g, pc.row, pc.next, pc.exp)))
  {
    hide Global, Env, ThreadInv;
    StoreRefresh(a, pc.h, pc.next);
    SectionKnows(a.(refresh := a.refresh[pc.h := pc.next]), CUpdate(pc.h, pc.g, pc.row, pc.next, pc.exp));
  }

  lemma UpdateServesGrant(a: Shared, pc: Pc)
    requires pc.CUpdate? && Global(a, Updating) && SectionInv(a, pc)
    ensures StepOk(a, Updating, pc, Go(Updated(a, pc.h, pc.row.user, pc.exp), GRead(pc.h, pc.next)))
  {
    hide Global, Env, ThreadInv, SectionInv, Updated, GrantInv;
    UpdateMay(a, pc);
    ClockRuns(a, Updating);
    UpdateKeepsTokens(a, pc);
    UpdateRow(a, pc.h, pc.row.user, pc.exp);
    GrantKnows(Updated(a, pc.h, pc.row.user, pc.exp), GRead(pc.h, pc.next));
  }

  lemma UpdateMay(a: Shared, pc: Pc)
    requires pc.CUpdate? && SectionInv(a, pc)
    ensures Known(a.rows, a.gone, pc.h) && SoleOwner(a.rows, a.owner, pc.h)
    ensures pc.h in a.refresh ==> a.server.Live(a.refresh[pc.h])
  {
  }

  lemma UpdateKeepsTokens(a: Shared, pc: Pc)
    requires pc.CUpdate? && SectionInv(a, pc) && a.booted <= a.now
    ensures GrantInv(Updated(a, pc.h, pc.row.user, pc.exp), GRead(pc.h, pc.next))
  {
  }

  lemma UpdateServesCaller(a: Shared, pc: Pc)
    requires pc.CUpdate? && Global(a, Updating) && SectionInv(a, pc)
    ensures StepOk(a, Updating, pc, Go(Updated(a, pc.h, pc.row.user, pc.exp), CRelease(Some(pc.h))))
  {
    hide Global, Env, ThreadInv, SectionInv, Updated;
    UpdateMay(a, pc);
    UpdateRow(a, pc.h, pc.row.user, pc.exp);
    KnowsNothing(Updated(a, pc.h, pc.row.user, pc.exp), CRelease(Some(pc.h)));
  }

  lemma UpdateFails(a: Shared, pc: Pc, touch: Option<Hash>)
    requires pc.CUpdate? && Global(a, Updating)
    ensures StepOk(a, Updating, pc, Go(a, CRelease(touch)))
  {
    hide Global, Env, ThreadInv;
    Nothing(a, true, false);
    Rephase(a, Updating, Quiet);
    KnowsNothing(a, CRelease(touch));
  }

  lemma Releases(a: Shared, pc: Pc, out: Out)
    requires HoldsSerial(pc) && Global(a, Quiet) && out.sh == a && Unaware(out.pc)
             && PhaseAfter(Quiet, pc, out.pc) == Quiet
    ensures StepOk(a, Quiet, pc, out)
  {
    hide Global, StepOk, ThreadInv;
    KnowsNothing(a, out.pc);
    Looks(a, Quiet, pc, out);
  }

  lemma SectionOk(a: Shared, ph: Phase, pc: Pc, c: Choice)
    requires PartOf(pc).Section?
    requires CanStep(a, ph, pc, NextSection(a, pc, c))
    ensures StepOk(a, ph, pc, NextSection(a, pc, c))
  {
    hide Global, Env, StepOk, SectionInv, Updated;
    assert SectionInv(a, pc) && ph == PhaseOf(pc) && Global(a, ph);
    if pc.CPost? { PostOk(a, pc, c); }
    else if pc.CPresent? { SectionMissing(a, pc, c); }
    else if pc.CSkew? || pc.CShutdown? || pc.CRelease? { SectionDecides(a, pc, c); }
    else if pc.CAnswered? || pc.CStoreAccess? || pc.CStoreRefresh? || pc.CUpdate? { SectionStores(a, pc, c); }
    else {
      SectionLearns(a, pc, c);
      SectionKnows(a, NextSection(a, pc, c).pc);
      Looks(a, Quiet, pc, NextSection(a, pc, c));
    }
  }

  lemma SectionMissing(a: Shared, pc: Pc, c: Choice)
    requires pc.CPresent? && Global(a, Quiet) && SectionInv(a, pc)
    ensures StepOk(a, Quiet, pc, NextSection(a, pc, c))
  {
    hide Global, StepOk;
    if pc.h in a.access && pc.h in a.refresh {
      Releases(a, pc, NextSection(a, pc, c));
    } else {
      DropsMissing(a, Quiet, pc, pc.h, true);
    }
  }

  lemma SectionDecides(a: Shared, pc: Pc, c: Choice)
    requires (pc.CSkew? || pc.CShutdown? || pc.CRelease?) && Global(a, Quiet) && SectionInv(a, pc)
    ensures StepOk(a, Quiet, pc, NextSection(a, pc, c))
  {
    hide Global, StepOk, SectionInv;
    var out := NextSection(a, pc, c);
    if pc.CSkew? && out.pc.GRead? { SectionReuses(a, pc); }
    else if pc.CSkew? && out.pc.CShutdown? { SectionNeedsOne(a, pc); }
    else if pc.CShutdown? && !a.shutdown { SectionPosts(a, pc); }
    else { Releases(a, pc, out); }
  }

  lemma SectionStores(a: Shared, pc: Pc, c: Choice)
    requires (pc.CAnswered? || pc.CStoreAccess? || pc.CStoreRefresh? || pc.CUpdate?) && Global(a, PhaseOf(pc))
             && SectionInv(a, pc)
    ensures StepOk(a, PhaseOf(pc), pc, NextSection(a, pc, c))
  {
    hide Global, StepOk, SectionInv, Updated, Drop;
    if pc.CAnswered? { if pc.user != pc.row.user { StrangersDropped(a, pc); } else { OwnTokens(a, pc); } }
    else if pc.CStoreAccess? { StoreAccessOk(a, pc); }
    else if pc.CStoreRefresh? { StoreRefreshOk(a, pc); }
    else if c.ok { if pc.g { UpdateServesGrant(a, pc); } else { UpdateServesCaller(a, pc); } }
    else { UpdateFails(a, pc, if !pc.g && c.pick.Some? then Some(pc.h) else None); }
  }

  // ------------------------------------------------------------ refresh grants

  lemma GrantFinds(a: Shared, pc: Pc)
    requires pc.GRow? && Global(a, Quiet) && GrantInv(a, pc) && pc.h in a.rows && a.rows[pc.h].expires > a.now
    ensures StepOk(a, Quiet, pc, Go(a, CRow(pc.h, true)))
  {
    ClockRuns(a, Quiet);
    hide Global, StepOk;
    SectionKnows(a, CRow(pc.h, true));
    Looks(a, Quiet, pc, Go(a, CRow(pc.h, true)));
  }

  lemma GrantResolves(a: Shared, pc: Pc, h: Hash)
    requires pc.GResolve? && Global(a, Quiet) && h in a.rows
    ensures StepOk(a, Quiet, pc, Go(a, GRow(h)))
  {
    hide Global, StepOk;
    GrantKnows(a, GRow(h));
    Looks(a, Quiet, pc, Go(a, GRow(h)));
  }

  lemma GrantReads(a: Shared, pc: Pc)
    requires pc.GRead? && Global(a, Quiet) && GrantInv(a, pc) && pc.h in a.refresh
    ensures StepOk(a, Quiet, pc, Go(a, GAnswer(pc.h, pc.a, a.refresh[pc.h])))
  {
    hide Global, StepOk;
    GrantKnows(a, GAnswer(pc.h, pc.a, a.refresh[pc.h]));
    Looks(a, Quiet, pc, Go(a, GAnswer(pc.h, pc.a, a.refresh[pc.h])));
  }

  lemma GrantAnswers(a: Shared, pc: Pc)
    requires pc.GAnswer? && Global(a, Quiet) && GrantInv(a, pc)
    ensures StepOk(a, Quiet, pc,
                   Go(Touched(a, pc.h).(grants := Touched(a, pc.h).grants + {GrantAnswer(pc.h, pc.a, pc.t)}),
                      CRelease(None)))
  {
    hide Global, Env, ThreadInv, Touched;
    TouchOk(a, pc.h, Quiet, true, false);
    Answered(a, Touched(a, pc.h), GrantAnswer(pc.h, pc.a, pc.t), true, false);
    KnowsNothing(Touched(a, pc.h).(grants := Touched(a, pc.h).grants + {GrantAnswer(pc.h, pc.a, pc.t)}),
                 CRelease(None));
  }

  lemma GrantIsKnown(a: Shared, pc: Pc)
    requires GrantInv(a, pc) && (pc.GRow? || pc.GRead? || pc.GAnswer?)
    ensures Known(a.rows, a.gone, pc.h)
  {
  }

  lemma GrantOk(a: Shared, ph: Phase, pc: Pc, c: Choice)
    requires PartOf(pc).Grant?
    requires CanStep(a, ph, pc, NextGrant(a, pc, c))
    ensures StepOk(a, ph, pc, NextGrant(a, pc, c))
  {
    hide Global, Env, StepOk, GrantInv;
    assert GrantInv(a, pc);
    var out := NextGrant(a, pc, c);
    if pc.GAnswer? { TouchKeepsGrants(a, pc.h); hide Touched; GrantAnswers(a, pc); }
    else if out.pc.GRow? { GrantResolves(a, pc, out.pc.h); }
    else if out.pc.CRow? { GrantFinds(a, pc); }
    else if out.pc.GAnswer? { GrantReads(a, pc); }
    else if pc.GRow? && pc.h in a.rows { Drops(a, Quiet, pc, SawExpired(pc.h, a.rows[pc.h].expires, a.now), true); }
    else if pc.GRead? && pc.h in a.refresh { Drops(a, Quiet, pc, SawUnreadable(pc.h), true); }
    else if pc.GRead? { GrantIsKnown(a, pc); DropsMissing(a, Quiet, pc, pc.h, true); }
    else { GrantLeaves(a, pc, out); }
  }

  lemma TouchKeepsGrants(a: Shared, h: Hash)
    ensures Touched(a, h).grants == a.grants
  {
  }

  lemma GrantLeaves(a: Shared, pc: Pc, out: Out)
    requires PartOf(pc).Grant? && Global(a, Quiet) && out.sh == a && Unaware(out.pc)
             && PhaseAfter(Quiet, pc, out.pc) == Quiet
    ensures StepOk(a, Quiet, pc, out)
  {
    hide Global, StepOk, ThreadInv;
    KnowsNothing(a, out.pc);
    Looks(a, Quiet, pc, out);
  }

  // -------------------------------------------------------------------- deletes

  lemma DeleteKnows(sh: Shared, pc: Pc)
    requires PartOf(pc).Delete? && DeleteInv(sh, pc)
    ensures ThreadInv(sh, pc)
  {
    hide DeleteInv;
  }

  /** An ending session that still has a row has a recorded cause. */
  lemma EndsIsRooted(a: Shared, h: Hash, ph: Phase)
    requires Global(a, ph) && Ends(a, h) && h in a.rows
    ensures Rooted(a.facts, a.bare, h)
  {
  }

  lemma DeleteCause(a: Shared, ph: Phase, pc: Pc)
    requires PartOf(pc).Delete? && Global(a, ph) && DeleteInv(a, pc)
    ensures pc.h in a.rows ==> Rooted(a.facts, a.bare, pc.h)
  {
    if pc.h in a.rows { EndsIsRooted(a, pc.h, ph); }
    hide Global, Rooted;
  }

  /** What a delete relies on is untouched by its own token writes. */
  lemma DeleteStillKnows(a: Shared, b: Shared, pc: Pc, next: Pc)
    requires DeleteInv(a, pc) && b == a.(access := b.access, refresh := b.refresh)
    requires (pc.DAccess? && next == DRefresh(pc.h, pc.sec, pc.why))
             || (pc.DRefresh? && next == DRemove(pc.h, pc.sec, pc.why) && pc.h !in b.refresh)
    ensures ThreadInv(b, next)
  {
    assert Ends(b, pc.h) && Backed(b.facts, pc.h, pc.why);
    hide Ends, ThreadInv;
    DeleteKnows(b, next);
  }

  lemma DeleteDropsAccess(a: Shared, ph: Phase, pc: Pc)
    requires pc.DAccess? && Global(a, ph) && DeleteInv(a, pc) && (pc.sec ==> ph == Dropping(pc.h))
    ensures StepOk(a, ph, pc, Go(a.(access := Without(a.access, pc.h)), DRefresh(pc.h, pc.sec, pc.why)))
  {
    hide Global, Env, ThreadInv, Rooted, DeleteInv, StepOk;
    DeleteCause(a, ph, pc);
    DropAccess(a, pc.h, ph, pc.sec);
    var b := a.(access := Without(a.access, pc.h));
    DeleteStillKnows(a, b, pc, DRefresh(pc.h, pc.sec, pc.why));
    DeleteDropped(a, b, ph, pc, DRefresh(pc.h, pc.sec, pc.why));
  }

  lemma DeleteDropped(a: Shared, b: Shared, ph: Phase, pc: Pc, next: Pc)
    requires (pc.DAccess? && next == DRefresh(pc.h, pc.sec, pc.why))
             || (pc.DRefresh? && next == DRemove(pc.h, pc.sec, pc.why))
    requires Global(b, ph) && Env(a, b, pc.sec, true) && ThreadInv(b, next) && (pc.sec ==> ph == Dropping(pc.h))
    ensures StepOk(a, ph, pc, Go(b, next))
  {
    hide Global, Env, ThreadInv;
  }

  lemma DeleteDropsRefresh(a: Shared, ph: Phase, pc: Pc)
    requires pc.DRefresh? && Global(a, ph) && DeleteInv(a, pc) && (pc.sec ==> ph == Dropping(pc.h))
    ensures StepOk(a, ph, pc, Go(a.(refresh := Without(a.refresh, pc.h)), DRemove(pc.h, pc.sec, pc.why)))
  {
    hide Global, Env, ThreadInv, Rooted, DeleteInv, StepOk;
    DeleteCause(a, ph, pc);
    DropRefresh(a, pc.h, ph, pc.sec);
    var b := a.(refresh := Without(a.refresh, pc.h));
    DeleteStillKnows(a, b, pc, DRemove(pc.h, pc.sec, pc.why));
    DeleteDropped(a, b, ph, pc, DRemove(pc.h, pc.sec, pc.why));
  }

  /** The delete is over, in or out of the refresh lock. */
  lemma DeleteEnds(a: Shared, b: Shared, ph: Phase, pc: Pc, out: Out)
    requires (pc.DCheck? || pc.DRemove?) && out.sh == b && out.pc == Done(pc.sec) && (pc.sec ==> ph == Dropping(pc.h))
    requires Global(b, ph) && Env(a, b, pc.sec, pc.DRemove?) && !out.lock.Take?
    requires pc.sec ==> b.shutdown || pc.h !in b.rows || pc.h !in b.refresh
    ensures StepOk(a, ph, pc, out)
  {
    hide Global, Env, ThreadInv;
    if pc.sec { Dropped(b, pc.h); }
    KnowsNothing(b, Done(pc.sec));
  }

  lemma DeleteRemoves(a: Shared, ph: Phase, pc: Pc)
    requires pc.DRemove? && Global(a, ph) && DeleteInv(a, pc) && pc.h in a.rows
    ensures var b := Removed(a, {pc.h}, map[pc.h := pc.why]);
            Global(b, ph) && Env(a, b, pc.sec, true)
  {
    DeleteCause(a, ph, pc);
    hide Global, Env, Rooted;
    RemoveRows(a, {pc.h}, map[pc.h := pc.why], ph, pc.sec);
  }

  lemma DeleteFinishes(a: Shared, ph: Phase, pc: Pc, c: Choice)
    requires pc.DRemove? && Global(a, ph) && DeleteInv(a, pc) && (pc.sec ==> ph == Dropping(pc.h))
    ensures StepOk(a, ph, pc, NextDelete(a, pc, c))
  {
    hide Global, Env, StepOk;
    if c.ok && pc.h in a.rows { DeleteRemoves(a, ph, pc); } else { Nothing(a, pc.sec, true); }
    DeleteEnds(a, NextDelete(a, pc, c).sh, ph, pc, NextDelete(a, pc, c));
  }

  lemma DeleteStarts(a: Shared, ph: Phase, pc: Pc, c: Choice)
    requires (pc.DCheck? || pc.DWait? || pc.DRow?) && Global(a, ph) && DeleteInv(a, pc)
             && (pc.sec ==> ph == Dropping(pc.h))
    ensures StepOk(a, ph, pc, NextDelete(a, pc, c))
  {
    hide Global, StepOk, Ends, Env;
    var out := NextDelete(a, pc, c);
    if pc.DCheck? && a.shutdown {
      Nothing(a, pc.sec, false);
      DeleteEnds(a, a, ph, pc, out);
    } else {
      DeleteGoesOn(a, pc, c);
      DeleteKnows(a, out.pc);
      Looks(a, ph, pc, out);
    }
  }

  lemma DeleteGoesOn(a: Shared, pc: Pc, c: Choice)
    requires (pc.DCheck? || pc.DWait? || pc.DRow?) && DeleteInv(a, pc) && !(pc.DCheck? && a.shutdown)
    ensures var out := NextDelete(a, pc, c);
            out.sh == a && PartOf(out.pc).Delete? && DeleteInv(a, out.pc) && out.pc.h == pc.h && out.pc.sec == pc.sec
  {
    hide Ends;
  }

  lemma DeleteOk(a: Shared, ph: Phase, pc: Pc, c: Choice)
    requires PartOf(pc).Delete?
    requires CanStep(a, ph, pc, NextDelete(a, pc, c))
    ensures StepOk(a, ph, pc, NextDelete(a, pc, c))
  {
    hide Global, Env, StepOk, DeleteInv;
    assert DeleteInv(a, pc) && (pc.sec ==> ph == Dropping(pc.h)) && Global(a, ph);
    if pc.DRemove? { DeleteFinishes(a, ph, pc, c); }
    else if pc.DAccess? { DeleteDropsAccess(a, ph, pc); }
    else if pc.DRefresh? { DeleteDropsRefresh(a, ph, pc); }
    else { DeleteStarts(a, ph, pc, c); }
  }

  // --------------------------------------------------------------------- purges

  lemma PurgeKnowsIt(sh: Shared, pc: Pc)
    requires PartOf(pc).Purge? && PurgeInv(sh, pc)
    ensures ThreadInv(sh, pc)
  {
    hide PurgeInv;
  }

  lemma PurgedIsRooted(facts: set<Fact>, bare: set<Hash>, h: Hash)
    requires Purged(h) in facts
    ensures Rooted(facts, bare, h)
  {
    assert Purged(h).h == h;
  }

  lemma ListOk(a: Shared, u: User, ph: Phase, b: Shared, mine: set<Hash>)
    requires Global(a, ph) && mine == set h | h in a.rows && a.rows[h].user == u
    requires b == a.(facts := a.facts + set h | h in mine :: Purged(h))
    ensures Global(b, ph) && Env(a, b, false, true) && PurgeKnows(b, u, mine)
  {
    FactsGrow(a, b, ph, false, true);
  }

  lemma PurgeLists(a: Shared, ph: Phase, pc: Pc, c: Choice)
    requires pc.PList? && Global(a, ph)
    ensures StepOk(a, ph, pc, NextPurge(a, pc, c))
  {
    hide Global, Env, ThreadInv, PurgeKnows;
    var out := NextPurge(a, pc, c);
    ListOk(a, pc.u, ph, out.sh, out.pc.todo);
    PurgeKnowsIt(out.sh, out.pc);
  }

  lemma PurgeCause(a: Shared, pc: Pc, h: Hash)
    requires PurgeInv(a, pc) && ((pc.PAccess? && h in pc.todo) || (pc.PRefresh? && h == pc.h))
    ensures Rooted(a.facts, a.bare, h)
  {
    PurgedIsRooted(a.facts, a.bare, h);
  }

  /** What a purge relies on is untouched by its own token writes. */
  lemma PurgeStillKnows(a: Shared, b: Shared, pc: Pc, next: Pc)
    requires PurgeInv(a, pc) && b == a.(access := b.access, refresh := b.refresh)
    requires (pc.PRefresh? && next == PAccess(pc.u, pc.todo))
             || (pc.PAccess? && next.PRefresh? && next.u == pc.u && next.h in pc.todo
                 && next.todo == pc.todo - {next.h})
    ensures ThreadInv(b, next)
  {
  }

  lemma PurgeDropsRefresh(a: Shared, ph: Phase, pc: Pc)
    requires pc.PRefresh? && Global(a, ph) && PurgeInv(a, pc)
    ensures StepOk(a, ph, pc, Go(a.(refresh := Without(a.refresh, pc.h)), PAccess(pc.u, pc.todo)))
  {
    hide Global, Env, ThreadInv, Rooted, PurgeInv;
    PurgeCause(a, pc, pc.h);
    DropRefresh(a, pc.h, ph, false);
    PurgeStillKnows(a, a.(refresh := Without(a.refresh, pc.h)), pc, PAccess(pc.u, pc.todo));
  }

  lemma PurgeDropsAccess(a: Shared, ph: Phase, pc: Pc, h: Hash)
    requires pc.PAccess? && h in pc.todo && Global(a, ph) && PurgeInv(a, pc)
    ensures StepOk(a, ph, pc, Go(a.(access := Without(a.access, h)), PRefresh(pc.u, pc.todo - {h}, h)))
  {
    hide Global, Env, ThreadInv, Rooted, PurgeInv;
    PurgeCause(a, pc, h);
    DropAccess(a, h, ph, false);
    PurgeStillKnows(a, a.(access := Without(a.access, h)), pc, PRefresh(pc.u, pc.todo - {h}, h));
  }

  lemma PurgeLooks(a: Shared, ph: Phase, pc: Pc, c: Choice)
    requires (pc.PWait? || pc.PAccess?) && Global(a, ph) && PurgeInv(a, pc)
    requires NextPurge(a, pc, c).sh == a && (pc.PAccess? ==> NextPurge(a, pc, c).pc in {pc, PRemove(pc.u)})
    requires pc.PAccess? && NextPurge(a, pc, c).pc.PRemove? ==> pc.todo == {}
    ensures StepOk(a, ph, pc, NextPurge(a, pc, c))
  {
    hide Global, StepOk, ThreadInv;
    var out := NextPurge(a, pc, c);
    if pc.PWait? { KnowsNothing(a, out.pc); } else { PurgeKnowsIt(a, out.pc); }
    Looks(a, ph, pc, out);
  }

  lemma PurgeAllCaused(a: Shared, pc: Pc, mine: set<Hash>)
    requires pc.PRemove? && PurgeInv(a, pc) && mine == set h | h in a.rows && a.rows[h].user == pc.u
    ensures forall h :: h in mine ==> Rooted(a.facts, a.bare, h) && Purged(h) in a.facts
  {
    forall h | h in mine ensures Rooted(a.facts, a.bare, h) { PurgedIsRooted(a.facts, a.bare, h); }
  }

  lemma PurgeRemoves(a: Shared, ph: Phase, pc: Pc, c: Choice)
    requires pc.PRemove? && Global(a, ph) && PurgeInv(a, pc)
    ensures StepOk(a, ph, pc, NextPurge(a, pc, c))
  {
    hide Global, Env, ThreadInv, PurgeInv, Removed, Rooted;
    var mine := set h | h in a.rows && a.rows[h].user == pc.u;
    KnowsNothing(NextPurge(a, pc, c).sh, Idle);
    if c.ok {
      PurgeAllCaused(a, pc, mine);
      RemoveRows(a, mine, map h | h in mine :: Purged(h), ph, false);
    } else {
      Nothing(a, false, true);
    }
  }

  lemma PurgeOk(a: Shared, ph: Phase, pc: Pc, c: Choice)
    requires PartOf(pc).Purge?
    requires CanStep(a, ph, pc, NextPurge(a, pc, c))
    ensures StepOk(a, ph, pc, NextPurge(a, pc, c))
  {
    hide Global, Env, StepOk, PurgeInv;
    assert PurgeInv(a, pc) && Global(a, ph);
    if pc.PRemove? { PurgeRemoves(a, ph, pc, c); }
    else if pc.PList? { PurgeLists(a, ph, pc, c); }
    else if pc.PRefresh? { PurgeDropsRefresh(a, ph, pc); }
    else if pc.PAccess? && c.pick.Some? && c.pick.value in pc.todo { PurgeDropsAccess(a, ph, pc, c.pick.value); }
    else { PurgeLooks(a, ph, pc, c); }
  }

  // ------------------------------------------------------------------- creating

  lemma CreateKnows(sh: Shared, pc: Pc)
    requires PartOf(pc).Create? && CreateInv(sh, pc)
    ensures ThreadInv(sh, pc)
  {
    hide CreateInv;
  }

  lemma UndoOk(a: Shared, h: Hash, ph: Phase, s: bool)
    requires Global(a, ph) && Minted(a, h)
    ensures var b := a.(access := Without(a.access, h), refresh := Without(a.refresh, h));
            Global(b, ph) && Env(a, b, s, true)
  {
    DropAccess(a, h, ph, s);
    DropRefresh(a.(access := Without(a.access, h)), h, ph, s);
  }

  lemma CreateMints(a: Shared, ph: Phase, pc: Pc)
    requires pc.KWait? && Global(a, ph)
    ensures StepOk(a, ph, pc, Out(Founded(a), KStoreAccess(a.nextHash, pc.u, a.nextRotation, pc.exp), Keep, Take))
  {
    hide Global, Env, ThreadInv, Newborn, Founded;
    MintSession(a, ph, false);
    CreateKnows(Founded(a), KStoreAccess(a.nextHash, pc.u, a.nextRotation, pc.exp));
  }

  lemma CreateStoresAccess(a: Shared, ph: Phase, pc: Pc)
    requires pc.KStoreAccess? && Global(a, ph) && CreateInv(a, pc)
    ensures StepOk(a, ph, pc, Go(a.(access := a.access[pc.h := pc.r]), KStoreRefresh(pc.h, pc.u, pc.r, pc.exp)))
  {
    hide Global, Env, ThreadInv;
    StoreNewAccess(a, pc.h, pc.r, ph, false);
    CreateKnows(a.(access := a.access[pc.h := pc.r]), KStoreRefresh(pc.h, pc.u, pc.r, pc.exp));
  }

  lemma CreateStoresRefresh(a: Shared, ph: Phase, pc: Pc)
    requires pc.KStoreRefresh? && Global(a, ph) && CreateInv(a, pc)
    ensures StepOk(a, ph, pc, Go(a.(refresh := a.refresh[pc.h := pc.r]), KInsert(pc.h, pc.u, pc.r, pc.exp)))
  {
    hide Global, Env, ThreadInv;
    StoreNewRefresh(a, pc.h, pc.r, ph, false);
    CreateKnows(a.(refresh := a.refresh[pc.h := pc.r]), KInsert(pc.h, pc.u, pc.r, pc.exp));
  }

  lemma CreateInserts(a: Shared, ph: Phase, pc: Pc, row: Row)
    requires pc.KInsert? && Global(a, ph) && CreateInv(a, pc)
    ensures StepOk(a, ph, pc, Out(a.(rows := a.rows[pc.h := row]), Idle, Keep, Free))
  {
    hide Global, Env, ThreadInv;
    InsertRow(a, pc.h, row, ph, false);
    KnowsNothing(a.(rows := a.rows[pc.h := row]), Idle);
  }

  lemma CreateFails(a: Shared, ph: Phase, pc: Pc)
    requires pc.KInsert? && Global(a, ph) && CreateInv(a, pc)
    ensures StepOk(a, ph, pc, Go(a, KUndo(pc.h)))
  {
    hide Global, StepOk;
    CreateKnows(a, KUndo(pc.h));
    Looks(a, ph, pc, Go(a, KUndo(pc.h)));
  }

  lemma CreateUndoes(a: Shared, ph: Phase, pc: Pc)
    requires pc.KUndo? && Global(a, ph) && CreateInv(a, pc)
    ensures StepOk(a, ph, pc,
                   Out(a.(access := Without(a.access, pc.h), refresh := Without(a.refresh, pc.h)), Idle, Keep, Free))
  {
    hide Global, Env, ThreadInv;
    UndoOk(a, pc.h, ph, false);
    KnowsNothing(a.(access := Without(a.access, pc.h), refresh := Without(a.refresh, pc.h)), Idle);
  }

  lemma CreateOk(a: Shared, ph: Phase, pc: Pc, c: Choice)
    requires PartOf(pc).Create?
    requires CanStep(a, ph, pc, NextCreate(a, pc, c))
    ensures StepOk(a, ph, pc, NextCreate(a, pc, c))
  {
    hide Global, Env, StepOk, CreateInv, Founded;
    assert CreateInv(a, pc) && Global(a, ph);
    if pc.KWait? { CreateMints(a, ph, pc); }
    else if pc.KStoreAccess? { CreateStoresAccess(a, ph, pc); }
    else if pc.KStoreRefresh? { CreateStoresRefresh(a, ph, pc); }
    else if pc.KUndo? { CreateUndoes(a, ph, pc); }
    else if c.ok { CreateInserts(a, ph, pc, Row(pc.u, a.now, a.now, a.now + LOCAL_SESSION_TTL, pc.exp)); }
    else { CreateFails(a, ph, pc); }
  }

  // ---------------------------------------------------------------- reattaching

  lemma ReattachKnows(sh: Shared, pc: Pc)
    requires PartOf(pc).Reattach? && ReattachInv(sh, pc)
    ensures ThreadInv(sh, pc)
  {
    hide ReattachInv;
  }

  lemma ReattachLocks(a: Shared, pc: Pc, out: Out)
    requires PartOf(pc).Reattach? && Global(a, Quiet) && out.sh == a && Unaware(out.pc)
             && PhaseAfter(Quiet, pc, out.pc) == Quiet
    ensures StepOk(a, Quiet, pc, out)
  {
    hide Global, StepOk, ThreadInv;
    KnowsNothing(a, out.pc);
    Looks(a, Quiet, pc, out);
  }

  lemma NamedKeeps(a: Shared, h: Hash)
    requires h in a.owner
    ensures Named(a, h).access == a.access && Named(a, h).refresh == a.refresh
  {
  }

  lemma ReattachScans(a: Shared, pc: Pc, h: Hash)
    requires pc.RScan? && Global(a, Quiet) && h in a.rows && a.rows[h].expires > a.now && h in a.access
             && h in a.refresh && h in a.owner
    ensures StepOk(a, Quiet, pc, Go(Named(a, h), RStoreAccess(h, a.nextHash, a.access[h], a.refresh[h])))
  {
    hide Global, Env, ThreadInv, Copying, Named;
    MintName(a, h);
    NamedKeeps(a, h);
    ReattachKnows(Named(a, h), RStoreAccess(h, a.nextHash, a.access[h], a.refresh[h]));
  }

  lemma ReattachStoresAccess(a: Shared, pc: Pc)
    requires pc.RStoreAccess? && Global(a, Quiet) && ReattachInv(a, pc)
    ensures StepOk(a, Quiet, pc, Go(a.(access := a.access[pc.h2 := pc.a]), RStoreRefresh(pc.h, pc.h2, pc.a, pc.t)))
  {
    hide Global, Env, ThreadInv;
    StoreNewAccess(a, pc.h2, pc.t, Quiet, true);
    ReattachKnows(a.(access := a.access[pc.h2 := pc.a]), RStoreRefresh(pc.h, pc.h2, pc.a, pc.t));
  }

  lemma ReattachStoresRefresh(a: Shared, pc: Pc)
    requires pc.RStoreRefresh? && Global(a, Quiet) && ReattachInv(a, pc)
    ensures StepOk(a, Quiet, pc, Go(a.(refresh := a.refresh[pc.h2 := pc.t]), RRename(pc.h, pc.h2, pc.t)))
  {
    hide Global, Env, ThreadInv;
    StoreNewRefresh(a, pc.h2, pc.t, Quiet, true);
    ReattachKnows(a.(refresh := a.refresh[pc.h2 := pc.t]), RRename(pc.h, pc.h2, pc.t));
  }

  lemma ReattachUndoes(a: Shared, pc: Pc)
    requires pc.RUndo? && Global(a, Quiet) && ReattachInv(a, pc)
    ensures StepOk(a, Quiet, pc,
                   Go(a.(access := Without(a.access, pc.h2), refresh := Without(a.refresh, pc.h2)), RUnlock))
  {
    hide Global, Env, ThreadInv;
    UndoOk(a, pc.h2, Quiet, true);
    KnowsNothing(a.(access := Without(a.access, pc.h2), refresh := Without(a.refresh, pc.h2)), RUnlock);
  }

  lemma RenameSource(a: Shared, pc: Pc)
    requires pc.RRename? && ReattachInv(a, pc)
    ensures pc.h in a.rows
  {
  }

  lemma RenameOk(a: Shared, pc: Pc)
    requires pc.RRename? && Global(a, Quiet) && ReattachInv(a, pc) && pc.h in a.rows
    ensures StepOk(a, Quiet, pc, Go(Renamed(a, pc.h, pc.h2), RDropAccess(pc.h)))
  {
    hide Global, Env, ThreadInv, ReattachInv, Copying, Renamed, Is;
    RenameKnows(a, pc);
    RenameRow(a, pc.h, pc.h2, pc.t);
    ReattachKnows(Renamed(a, pc.h, pc.h2), RDropAccess(pc.h));
  }

  lemma RenameKnows(a: Shared, pc: Pc)
    requires pc.RRename? && ReattachInv(a, pc) && pc.h in a.rows
    ensures Copying(a, pc.h, pc.h2, pc.t) && pc.h2 in a.access && pc.h2 in a.refresh && Is(a.refresh, pc.h2, pc.t)
    ensures ReattachInv(Renamed(a, pc.h, pc.h2), RDropAccess(pc.h))
  {
  }

  lemma RenameFails(a: Shared, pc: Pc)
    requires pc.RRename? && Global(a, Quiet) && ReattachInv(a, pc)
    ensures StepOk(a, Quiet, pc, Go(a, RUndo(pc.h2)))
  {
    hide Global, StepOk;
    ReattachKnows(a, RUndo(pc.h2));
    Looks(a, Quiet, pc, Go(a, RUndo(pc.h2)));
  }

  lemma GoneHasNoRow(a: Shared, h: Hash, ph: Phase)
    requires Global(a, ph) && h in a.gone
    ensures h !in a.rows
  {
  }

  lemma ReattachDropsAccess(a: Shared, pc: Pc)
    requires pc.RDropAccess? && Global(a, Quiet) && ReattachInv(a, pc)
    ensures StepOk(a, Quiet, pc, Go(a.(access := Without(a.access, pc.h)), RDropRefresh(pc.h)))
  {
    hide Global, Env, ThreadInv, Rooted;
    GoneHasNoRow(a, pc.h, Quiet);
    DropAccess(a, pc.h, Quiet, true);
    ReattachKnows(a.(access := Without(a.access, pc.h)), RDropRefresh(pc.h));
  }

  lemma ReattachDropsRefresh(a: Shared, pc: Pc)
    requires pc.RDropRefresh? && Global(a, Quiet) && ReattachInv(a, pc)
    ensures StepOk(a, Quiet, pc, Go(a.(refresh := Without(a.refresh, pc.h)), RUnlock))
  {
    hide Global, Env, ThreadInv, Rooted;
    GoneHasNoRow(a, pc.h, Quiet);
    DropRefresh(a, pc.h, Quiet, true);
    KnowsNothing(a.(refresh := Without(a.refresh, pc.h)), RUnlock);
  }

  lemma ReattachOk(a: Shared, ph: Phase, pc: Pc, c: Choice)
    requires PartOf(pc).Reattach?
    requires CanStep(a, ph, pc, NextReattach(a, pc, c))
    ensures StepOk(a, ph, pc, NextReattach(a, pc, c))
  {
    hide Global, Env, StepOk, ReattachInv, Renamed;
    assert ReattachInv(a, pc) && ph == Quiet && Global(a, Quiet);
    if pc.RStoreAccess? { ReattachStoresAccess(a, pc); }
    else if pc.RStoreRefresh? { ReattachStoresRefresh(a, pc); }
    else if pc.RRename? {
      RenameSource(a, pc);
      if c.ok { RenameOk(a, pc); } else { RenameFails(a, pc); }
    }
    else if pc.RUndo? { ReattachUndoes(a, pc); }
    else if pc.RDropAccess? { ReattachDropsAccess(a, pc); }
    else if pc.RDropRefresh? { ReattachDropsRefresh(a, pc); }
    else { ReattachWaits(a, pc, c); }
  }

  lemma ReattachWaits(a: Shared, pc: Pc, c: Choice)
    requires (pc.RWaitSerial? || pc.RWaitLock? || pc.RScan? || pc.RUnlock?) && Global(a, Quiet)
    ensures StepOk(a, Quiet, pc, NextReattach(a, pc, c))
  {
    hide Global, StepOk, Named, Renamed, PhaseOf;
    if pc.RScan? { ReattachLooks(a, pc, c); } else { ReattachTakes(a, pc, c); }
  }

  lemma ReattachLooks(a: Shared, pc: Pc, c: Choice)
    requires pc.RScan? && Global(a, Quiet)
    ensures StepOk(a, Quiet, pc, NextReattach(a, pc, c))
  {
    hide Global, StepOk, Named, Renamed;
    var out := NextReattach(a, pc, c);
    if out.pc.RStoreAccess? { ReattachScans(a, pc, c.pick.value); } else { ReattachLocks(a, pc, out); }
  }

  lemma ReattachTakes(a: Shared, pc: Pc, c: Choice)
    requires (pc.RWaitSerial? || pc.RWaitLock? || pc.RUnlock?) && Global(a, Quiet)
    ensures StepOk(a, Quiet, pc, NextReattach(a, pc, c))
  {
    hide Global, StepOk, Named, Renamed;
    ReattachLocks(a, pc, NextReattach(a, pc, c));
  }

  // -------------------------------------------------------------- shutting down

  lemma ShutdownKnows(sh: Shared, pc: Pc)
    requires PartOf(pc).Shutdown? && ShutdownInv(sh, pc)
    ensures ThreadInv(sh, pc)
  {
    hide ShutdownInv;
  }

  lemma FlagOk(a: Shared, ph: Phase)
    requires Global(a, ph)
    ensures StepOk(a, ph, SFlag, Go(a.(shutdown := true), SWait))
  {
    hide Global, Env, ThreadInv;
    ShutdownStarts(a, ph);
    ShutdownKnows(a.(shutdown := true), SWait);
  }

  lemma QuiesceOk(a: Shared)
    requires Global(a, Quiet) && a.shutdown
    ensures StepOk(a, Quiet, SHeld, Out(a.(quiesced := true), Idle, Free, Keep))
  {
    hide Global, Env, ThreadInv;
    ShutdownEnds(a);
    KnowsNothing(a.(quiesced := true), Idle);
  }

  lemma ShutdownOk(a: Shared, ph: Phase, pc: Pc, c: Choice)
    requires PartOf(pc).Shutdown?
    requires CanStep(a, ph, pc, NextShutdown(a, pc, c))
    ensures StepOk(a, ph, pc, NextShutdown(a, pc, c))
  {
    hide Global, Env, StepOk;
    if pc.SFlag? { FlagOk(a, ph); }
    else if pc.SHeld? { QuiesceOk(a); }
    else {
      var out := NextShutdown(a, pc, c);
      if out.pc.SHeld? { ShutdownKnows(a, SHeld); } else { KnowsNothing(a, Idle); }
      Looks(a, ph, pc, out);
    }
  }

  lemma LocalStep(a: Shared, ph: Phase, pc: Pc, c: Choice)
    requires CanStep(a, ph, pc, Next(a, pc, c))
    ensures StepOk(a, ph, pc, Next(a, pc, c))
  {
    hide CanStep, StepOk, NextValidate, NextSection, NextGrant, NextDelete, NextPurge, NextCreate, NextReattach,
         NextShutdown;
    match PartOf(pc) {
      case Start => StartOk(a, ph, c);
      case Validate => ValidateOk(a, ph, pc, c);
      case Section => SectionOk(a, ph, pc, c);
      case Grant => GrantOk(a, ph, pc, c);
      case Delete => DeleteOk(a, ph, pc, c);
      case Purge => PurgeOk(a, ph, pc, c);
      case Create => CreateOk(a, ph, pc, c);
      case Reattach => ReattachOk(a, ph, pc, c);
      case Shutdown => ShutdownOk(a, ph, pc, c);
    }
  }
}
