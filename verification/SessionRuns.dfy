/** The invariant over whole runs, and what it says about them. */
module SessionRuns {
  import opened Common
  import opened SessionModel
  import opened SessionProtocol
  import opened SessionInvariant
  import opened SessionStable
  import opened SessionSteps

  ghost predicate LockInv(s: State) {
    && (s.serial.Some? ==> s.serial.value in s.pcs)
    && (s.lock.Some? ==> s.lock.value in s.pcs)
    && forall t :: t in s.pcs ==>
       (HoldsSerial(s.pcs[t]) <==> s.serial == Some(t)) && (HoldsLock(s.pcs[t]) <==> s.lock == Some(t))
  }

  function SerialPhase(s: State): Phase {
    if s.serial.Some? && s.serial.value in s.pcs then PhaseOf(s.pcs[s.serial.value]) else Quiet
  }

  ghost predicate Inv(s: State) {
    && LockInv(s)
    && Global(s.sh, SerialPhase(s))
    && forall t :: t in s.pcs ==> ThreadInv(s.sh, s.pcs[t])
  }

  /** A lock is taken only by a thread without it and freed only by its holder. */
  predicate LockStep(held: bool, op: LockOp, holds: bool) {
    && (holds <==> op.Take? || (held && op.Keep?))
    && (op.Take? ==> !held) && (op.Free? ==> held)
  }

  predicate LocksStep(pc: Pc, out: Out) {
    LockStep(HoldsSerial(pc), out.serial, HoldsSerial(out.pc)) && LockStep(HoldsLock(pc), out.lock, HoldsLock(out.pc))
  }

  lemma ValidateLocks(a: Shared, pc: Pc, c: Choice)
    requires PartOf(pc).Validate?
    ensures LocksStep(pc, NextValidate(a, pc, c))
  {
    var out := NextValidate(a, pc, c);
    assert !HoldsSerial(pc) && !HoldsLock(pc) && !HoldsLock(out.pc) && out.lock.Keep?;
  }

  lemma GrantLocks(a: Shared, pc: Pc, c: Choice)
    requires PartOf(pc).Grant?
    ensures LocksStep(pc, NextGrant(a, pc, c))
  {
    hide Touched, Learn;
    var out := NextGrant(a, pc, c);
    assert out.lock.Keep? && !HoldsLock(pc) && !HoldsLock(out.pc);
  }

  lemma DeleteLocks(a: Shared, pc: Pc, c: Choice)
    requires PartOf(pc).Delete?
    ensures LocksStep(pc, NextDelete(a, pc, c))
  {
  }

  lemma PurgeLocks(a: Shared, pc: Pc, c: Choice)
    requires PartOf(pc).Purge?
    ensures LocksStep(pc, NextPurge(a, pc, c))
  {
  }

  lemma CreateLocks(a: Shared, pc: Pc, c: Choice)
    requires PartOf(pc).Create?
    ensures LocksStep(pc, NextCreate(a, pc, c))
  {
  }

  lemma ShutdownLocks(a: Shared, pc: Pc, c: Choice)
    requires PartOf(pc).Shutdown?
    ensures LocksStep(pc, NextShutdown(a, pc, c))
  {
    var out := NextShutdown(a, pc, c);
    assert out.lock.Keep? && !HoldsLock(pc) && !HoldsLock(out.pc);
  }

  lemma LocksOk(a: Shared, pc: Pc, c: Choice)
    ensures LocksStep(pc, Next(a, pc, c))
  {
    hide LocksStep, NextValidate, NextSection, NextGrant, NextDelete, NextPurge, NextCreate, NextReattach, NextShutdown;
    match PartOf(pc) {
      case Start => StartLocks(a, c);
      case Validate => ValidateLocks(a, pc, c);
      case Section => SectionLocks(a, pc, c);
      case Grant => GrantLocks(a, pc, c);
      case Delete => DeleteLocks(a, pc, c);
      case Purge => PurgeLocks(a, pc, c);
      case Create => CreateLocks(a, pc, c);
      case Reattach => ReattachLocking(a, pc, c);
      case Shutdown => ShutdownLocks(a, pc, c);
    }
  }

  lemma StartLocks(a: Shared, c: Choice)
    ensures LocksStep(Idle, NextIdle(a, c))
  {
  }

  lemma SectionLocks(a: Shared, pc: Pc, c: Choice)
    requires PartOf(pc).Section?
    ensures LocksStep(pc, NextSection(a, pc, c))
  {
    hide HoldsSerial, HoldsLock, NextSection;
    SectionGoesOn(a, pc, c);
    InSection(pc);
    InSection(NextSection(a, pc, c).pc);
  }

  predicate Inside(pc: Pc) { PartOf(pc).Section? || pc.GRead? || (pc.DCheck? && pc.sec) }

  lemma SectionGoesOn(a: Shared, pc: Pc, c: Choice)
    requires PartOf(pc).Section?
    ensures var out := NextSection(a, pc, c);
            && out.lock.Keep?
            && if pc.CRelease? then out.serial.Free? && (out.pc.Touch? || out.pc.Idle?)
               else out.serial.Keep? && Inside(out.pc)
  {
    hide NextSection, Inside;
    if pc.CPost? || pc.CAnswered? || pc.CStoreAccess? || pc.CStoreRefresh? || pc.CUpdate? { RotationGoesOn(a, pc, c); }
    else if !pc.CRelease? { LooksGoOn(a, pc, c); }
    else { ReleaseGoesOn(a, pc, c); }
  }

  lemma LooksGoOn(a: Shared, pc: Pc, c: Choice)
    requires pc.CRow? || pc.CAccess? || pc.CRefresh? || pc.CPresent? || pc.CSkew? || pc.CShutdown?
    ensures var out := NextSection(a, pc, c); out.lock.Keep? && out.serial.Keep? && Inside(out.pc)
  {
  }

  lemma ReleaseGoesOn(a: Shared, pc: Pc, c: Choice)
    requires pc.CRelease?
    ensures var out := NextSection(a, pc, c); out.lock.Keep? && out.serial.Free? && (out.pc.Touch? || out.pc.Idle?)
  {
  }

  lemma RotationGoesOn(a: Shared, pc: Pc, c: Choice)
    requires pc.CPost? || pc.CAnswered? || pc.CStoreAccess? || pc.CStoreRefresh? || pc.CUpdate?
    ensures var out := NextSection(a, pc, c); out.lock.Keep? && out.serial.Keep? && Inside(out.pc)
  {
    hide Post, Updated, Learn;
  }

  lemma InSection(pc: Pc)
    requires Inside(pc) || pc.Touch? || pc.Idle?
    ensures HoldsSerial(pc) == Inside(pc) && !HoldsLock(pc)
  {
  }

  lemma ReattachLocking(a: Shared, pc: Pc, c: Choice)
    requires PartOf(pc).Reattach?
    ensures LocksStep(pc, NextReattach(a, pc, c))
  {
    hide Renamed;
    if !pc.RWaitSerial? && !pc.RWaitLock? && !pc.RUnlock? { ReattachKeepsLocks(a, pc, c); }
  }

  lemma ReattachKeepsLocks(a: Shared, pc: Pc, c: Choice)
    requires PartOf(pc).Reattach? && !pc.RWaitSerial? && !pc.RWaitLock? && !pc.RUnlock?
    ensures LocksStep(pc, NextReattach(a, pc, c))
  {
    hide HoldsSerial, HoldsLock, NextReattach;
    ReattachGoesOn(a, pc, c);
    ReattachHolds(pc);
    ReattachHolds(NextReattach(a, pc, c).pc);
  }

  lemma ReattachGoesOn(a: Shared, pc: Pc, c: Choice)
    requires PartOf(pc).Reattach? && !pc.RWaitSerial? && !pc.RWaitLock? && !pc.RUnlock?
    ensures var out := NextReattach(a, pc, c);
            out.serial.Keep? && out.lock.Keep? && PartOf(out.pc).Reattach? && !out.pc.RWaitSerial? && !out.pc.RWaitLock?
  {
    hide Renamed, Named, Without;
  }

  lemma ReattachHolds(pc: Pc)
    requires PartOf(pc).Reattach? && !pc.RWaitSerial? && !pc.RWaitLock?
    ensures HoldsSerial(pc) && HoldsLock(pc)
  {
  }

  lemma RunKeepsInv(s: State, t: Tid, c: Choice)
    requires Inv(s)
    ensures Inv(Step(s, Run(t, c)))
  {
    hide Global, Env, ThreadInv, Next, HoldsSerial, HoldsLock, PhaseOf;
    if t in s.pcs {
      var pc := s.pcs[t];
      var out := Next(s.sh, pc, c);
      LocksOk(s.sh, pc, c);
      if !((out.serial.Take? && s.serial.Some?) || (out.lock.Take? && s.lock.Some?)) {
        LocalStep(s.sh, SerialPhase(s), pc, c);
        var s2 := Step(s, Run(t, c));
        OthersStable(s, t, c);
      }
    }
  }

  /** One thread's enabled action, seen by the others. */
  lemma OthersStable(s: State, t: Tid, c: Choice)
    requires Inv(s) && t in s.pcs
    requires var out := Next(s.sh, s.pcs[t], c);
             && StepOk(s.sh, SerialPhase(s), s.pcs[t], out)
             && !(out.serial.Take? && s.serial.Some?) && !(out.lock.Take? && s.lock.Some?)
    ensures forall u :: u in s.pcs && u != t ==> ThreadInv(Next(s.sh, s.pcs[t], c).sh, s.pcs[u])
  {
    var pc := s.pcs[t];
    var out := Next(s.sh, pc, c);
    GlobalNames(s.sh, SerialPhase(s));
    GlobalNames(out.sh, PhaseAfter(SerialPhase(s), pc, out.pc));
    hide Global, Env, ThreadInv, Next, HoldsSerial, HoldsLock, PhaseOf;
    forall u | u in s.pcs && u != t ensures ThreadInv(out.sh, s.pcs[u]) {
      Stable(s.sh, out.sh, HoldsSerial(pc), HoldsLock(pc) || out.lock.Take?, s.pcs[u]);
    }
  }

  lemma GlobalNames(sh: Shared, ph: Phase)
    requires Global(sh, ph)
    ensures sh.gone !! sh.rows.Keys && sh.rows.Keys <= sh.owner.Keys
  {
  }
}
