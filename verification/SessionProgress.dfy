/** The refresh lock and the store lock never leave the threads stuck. */
module SessionProgress {
  import opened Common
  import opened SessionModel
  import opened SessionProtocol
  import opened SessionInvariant
  import opened SessionRuns
  import opened SessionTheorems
  import opened SessionReach

  datatype Lock = Serial | Store
  {
    /** The order in which a thread takes them. */
    function Rank(): nat { if Serial? then 0 else 1 }
  }

  predicate Holds(pc: Pc, l: Lock) { if l.Serial? then HoldsSerial(pc) else HoldsLock(pc) }

  /** The lock the thread's next action needs. */
  function Wants(pc: Pc): Option<Lock> {
    match pc
    case CWait(_) | GWait(_, _) | RWaitSerial | SWait => Some(Serial)
    case DWait(_, _, _) | PWait(_) | KWait(_, _) | RWaitLock => Some(Store)
    case _ => None
  }

  /** A thread waits only for a lock that comes after every lock it holds. */
  lemma LockOrder(pc: Pc, held: Lock, wanted: Lock)
    requires Holds(pc, held) && Wants(pc) == Some(wanted)
    ensures held.Rank() < wanted.Rank()
  {
  }

  predicate Blocked(s: State, t: Tid) {
    && t in s.pcs && Wants(s.pcs[t]).Some?
    && if Wants(s.pcs[t]).value.Serial? then s.serial.Some? else s.lock.Some?
  }

  // ----------------------------------------------------- how far a thread has to go

  /** Bounds the actions left, not counting the sessions a purge has listed. */
  function Left(pc: Pc): nat {
    match pc
    case Idle => 0
    case Touch(_) => 1
    case CRelease(_) => 2
    case DRemove(_, _, _) => 3
    case DRefresh(_, _, _) => 4
    case DAccess(_, _, _) => 5
    case DRow(_, _, _) => 6
    case DWait(_, _, _) => 7
    case DCheck(_, _, _) => 8
    case GAnswer(_, _, _) => 3
    case GRead(_, _) => 9
    case CUpdate(_, _, _, _, _) => 10
    case CStoreRefresh(_, _, _, _, _) => 11
    case CStoreAccess(_, _, _, _, _) => 12
    case CAnswered(_, _, _, _, _, _) => 13
    case CPost(_, _, _, _) => 14
    case CShutdown(_, _, _, _) => 15
    case CSkew(_, _, _, _, _) => 16
    case CPresent(_) => 9
    case CRefresh(_, _, _, _) => 17
    case CAccess(_, _, _) => 18
    case CRow(_, _) => 19
    case CWait(_) => 20
    case VPresent(_) => 9
    case VRefresh(_, _, _, _) => 21
    case VAccess(_, _, _) => 22
    case VExpiry(_, _) => 23
    case VRow(_) => 24
    case GRow(_) => 20
    case GResolve(_, _) => 21
    case GWait(_, _) => 22
    case PRemove(_) => 1
    case PAccess(_, _) => 2
    case PRefresh(_, _, _) => 2
    case PList(_) => 3
    case PWait(_) => 4
    case KUndo(_) => 1
    case KInsert(_, _, _, _) => 2
    case KStoreRefresh(_, _, _, _) => 3
    case KStoreAccess(_, _, _, _) => 4
    case KWait(_, _) => 5
    case RUnlock => 1
    case RUndo(_) => 2
    case RDropRefresh(_) => 2
    case RDropAccess(_) => 3
    case RRename(_, _, _) => 4
    case RStoreRefresh(_, _, _, _) => 5
    case RStoreAccess(_, _, _, _) => 6
    case RScan => 7
    case RWaitLock => 8
    case RWaitSerial => 9
    case SHeld => 1
    case SWait => 2
    case SFlag => 3
  }

  /** The sessions a purge has still to go through. */
  function ToPurge(pc: Pc): nat {
    match pc
    case PAccess(_, todo) => 2 * |todo|
    case PRefresh(_, todo, _) => 2 * |todo| + 1
    case _ => 0
  }

  predicate Nearer(pc: Pc, next: Pc) {
    Left(next) < Left(pc) || (Left(next) == Left(pc) && ToPurge(next) < ToPurge(pc))
  }

  /** Everything goes well: writes succeed, no wait times out, and a purge takes some listed session. */
  predicate Well(pc: Pc, c: Choice) {
    c.ok && (pc.PAccess? && pc.todo != {} ==> c.pick.Some? && c.pick.value in pc.todo)
  }

  lemma ValidateNears(a: Shared, pc: Pc, c: Choice)
    requires PartOf(pc).Validate?
    ensures Nearer(pc, NextValidate(a, pc, c).pc)
  {
    hide Touched, Learn;
  }

  lemma SectionNears(a: Shared, pc: Pc, c: Choice)
    requires PartOf(pc).Section?
    ensures Nearer(pc, NextSection(a, pc, c).pc)
  {
    hide NextSection;
    if pc.CPost? || pc.CAnswered? || pc.CStoreAccess? || pc.CStoreRefresh? || pc.CUpdate? { RotationNears(a, pc, c); }
    else { LooksNear(a, pc, c); }
  }

  lemma RotationNears(a: Shared, pc: Pc, c: Choice)
    requires pc.CPost? || pc.CAnswered? || pc.CStoreAccess? || pc.CStoreRefresh? || pc.CUpdate?
    ensures Nearer(pc, NextSection(a, pc, c).pc)
  {
    hide Post, Updated, Learn;
  }

  lemma LooksNear(a: Shared, pc: Pc, c: Choice)
    requires pc.CRow? || pc.CAccess? || pc.CRefresh? || pc.CPresent? || pc.CSkew? || pc.CShutdown? || pc.CRelease?
    ensures Nearer(pc, NextSection(a, pc, c).pc)
  {
  }

  lemma GrantNears(a: Shared, pc: Pc, c: Choice)
    requires PartOf(pc).Grant?
    ensures Nearer(pc, NextGrant(a, pc, c).pc)
  {
    hide Touched, Learn;
  }

  lemma DeleteNears(a: Shared, pc: Pc, c: Choice)
    requires PartOf(pc).Delete?
    ensures Nearer(pc, NextDelete(a, pc, c).pc)
  {
    hide Removed, Without;
  }

  lemma PurgeNears(a: Shared, pc: Pc, c: Choice)
    requires PartOf(pc).Purge? && Well(pc, c)
    ensures Nearer(pc, NextPurge(a, pc, c).pc)
  {
    hide Removed, Without;
    if pc.PAccess? && pc.todo != {} {
      assert NextPurge(a, pc, c).pc == PRefresh(pc.u, pc.todo - {c.pick.value}, c.pick.value);
      hide NextPurge;
    } else if pc.PRefresh? {
      assert NextPurge(a, pc, c).pc == PAccess(pc.u, pc.todo);
      hide NextPurge;
    }
  }

  lemma CreateNears(a: Shared, pc: Pc, c: Choice)
    requires PartOf(pc).Create?
    ensures Nearer(pc, NextCreate(a, pc, c).pc)
  {
    hide Founded, Without;
  }

  lemma ReattachNears(a: Shared, pc: Pc, c: Choice)
    requires PartOf(pc).Reattach?
    ensures Nearer(pc, NextReattach(a, pc, c).pc)
  {
    hide Renamed, Named, Without;
  }

  lemma ShutdownNears(a: Shared, pc: Pc, c: Choice)
    requires PartOf(pc).Shutdown?
    ensures Nearer(pc, NextShutdown(a, pc, c).pc)
  {
  }

  /** Every action of a call brings its end nearer, whatever it finds. */
  lemma ActionNears(a: Shared, pc: Pc, c: Choice)
    requires !pc.Idle? && Well(pc, c)
    ensures Nearer(pc, Next(a, pc, c).pc)
  {
    hide Nearer, NextValidate, NextSection, NextGrant, NextDelete, NextPurge, NextCreate, NextReattach, NextShutdown;
    match PartOf(pc) {
      case Start =>
      case Validate => ValidateNears(a, pc, c);
      case Section => SectionNears(a, pc, c);
      case Grant => GrantNears(a, pc, c);
      case Delete => DeleteNears(a, pc, c);
      case Purge => PurgeNears(a, pc, c);
      case Create => CreateNears(a, pc, c);
      case Reattach => ReattachNears(a, pc, c);
      case Shutdown => ShutdownNears(a, pc, c);
    }
  }

  /** `Wants` is all there is to wait for. */
  predicate WantsIt(pc: Pc, c: Choice, out: Out) {
    && (out.serial.Take? <==> Wants(pc) == Some(Serial) && (pc.SWait? ==> c.ok))
    && (out.lock.Take? <==> Wants(pc) == Some(Store))
  }

  lemma SectionTakesNone(a: Shared, pc: Pc, c: Choice)
    requires PartOf(pc).Section?
    ensures WantsIt(pc, c, NextSection(a, pc, c))
  {
    hide Post, Updated, Learn;
    assert !NextSection(a, pc, c).serial.Take? && !NextSection(a, pc, c).lock.Take? && Wants(pc).None?;
  }

  lemma ValidateTakes(a: Shared, pc: Pc, c: Choice)
    requires PartOf(pc).Validate?
    ensures WantsIt(pc, c, NextValidate(a, pc, c))
  {
    hide Touched, Learn;
  }

  lemma GrantTakes(a: Shared, pc: Pc, c: Choice)
    requires PartOf(pc).Grant?
    ensures WantsIt(pc, c, NextGrant(a, pc, c))
  {
    hide Touched, Learn;
  }

  lemma DeleteTakes(a: Shared, pc: Pc, c: Choice)
    requires PartOf(pc).Delete?
    ensures WantsIt(pc, c, NextDelete(a, pc, c))
  {
    hide Removed, Without;
  }

  lemma PurgeTakes(a: Shared, pc: Pc, c: Choice)
    requires PartOf(pc).Purge?
    ensures WantsIt(pc, c, NextPurge(a, pc, c))
  {
    hide Removed, Without;
  }

  lemma CreateTakes(a: Shared, pc: Pc, c: Choice)
    requires PartOf(pc).Create?
    ensures WantsIt(pc, c, NextCreate(a, pc, c))
  {
    hide Founded, Without;
  }

  lemma ReattachTakes(a: Shared, pc: Pc, c: Choice)
    requires PartOf(pc).Reattach?
    ensures WantsIt(pc, c, NextReattach(a, pc, c))
  {
    hide Renamed, Named, Without;
  }

  lemma ShutdownTakes(a: Shared, pc: Pc, c: Choice)
    requires PartOf(pc).Shutdown?
    ensures WantsIt(pc, c, NextShutdown(a, pc, c))
  {
  }

  lemma ActionTakes(a: Shared, pc: Pc, c: Choice)
    ensures WantsIt(pc, c, Next(a, pc, c))
  {
    hide WantsIt, NextValidate, NextSection, NextGrant, NextDelete, NextPurge, NextCreate, NextReattach, NextShutdown;
    match PartOf(pc) {
      case Start => StartTakes(a, c);
      case Validate => ValidateTakes(a, pc, c);
      case Section => SectionTakesNone(a, pc, c);
      case Grant => GrantTakes(a, pc, c);
      case Delete => DeleteTakes(a, pc, c);
      case Purge => PurgeTakes(a, pc, c);
      case Create => CreateTakes(a, pc, c);
      case Reattach => ReattachTakes(a, pc, c);
      case Shutdown => ShutdownTakes(a, pc, c);
    }
  }

  lemma StartTakes(a: Shared, c: Choice)
    ensures WantsIt(Idle, c, NextIdle(a, c))
  {
    hide Learn;
  }

  /** A thread inside a call that does not wait for a held lock has an action that brings the call's end nearer. */
  lemma CanAct(s: State, t: Tid) returns (c: Choice)
    requires t in s.pcs && !s.pcs[t].Idle? && !Blocked(s, t)
    ensures var r := Step(s, Run(t, c)); r.pcs.Keys == s.pcs.Keys && Nearer(s.pcs[t], r.pcs[t])
    ensures forall u :: u in s.pcs && u != t ==> Step(s, Run(t, c)).pcs[u] == s.pcs[u]
  {
    var pc := s.pcs[t];
    c := Choice(Idle, true, Lost, None);
    if pc.PAccess? && pc.todo != {} {
      var h :| h in pc.todo;
      c := Choice(Idle, true, Lost, Some(h));
    }
    ActionNears(s.sh, pc, c);
    ActionTakes(s.sh, pc, c);
    hide Next, Nearer, Wants;
  }

  // --------------------------------------------------------------- everybody finishes

  /**
   Nothing stands in `t`'s way to the end of its call: it has each lock, or the lock is free, or it
   is past needing it.
   */
  predicate Clear(s: State, t: Tid) {
    && t in s.pcs && (s.lock.None? || s.lock == Some(t))
    && (s.serial.None? || s.serial == Some(t) || HoldsLock(s.pcs[t]))
  }

  lemma ClearIsNotBlocked(s: State, t: Tid)
    requires Inv(s) && Clear(s, t)
    ensures !Blocked(s, t)
  {
    assert LockInv(s);
    var pc := s.pcs[t];
    hide Inv, Global, ThreadInv;
    if Blocked(s, t) {
      if HoldsLock(pc) { LockOrder(pc, Store, Wants(pc).value); }
      if HoldsSerial(pc) { LockOrder(pc, Serial, Wants(pc).value); }
    }
  }

  /** An action of `t` takes no lock from another, so `t` stays clear. */
  lemma StaysClear(s: State, t: Tid, c: Choice)
    requires Inv(s) && Clear(s, t) && Inv(Step(s, Run(t, c))) && t in Step(s, Run(t, c)).pcs
    ensures var r := Step(s, Run(t, c)); r.pcs[t].Idle? || Clear(r, t)
  {
    hide Global, ThreadInv, Next;
    LocksOk(s.sh, s.pcs[t], c);
    if HoldsLock(s.pcs[t]) { LockHolderGoesOn(s.sh, s.pcs[t], c); }
    hide HoldsSerial, HoldsLock;
  }

  /** A thread that gives up the store lock is done, or still inside the refresh lock. */
  lemma LockHolderGoesOn(a: Shared, pc: Pc, c: Choice)
    requires HoldsLock(pc)
    ensures var next := Next(a, pc, c).pc; HoldsLock(next) || next.Idle? || HoldsSerial(next)
  {
    hide NextValidate, NextSection, NextGrant, NextShutdown, Removed, Without, Founded, Renamed, Named;
  }

  /** Left alone, `t` finishes its call. */
  lemma {:induction false} Finishes(z: State, s: State, t: Tid) returns (r: State)
    requires Inv(s) && Clear(s, t) && Reaches(z, s)
    ensures Inv(r) && Reaches(z, r) && r.pcs.Keys == s.pcs.Keys && t in r.pcs && r.pcs[t].Idle?
    ensures forall u :: u in s.pcs && u != t ==> r.pcs[u] == s.pcs[u]
    decreases Left(s.pcs[t]), ToPurge(s.pcs[t])
  {
    assert t in s.pcs;
    hide Inv, Reaches, Step, Clear;
    r := s;
    if !s.pcs[t].Idle? {
      ClearIsNotBlocked(s, t);
      var c := CanAct(s, t);
      r := Step(s, Run(t, c));
      StepInv(s, Run(t, c));
      ReachOn(z, s, Run(t, c));
      StaysClear(s, t, c);
      if !r.pcs[t].Idle? { r := Finishes(z, r, t); }
    }
  }

  function Busy(s: State): set<Tid> { set t | t in s.pcs && !s.pcs[t].Idle? }

  /** Somebody is clear: the holder of the store lock, else the holder of the refresh lock, else anybody. */
  lemma SomebodyIsClear(s: State) returns (t: Tid)
    requires Inv(s) && Busy(s) != {}
    ensures t in Busy(s) && Clear(s, t)
  {
    assert LockInv(s);
    if s.lock.Some? { t := s.lock.value; }
    else if s.serial.Some? { t := s.serial.value; }
    else { t :| t in Busy(s); }
    hide Global, ThreadInv;
  }

  /**
   No deadlock, and no lock is ever lost: from every state of every run there is a way
   on in which every thread finishes its call and both locks are free.
   */
  lemma {:induction false} EverybodyCanFinish(z: State, s: State) returns (r: State)
    requires Inv(s) && Reaches(z, s)
    ensures Inv(r) && Reaches(z, r) && r.pcs.Keys == s.pcs.Keys && (forall t :: t in r.pcs ==> r.pcs[t].Idle?)
    ensures r.serial.None? && r.lock.None?
    decreases |Busy(s)|
  {
    r := s;
    hide Reaches, Clear;
    if Busy(s) == {} {
      AllIdle(s);
    } else {
      hide Inv;
      var t := SomebodyIsClear(s);
      r := Finishes(z, s, t);
      assert Busy(r) == Busy(s) - {t};
      r := EverybodyCanFinish(z, r);
    }
  }

  lemma AllIdle(s: State)
    requires Inv(s) && Busy(s) == {}
    ensures s.serial.None? && s.lock.None? && forall t :: t in s.pcs ==> s.pcs[t].Idle?
  {
    hide Global, ThreadInv;
    forall t | t in s.pcs ensures s.pcs[t].Idle? { assert t !in Busy(s); }
  }
}
