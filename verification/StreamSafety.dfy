/** No PortAudio call ever touches freed memory, and the locks cannot deadlock. */
module StreamSafety {
  import opened Common
  import opened StreamProtocol

  // ------------------------------------------------------------------ invariant

  ghost predicate StreamLocks(locks: map<Stream, Tid>, pcs: map<Tid, Pc>) {
    && (forall x :: x in locks ==> locks[x] in pcs && StreamHeld(pcs[locks[x]]) == Some(x))
    && (forall t :: t in pcs && StreamHeld(pcs[t]).Some? ==>
          StreamHeld(pcs[t]).value in locks && locks[StreamHeld(pcs[t]).value] == t)
  }

  ghost predicate RegistryLock(registry: Option<Tid>, pcs: map<Tid, Pc>) {
    && (registry.Some? ==> registry.value in pcs && HoldsRegistry(pcs[registry.value]))
    && (forall t :: t in pcs && HoldsRegistry(pcs[t]) ==> registry == Some(t))
  }

  ghost predicate LifecycleLock(lifecycle: Option<Tid>, pcs: map<Tid, Pc>) {
    && (lifecycle.Some? ==> lifecycle.value in pcs && HoldsLifecycle(pcs[lifecycle.value]))
    && (forall t :: t in pcs && HoldsLifecycle(pcs[t]) ==> lifecycle == Some(t))
  }

  /** No raw call on `x` is running or about to. */
  ghost predicate Unused(pcs: map<Tid, Pc>, x: Stream) {
    forall t :: t in pcs ==> !Busy(pcs[t], x)
  }

  /** Nothing is inside `x`, and nothing can get inside again. */
  ghost predicate Quiet(closed: set<Stream>, pcs: map<Tid, Pc>, x: Stream) {
    x in closed && Unused(pcs, x)
  }

  ghost predicate BeingClosed(pcs: map<Tid, Pc>, x: Stream) {
    exists t :: t in pcs && (pcs[t].InClose? || pcs[t].CloseMark?) && pcs[t].x == x
  }

  ghost predicate FreedIsClosed(freed: set<Stream>, closed: set<Stream>, pcs: map<Tid, Pc>) {
    forall x :: x in freed ==> x in closed || BeingClosed(pcs, x)
  }

  ghost predicate PendingOpen(pcs: map<Tid, Pc>, x: Stream) {
    exists t :: t in pcs && (pcs[t].OpenReg? || pcs[t].OpenAdd?) && pcs[t].x == x
  }

  ghost predicate UnregisteredIsQuiet(owner: map<Stream, Instance>, registered: set<Stream>, closed: set<Stream>,
                                      pcs: map<Tid, Pc>)
  {
    forall x :: x in owner && x !in registered ==> Quiet(closed, pcs, x) || PendingOpen(pcs, x)
  }

  ghost predicate OpensApart(pcs: map<Tid, Pc>) {
    forall t, u, p :: t in pcs && u in pcs && Terminating(pcs[t], p) ==> !Opening(pcs[u], p)
  }

  /** Every stream of `p` outside `todo` is quiet. */
  ghost predicate AllQuiet(owner: map<Stream, Instance>, closed: set<Stream>, pcs: map<Tid, Pc>, p: Instance,
                           todo: set<Stream>)
  {
    forall x :: x in owner && owner[x] == p && x !in todo ==> Quiet(closed, pcs, x)
  }

  ghost predicate ThreadInv(owner: map<Stream, Instance>, closed: set<Stream>, freed: set<Stream>, pcs: map<Tid, Pc>,
                            pc: Pc)
  {
    && (pc.CallGo? || pc.InCall? ==> pc.x !in freed)
    && (pc.UnregWait? || pc.Unreg? ==> pc.x in closed)
    && (StreamHeld(pc).Some? ==> StreamHeld(pc).value in owner)
    && (pc.CallWait? || pc.CloseWait? ==> pc.x in owner)
    && (pc.OpenReg? || pc.OpenAdd? ==> pc.x in owner && owner[pc.x] == pc.p)
    && (pc.TermNext? && pc.ok ==> AllQuiet(owner, closed, pcs, pc.p, pc.todo))
    && (pc.TermNext? ==> pc.todo <= owner.Keys)
    && (pc.TermLock? || pc.InTerm? ==> AllQuiet(owner, closed, pcs, pc.p, {}))
    && ((pc.CloseWait? || pc.CloseCheck? || pc.InClose? || pc.CloseMark? || pc.UnregWait? || pc.Unreg?)
        && pc.back.Terminator? ==>
          pc.back.todo <= owner.Keys && (pc.back.ok ==> AllQuiet(owner, closed, pcs, pc.back.p, pc.back.todo + {pc.x})))
  }

  ghost predicate ThreadInvs(owner: map<Stream, Instance>, closed: set<Stream>, freed: set<Stream>, pcs: map<Tid, Pc>) {
    forall t :: t in pcs ==> ThreadInv(owner, closed, freed, pcs, pcs[t])
  }

  ghost predicate Inv(s: State) {
    && Tidy(s.sh)
    && StreamLocks(s.sh.locks, s.pcs)
    && RegistryLock(s.sh.registry, s.pcs)
    && LifecycleLock(s.sh.lifecycle, s.pcs)
    && FreedIsClosed(s.sh.freed, s.sh.closed, s.pcs)
    && UnregisteredIsQuiet(s.sh.owner, s.sh.registered, s.sh.closed, s.pcs)
    && OpensApart(s.pcs)
    && ThreadInvs(s.sh.owner, s.sh.closed, s.sh.freed, s.pcs)
  }

  // ------------------------------------------------------------ one thread moves

  /** What one action of thread `t` may do, as far as the others care. */
  ghost predicate Moves(s: State, t: Tid, sh: Shared, next: Pc) {
    && t in s.pcs
    && (forall x :: x in s.sh.owner ==> x in sh.owner && sh.owner[x] == s.sh.owner[x])
    && (forall x :: x in sh.owner && x !in s.sh.owner ==> Opening(s.pcs[t], sh.owner[x]))
    && s.sh.closed <= sh.closed
    && (forall x :: Busy(next, x) ==> Busy(s.pcs[t], x) || x !in s.sh.closed || x in s.sh.locks)
    && (forall x :: Busy(next, x) && !Busy(s.pcs[t], x) ==> x !in s.sh.closed)
    && (forall x, u :: x in sh.freed && x !in s.sh.freed && u in s.pcs && u != t ==> !Busy(s.pcs[u], x))
  }

  lemma QuietKept(s: State, t: Tid, sh: Shared, next: Pc, x: Stream)
    requires Moves(s, t, sh, next) && Quiet(s.sh.closed, s.pcs, x)
    ensures Quiet(sh.closed, s.pcs[t := next], x)
  {
  }

  lemma AllQuietKept(s: State, t: Tid, sh: Shared, next: Pc, p: Instance, todo: set<Stream>)
    requires Moves(s, t, sh, next) && AllQuiet(s.sh.owner, s.sh.closed, s.pcs, p, todo)
    requires !Opening(s.pcs[t], p)
    ensures AllQuiet(sh.owner, sh.closed, s.pcs[t := next], p, todo)
  {
    forall x | x in sh.owner && sh.owner[x] == p && x !in todo ensures Quiet(sh.closed, s.pcs[t := next], x) {
      QuietKept(s, t, sh, next, x);
    }
  }

  lemma OtherKept(s: State, t: Tid, sh: Shared, next: Pc, u: Tid)
    requires Moves(s, t, sh, next) && OpensApart(s.pcs) && u in s.pcs && u != t
    requires ThreadInv(s.sh.owner, s.sh.closed, s.sh.freed, s.pcs, s.pcs[u])
    ensures ThreadInv(sh.owner, sh.closed, sh.freed, s.pcs[t := next], s.pcs[u])
  {
    var pc := s.pcs[u];
    if pc.TermNext? && pc.ok {
      assert Terminating(pc, pc.p);
      AllQuietKept(s, t, sh, next, pc.p, pc.todo);
    } else if pc.TermLock? || pc.InTerm? {
      assert Terminating(pc, pc.p);
      AllQuietKept(s, t, sh, next, pc.p, {});
    } else if (pc.CloseWait? || pc.CloseCheck? || pc.InClose? || pc.CloseMark? || pc.UnregWait? || pc.Unreg?)
        && pc.back.Terminator? && pc.back.ok {
      assert Terminating(pc, pc.back.p);
      AllQuietKept(s, t, sh, next, pc.back.p, pc.back.todo + {pc.x});
    }
    if pc.CallGo? || pc.InCall? { assert Busy(pc, pc.x); }
  }

  // -------------------------------------------------------------------- the locks

  ghost predicate StreamLockMoves(locks: map<Stream, Tid>, t: Tid, pc: Pc, next: Pc, locks2: map<Stream, Tid>) {
    || (StreamHeld(next) == StreamHeld(pc) && locks2 == locks)
    || (StreamHeld(pc).None? && StreamHeld(next).Some? && StreamHeld(next).value !in locks
        && locks2 == locks[StreamHeld(next).value := t])
    || (StreamHeld(pc).Some? && StreamHeld(next).None? && locks2 == locks - {StreamHeld(pc).value})
  }

  lemma StreamLocksKept(locks: map<Stream, Tid>, pcs: map<Tid, Pc>, t: Tid, next: Pc, locks2: map<Stream, Tid>)
    requires t in pcs && StreamLocks(locks, pcs) && StreamLockMoves(locks, t, pcs[t], next, locks2)
    ensures StreamLocks(locks2, pcs[t := next])
  {
  }

  ghost predicate OneLockMoves(held: Option<Tid>, t: Tid, had: bool, has: bool, held2: Option<Tid>) {
    || (had == has && held2 == held)
    || (!had && has && held.None? && held2 == Some(t))
    || (had && !has && held2 == None)
  }

  lemma RegistryLockKept(held: Option<Tid>, pcs: map<Tid, Pc>, t: Tid, next: Pc, held2: Option<Tid>)
    requires t in pcs && RegistryLock(held, pcs)
             && OneLockMoves(held, t, HoldsRegistry(pcs[t]), HoldsRegistry(next), held2)
    ensures RegistryLock(held2, pcs[t := next])
  {
  }

  lemma LifecycleLockKept(held: Option<Tid>, pcs: map<Tid, Pc>, t: Tid, next: Pc, held2: Option<Tid>)
    requires t in pcs && LifecycleLock(held, pcs)
             && OneLockMoves(held, t, HoldsLifecycle(pcs[t]), HoldsLifecycle(next), held2)
    ensures LifecycleLock(held2, pcs[t := next])
  {
  }

  ghost predicate LocksMove(sh: Shared, t: Tid, pc: Pc, sh2: Shared, next: Pc) {
    && StreamLockMoves(sh.locks, t, pc, next, sh2.locks)
    && OneLockMoves(sh.registry, t, HoldsRegistry(pc), HoldsRegistry(next), sh2.registry)
    && OneLockMoves(sh.lifecycle, t, HoldsLifecycle(pc), HoldsLifecycle(next), sh2.lifecycle)
  }

  predicate Calling(pc: Pc) { pc.CallWait? || pc.CallCheck? || pc.CallGo? || pc.InCall? }
  predicate Closing(pc: Pc) {
    pc.CloseWait? || pc.CloseCheck? || pc.InClose? || pc.CloseMark? || pc.UnregWait? || pc.Unreg?
  }
  predicate OpeningAny(pc: Pc) { pc.OpenWait? || pc.InOpen? || pc.OpenReg? || pc.OpenAdd? }
  predicate TerminatingAny(pc: Pc) { pc.TermWait? || pc.TermList? || pc.TermNext? || pc.TermLock? || pc.InTerm? }

  lemma CallLocks(sh: Shared, t: Tid, pc: Pc, c: Choice)
    requires Calling(pc)
    ensures var (sh2, next) := Next(sh, t, pc, c); LocksMove(sh, t, pc, sh2, next)
  {
  }

  lemma CloseLocks(sh: Shared, t: Tid, pc: Pc, c: Choice)
    requires pc.CloseWait? || pc.CloseCheck? || pc.InClose?
    ensures var (sh2, next) := Next(sh, t, pc, c); LocksMove(sh, t, pc, sh2, next)
  {
  }

  lemma UnregLocks(sh: Shared, t: Tid, pc: Pc, c: Choice)
    requires pc.CloseMark? || pc.UnregWait? || pc.Unreg?
    ensures var (sh2, next) := Next(sh, t, pc, c); LocksMove(sh, t, pc, sh2, next)
  {
  }

  lemma OpenLocks(sh: Shared, t: Tid, pc: Pc, c: Choice)
    requires OpeningAny(pc)
    ensures var (sh2, next) := Next(sh, t, pc, c); LocksMove(sh, t, pc, sh2, next)
  {
  }

  lemma TermLocks(sh: Shared, t: Tid, pc: Pc, c: Choice)
    requires TerminatingAny(pc) || pc.InstWait?
    ensures var (sh2, next) := Next(sh, t, pc, c); LocksMove(sh, t, pc, sh2, next)
  {
  }

  lemma AllLocksMove(s: State, e: Event)
    requires e.t in s.pcs && (s.pcs[e.t].Idle? ==> MayStart(s, e.t, e.c.op))
    ensures var (sh, pc) := Next(s.sh, e.t, s.pcs[e.t], e.c); LocksMove(s.sh, e.t, s.pcs[e.t], sh, pc)
  {
    var pc := s.pcs[e.t];
    if Calling(pc) { CallLocks(s.sh, e.t, pc, e.c); hide Next; }
    else if pc.CloseMark? || pc.UnregWait? || pc.Unreg? { UnregLocks(s.sh, e.t, pc, e.c); hide Next; }
    else if Closing(pc) { CloseLocks(s.sh, e.t, pc, e.c); hide Next; }
    else if OpeningAny(pc) { OpenLocks(s.sh, e.t, pc, e.c); hide Next; }
    else if !pc.Idle? { TermLocks(s.sh, e.t, pc, e.c); hide Next; }
  }

  // ------------------------------------------------------------------ every action

  /** What remains to be shown of one action once the locks are accounted for. */
  ghost predicate ActionOk(s: State, t: Tid, sh: Shared, next: Pc) {
    && Moves(s, t, sh, next) && StaysApart(s, t, next) && Tidy(sh)
    && FreedIsClosed(sh.freed, sh.closed, s.pcs[t := next])
    && UnregisteredIsQuiet(sh.owner, sh.registered, sh.closed, s.pcs[t := next])
    && ThreadInv(sh.owner, sh.closed, sh.freed, s.pcs[t := next], next)
  }

  /** An open or a terminate goes on with its own instance, or starts on one nobody is terminating or opening. */
  ghost predicate StaysApart(s: State, t: Tid, next: Pc) {
    && t in s.pcs
    && (forall p :: Opening(next, p) ==> Opening(s.pcs[t], p) || forall u :: u in s.pcs ==> !Terminating(s.pcs[u], p))
    && (forall p :: Terminating(next, p) ==>
        Terminating(s.pcs[t], p) || forall u :: u in s.pcs ==> !Opening(s.pcs[u], p))
  }

  /** The numbering of streams, and no double free. */
  ghost predicate Tidy(sh: Shared) {
    && sh.closed <= sh.owner.Keys && sh.registered <= sh.owner.Keys && sh.freed <= sh.owner.Keys
    && (forall x :: x in sh.owner ==> x < sh.next)
    && !sh.freedTwice
  }

  lemma StaysApartOk(s: State, t: Tid, c: Choice)
    requires t in s.pcs && (s.pcs[t].Idle? ==> MayStart(s, t, c.op))
    ensures StaysApart(s, t, Next(s.sh, t, s.pcs[t], c).1)
  {
    var next := Next(s.sh, t, s.pcs[t], c).1;
    if !s.pcs[t].Idle? {
      hide Next, Opening, Terminating;
      forall p
        ensures (Opening(next, p) ==> Opening(s.pcs[t], p)) && (Terminating(next, p) ==> Terminating(s.pcs[t], p))
      {
        OwnInstance(s.sh, t, s.pcs[t], c, p);
      }
    }
  }

  /** A call that is under way stays with its instance. */
  lemma OwnInstance(sh: Shared, t: Tid, pc: Pc, c: Choice, p: Instance)
    requires !pc.Idle?
    ensures var next := Next(sh, t, pc, c).1;
            (Opening(next, p) ==> Opening(pc, p)) && (Terminating(next, p) ==> Terminating(pc, p))
  {
  }

  /** The stream a thread works on exists, and a close enters the raw stream only if nobody has. */
  ghost predicate Known(s: State, t: Tid) {
    && t in s.pcs
    && (StreamHeld(s.pcs[t]).Some? ==> StreamHeld(s.pcs[t]).value in s.sh.owner)
    && (s.pcs[t].CallWait? || s.pcs[t].CloseWait? || s.pcs[t].OpenReg? || s.pcs[t].OpenAdd? ==>
        s.pcs[t].x in s.sh.owner)
    && (s.pcs[t].CloseCheck? ==> s.pcs[t].x in s.sh.freed ==> s.pcs[t].x in s.sh.closed)
  }

  lemma TidyOk(s: State, t: Tid, c: Choice)
    requires Tidy(s.sh) && t in s.pcs && Known(s, t)
    ensures Tidy(Next(s.sh, t, s.pcs[t], c).0)
  {
  }

  lemma KnownOk(s: State, t: Tid)
    requires Inv(s) && t in s.pcs
    ensures Known(s, t)
  {
    assert ThreadInv(s.sh.owner, s.sh.closed, s.sh.freed, s.pcs, s.pcs[t]);
    if s.pcs[t].CloseCheck? { HeldIsIntact(s, t, s.pcs[t].x); }
  }

  lemma FreedKept(s: State, t: Tid, closed: set<Stream>, next: Pc)
    requires t in s.pcs && FreedIsClosed(s.sh.freed, s.sh.closed, s.pcs) && s.sh.closed <= closed
    requires (s.pcs[t].InClose? || s.pcs[t].CloseMark?) ==>
               s.pcs[t].x in closed || ((next.InClose? || next.CloseMark?) && next.x == s.pcs[t].x)
    ensures FreedIsClosed(s.sh.freed, closed, s.pcs[t := next])
  {
    forall x | x in s.sh.freed && x !in closed ensures BeingClosed(s.pcs[t := next], x) {
      var u :| u in s.pcs && (s.pcs[u].InClose? || s.pcs[u].CloseMark?) && s.pcs[u].x == x;
      var w := if u == t then t else u;
      assert w in s.pcs[t := next];
      assert (s.pcs[t := next][w].InClose? || s.pcs[t := next][w].CloseMark?) && s.pcs[t := next][w].x == x;
    }
  }

  lemma UnregisteredKept(s: State, t: Tid, sh: Shared, next: Pc)
    requires Moves(s, t, sh, next) && UnregisteredIsQuiet(s.sh.owner, s.sh.registered, s.sh.closed, s.pcs)
    requires sh.owner == s.sh.owner
    requires forall x :: x in s.sh.registered && x !in sh.registered ==> Quiet(sh.closed, s.pcs[t := next], x)
    requires (s.pcs[t].OpenReg? || s.pcs[t].OpenAdd?) ==>
               s.pcs[t].x in sh.registered || ((next.OpenReg? || next.OpenAdd?) && next.x == s.pcs[t].x)
    ensures UnregisteredIsQuiet(sh.owner, sh.registered, sh.closed, s.pcs[t := next])
  {
    forall x | x in sh.owner && x !in sh.registered
      ensures Quiet(sh.closed, s.pcs[t := next], x) || PendingOpen(s.pcs[t := next], x)
    {
      if x in s.sh.registered {
      } else if Quiet(s.sh.closed, s.pcs, x) {
        QuietKept(s, t, sh, next, x);
      } else {
        var u :| u in s.pcs && (s.pcs[u].OpenReg? || s.pcs[u].OpenAdd?) && s.pcs[u].x == x;
        assert u in s.pcs[t := next];
        assert (s.pcs[t := next][u].OpenReg? || s.pcs[t := next][u].OpenAdd?) && s.pcs[t := next][u].x == x;
      }
    }
  }

  /**
   The lock of a stream being closed is held by its closer, so whoever else holds one finds the
   stream closed or intact.
   */
  lemma HeldIsIntact(s: State, t: Tid, x: Stream)
    requires StreamLocks(s.sh.locks, s.pcs) && FreedIsClosed(s.sh.freed, s.sh.closed, s.pcs)
    requires t in s.pcs && StreamHeld(s.pcs[t]) == Some(x) && !s.pcs[t].InClose? && !s.pcs[t].CloseMark?
    ensures x in s.sh.freed ==> x in s.sh.closed
  {
    if x in s.sh.freed && x !in s.sh.closed {
      assert false;
    }
  }

  /** The lock holder is the only thread that can be inside the stream. */
  lemma HolderAlone(s: State, t: Tid, x: Stream)
    requires StreamLocks(s.sh.locks, s.pcs) && t in s.pcs && StreamHeld(s.pcs[t]) == Some(x)
    ensures forall u :: u in s.pcs && u != t ==> StreamHeld(s.pcs[u]) != Some(x) && !Busy(s.pcs[u], x)
  {
  }

  lemma CommonOk(s: State, t: Tid, c: Choice)
    requires Inv(s) && t in s.pcs && (s.pcs[t].Idle? ==> MayStart(s, t, c.op))
    ensures var (sh, next) := Next(s.sh, t, s.pcs[t], c); Tidy(sh) && StaysApart(s, t, next)
  {
    hide Next;
    StaysApartOk(s, t, c);
    KnownOk(s, t);
    TidyOk(s, t, c);
  }

  lemma CallMoves(s: State, t: Tid, c: Choice)
    requires Inv(s) && t in s.pcs && Calling(s.pcs[t])
    ensures var (sh, next) := Next(s.sh, t, s.pcs[t], c); Moves(s, t, sh, next)
  {
    hide FreedIsClosed, UnregisteredIsQuiet, AllQuiet, RegistryLock, LifecycleLock, OpensApart;
  }

  lemma CallOk(s: State, t: Tid, c: Choice)
    requires Inv(s) && t in s.pcs && Calling(s.pcs[t])
    ensures var (sh, next) := Next(s.sh, t, s.pcs[t], c); ActionOk(s, t, sh, next)
  {
    CallMoves(s, t, c);
    CommonOk(s, t, c);
    hide Moves, Tidy, StaysApart, FreedIsClosed, UnregisteredIsQuiet, AllQuiet, RegistryLock, LifecycleLock,
         OpensApart, StreamLocks;
    var (sh, next) := Next(s.sh, t, s.pcs[t], c);
    assert ThreadInv(s.sh.owner, s.sh.closed, s.sh.freed, s.pcs, s.pcs[t]);
    if s.pcs[t].CallCheck? { HeldIsIntact(s, t, s.pcs[t].x); }
    FreedKept(s, t, sh.closed, next);
    UnregisteredKept(s, t, sh, next);
    hide Inv, Moves;
  }

  lemma CloseWaitMoves(s: State, t: Tid, c: Choice)
    requires Inv(s) && t in s.pcs && s.pcs[t].CloseWait?
    ensures var (sh, next) := Next(s.sh, t, s.pcs[t], c); Moves(s, t, sh, next)
  {
    hide FreedIsClosed, UnregisteredIsQuiet, AllQuiet, RegistryLock, LifecycleLock, OpensApart;
  }

  lemma CloseWaitOk(s: State, t: Tid, c: Choice)
    requires Inv(s) && t in s.pcs && s.pcs[t].CloseWait?
    ensures var (sh, next) := Next(s.sh, t, s.pcs[t], c); ActionOk(s, t, sh, next)
  {
    CloseWaitMoves(s, t, c);
    CommonOk(s, t, c);
    CloseWaitKnows(s, t, c);
    hide Moves, Tidy, StaysApart, FreedIsClosed, UnregisteredIsQuiet, ThreadInv, AllQuiet;
    var (sh, next) := Next(s.sh, t, s.pcs[t], c);
    FreedKept(s, t, sh.closed, next);
    UnregisteredKept(s, t, sh, next);
    hide Inv;
  }

  lemma CloseWaitKnows(s: State, t: Tid, c: Choice)
    requires Inv(s) && t in s.pcs && s.pcs[t].CloseWait?
    ensures var (sh, next) := Next(s.sh, t, s.pcs[t], c);
            ThreadInv(sh.owner, sh.closed, sh.freed, s.pcs[t := next], next)
  {
    CloseWaitMoves(s, t, c);
    hide Moves, FreedIsClosed, UnregisteredIsQuiet, AllQuiet;
    var (sh, next) := Next(s.sh, t, s.pcs[t], c);
    assert ThreadInv(s.sh.owner, s.sh.closed, s.sh.freed, s.pcs, s.pcs[t]);
    BackKept(s, t, sh, next);
    hide Inv;
  }

  /** A terminator's knowledge of the streams it has already closed survives its own step. */
  lemma BackKept(s: State, t: Tid, sh: Shared, next: Pc)
    requires Moves(s, t, sh, next) && Closing(s.pcs[t])
    requires ThreadInv(s.sh.owner, s.sh.closed, s.sh.freed, s.pcs, s.pcs[t])
    ensures s.pcs[t].back.Terminator? && s.pcs[t].back.ok ==>
              AllQuiet(sh.owner, sh.closed, s.pcs[t := next], s.pcs[t].back.p, s.pcs[t].back.todo + {s.pcs[t].x})
  {
    var pc := s.pcs[t];
    if pc.back.Terminator? && pc.back.ok { AllQuietKept(s, t, sh, next, pc.back.p, pc.back.todo + {pc.x}); }
  }

  /** The stream the terminator has just closed joins the quiet ones. */
  lemma OneMoreQuiet(owner: map<Stream, Instance>, closed: set<Stream>, pcs: map<Tid, Pc>, p: Instance,
                     todo: set<Stream>, x: Stream)
    requires AllQuiet(owner, closed, pcs, p, todo + {x}) && Quiet(closed, pcs, x)
    ensures AllQuiet(owner, closed, pcs, p, todo)
  {
  }

  lemma CloseCheckMoves(s: State, t: Tid, c: Choice)
    requires Inv(s) && t in s.pcs && s.pcs[t].CloseCheck?
    ensures var (sh, next) := Next(s.sh, t, s.pcs[t], c); Moves(s, t, sh, next)
  {
    hide FreedIsClosed, UnregisteredIsQuiet, AllQuiet, RegistryLock, LifecycleLock, OpensApart;
    HolderAlone(s, t, s.pcs[t].x);
  }

  lemma CloseCheckOk(s: State, t: Tid, c: Choice)
    requires Inv(s) && t in s.pcs && s.pcs[t].CloseCheck?
    ensures var (sh, next) := Next(s.sh, t, s.pcs[t], c); ActionOk(s, t, sh, next)
  {
    CloseCheckMoves(s, t, c);
    CommonOk(s, t, c);
    hide Moves, Tidy, StaysApart, FreedIsClosed, UnregisteredIsQuiet, AllQuiet, RegistryLock, LifecycleLock;
    var pc := s.pcs[t];
    var (sh, next) := Next(s.sh, t, pc, c);
    assert ThreadInv(s.sh.owner, s.sh.closed, s.sh.freed, s.pcs, pc);
    HeldIsIntact(s, t, pc.x);
    HolderAlone(s, t, pc.x);
    BackKept(s, t, sh, next);
    UnregisteredKept(s, t, sh, next);
    if pc.x in s.sh.closed {
      FreedKept(s, t, sh.closed, next);
      if pc.back.Terminator? && pc.back.ok {
        OneMoreQuiet(sh.owner, sh.closed, s.pcs[t := next], pc.back.p, pc.back.todo, pc.x);
      }
    } else {
      EnterClose(s, t, next);
    }
    hide Inv, Moves, Quiet;
  }

  lemma EnterClose(s: State, t: Tid, next: Pc)
    requires t in s.pcs && s.pcs[t].CloseCheck? && next.InClose? && next.x == s.pcs[t].x
    requires FreedIsClosed(s.sh.freed, s.sh.closed, s.pcs)
    ensures FreedIsClosed(s.sh.freed + {next.x}, s.sh.closed, s.pcs[t := next])
  {
    FreedKept(s, t, s.sh.closed, next);
    assert s.pcs[t := next][t].x == next.x;
  }

  lemma InCloseMoves(s: State, t: Tid, c: Choice)
    requires Inv(s) && t in s.pcs && (s.pcs[t].InClose? || s.pcs[t].CloseMark? || s.pcs[t].UnregWait?)
    ensures var (sh, next) := Next(s.sh, t, s.pcs[t], c); Moves(s, t, sh, next)
  {
    hide FreedIsClosed, UnregisteredIsQuiet, AllQuiet, RegistryLock, LifecycleLock, OpensApart;
  }

  lemma InCloseOk(s: State, t: Tid, c: Choice)
    requires Inv(s) && t in s.pcs && (s.pcs[t].InClose? || s.pcs[t].CloseMark? || s.pcs[t].UnregWait?)
    ensures var (sh, next) := Next(s.sh, t, s.pcs[t], c); ActionOk(s, t, sh, next)
  {
    InCloseMoves(s, t, c);
    CommonOk(s, t, c);
    hide Moves, Tidy, StaysApart, FreedIsClosed, UnregisteredIsQuiet, AllQuiet, RegistryLock, LifecycleLock,
         OpensApart, StreamLocks;
    var (sh, next) := Next(s.sh, t, s.pcs[t], c);
    assert ThreadInv(s.sh.owner, s.sh.closed, s.sh.freed, s.pcs, s.pcs[t]);
    FreedKept(s, t, sh.closed, next);
    UnregisteredKept(s, t, sh, next);
    BackKept(s, t, sh, next);
    hide Inv, Moves;
  }

  lemma UnregMoves(s: State, t: Tid, c: Choice)
    requires Inv(s) && t in s.pcs && s.pcs[t].Unreg?
    ensures var (sh, next) := Next(s.sh, t, s.pcs[t], c); Moves(s, t, sh, next)
  {
    hide FreedIsClosed, UnregisteredIsQuiet, AllQuiet, RegistryLock, LifecycleLock, OpensApart;
  }

  lemma UnregOk(s: State, t: Tid, c: Choice)
    requires Inv(s) && t in s.pcs && s.pcs[t].Unreg?
    ensures var (sh, next) := Next(s.sh, t, s.pcs[t], c); ActionOk(s, t, sh, next)
  {
    UnregMoves(s, t, c);
    CommonOk(s, t, c);
    UnregKnows(s, t, c);
    hide Moves, Tidy, StaysApart, FreedIsClosed, UnregisteredIsQuiet, AllQuiet, ThreadInv, Quiet;
    var (sh, next) := Next(s.sh, t, s.pcs[t], c);
    FreedKept(s, t, sh.closed, next);
    UnregisteredKept(s, t, sh, next);
    hide Inv;
  }

  lemma UnregQuiet(s: State, t: Tid, c: Choice)
    requires Inv(s) && t in s.pcs && s.pcs[t].Unreg?
    ensures var (sh, next) := Next(s.sh, t, s.pcs[t], c); Quiet(sh.closed, s.pcs[t := next], s.pcs[t].x)
  {
    hide FreedIsClosed, UnregisteredIsQuiet, AllQuiet, OpensApart, RegistryLock, LifecycleLock;
    assert ThreadInv(s.sh.owner, s.sh.closed, s.sh.freed, s.pcs, s.pcs[t]);
    HolderAlone(s, t, s.pcs[t].x);
  }

  lemma UnregKnows(s: State, t: Tid, c: Choice)
    requires Inv(s) && t in s.pcs && s.pcs[t].Unreg?
    ensures var (sh, next) := Next(s.sh, t, s.pcs[t], c);
            ThreadInv(sh.owner, sh.closed, sh.freed, s.pcs[t := next], next)
                && Quiet(sh.closed, s.pcs[t := next], s.pcs[t].x)
  {
    UnregMoves(s, t, c);
    UnregQuiet(s, t, c);
    hide Moves, FreedIsClosed, UnregisteredIsQuiet, AllQuiet, Quiet, StreamLocks, OpensApart;
    var pc := s.pcs[t];
    var (sh, next) := Next(s.sh, t, pc, c);
    assert ThreadInv(s.sh.owner, s.sh.closed, s.sh.freed, s.pcs, pc);
    BackKept(s, t, sh, next);
    if pc.back.Terminator? && pc.back.ok {
      OneMoreQuiet(sh.owner, sh.closed, s.pcs[t := next], pc.back.p, pc.back.todo, pc.x);
    }
    hide Inv;
  }

  // ------------------------------------------------------------ opening and terminating

  lemma OpenMoves(s: State, t: Tid, c: Choice)
    requires Inv(s) && t in s.pcs && (s.pcs[t].OpenWait? || s.pcs[t].OpenReg? || s.pcs[t].OpenAdd?)
    ensures var (sh, next) := Next(s.sh, t, s.pcs[t], c); Moves(s, t, sh, next)
  {
    hide FreedIsClosed, UnregisteredIsQuiet, AllQuiet, RegistryLock, LifecycleLock, OpensApart;
  }

  lemma OpenOk(s: State, t: Tid, c: Choice)
    requires Inv(s) && t in s.pcs && (s.pcs[t].OpenWait? || s.pcs[t].OpenReg? || s.pcs[t].OpenAdd?)
    ensures var (sh, next) := Next(s.sh, t, s.pcs[t], c); ActionOk(s, t, sh, next)
  {
    OpenMoves(s, t, c);
    CommonOk(s, t, c);
    hide Moves, Tidy, StaysApart, FreedIsClosed, UnregisteredIsQuiet, AllQuiet, RegistryLock, LifecycleLock;
    var (sh, next) := Next(s.sh, t, s.pcs[t], c);
    assert ThreadInv(s.sh.owner, s.sh.closed, s.sh.freed, s.pcs, s.pcs[t]);
    FreedKept(s, t, sh.closed, next);
    UnregisteredKept(s, t, sh, next);
    hide Inv, Moves;
  }

  lemma InOpenMoves(s: State, t: Tid, c: Choice)
    requires Inv(s) && t in s.pcs && s.pcs[t].InOpen?
    ensures var (sh, next) := Next(s.sh, t, s.pcs[t], c); Moves(s, t, sh, next)
  {
    hide FreedIsClosed, UnregisteredIsQuiet, AllQuiet, RegistryLock, LifecycleLock, OpensApart;
  }

  lemma InOpenOk(s: State, t: Tid, c: Choice)
    requires Inv(s) && t in s.pcs && s.pcs[t].InOpen?
    ensures var (sh, next) := Next(s.sh, t, s.pcs[t], c); ActionOk(s, t, sh, next)
  {
    InOpenMoves(s, t, c);
    CommonOk(s, t, c);
    hide Moves, Tidy, StaysApart, FreedIsClosed, AllQuiet, RegistryLock, LifecycleLock;
    var (sh, next) := Next(s.sh, t, s.pcs[t], c);
    assert ThreadInv(s.sh.owner, s.sh.closed, s.sh.freed, s.pcs, s.pcs[t]);
    FreedKept(s, t, sh.closed, next);
    UnregisteredKept(s, t, sh.(owner := s.sh.owner), next);
    if c.ok { NewStreamPending(s, t, sh, next); }
    hide Inv, Moves;
  }

  lemma NewStreamPending(s: State, t: Tid, sh: Shared, next: Pc)
    requires t in s.pcs && next.OpenReg? && sh.owner.Keys == s.sh.owner.Keys + {next.x}
    requires UnregisteredIsQuiet(s.sh.owner, sh.registered, sh.closed, s.pcs[t := next])
    ensures UnregisteredIsQuiet(sh.owner, sh.registered, sh.closed, s.pcs[t := next])
  {
    assert s.pcs[t := next][t].x == next.x;
  }

  lemma TermListMoves(s: State, t: Tid, c: Choice)
    requires Inv(s) && t in s.pcs && (s.pcs[t].TermWait? || s.pcs[t].TermList? || s.pcs[t].InTerm?)
    ensures var (sh, next) := Next(s.sh, t, s.pcs[t], c); Moves(s, t, sh, next)
  {
    hide FreedIsClosed, UnregisteredIsQuiet, AllQuiet, RegistryLock, LifecycleLock, OpensApart;
  }

  lemma TermListOk(s: State, t: Tid, c: Choice)
    requires Inv(s) && t in s.pcs && (s.pcs[t].TermWait? || s.pcs[t].TermList? || s.pcs[t].InTerm?)
    ensures var (sh, next) := Next(s.sh, t, s.pcs[t], c); ActionOk(s, t, sh, next)
  {
    TermListMoves(s, t, c);
    CommonOk(s, t, c);
    hide Moves, Tidy, StaysApart, FreedIsClosed, UnregisteredIsQuiet, AllQuiet, RegistryLock, LifecycleLock;
    var pc := s.pcs[t];
    var (sh, next) := Next(s.sh, t, pc, c);
    assert ThreadInv(s.sh.owner, s.sh.closed, s.sh.freed, s.pcs, pc);
    FreedKept(s, t, sh.closed, next);
    UnregisteredKept(s, t, sh, next);
    if pc.TermList? { SnapshotQuiet(s, t, sh, next); }
    hide Inv, Moves;
  }

  /** Every stream of the instance that the registry snapshot misses has been closed. */
  lemma SnapshotQuiet(s: State, t: Tid, sh: Shared, next: Pc)
    requires Moves(s, t, sh, next) && sh.owner == s.sh.owner && sh.closed == s.sh.closed
    requires UnregisteredIsQuiet(s.sh.owner, s.sh.registered, s.sh.closed, s.pcs) && OpensApart(s.pcs)
    requires ThreadInvs(s.sh.owner, s.sh.closed, s.sh.freed, s.pcs)
    requires s.pcs[t].TermList? && next.TermNext? && next.p == s.pcs[t].p
    requires next.todo == set x | x in s.sh.registered && x in s.sh.owner && s.sh.owner[x] == next.p
    ensures AllQuiet(sh.owner, sh.closed, s.pcs[t := next], next.p, next.todo)
  {
    forall x | x in s.sh.owner && s.sh.owner[x] == next.p && x !in next.todo
      ensures Quiet(sh.closed, s.pcs[t := next], x)
    {
      if PendingOpen(s.pcs, x) {
        var u :| u in s.pcs && (s.pcs[u].OpenReg? || s.pcs[u].OpenAdd?) && s.pcs[u].x == x;
        assert ThreadInv(s.sh.owner, s.sh.closed, s.sh.freed, s.pcs, s.pcs[u]);
        assert Terminating(s.pcs[t], next.p) && Opening(s.pcs[u], next.p);
        assert false;
      }
      QuietKept(s, t, sh, next, x);
    }
  }

  lemma TermNextMoves(s: State, t: Tid, c: Choice)
    requires Inv(s) && t in s.pcs && s.pcs[t].TermNext?
    ensures var (sh, next) := Next(s.sh, t, s.pcs[t], c); Moves(s, t, sh, next)
  {
    hide FreedIsClosed, UnregisteredIsQuiet, AllQuiet, RegistryLock, LifecycleLock, OpensApart;
  }

  lemma TermNextOk(s: State, t: Tid, c: Choice)
    requires Inv(s) && t in s.pcs && s.pcs[t].TermNext?
    ensures var (sh, next) := Next(s.sh, t, s.pcs[t], c); ActionOk(s, t, sh, next)
  {
    TermNextMoves(s, t, c);
    CommonOk(s, t, c);
    hide Moves, Tidy, StaysApart, FreedIsClosed, UnregisteredIsQuiet, AllQuiet, RegistryLock, LifecycleLock,
         OpensApart, StreamLocks;
    var pc := s.pcs[t];
    var (sh, next) := Next(s.sh, t, pc, c);
    assert ThreadInv(s.sh.owner, s.sh.closed, s.sh.freed, s.pcs, pc);
    FreedKept(s, t, sh.closed, next);
    UnregisteredKept(s, t, sh, next);
    if pc.ok { AllQuietKept(s, t, sh, next, pc.p, pc.todo); }
    if next.CloseWait? { assert pc.todo == next.back.todo + {next.x}; }
    hide Inv, Moves;
  }

  lemma TermLockOk(s: State, t: Tid, c: Choice)
    requires Inv(s) && t in s.pcs && s.pcs[t].TermLock?
    ensures var (sh, next) := Next(s.sh, t, s.pcs[t], c); ActionOk(s, t, sh, next)
  {
    var pc := s.pcs[t];
    var (sh, next) := Next(s.sh, t, pc, c);
    assert ThreadInv(s.sh.owner, s.sh.closed, s.sh.freed, s.pcs, pc);
    assert forall x :: x in sh.freed && x !in s.sh.freed ==> Quiet(s.sh.closed, s.pcs, x);
    assert Moves(s, t, sh, next);
    FreedKept(s, t, sh.closed, next);
    UnregisteredKept(s, t, sh, next);
    AllQuietKept(s, t, sh, next, pc.p, {});
    FreedAreClosed(s, sh, s.pcs[t := next]);
    hide Inv, Moves, FreedIsClosed, UnregisteredIsQuiet, AllQuiet, Quiet;
  }

  lemma FreedAreClosed(s: State, sh: Shared, pcs: map<Tid, Pc>)
    requires FreedIsClosed(s.sh.freed, sh.closed, pcs)
    requires forall x :: x in sh.freed && x !in s.sh.freed ==> x in sh.closed
    ensures FreedIsClosed(sh.freed, sh.closed, pcs)
  {
  }

  lemma StartMoves(s: State, t: Tid, c: Choice)
    requires Inv(s) && t in s.pcs && (s.pcs[t].InstWait? || (s.pcs[t].Idle? && MayStart(s, t, c.op)))
    ensures var (sh, next) := Next(s.sh, t, s.pcs[t], c); Moves(s, t, sh, next)
  {
    hide FreedIsClosed, UnregisteredIsQuiet, AllQuiet, RegistryLock, LifecycleLock, OpensApart;
  }

  lemma StartOk(s: State, t: Tid, c: Choice)
    requires Inv(s) && t in s.pcs && (s.pcs[t].InstWait? || (s.pcs[t].Idle? && MayStart(s, t, c.op)))
    ensures var (sh, next) := Next(s.sh, t, s.pcs[t], c); ActionOk(s, t, sh, next)
  {
    StartMoves(s, t, c);
    CommonOk(s, t, c);
    hide Moves, Tidy, StaysApart, FreedIsClosed, UnregisteredIsQuiet, AllQuiet, RegistryLock, LifecycleLock;
    var (sh, next) := Next(s.sh, t, s.pcs[t], c);
    FreedKept(s, t, sh.closed, next);
    UnregisteredKept(s, t, sh, next);
    hide Inv, Moves;
  }

  lemma ActionKeepsInv(s: State, e: Event)
    requires Inv(s) && e.t in s.pcs && (s.pcs[e.t].Idle? ==> MayStart(s, e.t, e.c.op))
    ensures var (sh, next) := Next(s.sh, e.t, s.pcs[e.t], e.c); ActionOk(s, e.t, sh, next)
  {
    hide Inv, ActionOk, Next, MayStart;
    match s.pcs[e.t] {
      case Idle(_) => StartOk(s, e.t, e.c);
      case InstWait => StartOk(s, e.t, e.c);
      case CloseWait(_, _, _) => CloseWaitOk(s, e.t, e.c);
      case CloseCheck(_, _, _) => CloseCheckOk(s, e.t, e.c);
      case InClose(_, _, _) => InCloseOk(s, e.t, e.c);
      case CloseMark(_, _, _, _) => InCloseOk(s, e.t, e.c);
      case UnregWait(_, _, _, _) => InCloseOk(s, e.t, e.c);
      case Unreg(_, _, _, _) => UnregOk(s, e.t, e.c);
      case OpenWait(_, _) => OpenOk(s, e.t, e.c);
      case InOpen(_, _) => InOpenOk(s, e.t, e.c);
      case OpenReg(_, _, _) => OpenOk(s, e.t, e.c);
      case OpenAdd(_, _, _) => OpenOk(s, e.t, e.c);
      case TermWait(_, _) => TermListOk(s, e.t, e.c);
      case TermList(_, _) => TermListOk(s, e.t, e.c);
      case InTerm(_, _) => TermListOk(s, e.t, e.c);
      case TermNext(_, _, _, _) => TermNextOk(s, e.t, e.c);
      case TermLock(_, _) => TermLockOk(s, e.t, e.c);
      case _ => CallOk(s, e.t, e.c);
    }
  }
}
