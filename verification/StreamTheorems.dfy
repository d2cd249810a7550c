/** The guarantees of the stream guard over every run. */
module StreamTheorems {
  import opened Common
  import opened StreamProtocol
  import opened StreamSafety

  lemma InitialInv(threads: set<Tid>)
    ensures Inv(Initial(threads))
  {
  }

  lemma OpensApartKept(s: State, t: Tid, sh: Shared, next: Pc)
    requires OpensApart(s.pcs) && ActionOk(s, t, sh, next)
    ensures OpensApart(s.pcs[t := next])
  {
    var pcs := s.pcs[t := next];
    forall u, v, p | u in pcs && v in pcs && Terminating(pcs[u], p)
      ensures !Opening(pcs[v], p)
    {
      assert !(Terminating(next, p) && Opening(next, p));
    }
  }

  lemma StepInv(s: State, e: Event)
    requires Inv(s)
    ensures Inv(Step(s, e))
  {
    if e.t in s.pcs && (s.pcs[e.t].Idle? ==> MayStart(s, e.t, e.c.op)) {
      hide Next, MayStart;
      var (sh, next) := Next(s.sh, e.t, s.pcs[e.t], e.c);
      ActionKeepsInv(s, e);
      AllLocksMove(s, e);
      StreamLocksKept(s.sh.locks, s.pcs, e.t, next, sh.locks);
      RegistryLockKept(s.sh.registry, s.pcs, e.t, next, sh.registry);
      LifecycleLockKept(s.sh.lifecycle, s.pcs, e.t, next, sh.lifecycle);
      OpensApartKept(s, e.t, sh, next);
      OthersKept(s, e.t, sh, next);
      hide StreamLocks, RegistryLock, LifecycleLock, LocksMove, OpensApart, Moves, FreedIsClosed, UnregisteredIsQuiet,
           ThreadInv;
    }
  }

  lemma OthersKept(s: State, t: Tid, sh: Shared, next: Pc)
    requires Inv(s) && ActionOk(s, t, sh, next)
    ensures ThreadInvs(sh.owner, sh.closed, sh.freed, s.pcs[t := next])
  {
    hide ThreadInv;
    var pcs := s.pcs[t := next];
    forall u | u in pcs ensures ThreadInv(sh.owner, sh.closed, sh.freed, pcs, pcs[u]) {
      if u != t { OtherKept(s, t, sh, next, u); }
    }
  }

  lemma {:induction false} ExecuteInv(s: State, es: seq<Event>)
    requires Inv(s)
    ensures Inv(Execute(s, es))
    decreases |es|
  {
    hide Inv, Step;
    if es != [] {
      StepInv(s, es[0]);
      ExecuteInv(Step(s, es[0]), es[1..]);
    }
  }

  // ---------------------------------------------------------------- no use after free

  /**
   In every interleaving of reads, writes, closes (with any timeouts), opens and
   terminations: no raw call runs on a stream whose `Pa_CloseStream` or whose
   instance's `Pa_Terminate` has been entered, and `Pa_CloseStream` is entered at
   most once per stream and never after a terminate.
   */
  lemma NoUseAfterFree(threads: set<Tid>, es: seq<Event>)
    ensures var s := Execute(Initial(threads), es);
            && (forall t :: t in s.pcs && s.pcs[t].InCall? ==> s.pcs[t].x !in s.sh.freed)
            && !s.sh.freedTwice
  {
    InitialInv(threads);
    ExecuteInv(Initial(threads), es);
    var s := Execute(Initial(threads), es);
    hide Execute;
    forall t | t in s.pcs && s.pcs[t].InCall? ensures s.pcs[t].x !in s.sh.freed {
      assert ThreadInv(s.sh.owner, s.sh.closed, s.sh.freed, s.pcs, s.pcs[t]);
    }
  }

  /** While `Pa_Terminate` of an instance runs, no thread is inside any stream of it, nor can get inside one. */
  lemma TerminateOverlapsNothing(threads: set<Tid>, es: seq<Event>, t: Tid, x: Stream)
    ensures var s := Execute(Initial(threads), es);
            t in s.pcs && s.pcs[t].InTerm? && x in s.sh.owner && s.sh.owner[x] == s.pcs[t].p ==>
              x in s.sh.closed && forall u :: u in s.pcs ==> !Busy(s.pcs[u], x)
  {
    InitialInv(threads);
    ExecuteInv(Initial(threads), es);
    var s := Execute(Initial(threads), es);
    hide Execute;
    if t in s.pcs && s.pcs[t].InTerm? && x in s.sh.owner && s.sh.owner[x] == s.pcs[t].p {
      assert ThreadInv(s.sh.owner, s.sh.closed, s.sh.freed, s.pcs, s.pcs[t]);
      assert Quiet(s.sh.closed, s.pcs, x);
    }
  }

  /**
   A stream some thread is still inside (say, one a close gave up waiting for)
   stays in the registry, so the next terminator tries it again.
   */
  lemma AbandonedStaysRegistered(threads: set<Tid>, es: seq<Event>, t: Tid)
    ensures var s := Execute(Initial(threads), es);
            t in s.pcs && (s.pcs[t].InCall? || s.pcs[t].InClose?) ==>
              s.pcs[t].x in s.sh.registered || PendingOpen(s.pcs, s.pcs[t].x)
  {
    InitialInv(threads);
    ExecuteInv(Initial(threads), es);
    var s := Execute(Initial(threads), es);
    hide Execute;
    if t in s.pcs && (s.pcs[t].InCall? || s.pcs[t].InClose?) {
      var x := s.pcs[t].x;
      assert ThreadInv(s.sh.owner, s.sh.closed, s.sh.freed, s.pcs, s.pcs[t]);
      assert x in s.sh.owner && Busy(s.pcs[t], x);
      assert !Quiet(s.sh.closed, s.pcs, x);
    }
  }

  /** Closing again once the abandoned call has ended succeeds without freeing, so a terminator may go on. */
  lemma AbandonedCanBeTerminated(s: State, t: Tid, c: Choice)
    requires t in s.pcs && s.pcs[t].CloseWait? && s.pcs[t].x in s.sh.closed && s.pcs[t].x !in s.sh.locks
    ensures var r := Step(Step(s, Event(t, c)), Event(t, c));
            && t in r.pcs && r.pcs[t] == Return(s.pcs[t].back, s.pcs[t].inst, true, false)
            && r.sh.freed == s.sh.freed && r.sh.locks == s.sh.locks
  {
    var x := s.pcs[t].x;
    var m := Step(s, Event(t, c));
    assert m.pcs[t] == CloseCheck(x, s.pcs[t].back, s.pcs[t].inst);
    assert s.sh.locks[x := t] - {x} == s.sh.locks;
  }

  // ------------------------------------------------------------------ deadlock freedom

  /** The lock order: PORTAUDIO_LOCK, then one stream's lock, then the registry's. */
  datatype Lock = Lifecycle | OfStream(x: Stream) | Registry
  {
    function Rank(): nat { match this case Lifecycle => 0 case OfStream(_) => 1 case Registry => 2 }
  }

  predicate Holds(pc: Pc, l: Lock) {
    match l
    case Lifecycle => HoldsLifecycle(pc)
    case OfStream(x) => StreamHeld(pc) == Some(x)
    case Registry => HoldsRegistry(pc)
  }

  /** The lock the thread's next action needs; a thread that owns the reentrant PORTAUDIO_LOCK does not wait for it. */
  function Wants(pc: Pc): Option<Lock> {
    match pc
    case CallWait(x, _) => Some(OfStream(x))
    case CloseWait(x, _, _) => Some(OfStream(x))
    case UnregWait(_, _, _, _) => Some(Registry)
    case OpenReg(_, _, _) => Some(Registry)
    case TermWait(_, _) => Some(Registry)
    case OpenWait(_, inst) => if inst then None else Some(Lifecycle)
    case TermLock(_, inst) => if inst then None else Some(Lifecycle)
    case InstWait => Some(Lifecycle)
    case _ => None
  }

  /** A thread waits only for a lock ranked above every lock it holds. */
  lemma LockOrder(pc: Pc, held: Lock, wanted: Lock)
    requires Holds(pc, held) && Wants(pc) == Some(wanted)
    ensures held.Rank() < wanted.Rank()
  {
  }

  predicate WaitsFor(s: State, t: Tid, u: Tid) {
    t in s.pcs && u in s.pcs && Wants(s.pcs[t]).Some? && Holds(s.pcs[u], Wants(s.pcs[t]).value)
  }

  function WantRank(s: State, t: Tid): nat {
    if t in s.pcs && Wants(s.pcs[t]).Some? then 1 + Wants(s.pcs[t]).value.Rank() else 4
  }

  ghost predicate WaitPath(s: State, path: seq<Tid>) {
    forall i :: 0 <= i < |path| - 1 ==> WaitsFor(s, path[i], path[i + 1])
  }

  lemma {:induction false} RanksClimb(s: State, path: seq<Tid>)
    requires |path| > 1 && WaitPath(s, path)
    ensures WantRank(s, path[0]) < WantRank(s, path[|path| - 1])
    decreases |path|
  {
    assert WaitsFor(s, path[0], path[1]);
    if Wants(s.pcs[path[1]]).Some? {
      LockOrder(s.pcs[path[1]], Wants(s.pcs[path[0]]).value, Wants(s.pcs[path[1]]).value);
    }
    if |path| > 2 {
      forall i | 0 <= i < |path[1..]| - 1 ensures WaitsFor(s, path[1..][i], path[1..][i + 1]) {
        assert WaitsFor(s, path[i + 1], path[i + 2]);
      }
      RanksClimb(s, path[1..]);
    }
  }

  /** The waits-for graph has no cycle, in any state. */
  lemma NoWaitCycle(s: State, path: seq<Tid>)
    requires |path| > 1 && WaitPath(s, path)
    ensures path[0] != path[|path| - 1]
  {
    RanksClimb(s, path);
  }

  predicate Blocked(s: State, t: Tid) {
    && t in s.pcs && Wants(s.pcs[t]).Some?
    && match Wants(s.pcs[t]).value
       case Lifecycle => s.sh.lifecycle.Some?
       case OfStream(x) => x in s.sh.locks
       case Registry => s.sh.registry.Some?
  }

  /**
   `Wants` is all there is to wait for: a thread that is neither blocked nor between calls has an
   action that takes it on.
   */
  lemma CanAct(s: State, t: Tid) returns (c: Choice)
    requires t in s.pcs && !s.pcs[t].Idle? && !Blocked(s, t)
    ensures t in Step(s, Event(t, c)).pcs && Step(s, Event(t, c)).pcs[t] != s.pcs[t]
  {
    c := Choice(Idle(false), true, false, 0);
    if s.pcs[t].TermNext? && s.pcs[t].todo != {} {
      var x :| x in s.pcs[t].todo;
      c := Choice(Idle(false), true, false, x);
    }
  }

  /** And a blocked one has none but the close's timeout. */
  lemma CannotAct(s: State, t: Tid, c: Choice)
    requires Blocked(s, t) && (s.pcs[t].CloseWait? ==> !c.timeout)
    ensures Step(s, Event(t, c)) == s
  {
    assert s.pcs[t := s.pcs[t]] == s.pcs;
  }

  function InstanceOf(pc: Pc): Instance {
    if pc.OpenWait? || pc.InOpen? || pc.OpenReg? || pc.OpenAdd? then pc.p else 0
  }

  lemma {:induction false} UnusedInstance(pcs: map<Tid, Pc>) returns (p: Instance)
    ensures forall t :: t in pcs ==> InstanceOf(pcs[t]) < p
    decreases |pcs|
  {
    p := 0;
    if pcs != map[] {
      var t :| t in pcs;
      var rest := pcs - {t};
      p := UnusedInstance(rest);
      assert forall u :: u in pcs && u != t ==> u in rest && pcs[u] == rest[u];
      if p <= InstanceOf(pcs[t]) { p := InstanceOf(pcs[t]) + 1; }
    }
  }

  /** A thread between calls inside a `portaudio_instance` block can end the block. */
  lemma CanEndBlock(s: State, t: Tid) returns (c: Choice)
    requires t in s.pcs && s.pcs[t].Idle?
    ensures t in Step(s, Event(t, c)).pcs && Step(s, Event(t, c)).pcs[t] != s.pcs[t]
  {
    var p := UnusedInstance(s.pcs);
    c := Choice(TermWait(p, s.pcs[t].inst), true, false, 0);
    assert forall u :: u in s.pcs ==> !Opening(s.pcs[u], p);
  }

  predicate HoldsSome(pc: Pc) { HoldsLifecycle(pc) || StreamHeld(pc).Some? || HoldsRegistry(pc) }

  /**
   In every reachable state behind every blocked thread there is one that holds a lock and has an
   action that takes it on.
   */
  lemma SomebodyCanMove(threads: set<Tid>, es: seq<Event>, t: Tid)
    ensures var s := Execute(Initial(threads), es);
            Blocked(s, t) ==> exists u, c :: u in s.pcs && HoldsSome(s.pcs[u])
                                             && u in Step(s, Event(u, c)).pcs && Step(s, Event(u, c)).pcs[u] != s.pcs[u]
  {
    InitialInv(threads);
    ExecuteInv(Initial(threads), es);
    var s := Execute(Initial(threads), es);
    hide Execute, Step;
    if Blocked(s, t) {
      var u := Unblocked(s, t);
      var c: Choice;
      if s.pcs[u].Idle? { c := CanEndBlock(s, u); } else { c := CanAct(s, u); }
    }
  }

  /** Follow the waits-for edge from `t`; ranks climb, so at most three steps. */
  lemma {:induction false} Unblocked(s: State, t: Tid) returns (u: Tid)
    requires StreamLocks(s.sh.locks, s.pcs) && RegistryLock(s.sh.registry, s.pcs)
             && LifecycleLock(s.sh.lifecycle, s.pcs)
    requires Blocked(s, t)
    ensures u in s.pcs && !Blocked(s, u)
            && HoldsSome(s.pcs[u])
    decreases 4 - WantRank(s, t)
  {
    var l := Wants(s.pcs[t]).value;
    u := match l
      case Lifecycle => s.sh.lifecycle.value
      case OfStream(x) => s.sh.locks[x]
      case Registry => s.sh.registry.value;
    assert Holds(s.pcs[u], l);
    if Blocked(s, u) {
      LockOrder(s.pcs[u], l, Wants(s.pcs[u]).value);
      u := Unblocked(s, u);
    }
  }
}
