/**
 Guarded PortAudio streams: reading, closing, opening and terminating from any
 number of threads, interleaved one step at a time
 (SOURCE/audio_core/portaudio_guard.py).

 A raw stream is `freed` from the moment `Pa_CloseStream` (or `Pa_Terminate` of
 its instance) is entered.  Raw calls do not re-enter on one thread.
 */
module StreamProtocol {
  import opened Common

  type Stream = nat
  type Instance = nat
  type Tid = nat

  datatype Shared = Shared(
    owner: map<Stream, Instance>,    // every raw stream ever opened
    closed: set<Stream>,             // GuardedStream._closed
    registered: set<Stream>,         // _STREAM_REGISTRY
    freed: set<Stream>,
    freedTwice: bool,                // Pa_CloseStream was entered on a freed stream
    locks: map<Stream, Tid>,         // GuardedStream._lock, held
    registry: Option<Tid>,           // _REGISTRY_LOCK
    lifecycle: Option<Tid>,          // PORTAUDIO_LOCK
    next: Stream)

  /** Where a close returns to. */
  datatype Back =
    | Caller
    | Terminator(p: Instance, todo: set<Stream>, ok: bool)

  /** `inst` is true inside a `with portaudio_instance()` block, which holds PORTAUDIO_LOCK throughout. */
  datatype Pc =
    | Idle(inst: bool)
    // GuardedStream._call
    | CallWait(x: Stream, inst: bool)
    | CallCheck(x: Stream, inst: bool)
    | CallGo(x: Stream, inst: bool)          // found open, the raw call is next
    | InCall(x: Stream, inst: bool)
    // GuardedStream.close
    | CloseWait(x: Stream, back: Back, inst: bool)
    | CloseCheck(x: Stream, back: Back, inst: bool)
    | InClose(x: Stream, back: Back, inst: bool)
    | CloseMark(x: Stream, back: Back, inst: bool, raised: bool)
    | UnregWait(x: Stream, back: Back, inst: bool, raised: bool)
    | Unreg(x: Stream, back: Back, inst: bool, raised: bool)
    // open_stream
    | OpenWait(p: Instance, inst: bool)
    | InOpen(p: Instance, inst: bool)
    | OpenReg(x: Stream, p: Instance, inst: bool)
    | OpenAdd(x: Stream, p: Instance, inst: bool)
    // terminate_portaudio, and the end of a portaudio_instance block
    | TermWait(p: Instance, inst: bool)
    | TermList(p: Instance, inst: bool)
    | TermNext(p: Instance, todo: set<Stream>, ok: bool, inst: bool)
    | TermLock(p: Instance, inst: bool)
    | InTerm(p: Instance, inst: bool)
    // portaudio_instance, entry
    | InstWait

  datatype Choice = Choice(op: Pc, ok: bool, timeout: bool, pick: Stream)

  // ------------------------------------------------------------------ the locks

  function StreamHeld(pc: Pc): Option<Stream> {
    match pc
    case CallCheck(x, _) => Some(x)
    case CallGo(x, _) => Some(x)
    case InCall(x, _) => Some(x)
    case CloseCheck(x, _, _) => Some(x)
    case InClose(x, _, _) => Some(x)
    case CloseMark(x, _, _, _) => Some(x)
    case UnregWait(x, _, _, _) => Some(x)
    case Unreg(x, _, _, _) => Some(x)
    case _ => None
  }

  predicate HoldsRegistry(pc: Pc) { pc.Unreg? || pc.OpenAdd? || pc.TermList? }

  predicate HoldsLifecycle(pc: Pc) { (!pc.InstWait? && pc.inst) || pc.InOpen? || pc.InTerm? }

  /** A raw PortAudio call on the stream is running or is the thread's very next action. */
  predicate Busy(pc: Pc, x: Stream) {
    (pc.CallGo? || pc.InCall? || pc.InClose?) && pc.x == x
  }

  // ----------------------------------------------------------------------- steps

  /** A close that has finished with `result`; a raised error ends a terminator before Pa_Terminate. */
  function Return(back: Back, inst: bool, result: bool, raised: bool): Pc {
    match back
    case Caller => Idle(inst)
    case Terminator(p, todo, ok) => if raised then Idle(false) else TermNext(p, todo, ok && result, inst)
  }

  /** A terminator that stops releases PORTAUDIO_LOCK when it was closing a portaudio_instance block. */
  function Leave(sh: Shared, pc: Pc, next: Pc): Shared {
    if HoldsLifecycle(pc) && !HoldsLifecycle(next) then sh.(lifecycle := None) else sh
  }

  function Next(sh: Shared, t: Tid, pc: Pc, c: Choice): (Shared, Pc) {
    match pc
    case Idle(inst) => (sh, c.op)
    case CallWait(x, inst) =>
      if x in sh.locks then (sh, pc) else (sh.(locks := sh.locks[x := t]), CallCheck(x, inst))
    case CallCheck(x, inst) =>
      if x in sh.closed then (sh.(locks := sh.locks - {x}), Idle(inst)) else (sh, CallGo(x, inst))
    case CallGo(x, inst) => (sh, InCall(x, inst))
    case InCall(x, inst) => (sh.(locks := sh.locks - {x}), Idle(inst))
    case CloseWait(x, back, inst) =>
      if x !in sh.locks then (sh.(locks := sh.locks[x := t]), CloseCheck(x, back, inst))
      else if c.timeout then (sh.(closed := sh.closed + {x}), Return(back, inst, false, false))
      else (sh, pc)
    case CloseCheck(x, back, inst) =>
      if x in sh.closed then (sh.(locks := sh.locks - {x}), Return(back, inst, true, false))
      else (sh.(freed := sh.freed + {x}, freedTwice := sh.freedTwice || x in sh.freed), InClose(x, back, inst))
    case InClose(x, back, inst) => (sh, CloseMark(x, back, inst, !c.ok))
    case CloseMark(x, back, inst, raised) => (sh.(closed := sh.closed + {x}), UnregWait(x, back, inst, raised))
    case UnregWait(x, back, inst, raised) =>
      if sh.registry.Some? then (sh, pc) else (sh.(registry := Some(t)), Unreg(x, back, inst, raised))
    case Unreg(x, back, inst, raised) =>
      var next := Return(back, inst, true, raised);
      (Leave(sh.(registered := sh.registered - {x}, registry := None, locks := sh.locks - {x}), pc, next), next)
    case OpenWait(p, inst) =>
      if inst then (sh, InOpen(p, inst))
      else if sh.lifecycle.Some? then (sh, pc)
      else (sh.(lifecycle := Some(t)), InOpen(p, inst))
    case InOpen(p, inst) =>
      if !c.ok then (Leave(sh, pc, Idle(inst)), Idle(inst))
      else (Leave(sh.(owner := sh.owner[sh.next := p], next := sh.next + 1), pc, OpenReg(sh.next, p, inst)),
            OpenReg(sh.next, p, inst))
    case OpenReg(x, p, inst) =>
      if sh.registry.Some? then (sh, pc) else (sh.(registry := Some(t)), OpenAdd(x, p, inst))
    case OpenAdd(x, p, inst) => (sh.(registered := sh.registered + {x}, registry := None), Idle(inst))
    case TermWait(p, inst) =>
      if sh.registry.Some? then (sh, pc) else (sh.(registry := Some(t)), TermList(p, inst))
    case TermList(p, inst) =>
      (sh.(registry := None), TermNext(p, set x | x in sh.registered && x in sh.owner && sh.owner[x] == p, true, inst))
    case TermNext(p, todo, ok, inst) =>
      if todo == {} then
        if ok then (sh, TermLock(p, inst)) else (Leave(sh, pc, Idle(false)), Idle(false))
      else if c.pick in todo then (sh, CloseWait(c.pick, Terminator(p, todo - {c.pick}, ok), inst))
      else (sh, pc)
    case TermLock(p, inst) =>
      if inst then (Freed(sh, p), InTerm(p, inst))
      else if sh.lifecycle.Some? then (sh, pc)
      else (Freed(sh, p).(lifecycle := Some(t)), InTerm(p, inst))
    case InTerm(p, inst) => (Leave(sh, pc, Idle(false)), Idle(false))
    case InstWait =>
      if sh.lifecycle.Some? then (sh, pc) else (sh.(lifecycle := Some(t)), Idle(true))
  }

  /** `PyAudio.terminate()` closes every stream the instance owns, then frees the host-API table. */
  function Freed(sh: Shared, p: Instance): Shared {
    sh.(freed := sh.freed + set x | x in sh.owner && sh.owner[x] == p)
  }

  // ------------------------------------------------------------------------ runs

  datatype State = State(sh: Shared, pcs: map<Tid, Pc>)

  predicate Opening(pc: Pc, p: Instance) {
    (pc.OpenWait? || pc.InOpen? || pc.OpenReg? || pc.OpenAdd?) && pc.p == p
  }

  /** Between the call of `terminate_portaudio` and its return. */
  predicate Terminating(pc: Pc, p: Instance) {
    || ((pc.TermWait? || pc.TermList? || pc.TermNext? || pc.TermLock? || pc.InTerm?) && pc.p == p)
    || ((pc.CloseWait? || pc.CloseCheck? || pc.InClose? || pc.CloseMark? || pc.UnregWait? || pc.Unreg?)
        && pc.back.Terminator? && pc.back.p == p)
  }

  /** The calls a thread may make next; streams come from `open_stream`. */
  predicate MayCall(s: State, t: Tid, op: Pc) {
    && t in s.pcs && s.pcs[t].Idle?
    && var inst := s.pcs[t].inst;
       match op
       case Idle(i) => i == inst
       case CallWait(x, i) => i == inst && x in s.sh.owner
       case CloseWait(x, back, i) => i == inst && x in s.sh.owner && back.Caller?
       case OpenWait(p, i) => i == inst
       case TermWait(p, i) => i == inst
       case InstWait => !inst
       case _ => false
  }

  /**
   What the callers have to see to: no `open_stream` starts on an instance that is
   being terminated, and no terminate starts while an `open_stream` on it is
   unfinished.
   */
  predicate Apart(s: State, op: Pc) {
    && (op.OpenWait? ==> forall u :: u in s.pcs ==> !Terminating(s.pcs[u], op.p))
    && (op.TermWait? ==> forall u :: u in s.pcs ==> !Opening(s.pcs[u], op.p))
  }

  predicate MayStart(s: State, t: Tid, op: Pc) { MayCall(s, t, op) && Apart(s, op) }

  datatype Event = Event(t: Tid, c: Choice)

  function Step(s: State, e: Event): State {
    if e.t !in s.pcs || (s.pcs[e.t].Idle? && !MayStart(s, e.t, e.c.op)) then s
    else
      var (sh, pc) := Next(s.sh, e.t, s.pcs[e.t], e.c);
      State(sh, s.pcs[e.t := pc])
  }

  function Execute(s: State, es: seq<Event>): State
    decreases |es|
  {
    if es == [] then s else Execute(Step(s, es[0]), es[1..])
  }

  function Initial(threads: set<Tid>): State {
    State(Shared(map[], {}, {}, {}, false, map[], None, None, 0), map t | t in threads :: Idle(false))
  }
}
