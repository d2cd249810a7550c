/**
 A device change while everything else goes on: the router's thread inside the
 playback gate, transient playbacks coming and going, stream owners opening,
 closing and registering (SOURCE/audio_core/device_change.py,
 `handle_device_change` with `_PlaybackGate`).

 A transient playback may have a stream open for as long as it is `Reading`.
 `Terminating` is the moment before `Pa_Terminate`; the table is down from there
 until the router is `Leaving`.
 */
module DeviceSwitch {
  import opened Common
  import Gate = PlaybackGate
  import opened DeviceChange

  const ROUTER: Gate.Tid := 0

  datatype Router =
    | Resting
    | Suspending(i: nat)
    | AtGate
    | Terminating(drained: bool)
    | Initializing(drained: bool, again: bool)
    | Leaving(drained: bool)
    | Resuming(drained: bool, i: nat)

  datatype State = State(
    gate: Gate.State,
    owners: seq<Owner>,          // the registry
    open: set<Owner>,            // owners with a stream open
    router: Router,
    snapshot: seq<Owner>,
    // history of the change under way, read by no thread
    trace: seq<Event>,
    before: set<Owner>,          // owners with a stream open when it began
    obeyed: set<Owner>,          // whose suspend returned
    raised: set<Owner>,          // whose suspend raised
    closed: set<Owner>,          // who closed their stream of their own accord
    late: set<Owner>,            // who opened their present stream since it began
    entered: set<Gate.Tid>,      // playbacks inside when the router came to the gate
    left: set<Gate.Tid>)         // playbacks that have ended since

  datatype Move =
    | Playback(e: Gate.Event)    // of any thread but the router's; only the router writes
    | Register(o: Owner)
    | Unregister(o: Owner)
    | Open(o: Owner)
    | Close(o: Owner)
    | Route(fails: bool, timeUp: bool, installed: bool)

  predicate Foreign(e: Gate.Event) { e.t != ROUTER && !e.Write? }

  function Next(s: State, m: Move): State {
    match m
    case Playback(e) =>
      if Foreign(e) then s.(gate := Gate.Step(s.gate, e), left := if e.Leave? then s.left + {e.t} else s.left) else s
    case Register(o) => if o in s.owners then s else s.(owners := s.owners + [o])
    case Unregister(o) => s.(owners := Unregistered(s.owners, o))
    case Open(o) => s.(open := s.open + {o}, late := s.late + {o})
    case Close(o) => s.(open := s.open - {o}, closed := s.closed + {o}, late := s.late - {o})
    case Route(fails, timeUp, installed) => RouterStep(s, fails, timeUp, installed)
  }

  function Unregistered(owners: seq<Owner>, o: Owner): seq<Owner> {
    if owners == [] then [] else if owners[0] == o then owners[1..] else [owners[0]] + Unregistered(owners[1..], o)
  }

  /** The next statement of `handle_device_change`. */
  function RouterStep(s: State, fails: bool, timeUp: bool, installed: bool): State {
    match s.router
    case Resting =>
      s.(router := Suspending(0), snapshot := s.owners, trace := [], before := s.open, obeyed := {}, raised := {},
         closed := {}, late := {})
    case Suspending(i) => if i < |s.snapshot| then Suspended(s, i, fails) else GateStep(Arrived(s), Gate.Write(ROUTER))
    case AtGate =>
      if ROUTER in s.gate.pcs && s.gate.pcs[ROUTER].WriterAwake? then GateStep(s, Gate.Retry(ROUTER))
      else if timeUp then GateStep(s, Gate.TimeOut(ROUTER))
      else s
    case Terminating(drained) =>
      if !installed then s.(router := Leaving(drained))
      else s.(trace := s.trace + [Terminate],
              router := if fails then Leaving(drained) else Initializing(drained, false))
    case Initializing(drained, again) =>
      s.(trace := s.trace + [Initialize],
         router := if fails && !again then Initializing(drained, true) else Leaving(drained))
    case Leaving(drained) =>
      s.(gate := Gate.Step(s.gate, Gate.Leave(ROUTER)), trace := s.trace + [LeaveWriter],
         router := Resuming(drained, 0))
    case Resuming(drained, i) => if i < |s.snapshot| then Resumed(s, i, fails) else s.(router := Resting)
  }

  function Suspended(s: State, i: nat, fails: bool): State
    requires i < |s.snapshot|
  {
    var o := s.snapshot[i];
    var t := s.(router := Suspending(i + 1), trace := s.trace + [Suspend(o)]);
    if fails then t.(raised := s.raised + {o})
    else t.(open := s.open - {o}, late := s.late - {o}, obeyed := s.obeyed + {o})
  }

  function Arrived(s: State): State { s.(router := AtGate, entered := Gate.Readers(s.gate.pcs), left := {}) }

  function Resumed(s: State, i: nat, fails: bool): State
    requires s.router.Resuming? && i < |s.snapshot|
  {
    var o := s.snapshot[i];
    var t := s.(router := Resuming(s.router.drained, i + 1), trace := s.trace + [Resume(o)]);
    if fails then t else t.(open := s.open + {o}, late := s.late + {o})
  }

  /** The router acts on the gate; when that lets it in, the teardown is next. */
  function GateStep(s: State, e: Gate.Event): State {
    var g := Gate.Step(s.gate, e);
    if ROUTER in g.pcs && g.pcs[ROUTER].Writing? then
      s.(gate := g, router := Terminating(g.pcs[ROUTER].drained),
         trace := s.trace + [EnterWriter(g.pcs[ROUTER].drained)])
    else s.(gate := g)
  }

  function Execute(s: State, ms: seq<Move>): State
    decreases |ms|
  {
    if ms == [] then s else Execute(Next(s, ms[0]), ms[1..])
  }

  function Initial(threads: set<Gate.Tid>): State {
    State(Gate.Initial(threads + {ROUTER}), [], {}, Resting, [], [], {}, {}, {}, {}, {}, {}, {})
  }

  // ---------------------------------------------------------------- invariant

  /** The router stands in the gate where its own statement says. */
  predicate Placed(r: Router, pc: Gate.Pc) {
    match r
    case AtGate => pc.WriterAsleep? || pc.WriterAwake?
    case Terminating(drained) => pc == Gate.Writing(drained)
    case Initializing(drained, _) => pc == Gate.Writing(drained)
    case Leaving(drained) => pc == Gate.Writing(drained)
    case _ => pc.Outside?
  }

  predicate InGate(r: Router) { r.AtGate? || r.Terminating? || r.Initializing? || r.Leaving? }

  /** Nobody but the router writes. */
  ghost predicate SoloGate(g: Gate.State, r: Router) {
    Gate.SoloInv(g) && ROUTER in g.pcs && Gate.InWriter(g.pcs) <= {ROUTER} && Placed(r, g.pcs[ROUTER])
  }

  ghost predicate ReadersAccounted(s: State) {
    InGate(s.router) ==> Gate.Readers(s.gate.pcs) == s.entered - s.left
  }

  /** The owners asked to suspend so far. */
  function Asked(s: State): seq<Owner> {
    if s.router.Suspending? && s.router.i <= |s.snapshot| then s.snapshot[..s.router.i] else s.snapshot
  }

  ghost predicate OwnersAccounted(s: State) {
    && NoDuplicates(s.owners) && NoDuplicates(s.snapshot)
    && (s.router.Suspending? ==> s.router.i <= |s.snapshot|)
    && (s.router.Resuming? ==> s.router.i <= |s.snapshot|)
    && (!s.router.Resting? ==>
          && s.obeyed == Obeyed(Asked(s), s.raised)
          && s.raised <= Members(Asked(s))
          && s.open == (s.before - s.obeyed - s.closed) + s.late)
  }

  ghost predicate Inv(s: State) {
    SoloGate(s.gate, s.router) && ReadersAccounted(s) && OwnersAccounted(s)
  }

  // ------------------------------------------------------------- the gate's part

  lemma WritersAreTheRouter(g: Gate.State)
    requires Gate.InWriter(g.pcs) <= {ROUTER}
    ensures |Gate.InWriter(g.pcs)| <= 1
  {
    SubsetSize(Gate.InWriter(g.pcs), {ROUTER});
  }

  lemma PlaybackInWriter(g: Gate.State, e: Gate.Event)
    requires Foreign(e) && Gate.InWriter(g.pcs) <= {ROUTER}
    ensures Gate.InWriter(Gate.Step(g, e).pcs) == Gate.InWriter(g.pcs)
  {
    if e.t in g.pcs {
      assert e.t !in Gate.InWriter(g.pcs);
      Gate.WakeKeeps(g.pcs[e.t := Gate.Outside]);
    }
  }

  lemma PlaybackRouter(g: Gate.State, e: Gate.Event, r: Router)
    requires Foreign(e) && ROUTER in g.pcs && Placed(r, g.pcs[ROUTER])
    ensures ROUTER in Gate.Step(g, e).pcs && Placed(r, Gate.Step(g, e).pcs[ROUTER])
  {
  }

  lemma PlaybackReaders(g: Gate.State, e: Gate.Event)
    requires Foreign(e) && Gate.SoloInv(g) && ROUTER in Gate.InWriter(g.pcs)
    ensures Gate.Readers(Gate.Step(g, e).pcs) == Gate.Readers(g.pcs) - (if e.Leave? then {e.t} else {})
  {
    if e.t in g.pcs {
      Gate.NobodyElseEnters(g, e, ROUTER);
      Gate.WakeKeeps(g.pcs[e.t := Gate.Outside]);
    }
  }

  lemma PlaybackOk(s: State, e: Gate.Event)
    requires Inv(s) && Foreign(e)
    ensures Inv(Next(s, Playback(e)))
  {
    hide Gate.Step, Gate.InWriter, Gate.SoloInv, Gate.Readers, Placed, NoDuplicates, Obeyed, Members;
    PlaybackGate(s.gate, e, s.router);
    if InGate(s.router) { RouterInside(s.gate, s.router); PlaybackReaders(s.gate, e); }
  }

  lemma RouterInside(g: Gate.State, r: Router)
    requires SoloGate(g, r) && InGate(r)
    ensures ROUTER in Gate.InWriter(g.pcs)
  {
  }

  lemma PlaybackGate(g: Gate.State, e: Gate.Event, r: Router)
    requires SoloGate(g, r) && Foreign(e)
    ensures SoloGate(Gate.Step(g, e), r)
  {
    hide Gate.Step, Gate.InWriter, Gate.SoloInv, Placed;
    PlaybackInWriter(g, e);
    WritersAreTheRouter(Gate.Step(g, e));
    Gate.SoloStep(g, e);
    PlaybackRouter(g, e, r);
  }

  /** The router's own steps at the gate move no playback. */
  lemma RouterReaders(g: Gate.State, e: Gate.Event)
    requires e.t == ROUTER && ROUTER in g.pcs && !e.Read? && !g.pcs[ROUTER].Reading? && !g.pcs[ROUTER].ReaderAwake?
    ensures Gate.Readers(Gate.Step(g, e).pcs) == Gate.Readers(g.pcs)
    ensures Gate.InWriter(g.pcs) <= {ROUTER} ==> Gate.InWriter(Gate.Step(g, e).pcs) <= {ROUTER}
  {
    Gate.WakeKeeps(g.pcs[ROUTER := Gate.Outside]);
  }

  /** The router's actions on its way in, from outside, awake or asleep. */
  predicate ComesIn(pc: Gate.Pc, e: Gate.Event) {
    || (e == Gate.Write(ROUTER) && pc.Outside?)
    || (e == Gate.Retry(ROUTER) && pc.WriterAwake?)
    || (e == Gate.TimeOut(ROUTER) && (pc.WriterAsleep? || pc.WriterAwake?))
  }

  lemma GateStepOk(s: State, e: Gate.Event)
    requires s.router.AtGate? && OwnersAccounted(s) && ReadersAccounted(s)
    requires Gate.SoloInv(s.gate) && ROUTER in s.gate.pcs && Gate.InWriter(s.gate.pcs) <= {ROUTER}
    requires ComesIn(s.gate.pcs[ROUTER], e)
    ensures Inv(GateStep(s, e))
  {
    hide Gate.Step, Gate.InWriter, Gate.SoloInv, Gate.Readers, NoDuplicates, Obeyed, Members;
    RouterReaders(s.gate, e);
    WritersAreTheRouter(Gate.Step(s.gate, e));
    Gate.SoloStep(s.gate, e);
    RouterPlaced(s.gate, e);
  }

  lemma RouterPlaced(g: Gate.State, e: Gate.Event)
    requires ROUTER in g.pcs && ComesIn(g.pcs[ROUTER], e)
    ensures var r := Gate.Step(g, e);
            ROUTER in r.pcs && (r.pcs[ROUTER].WriterAsleep? || r.pcs[ROUTER].WriterAwake? || r.pcs[ROUTER].Writing?)
  {
  }

  lemma LeaveOk(s: State)
    requires Inv(s) && s.router.Leaving?
    ensures Inv(RouterStep(s, false, false, false))
  {
    RouterReaders(s.gate, Gate.Leave(ROUTER));
    WritersAreTheRouter(Gate.Step(s.gate, Gate.Leave(ROUTER)));
    Gate.SoloStep(s.gate, Gate.Leave(ROUTER));
    RouterOut(s.gate);
    hide Gate.Step;
  }

  lemma RouterOut(g: Gate.State)
    requires ROUTER in g.pcs && g.pcs[ROUTER].Writing?
    ensures var r := Gate.Step(g, Gate.Leave(ROUTER)); ROUTER in r.pcs && r.pcs[ROUTER].Outside?
  {
  }

  // ----------------------------------------------------------- the owners' part

  lemma SuspendOk(s: State, i: nat, fails: bool)
    requires OwnersAccounted(s) && s.router == Suspending(i) && i < |s.snapshot|
    ensures OwnersAccounted(Suspended(s, i, fails))
  {
    var o := s.snapshot[i];
    assert s.snapshot[..i + 1] == s.snapshot[..i] + [o];
    assert o !in s.snapshot[..i];
    var t := Suspended(s, i, fails);
    assert Asked(t) == s.snapshot[..i + 1] && Asked(s) == s.snapshot[..i];
    assert Obeyed(s.snapshot[..i], s.raised + {o}) == Obeyed(s.snapshot[..i], s.raised);
    assert o !in s.raised;
    OneMore(s.snapshot, i, t.raised);
  }

  lemma {:induction false} UnregisteredKeeps(owners: seq<Owner>, o: Owner)
    requires NoDuplicates(owners)
    ensures NoDuplicates(Unregistered(owners, o)) && forall x :: x in Unregistered(owners, o) <==> x in owners && x != o
  {
    if owners != [] {
      assert owners == [owners[0]] + owners[1..];
      assert owners[0] !in owners[1..];
      if owners[0] != o { UnregisteredKeeps(owners[1..], o); }
    }
  }

  lemma OwnerOk(s: State, m: Move)
    requires Inv(s) && !m.Playback? && !m.Route?
    ensures Inv(Next(s, m))
  {
    if m.Unregister? { UnregisteredKeeps(s.owners, m.o); }
    hide Gate.SoloInv, Gate.InWriter, Gate.Readers;
  }

  lemma RouteOk(s: State, fails: bool, timeUp: bool, installed: bool)
    requires Inv(s)
    ensures Inv(RouterStep(s, fails, timeUp, installed))
  {
    hide Gate.SoloInv, Gate.InWriter, Gate.Readers, Gate.Step;
    match s.router {
      case Resting =>
        assert s.owners[..0] == [];
      case Suspending(i) =>
        if i < |s.snapshot| {
          SuspendOk(s, i, fails);
        } else {
          assert s.snapshot[..i] == s.snapshot;
          GateStepOk(Arrived(s), Gate.Write(ROUTER));
        }
      case AtGate =>
        if s.gate.pcs[ROUTER].WriterAwake? { GateStepOk(s, Gate.Retry(ROUTER)); }
        else if timeUp { GateStepOk(s, Gate.TimeOut(ROUTER)); }
      case Leaving(_) => LeaveOk(s);
      case _ =>
    }
  }

  lemma NextInv(s: State, m: Move)
    requires Inv(s)
    ensures Inv(Next(s, m))
  {
    hide Inv, RouterStep;
    match m {
      case Playback(e) => if Foreign(e) { PlaybackOk(s, e); }
      case Route(fails, timeUp, installed) => RouteOk(s, fails, timeUp, installed);
      case _ => OwnerOk(s, m);
    }
  }

  lemma {:induction false} ExecuteInv(s: State, ms: seq<Move>)
    requires Inv(s)
    ensures Inv(Execute(s, ms))
    decreases |ms|
  {
    hide Inv;
    if ms != [] {
      NextInv(s, ms[0]);
      ExecuteInv(Next(s, ms[0]), ms[1..]);
    }
  }

  lemma InitialInv(threads: set<Gate.Tid>)
    ensures Inv(Initial(threads))
  {
    Gate.InitialInv(threads + {ROUTER});
    var g := Gate.Initial(threads + {ROUTER});
    assert Gate.Writers(g.pcs) == {} && Gate.Waiters(g.pcs) == {};
  }

  // ------------------------------------------------------------------- theorems

  /** The device table is about to be torn down, or is down. */
  predicate TableDown(r: Router) { r.Terminating? || r.Initializing? }

  /**
   In every run, at every moment from the teardown to the last initialisation: no
   playback and no owner has a stream open if and only if every owner that had
   one when the change began has suspended without raising or closed it, nobody
   has opened one since, and every playback that was inside has ended; and a gate
   that reported drained means the last.
   */
  lemma RefreshOverlapsNothingExactlyWhen(threads: set<Gate.Tid>, ms: seq<Move>)
    ensures var s := Execute(Initial(threads), ms);
            TableDown(s.router) ==>
              && (Gate.Readers(s.gate.pcs) == {} && s.open == {}
                  <==> && (forall o :: o in s.before ==> (o in s.snapshot && o !in s.raised) || o in s.closed)
                       && s.late == {}
                       && s.entered <= s.left)
              && (s.router.drained ==> s.entered <= s.left)
  {
    InitialInv(threads);
    ExecuteInv(Initial(threads), ms);
    var s := Execute(Initial(threads), ms);
    if TableDown(s.router) { AtTeardown(s); }
  }

  lemma AtTeardown(s: State)
    requires Inv(s) && TableDown(s.router)
    ensures Gate.Readers(s.gate.pcs) == {} && s.open == {}
            <==> && (forall o :: o in s.before ==> (o in s.snapshot && o !in s.raised) || o in s.closed)
                 && s.late == {} && s.entered <= s.left
    ensures s.router.drained ==> s.entered <= s.left
  {
    assert Gate.Readers(s.gate.pcs) == s.entered - s.left;
    assert s.router.drained ==> |Gate.Readers(s.gate.pcs)| == 0;
    hide Gate.SoloInv, Gate.InWriter, Gate.Readers;
    if s.entered - s.left == {} {
      forall t | t in s.entered ensures t in s.left { assert t !in s.entered - s.left; }
    }
    if s.open == {} {
      forall o | o in s.before ensures (o in s.snapshot && o !in s.raised) || o in s.closed { assert o !in s.open; }
    }
  }

  /**
   The gate gives up after its timeout: a router asleep at it gets in two steps
   later, and the playbacks inside then are still inside when the table goes down.
   */
  lemma TimeoutCutsPlaybacks(s: State, fails: bool, installed: bool)
    requires Inv(s) && s.router.AtGate? && s.gate.pcs[ROUTER].WriterAsleep?
    ensures var r := RouterStep(RouterStep(s, fails, true, installed), fails, true, installed);
            && r.router == Terminating(false) && Gate.Readers(r.gate.pcs) == Gate.Readers(s.gate.pcs) != {}
            && r.entered - r.left == Gate.Readers(s.gate.pcs)
  {
    SleepsOverReaders(s.gate);
    TimeoutLetsIn(s.gate);
    hide Gate.Readers, Gate.Step, Gate.SoloInv, Gate.InWriter;
  }

  lemma TimeoutLetsIn(g: Gate.State)
    requires ROUTER in g.pcs && g.pcs[ROUTER].WriterAsleep? && !g.gate.Drained()
    ensures var g1 := Gate.Step(g, Gate.TimeOut(ROUTER));
            var g2 := Gate.Step(g1, Gate.Retry(ROUTER));
            && ROUTER in g1.pcs && g1.pcs[ROUTER] == Gate.WriterAwake(true)
            && ROUTER in g2.pcs && g2.pcs[ROUTER] == Gate.Writing(false)
            && Gate.Readers(g2.pcs) == Gate.Readers(g.pcs)
  {
  }

  lemma SleepsOverReaders(g: Gate.State)
    requires Gate.SoloInv(g) && ROUTER in g.pcs && g.pcs[ROUTER].WriterAsleep? && Gate.InWriter(g.pcs) <= {ROUTER}
    ensures Gate.Readers(g.pcs) != {} && !g.gate.Drained() && !g.gate.active
  {
    assert Gate.Writers(g.pcs) == {};
  }

  lemma Unrolled(s: State, a: Move, b: Move, c: Move)
    ensures Execute(s, [a, b, c]) == Next(Next(Next(s, a), b), c)
  {
    hide Next;
    assert [a, b, c][1..] == [b, c] && [b, c][1..] == [c] && [c][1..] == [];
    var s1 := Next(s, a);
    var s2 := Next(s1, b);
    assert Execute(s, [a, b, c]) == Execute(s1, [b, c]);
    assert Execute(s1, [b, c]) == Execute(s2, [c]);
    assert Execute(s2, [c]) == Execute(Next(s2, c), []);
  }

  const NOW := Route(false, false, true)

  /** And it comes to that: a playback that has begun keeps the router waiting. */
  lemma RouterWaitsForAPlayback(t: Gate.Tid)
    requires t != ROUTER
    ensures var s := Execute(Initial({t}), [Playback(Gate.Read(t)), NOW, NOW]);
            s.router.AtGate? && ROUTER in s.gate.pcs && s.gate.pcs[ROUTER].WriterAsleep?
  {
    var s0 := Initial({t});
    Unrolled(s0, Playback(Gate.Read(t)), NOW, NOW);
    var s1 := Next(s0, Playback(Gate.Read(t)));
    assert s1.gate == Gate.State(Gate.Gate(1, 0, false), s0.gate.pcs[t := Gate.Reading]);
    var s2 := Next(s1, NOW);
    assert s2.router == Suspending(0) && s2.snapshot == [] && s2.gate == s1.gate;
    WaitsAtGate(s2, t);
  }

  lemma WaitsAtGate(s: State, t: Gate.Tid)
    requires s.router == Suspending(0) && s.snapshot == [] && ROUTER in s.gate.pcs && s.gate.pcs[ROUTER].Outside?
    requires s.gate.gate.readers == 1
    ensures var r := Next(s, NOW); r.router.AtGate? && ROUTER in r.gate.pcs && r.gate.pcs[ROUTER].WriterAsleep?
  {
  }

  /** An owner that opens a stream while the router goes to the gate has it cut, drained or not. */
  lemma LateOwnerIsCut(o: Owner)
    ensures var s := Execute(Initial({}), [NOW, Open(o), NOW]); s.router == Terminating(true) && o in s.open
  {
    var s0 := Initial({});
    Unrolled(s0, NOW, Open(o), NOW);
    var s2 := Next(Next(s0, NOW), Open(o));
    assert s2.router == Suspending(0) && s2.snapshot == [] && s2.gate == s0.gate && s2.open == {o};
  }

  // -------------------------------------------------- the same statements, in the same order

  ghost predicate Refreshes(middle: seq<Event>) { exists w :: middle == RefreshTrace(w) }

  /** How far through `Trace` the router has got. */
  ghost predicate OnTrace(s: State) {
    var all := Suspends(s.snapshot);
    match s.router
    case Resting => true
    case Suspending(i) => i <= |s.snapshot| && s.trace == Suspends(s.snapshot[..i])
    case AtGate => s.trace == all
    case Terminating(drained) => s.trace == all + [EnterWriter(drained)]
    case Initializing(drained, again) =>
      s.trace == all + ([EnterWriter(drained)] + if again then [Terminate, Initialize] else [Terminate])
    case Leaving(drained) => exists m :: Refreshes(m) && s.trace == all + ([EnterWriter(drained)] + m)
    case Resuming(drained, i) =>
      && i <= |s.snapshot|
      && exists m ::
           Refreshes(m) && s.trace == all + ([EnterWriter(drained)] + m + [LeaveWriter]) + Resumes(s.snapshot[..i])
  }

  /** The four ways the teardown can go. */
  lemma RefreshesOne(installed: bool, terminateRaises: bool, initializeRaises: nat)
    ensures Refreshes(if !installed then [] else if terminateRaises then [Terminate]
                      else if initializeRaises == 0 then [Terminate, Initialize]
                          else [Terminate, Initialize, Initialize])
  {
    var w := Weather({}, installed, terminateRaises, initializeRaises, {}, []);
    assert RefreshTrace(w) == RefreshTrace(w);
  }

  lemma TableTraced(s: State, fails: bool, installed: bool)
    requires OnTrace(s) && TableDown(s.router)
    ensures OnTrace(RouterStep(s, fails, false, installed))
  {
    RefreshesOne(false, true, 0);
    RefreshesOne(true, true, 0);
    RefreshesOne(true, false, 0);
    RefreshesOne(true, false, 1);
    hide Refreshes;
    var all, r, enter := Suspends(s.snapshot), RouterStep(s, fails, false, installed), [EnterWriter(s.router.drained)];
    match s.router {
      case Terminating(_) =>
        assert all + enter == all + (enter + []) && all + enter + [Terminate] == all + (enter + [Terminate]);
      case Initializing(_, again) =>
        var m := if again then [Terminate, Initialize] else [Terminate];
        assert all + (enter + m) + [Initialize] == all + (enter + (m + [Initialize]));
        assert m + [Initialize] == if again then [Terminate, Initialize, Initialize] else [Terminate, Initialize];
    }
  }

  lemma LeaveTraced(s: State)
    requires OnTrace(s) && s.router.Leaving?
    ensures OnTrace(RouterStep(s, false, false, false))
  {
    hide Refreshes, Gate.Step;
    var all, enter := Suspends(s.snapshot), [EnterWriter(s.router.drained)];
    var m :| Refreshes(m) && s.trace == all + (enter + m);
    assert Resumes(s.snapshot[..0]) == [];
    assert s.trace + [LeaveWriter] == all + (enter + m + [LeaveWriter]) + [];
  }

  lemma ResumeTraced(s: State, fails: bool)
    requires OnTrace(s) && s.router.Resuming?
    ensures OnTrace(RouterStep(s, fails, false, false))
  {
    hide Refreshes;
    var i := s.router.i;
    if i < |s.snapshot| {
      var all, enter := Suspends(s.snapshot), [EnterWriter(s.router.drained)];
      var m :| Refreshes(m) && s.trace == all + (enter + m + [LeaveWriter]) + Resumes(s.snapshot[..i]);
      OneMore(s.snapshot, i, {});
      assert RouterStep(s, fails, false, false).trace == all + (enter + m + [LeaveWriter])
          + Resumes(s.snapshot[..i + 1]);
    }
  }

  lemma RouteTraced(s: State, fails: bool, timeUp: bool, installed: bool)
    requires OnTrace(s)
    ensures OnTrace(RouterStep(s, fails, timeUp, installed))
  {
    hide Refreshes, Gate.Step;
    match s.router {
      case Resting => assert s.owners[..0] == [];
      case Suspending(i) =>
        if i < |s.snapshot| { OneMore(s.snapshot, i, {}); } else { assert s.snapshot[..i] == s.snapshot; }
      case AtGate =>
      case Leaving(_) => LeaveTraced(s);
      case Resuming(_, _) => ResumeTraced(s, fails);
      case _ => TableTraced(s, fails, installed);
    }
  }

  lemma {:induction false} RunTraced(s: State, ms: seq<Move>)
    requires OnTrace(s)
    ensures OnTrace(Execute(s, ms))
    decreases |ms|
  {
    if ms != [] {
      hide RouterStep;
      if ms[0].Route? { RouteTraced(s, ms[0].fails, ms[0].timeUp, ms[0].installed); }
      RunTraced(Next(s, ms[0]), ms[1..]);
    }
  }

  /** Whatever happens around it, the router's statements are those of `HandleDeviceChange`, in that order. */
  lemma RouterFollowsTheTrace(threads: set<Gate.Tid>, ms: seq<Move>)
    ensures var s := Execute(Initial(threads), ms);
            s.router.Resuming? && s.router.i == |s.snapshot| ==>
                exists w :: s.trace == Trace(s.snapshot, s.router.drained, w)
  {
    RunTraced(Initial(threads), ms);
    var s := Execute(Initial(threads), ms);
    if s.router.Resuming? && s.router.i == |s.snapshot| {
      var all, enter := Suspends(s.snapshot), [EnterWriter(s.router.drained)];
      var m :| Refreshes(m) && s.trace == all + (enter + m + [LeaveWriter]) + Resumes(s.snapshot[..s.router.i]);
      var w :| m == RefreshTrace(w);
      assert s.snapshot[..s.router.i] == s.snapshot;
      assert s.trace == Trace(s.snapshot, s.router.drained, w);
    }
  }

  // ------------------------------------------------------- a change nobody disturbs

  ghost predicate Reaches(a: State, b: State) { exists ms :: Execute(a, ms) == b }

  lemma {:induction false} OneMoreMove(s: State, ms: seq<Move>, m: Move)
    ensures Execute(s, ms + [m]) == Next(Execute(s, ms), m)
    decreases |ms|
  {
    hide Next;
    if ms == [] {
      assert [] + [m] == [m] && [m][1..] == [];
      assert Execute(s, [m]) == Execute(Next(s, m), []);
    } else {
      assert (ms + [m])[1..] == ms[1..] + [m];
      OneMoreMove(Next(s, ms[0]), ms[1..], m);
    }
  }

  /** The router goes on, and nothing fails. */
  lemma Routes(z: State, s: State) returns (r: State)
    requires Reaches(z, s)
    ensures Reaches(z, r) && r == RouterStep(s, false, false, true)
  {
    hide RouterStep;
    var ms :| Execute(z, ms) == s;
    OneMoreMove(z, ms, NOW);
    r := Next(s, NOW);
    assert Execute(z, ms + [NOW]) == r;
  }

  lemma {:induction false} SuspendsThem(z: State, s: State) returns (r: State)
    requires Reaches(z, s) && s.router.Suspending? && s.router.i <= |s.snapshot|
    requires s.trace == Suspends(s.snapshot[..s.router.i])
    ensures Reaches(z, r) && r.router == Suspending(|s.snapshot|) && r.snapshot == s.snapshot && r.gate == s.gate
    ensures r.trace == Suspends(s.snapshot) && r.open == s.open - Members(s.snapshot[s.router.i..])
    ensures r.owners == s.owners && r.before == s.before
    decreases |s.snapshot| - s.router.i
  {
    hide Reaches, Suspends;
    r := s;
    var i := s.router.i;
    if i < |s.snapshot| {
      OneMore(s.snapshot, i, {});
      r := Routes(z, s);
      r := SuspendsThem(z, r);
      assert s.snapshot[i..] == [s.snapshot[i]] + s.snapshot[i + 1..];
    } else {
      assert s.snapshot[..i] == s.snapshot;
    }
  }

  lemma {:induction false} ResumesThem(z: State, s: State, before: seq<Event>) returns (r: State)
    requires Reaches(z, s) && s.router.Resuming? && s.router.i <= |s.snapshot|
    requires s.trace == before + Resumes(s.snapshot[..s.router.i])
    ensures Reaches(z, r) && r.router == Resuming(s.router.drained, |s.snapshot|) && r.snapshot == s.snapshot
    ensures r.gate == s.gate && r.owners == s.owners && r.trace == before + Resumes(s.snapshot)
    ensures r.open == s.open + Members(s.snapshot[s.router.i..])
    decreases |s.snapshot| - s.router.i
  {
    hide Reaches, Resumes;
    r := s;
    var i := s.router.i;
    if i < |s.snapshot| {
      OneMore(s.snapshot, i, {});
      r := Routes(z, s);
      assert r.trace == before + Resumes(s.snapshot[..i + 1]);
      r := ResumesThem(z, r, before);
      assert s.snapshot[i..] == [s.snapshot[i]] + s.snapshot[i + 1..];
    } else {
      assert s.snapshot[..i] == s.snapshot;
    }
  }

  /** With nobody inside, the router gets in at once, drained. */
  lemma GetsIn(z: State, s: State) returns (r: State)
    requires Reaches(z, s) && s.router == Suspending(|s.snapshot|) && ROUTER in s.gate.pcs
             && s.gate.pcs[ROUTER].Outside?
    requires s.gate.gate == Gate.Gate(0, 0, false)
    ensures Reaches(z, r) && r.router == Terminating(true) && r.snapshot == s.snapshot && r.open == s.open
    ensures r.gate == Gate.State(Gate.Gate(0, 0, true), s.gate.pcs[ROUTER := Gate.Writing(true)])
    ensures r.trace == s.trace + [EnterWriter(true)] && r.owners == s.owners
  {
    hide Reaches;
    r := Routes(z, s);
  }

  /** The table goes down and comes up, and the router leaves the gate as it found it. */
  lemma Rebuilds(z: State, s: State) returns (r: State)
    requires Reaches(z, s) && s.router == Terminating(true) && ROUTER in s.gate.pcs && s.gate.pcs[ROUTER].Writing?
    requires s.gate.gate == Gate.Gate(0, 0, true)
    ensures Reaches(z, r) && r.router == Resuming(true, 0) && r.snapshot == s.snapshot && r.open == s.open
    ensures r.trace == s.trace + [Terminate, Initialize, LeaveWriter] && r.owners == s.owners
    ensures r.gate.gate == Gate.Gate(0, 0, false)
  {
    hide Reaches;
    r := Routes(z, s);
    r := Routes(z, r);
    r := Routes(z, r);
  }

  /**
   A device change that nothing disturbs: every owner is suspended and has no stream
   open while the table goes down and comes up again, and then every owner has one.
   */
  lemma ChangeMovesEveryOwner(s: State) returns (m: State, r: State)
    requires s.router.Resting? && ROUTER in s.gate.pcs && s.gate.pcs[ROUTER].Outside?
    requires s.gate.gate == Gate.Gate(0, 0, false)
    ensures Reaches(s, m) && m.router == Terminating(true) && m.open == s.open - Members(s.owners)
    ensures Reaches(s, r) && r.router.Resting? && r.open == s.open + Members(s.owners) && r.owners == s.owners
    ensures r.trace == Suspends(s.owners) + ([EnterWriter(true), Terminate, Initialize, LeaveWriter])
            + Resumes(s.owners)
    ensures r.gate.gate == Gate.Gate(0, 0, false)
  {
    assert Execute(s, []) == s;
    hide Reaches, Suspends, Resumes;
    r := Routes(s, s);
    SuspendsNone(s.owners);
    r := SuspendsThem(s, r);
    assert s.owners[0..] == s.owners;
    m := GetsIn(s, r);
    r := Rebuilds(s, m);
    SuspendsNone(s.owners);
    r := ResumesThem(s, r, r.trace);
    assert r.trace == Suspends(s.owners) + ([EnterWriter(true), Terminate, Initialize, LeaveWriter])
        + Resumes(s.owners);
    r := Routes(s, r);
  }

  lemma SuspendsNone(owners: seq<Owner>)
    ensures Suspends(owners[..0]) == [] && Resumes(owners[..0]) == []
  {
  }
}
