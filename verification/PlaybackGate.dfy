/**
 The reader/writer gate between transient playbacks and a device-table refresh
 (SOURCE/audio_core/device_change.py, `_PlaybackGate`).

 Each action below is one stretch of code under the condition's lock: from
 acquiring it to releasing it or to falling asleep in `wait`.
 */
module PlaybackGate {
  import opened Common

  type Tid = nat

  datatype Gate = Gate(readers: int, waiting: int, active: bool)
  {
    predicate ReadersMayEnter() { !active && waiting <= 0 }
    predicate Drained() { readers == 0 && !active }
  }

  // The five updates the source makes to the gate's fields.
  function ReaderIn(g: Gate): Gate { g.(readers := g.readers + 1) }
  function ReaderOut(g: Gate): Gate { g.(readers := g.readers - 1) }
  function WriterWaits(g: Gate): Gate { g.(waiting := g.waiting + 1) }
  function WriterIn(g: Gate): Gate { g.(active := true, waiting := g.waiting - 1) }
  function WriterOut(g: Gate): Gate { g.(active := false) }

  /** The class itself; a method returns False where the source would go to sleep. */
  class PlaybackGate {
    var readers: int
    var writerWaiting: int
    var writerActive: bool

    function Value(): Gate
      reads this
    {
      Gate(readers, writerWaiting, writerActive)
    }

    constructor ()
      ensures Value() == Gate(0, 0, false)
    {
      readers, writerWaiting, writerActive := 0, 0, false;
    }

    /** One pass of the `while` in `reader`. */
    method TryEnterReader() returns (entered: bool)
      modifies this
      ensures entered <==> old(Value()).ReadersMayEnter()
      ensures Value() == if entered then ReaderIn(old(Value())) else old(Value())
    {
      if writerActive || writerWaiting > 0 { return false; }
      readers := readers + 1;
      return true;
    }

    method LeaveReader() returns (notifyAll: bool)
      modifies this
      ensures Value() == ReaderOut(old(Value()))
      ensures notifyAll <==> readers == 0
    {
      readers := readers - 1;
      return readers == 0;
    }

    method StartWriter()
      modifies this
      ensures Value() == WriterWaits(old(Value()))
    {
      writerWaiting := writerWaiting + 1;
    }

    /** One evaluation of `wait_for`'s predicate; on `timeUp` the writer goes in regardless. */
    method TryEnterWriter(timeUp: bool) returns (entered: bool, drained: bool)
      modifies this
      ensures drained <==> old(Value()).Drained()
      ensures entered <==> drained || timeUp
      ensures Value() == if entered then WriterIn(old(Value())) else old(Value())
    {
      drained := readers == 0 && !writerActive;
      if !drained && !timeUp { return false, false; }
      writerActive := true;
      writerWaiting := writerWaiting - 1;
      return true, drained;
    }

    method LeaveWriter()
      modifies this
      ensures Value() == WriterOut(old(Value()))
    {
      writerActive := false;
    }
  }

  // ------------------------------------------------------------ many threads

  datatype Pc =
    | Outside
    | ReaderAsleep
    | ReaderAwake              // about to test the gate
    | Reading
    | WriterAsleep
    | WriterAwake(timeUp: bool)
    | Writing(drained: bool)

  datatype State = State(gate: Gate, pcs: map<Tid, Pc>)

  datatype Event =
    | Read(t: Tid)       // enter `reader()`
    | Write(t: Tid)      // enter `writer()`
    | Retry(t: Tid)      // a woken thread tests the gate
    | TimeOut(t: Tid)    // a sleeping writer's timeout passes
    | Leave(t: Tid)

  /** `notify_all`. */
  function Wake(pcs: map<Tid, Pc>): map<Tid, Pc> {
    map t | t in pcs ::
      if pcs[t].ReaderAsleep? then ReaderAwake else if pcs[t].WriterAsleep? then WriterAwake(false) else pcs[t]
  }

  function TestReader(s: State, t: Tid): State {
    if s.gate.ReadersMayEnter() then State(ReaderIn(s.gate), s.pcs[t := Reading])
    else s.(pcs := s.pcs[t := ReaderAsleep])
  }

  function TestWriter(s: State, t: Tid, timeUp: bool): State {
    if s.gate.Drained() then State(WriterIn(s.gate), s.pcs[t := Writing(true)])
    else if timeUp then State(WriterIn(s.gate), s.pcs[t := Writing(false)])
    else s.(pcs := s.pcs[t := WriterAsleep])
  }

  function Step(s: State, e: Event): State {
    if e.t !in s.pcs then s
    else match e
      case Read(t) => if s.pcs[t].Outside? then TestReader(s, t) else s
      case Write(t) =>
        if s.pcs[t].Outside? then TestWriter(State(WriterWaits(s.gate), s.pcs), t, false) else s
      case Retry(t) =>
        if s.pcs[t].ReaderAwake? then TestReader(s, t)
        else if s.pcs[t].WriterAwake? then TestWriter(s, t, s.pcs[t].timeUp)
        else s
      case TimeOut(t) => if s.pcs[t].WriterAsleep? then s.(pcs := s.pcs[t := WriterAwake(true)]) else s
      case Leave(t) =>
        if s.pcs[t].Reading? then
          var g := ReaderOut(s.gate);
          var pcs := s.pcs[t := Outside];
          State(g, if g.readers == 0 then Wake(pcs) else pcs)
        else if s.pcs[t].Writing? then
          State(WriterOut(s.gate), Wake(s.pcs[t := Outside]))
        else s
  }

  function Execute(s: State, es: seq<Event>): State
    decreases |es|
  {
    if es == [] then s else Execute(Step(s, es[0]), es[1..])
  }

  function Initial(threads: set<Tid>): State {
    State(Gate(0, 0, false), map t | t in threads :: Outside)
  }

  // ---------------------------------------------------------------- invariant

  function Readers(pcs: map<Tid, Pc>): set<Tid> { set t | t in pcs && pcs[t].Reading? }
  function Waiters(pcs: map<Tid, Pc>): set<Tid> { set t | t in pcs && (pcs[t].WriterAsleep? || pcs[t].WriterAwake?) }
  function Writers(pcs: map<Tid, Pc>): set<Tid> { set t | t in pcs && pcs[t].Writing? }

  /**
   The counters count, a set `active` flag has a writer behind it, and a thread
   sleeps only while its own test would fail: no wake-up is ever lost.
   */
  ghost predicate Inv(s: State) {
    && s.gate.readers == |Readers(s.pcs)|
    && s.gate.waiting == |Waiters(s.pcs)|
    && (s.gate.active ==> Writers(s.pcs) != {})
    && (forall t :: t in s.pcs && s.pcs[t].ReaderAsleep? ==> !s.gate.ReadersMayEnter())
    && (forall t :: t in s.pcs && s.pcs[t].WriterAsleep? ==> !s.gate.Drained())
  }

  lemma WakeKeeps(pcs: map<Tid, Pc>)
    ensures Readers(Wake(pcs)) == Readers(pcs) && Waiters(Wake(pcs)) == Waiters(pcs)
            && Writers(Wake(pcs)) == Writers(pcs)
  {
  }

  lemma SetMove(a: set<Tid>, b: set<Tid>, t: Tid, now: bool)
    requires b == if now then a + {t} else a - {t}
    ensures |b| == |a| + (if now then 1 else 0) - (if t in a then 1 else 0)
  {
    if now && t in a { assert b == a; }
    if !now && t !in a { assert b == a; }
  }

  lemma ReadersMove(pcs: map<Tid, Pc>, t: Tid, pc: Pc)
    requires t in pcs
    ensures |Readers(pcs[t := pc])| == |Readers(pcs)|
            + (if pc.Reading? then 1 else 0) - (if pcs[t].Reading? then 1 else 0)
  {
    SetMove(Readers(pcs), Readers(pcs[t := pc]), t, pc.Reading?);
  }

  lemma WaitersMove(pcs: map<Tid, Pc>, t: Tid, pc: Pc)
    requires t in pcs
    ensures |Waiters(pcs[t := pc])| == |Waiters(pcs)| + (if pc.WriterAsleep? || pc.WriterAwake? then 1 else 0)
                                       - (if pcs[t].WriterAsleep? || pcs[t].WriterAwake? then 1 else 0)
  {
    SetMove(Waiters(pcs), Waiters(pcs[t := pc]), t, pc.WriterAsleep? || pc.WriterAwake?);
  }

  lemma MoveCounts(pcs: map<Tid, Pc>, t: Tid, pc: Pc)
    requires t in pcs
    ensures |Readers(pcs[t := pc])| == |Readers(pcs)|
            + (if pc.Reading? then 1 else 0) - (if pcs[t].Reading? then 1 else 0)
    ensures |Waiters(pcs[t := pc])| == |Waiters(pcs)| + (if pc.WriterAsleep? || pc.WriterAwake? then 1 else 0)
                                       - (if pcs[t].WriterAsleep? || pcs[t].WriterAwake? then 1 else 0)
    ensures Writers(pcs[t := pc]) == if pc.Writing? then Writers(pcs) + {t} else Writers(pcs) - {t}
  {
    ReadersMove(pcs, t, pc);
    WaitersMove(pcs, t, pc);
  }

  lemma StepInv(s: State, e: Event)
    requires Inv(s)
    ensures Inv(Step(s, e))
  {
    if e.t in s.pcs {
      var r := Step(s, e);
      MoveCounts(s.pcs, e.t, r.pcs[e.t]);
      MoveCounts(s.pcs, e.t, Outside);
      WakeKeeps(s.pcs[e.t := Outside]);
      if e.Leave? && s.pcs[e.t].Reading? && |Readers(s.pcs)| == 1 { assert r.pcs == Wake(s.pcs[e.t := Outside]); }
    }
  }

  lemma {:induction false} ExecuteInv(s: State, es: seq<Event>)
    requires Inv(s)
    ensures Inv(Execute(s, es))
    decreases |es|
  {
    if es != [] {
      StepInv(s, es[0]);
      ExecuteInv(Step(s, es[0]), es[1..]);
    }
  }

  lemma InitialInv(threads: set<Tid>)
    ensures Inv(Initial(threads))
  {
    assert Readers(Initial(threads).pcs) == {} && Waiters(Initial(threads).pcs) == {};
  }

  // ------------------------------------------------------------ who gets in

  /**
   A playback that tries gets in exactly when no writer is inside or waiting; else it sleeps, and
   nothing else moves.
   */
  lemma PlaybackGetsInExactlyWhen(s: State, t: Tid)
    requires t in s.pcs && (s.pcs[t].Outside? || s.pcs[t].ReaderAwake?)
    ensures var r := Step(s, if s.pcs[t].Outside? then Read(t) else Retry(t));
            && t in r.pcs && (r.pcs[t].Reading? <==> !s.gate.active && s.gate.waiting <= 0)
            && r == State(if r.pcs[t].Reading? then s.gate.(readers := s.gate.readers + 1) else s.gate,
                          s.pcs[t := if r.pcs[t].Reading? then Reading else ReaderAsleep])
  {
  }

  /** A refresh that tries gets in exactly when nobody is inside or its time is up, and knows which. */
  lemma RefreshGetsInExactlyWhen(s: State, t: Tid)
    requires t in s.pcs && s.pcs[t].WriterAwake?
    ensures var r := Step(s, Retry(t));
            var drained := s.gate.readers == 0 && !s.gate.active;
            r == if drained || s.pcs[t].timeUp
                 then State(Gate(s.gate.readers, s.gate.waiting - 1, true), s.pcs[t := Writing(drained)])
                 else s.(pcs := s.pcs[t := WriterAsleep])
  {
  }

  // --------------------------------------------------------------- wake-ups

  /**
   In every run, with any number of overlapping writers and timeouts: a sleeping
   thread's condition is false, and while anybody sleeps somebody is inside the
   gate or awake and about to test it.
   */
  lemma NoLostWakeup(threads: set<Tid>, es: seq<Event>, t: Tid)
    ensures var s := Execute(Initial(threads), es);
            && (t in s.pcs && s.pcs[t].ReaderAsleep? ==> !s.gate.ReadersMayEnter())
            && (t in s.pcs && s.pcs[t].WriterAsleep? ==> !s.gate.Drained())
            && (t in s.pcs && (s.pcs[t].ReaderAsleep? || s.pcs[t].WriterAsleep?) ==>
                  exists u :: u in s.pcs
                      && (s.pcs[u].Reading? || s.pcs[u].Writing? || s.pcs[u].ReaderAwake? || s.pcs[u].WriterAwake?))
  {
    InitialInv(threads);
    ExecuteInv(Initial(threads), es);
    var s := Execute(Initial(threads), es);
    if t in s.pcs && (s.pcs[t].ReaderAsleep? || s.pcs[t].WriterAsleep?) {
      if s.gate.active {
        var u :| u in Writers(s.pcs);
        assert u in s.pcs && s.pcs[u].Writing?;
      } else if s.gate.readers != 0 {
        var u :| u in Readers(s.pcs);
        assert u in s.pcs && s.pcs[u].Reading?;
      } else {
        var u :| u in Waiters(s.pcs);
        assert u in s.pcs && s.pcs[u].WriterAwake?;
      }
    }
  }

  // --------------------------------------------------------------- exclusion

  /** Threads between the entry of `writer()` and its end. */
  function InWriter(pcs: map<Tid, Pc>): set<Tid> { Waiters(pcs) + Writers(pcs) }

  /** No thread other than `w` leaves `writer()` during the run. */
  ghost predicate NoWriterLeaves(s: State, es: seq<Event>)
    decreases |es|
  {
    es == [] || (!(es[0].Leave? && es[0].t in s.pcs && s.pcs[es[0].t].Writing?)
                 && NoWriterLeaves(Step(s, es[0]), es[1..]))
  }

  lemma {:induction false} SpanHasNoReaders(s: State, es: seq<Event>)
    requires s.gate.active && Inv(s) && NoWriterLeaves(s, es)
    ensures Execute(s, es).gate.active && Execute(s, es).gate.readers <= s.gate.readers
    decreases |es|
  {
    if es != [] {
      StepInv(s, es[0]);
      SpanHasNoReaders(Step(s, es[0]), es[1..]);
    }
  }

  /**
   A writer that went in drained runs with zero readers for as long as no writer
   leaves the gate: with or without other writers waiting or timing out.
   */
  lemma DrainedSpanIsExclusive(s: State, w: Tid, timeUp: bool, es: seq<Event>)
    requires Inv(s) && w in s.pcs && s.gate.Drained() && (s.pcs[w].WriterAwake? || s.pcs[w].Outside?)
    requires var e := if s.pcs[w].Outside? then Write(w) else Retry(w); NoWriterLeaves(Step(s, e), es)
    ensures var e := if s.pcs[w].Outside? then Write(w) else Retry(w);
            var r := Execute(Step(s, e), es);
            Step(s, e).pcs[w] == Writing(true) && r.gate.readers == 0 && Readers(r.pcs) == {}
  {
    var e := if s.pcs[w].Outside? then Write(w) else Retry(w);
    StepInv(s, e);
    SpanHasNoReaders(Step(s, e), es);
    ExecuteInv(Step(s, e), es);
  }

  /**
   What another writer's leaving does inside that span (it can be inside only by
   timing out): it clears the flag the drained writer relies on, and the next
   reader walks in beside it, if and only if no third writer is waiting.
   */
  lemma AnotherWriterLeavingBreaksIt(s: State, w: Tid, u: Tid, r: Tid)
    requires Inv(s) && w in s.pcs && u in s.pcs && r in s.pcs && w != u
    requires s.pcs[w] == Writing(true) && s.pcs[u].Writing? && s.pcs[r].Outside?
    ensures var x := Execute(s, [Leave(u), Read(r)]);
            w in x.pcs && r in x.pcs && x.pcs[w] == Writing(true) && (x.pcs[r] == Reading <==> Waiters(s.pcs) == {})
  {
    var s1 := Step(s, Leave(u));
    assert s1.pcs[w] == Writing(true) && s1.pcs[r] == Outside;
    Two(s, Leave(u), Read(r));
  }

  lemma Two(s: State, a: Event, b: Event)
    ensures Execute(s, [a, b]) == Step(Step(s, a), b)
  {
    hide Step;
    var t := Step(s, a);
    assert [a, b][1..] == [b] && [b][1..] == [];
    assert Execute(t, [b]) == Execute(Step(t, b), []);
  }

  lemma {:induction false} Join(s: State, es: seq<Event>, fs: seq<Event>)
    ensures Execute(s, es + fs) == Execute(Execute(s, es), fs)
    decreases |es|
  {
    hide Step;
    if es == [] {
      assert es + fs == fs;
    } else {
      assert (es + fs)[1..] == es[1..] + fs;
      Join(Step(s, es[0]), es[1..], fs);
    }
  }

  /** And it happens: two writers and a reader, one timeout. */
  lemma OverlappingWritersReachIt()
    ensures var s := Execute(Initial({0, 1, 2}), [Write(0), Write(1), TimeOut(1), Retry(1)] + [Leave(1), Read(2)]);
            0 in s.pcs && 2 in s.pcs && s.pcs[0] == Writing(true) && s.pcs[2] == Reading
  {
    var s0 := Initial({0, 1, 2});
    var s1 := Step(s0, Write(0));
    assert s1 == State(Gate(0, 0, true), map[0 := Writing(true), 1 := Outside, 2 := Outside]);
    var s2 := Step(s1, Write(1));
    assert s2 == State(Gate(0, 1, true), map[0 := Writing(true), 1 := WriterAsleep, 2 := Outside]);
    OverlapContinues(s2);
    Two(s0, Write(0), Write(1));
    Join(s0, [Write(0), Write(1)], [TimeOut(1), Retry(1)]);
    assert [Write(0), Write(1)] + [TimeOut(1), Retry(1)] == [Write(0), Write(1), TimeOut(1), Retry(1)];
    Join(s0, [Write(0), Write(1), TimeOut(1), Retry(1)], [Leave(1), Read(2)]);
    InitialInv({0, 1, 2});
    ExecuteInv(s0, [Write(0), Write(1), TimeOut(1), Retry(1)]);
    AnotherWriterLeavingBreaksIt(Execute(s0, [Write(0), Write(1), TimeOut(1), Retry(1)]), 0, 1, 2);
  }

  lemma OverlapContinues(s2: State)
    requires s2 == State(Gate(0, 1, true), map[0 := Writing(true), 1 := WriterAsleep, 2 := Outside])
    ensures Execute(s2, [TimeOut(1), Retry(1)])
            == State(Gate(0, 0, true), map[0 := Writing(true), 1 := Writing(false), 2 := Outside])
  {
    var s3 := Step(s2, TimeOut(1));
    assert s3 == State(Gate(0, 1, true), map[0 := Writing(true), 1 := WriterAwake(true), 2 := Outside]);
    var s4 := Step(s3, Retry(1));
    assert s4.pcs == map[0 := Writing(true), 1 := Writing(false), 2 := Outside];
    Two(s2, TimeOut(1), Retry(1));
  }

  // -------------------------------------------- one writer at a time, the way the router uses it

  ghost predicate OneWriterAtATime(s: State, es: seq<Event>)
    decreases |es|
  {
    |InWriter(s.pcs)| <= 1 && (es != [] ==> OneWriterAtATime(Step(s, es[0]), es[1..]))
  }

  /** With one writer at a time, `active` means exactly that the writer is inside. */
  ghost predicate SoloInv(s: State) {
    && Inv(s) && |InWriter(s.pcs)| <= 1
    && (s.gate.active <==> Writers(s.pcs) != {})
    && (forall t :: t in s.pcs && s.pcs[t] == Writing(true) ==> s.gate.readers == 0)
  }

  lemma TwoIsTooMany(x: set<Tid>, a: Tid, b: Tid)
    requires |x| <= 1 && a in x && b in x
    ensures a == b
  {
    if a != b {
      assert {a, b} <= x;
      SubsetSize({a, b}, x);
    }
  }

  /** While the one writer waits or writes, no other thread can enter. */
  lemma NobodyElseEnters(s: State, e: Event, w: Tid)
    requires SoloInv(s) && w in InWriter(s.pcs) && e.t in s.pcs && e.t != w
    ensures !s.gate.ReadersMayEnter() && e.t !in InWriter(s.pcs)
  {
    if w in Waiters(s.pcs) { assert |Waiters(s.pcs)| > 0; }
    if e.t in InWriter(s.pcs) { TwoIsTooMany(InWriter(s.pcs), e.t, w); }
  }

  lemma NoReaderEnters(s: State, e: Event)
    requires SoloInv(s) && InWriter(s.pcs) != {}
    ensures Readers(Step(s, e).pcs) <= Readers(s.pcs)
  {
    if e.t in s.pcs {
      var w :| w in InWriter(s.pcs);
      if e.t != w { NobodyElseEnters(s, e, w); }
    }
  }

  /** There is a writer waiting or inside, and just one, before every step of the run. */
  ghost predicate WriterSpan(s: State, es: seq<Event>)
    decreases |es|
  {
    |InWriter(s.pcs)| <= 1 && (es != [] ==> InWriter(s.pcs) != {} && WriterSpan(Step(s, es[0]), es[1..]))
  }

  /** From the moment a writer waits until it leaves, no playback enters: the readers are among those of its arrival. */
  lemma {:induction false} ReadersNeverRise(s: State, es: seq<Event>)
    requires SoloInv(s) && WriterSpan(s, es)
    ensures Readers(Execute(s, es).pcs) <= Readers(s.pcs) && Execute(s, es).gate.readers <= s.gate.readers
    decreases |es|
  {
    hide Readers, InWriter, Step;
    if es != [] {
      NoReaderEnters(s, es[0]);
      SoloStep(s, es[0]);
      ReadersNeverRise(Step(s, es[0]), es[1..]);
      SubsetSize(Readers(Step(s, es[0]).pcs), Readers(s.pcs));
    }
  }

  /** The one writer leaves: nobody is left inside. */
  lemma LastWriterLeaves(s: State, t: Tid)
    requires |InWriter(s.pcs)| <= 1 && t in s.pcs && s.pcs[t].Writing?
    ensures Writers(Step(s, Leave(t)).pcs) == {} && !Step(s, Leave(t)).gate.active
  {
    WakeKeeps(s.pcs[t := Outside]);
    forall a | a in Writers(s.pcs) ensures a == t { TwoIsTooMany(InWriter(s.pcs), a, t); }
  }

  lemma ReaderLeaves(s: State, t: Tid)
    requires t in s.pcs && !s.pcs[t].Writing?
    ensures Writers(Step(s, Leave(t)).pcs) == Writers(s.pcs) && Step(s, Leave(t)).gate.active == s.gate.active
  {
    WakeKeeps(s.pcs[t := Outside]);
    assert Writers(s.pcs[t := Outside]) == Writers(s.pcs);
  }

  /** Any other step writes only its own thread's entry. */
  lemma OwnEntryOnly(s: State, e: Event)
    requires e.t in s.pcs && !e.Leave? && (s.gate.active <==> Writers(s.pcs) != {})
    ensures Step(s, e).gate.active <==> Writers(Step(s, e).pcs) != {}
  {
    var r := Step(s, e);
    assert Writers(r.pcs) == if r.pcs[e.t].Writing? then Writers(s.pcs) + {e.t} else Writers(s.pcs) - {e.t};
  }

  lemma ActiveMeansInside(s: State, e: Event)
    requires |InWriter(s.pcs)| <= 1 && (s.gate.active <==> Writers(s.pcs) != {})
    ensures Step(s, e).gate.active <==> Writers(Step(s, e).pcs) != {}
  {
    if e.t in s.pcs {
      if !e.Leave? {
        OwnEntryOnly(s, e);
      } else if s.pcs[e.t].Writing? {
        LastWriterLeaves(s, e.t);
      } else {
        ReaderLeaves(s, e.t);
      }
    }
  }

  /** A step of another thread writes nobody into the gate. */
  lemma StillWriting(s: State, e: Event, t: Tid)
    requires e.t != t && t in Step(s, e).pcs && Step(s, e).pcs[t] == Writing(true)
    ensures t in s.pcs && s.pcs[t] == Writing(true)
  {
  }

  lemma NobodyReads(s: State, t: Tid)
    requires s.gate.readers == |Readers(s.pcs)| == 0
    ensures t in s.pcs ==> !s.pcs[t].Reading?
  {
    assert t !in Readers(s.pcs);
  }

  lemma OthersStayOut(s: State, e: Event)
    requires e.t in s.pcs && !s.gate.ReadersMayEnter() && !s.pcs[e.t].Reading?
    ensures Step(s, e).gate.readers == s.gate.readers
  {
  }

  lemma EntersDrained(s: State, e: Event)
    requires e.t in s.pcs && Step(s, e).pcs[e.t] == Writing(true)
    requires s.pcs[e.t] == Writing(true) ==> s.gate.readers == 0
    ensures Step(s, e).gate.readers == 0
  {
  }

  lemma DrainedStays(s: State, e: Event, t: Tid)
    requires SoloInv(s) && |InWriter(Step(s, e).pcs)| <= 1
    requires var r := Step(s, e); t in r.pcs && r.pcs[t] == Writing(true)
    ensures Step(s, e).gate.readers == 0
  {
    if e.t !in s.pcs {
    } else if e.t != t {
      StillWriting(s, e, t);
      assert t in InWriter(s.pcs);
      NobodyElseEnters(s, e, t);
      NobodyReads(s, e.t);
      OthersStayOut(s, e);
    } else {
      EntersDrained(s, e);
    }
    hide InWriter, Readers, Waiters, Writers, Wake, TestReader, TestWriter;
  }

  lemma SoloStep(s: State, e: Event)
    requires SoloInv(s) && |InWriter(Step(s, e).pcs)| <= 1
    ensures SoloInv(Step(s, e))
  {
    StepInv(s, e);
    ActiveMeansInside(s, e);
    var r := Step(s, e);
    hide Inv, Step;
    forall t | t in r.pcs && r.pcs[t] == Writing(true) ensures r.gate.readers == 0 { DrainedStays(s, e, t); }
  }

  lemma {:induction false} GateExclusion(s: State, es: seq<Event>)
    requires SoloInv(s) && OneWriterAtATime(s, es)
    ensures SoloInv(Execute(s, es))
    decreases |es|
  {
    if es != [] {
      SoloStep(s, es[0]);
      GateExclusion(Step(s, es[0]), es[1..]);
    }
  }

  /** In every run with one writer at a time, a drained writer is alone for its whole span. */
  lemma DrainedWriterIsAlone(threads: set<Tid>, es: seq<Event>, w: Tid)
    requires OneWriterAtATime(Initial(threads), es)
    ensures var s := Execute(Initial(threads), es);
            w in s.pcs && s.pcs[w] == Writing(true) ==> Readers(s.pcs) == {}
  {
    var s0 := Initial(threads);
    InitialInv(threads);
    assert Writers(s0.pcs) == {} && Waiters(s0.pcs) == {};
    GateExclusion(s0, es);
  }
}
