/**
 Moving every stream owner across a device change
 (SOURCE/audio_core/device_change.py, and `refresh_sounddevice_devices` in
 SOURCE/audio_core/portaudio_guard.py).

 Which calls raise is a parameter.  A suspend that returns has closed its owner's
 stream; one that raises has not; a resume that returns has opened it again.
 */
module DeviceChange {
  import opened Common
  import Gate = PlaybackGate

  type Owner = nat

  datatype Event =
    | Suspend(o: Owner)
    | EnterWriter(drained: bool)
    | Terminate
    | Initialize
    | LeaveWriter
    | Resume(o: Owner)

  /** What goes wrong in one device change. */
  datatype Weather = Weather(
    suspendRaises: set<Owner>,
    installed: bool,            // `import sounddevice` succeeds
    terminateRaises: bool,
    initializeRaises: nat,      // how many attempts at `_initialize` fail
    resumeRaises: set<Owner>,
    late: seq<Owner>)           // owners that register and open a stream after the snapshot

  predicate NoDuplicates<T(==)>(s: seq<T>) {
    forall i, j :: 0 <= i < j < |s| ==> s[i] != s[j]
  }

  // --------------------------------------------------------- what must happen

  function Suspends(owners: seq<Owner>): seq<Event> {
    if owners == [] then [] else Suspends(owners[..|owners| - 1]) + [Suspend(owners[|owners| - 1])]
  }

  function Resumes(owners: seq<Owner>): seq<Event> {
    if owners == [] then [] else Resumes(owners[..|owners| - 1]) + [Resume(owners[|owners| - 1])]
  }

  function RefreshTrace(w: Weather): seq<Event> {
    if !w.installed then []
    else if w.terminateRaises then [Terminate]
    else if w.initializeRaises == 0 then [Terminate, Initialize]
    else [Terminate, Initialize, Initialize]
  }

  function Trace(owners: seq<Owner>, drained: bool, w: Weather): seq<Event> {
    Suspends(owners) + ([EnterWriter(drained)] + RefreshTrace(w) + [LeaveWriter]) + Resumes(owners)
  }

  datatype RefreshError = TerminateFailed | InitializeFailed

  /** The one sounddevice library of the process and the streams open on it. */
  class SoundDevice {
    var trace: seq<Event>
    var open: set<Owner>
    ghost var cut: set<Owner>    // streams open when `Pa_Terminate` last ran

    constructor ()
      ensures trace == [] && open == {} && cut == {}
    {
      trace, open, cut := [], {}, {};
    }

    method SuspendOwner(o: Owner, raises: bool)
      modifies this
      ensures trace == old(trace) + [Suspend(o)] && cut == old(cut)
      ensures open == if raises then old(open) else old(open) - {o}
    {
      trace := trace + [Suspend(o)];
      if !raises { open := open - {o}; }
    }

    method ResumeOwner(o: Owner, raises: bool)
      modifies this
      ensures trace == old(trace) + [Resume(o)] && cut == old(cut)
      ensures open == if raises then old(open) else old(open) + {o}
    {
      trace := trace + [Resume(o)];
      if !raises { open := open + {o}; }
    }

    /** `refresh_sounddevice_devices`: one retry, and a second failure is not swallowed. */
    method Refresh(w: Weather) returns (r: Result<bool, RefreshError>)
      modifies this
      ensures trace == old(trace) + RefreshTrace(w) && open == old(open)
      ensures cut == if w.installed then open else old(cut)
      ensures r == if !w.installed then Ok(false)
                   else if w.terminateRaises then Err(TerminateFailed)
                   else if w.initializeRaises >= 2 then Err(InitializeFailed)
                   else Ok(true)
    {
      if !w.installed { return Ok(false); }
      trace, cut := trace + [Terminate], open;
      if w.terminateRaises { return Err(TerminateFailed); }
      trace := trace + [Initialize];
      if w.initializeRaises > 0 {
        trace := trace + [Initialize];
        if w.initializeRaises > 1 { return Err(InitializeFailed); }
      }
      return Ok(true);
    }
  }

  /** The owners whose call returned. */
  function Obeyed(owners: seq<Owner>, raises: set<Owner>): set<Owner> { set o | o in owners && o !in raises }

  function Members(owners: seq<Owner>): set<Owner> { set o | o in owners }

  lemma OneMore(owners: seq<Owner>, i: nat, raises: set<Owner>)
    requires i < |owners|
    ensures var prefix, longer := owners[..i], owners[..i + 1];
            && Suspends(longer) == Suspends(prefix) + [Suspend(owners[i])]
            && Resumes(longer) == Resumes(prefix) + [Resume(owners[i])]
            && Obeyed(longer, raises) == Obeyed(prefix, raises) + (if owners[i] in raises then {} else {owners[i]})
  {
    assert owners[..i + 1] == owners[..i] + [owners[i]] && owners[..i + 1][..i] == owners[..i];
  }

  method SuspendAll(sd: SoundDevice, owners: seq<Owner>, raises: set<Owner>)
    modifies sd
    ensures sd.trace == old(sd.trace) + Suspends(owners) && sd.cut == old(sd.cut)
    ensures sd.open == old(sd.open) - Obeyed(owners, raises)
  {
    var i := 0;
    while i < |owners|
      invariant i <= |owners| && sd.cut == old(sd.cut)
      invariant sd.trace == old(sd.trace) + Suspends(owners[..i])
      invariant sd.open == old(sd.open) - Obeyed(owners[..i], raises)
    {
      OneMore(owners, i, raises);
      sd.SuspendOwner(owners[i], owners[i] in raises);
      i := i + 1;
    }
    assert owners[..i] == owners;
  }

  /** The refresh, with the transient-playback gate held; an error is logged and the writer left either way. */
  method RefreshBehindGate(sd: SoundDevice, gate: Gate.PlaybackGate, w: Weather) returns (drained: bool)
    modifies sd, gate
    ensures drained <==> old(gate.Value()).Drained()
    ensures sd.trace == old(sd.trace) + ([EnterWriter(drained)] + RefreshTrace(w) + [LeaveWriter])
            && sd.open == old(sd.open)
    ensures sd.cut == if w.installed then sd.open else old(sd.cut)
    ensures gate.Value() == old(gate.Value()).(active := false)
  {
    gate.StartWriter();
    var entered, wasDrained := gate.TryEnterWriter(true);
    drained := wasDrained;
    sd.trace := sd.trace + [EnterWriter(drained)];
    var outcome := sd.Refresh(w);
    gate.LeaveWriter();
    sd.trace := sd.trace + [LeaveWriter];
  }

  method ResumeAll(sd: SoundDevice, owners: seq<Owner>, raises: set<Owner>)
    modifies sd
    ensures sd.trace == old(sd.trace) + Resumes(owners) && sd.cut == old(sd.cut)
    ensures sd.open == old(sd.open) + Obeyed(owners, raises)
  {
    var i := 0;
    while i < |owners|
      invariant i <= |owners| && sd.cut == old(sd.cut)
      invariant sd.trace == old(sd.trace) + Resumes(owners[..i])
      invariant sd.open == old(sd.open) + Obeyed(owners[..i], raises)
    {
      OneMore(owners, i, raises);
      sd.ResumeOwner(owners[i], owners[i] in raises);
      i := i + 1;
    }
    assert owners[..i] == owners;
  }

  // ------------------------------------------------------- what the trace means

  lemma {:induction false} CountResumes(owners: seq<Owner>, o: Owner)
    requires NoDuplicates(owners)
    ensures multiset(Resumes(owners))[Resume(o)] == (if o in owners then 1 else 0)
    ensures multiset(Suspends(owners))[Resume(o)] == 0
    ensures multiset(Suspends(owners))[Suspend(o)] == (if o in owners then 1 else 0)
    ensures multiset(Resumes(owners))[Suspend(o)] == 0
  {
    if owners != [] {
      var front, last := owners[..|owners| - 1], owners[|owners| - 1];
      assert owners == front + [last];
      CountResumes(front, o);
    }
  }

  lemma NoOwnersInTheMiddle(drained: bool, w: Weather, o: Owner)
    ensures var middle := multiset([EnterWriter(drained)] + RefreshTrace(w) + [LeaveWriter]);
            middle[Resume(o)] == 0 && middle[Suspend(o)] == 0
  {
    var middle := [EnterWriter(drained)] + RefreshTrace(w) + [LeaveWriter];
    assert Resume(o) !in middle && Suspend(o) !in middle;
  }

  /**
   Read back from the trace alone: every owner in the registry is suspended once
   and resumed once whatever failed, nobody else is, and between the two the
   device table is torn down at most once.
   */
  lemma EveryOwnerResumedOnce(owners: seq<Owner>, drained: bool, w: Weather, o: Owner)
    requires NoDuplicates(owners)
    ensures var t := multiset(Trace(owners, drained, w));
            && t[Resume(o)] == (if o in owners then 1 else 0)
            && t[Suspend(o)] == (if o in owners then 1 else 0)
  {
    CountResumes(owners, o);
    NoOwnersInTheMiddle(drained, w, o);
    hide RefreshTrace, Suspends, Resumes;
  }

  lemma {:induction false} ShapeOf(owners: seq<Owner>, i: nat)
    requires i < |owners|
    ensures |Suspends(owners)| == |owners| && Suspends(owners)[i] == Suspend(owners[i])
    ensures |Resumes(owners)| == |owners| && Resumes(owners)[i] == Resume(owners[i])
  {
    if i < |owners| - 1 {
      ShapeOf(owners[..|owners| - 1], i);
    } else if |owners| > 1 {
      ShapeOf(owners[..|owners| - 1], i - 1);
    }
  }

  /** Every suspend comes before the teardown of the device table and every resume after it. */
  lemma SuspendTerminateResume(owners: seq<Owner>, drained: bool, w: Weather, k: nat)
    requires k < |Trace(owners, drained, w)| && Trace(owners, drained, w)[k] == Terminate
    ensures var t := Trace(owners, drained, w);
            && (forall i :: 0 <= i < |t| && t[i].Suspend? ==> i < k)
            && (forall i :: 0 <= i < |t| && (t[i].Resume? || t[i].LeaveWriter?) ==> i > k)
            && (forall i :: 0 <= i < |t| && i != k ==> t[i] != Terminate)
            && (exists i :: 0 <= i < k && t[i] == EnterWriter(drained))
  {
    var n := |owners|;
    var t := Trace(owners, drained, w);
    if n > 0 { ShapeOf(owners, 0); }
    forall i | 0 <= i < n ensures Suspends(owners)[i].Suspend? && Resumes(owners)[i].Resume? {
      ShapeOf(owners, i);
    }
    hide Suspends, Resumes;
    assert t[n] == EnterWriter(drained);
  }

  /** The trace at its writer section, which stands right after the suspends. */
  lemma WriterSection(owners: seq<Owner>, drained: bool, w: Weather, i: nat)
    requires i < |RefreshTrace(w)| + 2
    ensures |owners| + i < |Trace(owners, drained, w)|
    ensures Trace(owners, drained, w)[|owners| + i] == ([EnterWriter(drained)] + RefreshTrace(w) + [LeaveWriter])[i]
  {
    if owners != [] { ShapeOf(owners, 0); }
    hide Suspends, Resumes, RefreshTrace;
  }

  /**
   What a refresh does to the device table, read off the trace: torn down exactly when
   the library is there; and if the teardown does not raise, initialised right after it,
   a second time exactly when the first failed, before the writer leaves.
   */
  lemma TeardownIsFollowedByInitialize(owners: seq<Owner>, drained: bool, w: Weather)
    ensures var t, n := Trace(owners, drained, w), |owners|;
            && n + 2 <= |t| && t[n] == EnterWriter(drained)
            && (w.installed <==> t[n + 1] == Terminate)
            && (w.installed ==> n + 3 <= |t| && (!w.terminateRaises <==> t[n + 2] == Initialize))
            && (w.installed && !w.terminateRaises ==>
                n + 4 <= |t| && (w.initializeRaises > 0 <==> t[n + 3] == Initialize))
            && (w.installed && !w.terminateRaises && w.initializeRaises > 0 ==> n + 5 <= |t| && t[n + 4] == LeaveWriter)
            && (w.installed && !w.terminateRaises && w.initializeRaises == 0 ==> t[n + 3] == LeaveWriter)
            && (w.installed && w.terminateRaises ==> t[n + 2] == LeaveWriter)
            && (!w.installed ==> t[n + 1] == LeaveWriter)
  {
    var section := [EnterWriter(drained)] + RefreshTrace(w) + [LeaveWriter];
    forall i | 0 <= i < |section| ensures |owners| + i < |Trace(owners, drained, w)|
                                          && Trace(owners, drained, w)[|owners| + i] == section[i] {
      WriterSection(owners, drained, w, i);
    }
    hide Trace;
    assert section[0] == EnterWriter(drained) && |section| >= 2;
    var t, n := Trace(owners, drained, w), |owners|;
    assert t[n + 0] == section[0] && t[n + 1] == section[1];
    if |section| > 2 { assert t[n + 2] == section[2]; }
    if |section| > 3 { assert t[n + 3] == section[3]; }
    if |section| > 4 { assert t[n + 4] == section[4]; }
  }

  class OwnerRegistry {
    var owners: seq<Owner>

    constructor ()
      ensures owners == []
    {
      owners := [];
    }

    /** Returns whether the device watch is to be started. */
    method Register(o: Owner) returns (startedNow: bool)
      requires NoDuplicates(owners)
      modifies this
      ensures NoDuplicates(owners) && startedNow == (o !in old(owners))
      ensures owners == if o in old(owners) then old(owners) else old(owners) + [o]
    {
      if o in owners { return false; }
      owners := owners + [o];
      return true;
    }

    /** `list.remove` takes the first occurrence; there is only one. */
    method Unregister(o: Owner)
      requires NoDuplicates(owners)
      modifies this
      ensures NoDuplicates(owners) && o !in owners
      ensures o !in old(owners) ==> owners == old(owners)
      ensures o in old(owners) ==>
                exists i :: 0 <= i < |old(owners)| && old(owners)[i] == o
                    && owners == old(owners)[..i] + old(owners)[i + 1..]
    {
      var i := 0;
      while i < |owners| && owners[i] != o
        invariant 0 <= i <= |owners| && o !in owners[..i] && owners == old(owners)
      {
        i := i + 1;
      }
      if i < |owners| {
        assert old(owners)[i] == o;
        owners := owners[..i] + owners[i + 1..];
      }
    }

    /**
     `handle_device_change`.  Whatever raises: every snapshot owner is suspended,
     then there is one refresh inside one writer section, then every snapshot owner
     is resumed, each in order, and the gate is left open.
     */
    method HandleDeviceChange(sd: SoundDevice, gate: Gate.PlaybackGate, w: Weather) returns (ghost drained: bool)
      requires NoDuplicates(owners)
      modifies this, sd, gate
      ensures drained <==> old(gate.Value()).Drained()
      ensures sd.trace == old(sd.trace) + Trace(old(owners), drained, w)
      ensures gate.Value() == old(gate.Value()).(active := false)
      ensures NoDuplicates(owners) && old(owners) <= owners
      // the streams Pa_Terminate finds open are exactly those not suspended and the late ones
      ensures w.installed ==> sd.cut == old(sd.open) - Obeyed(old(owners), w.suspendRaises) + Members(w.late)
      ensures sd.open == old(sd.open) - Obeyed(old(owners), w.suspendRaises) + Members(w.late)
              + Obeyed(old(owners), w.resumeRaises)
    {
      var snapshot := owners;
      SuspendAll(sd, snapshot, w.suspendRaises);
      Arrivals(sd, w.late);
      drained := RefreshBehindGate(sd, gate, w);
      ResumeAll(sd, snapshot, w.resumeRaises);
    }

    /** Owners that come in while the change is under way: they are not in the snapshot. */
    method Arrivals(sd: SoundDevice, late: seq<Owner>)
      requires NoDuplicates(owners)
      modifies this, sd
      ensures NoDuplicates(owners) && old(owners) <= owners
      ensures sd.trace == old(sd.trace) && sd.cut == old(sd.cut) && sd.open == old(sd.open) + Members(late)
    {
      var i := 0;
      hide NoDuplicates;
      while i < |late|
        invariant i <= |late| && NoDuplicates(owners) && old(owners) <= owners
        invariant sd.trace == old(sd.trace) && sd.cut == old(sd.cut) && sd.open == old(sd.open) + Members(late[..i])
      {
        var started := Register(late[i]);
        sd.open := sd.open + {late[i]};
        assert late[..i + 1] == late[..i] + [late[i]];
        i := i + 1;
      }
      assert late[..i] == late;
    }
  }
}
