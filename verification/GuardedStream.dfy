/**
 The teardown methods of SOURCE/audio_core/portaudio_guard.py on their own fields.
 Which locks another thread keeps past the timeout (`busy`) and which raw closes
 raise (`broken`) are parameters; `StreamProtocol` models the interleavings.
 */
module GuardedStream {
  import opened Common

  type Instance = nat

  datatype Outcome = Done | TimedOut | Raised

  datatype CallError = StreamClosed

  /** What has been done to a raw stream, oldest first. */
  datatype Raw = Used | Freed

  /** The registry `m` with `gone` taken out of one instance's streams. */
  ghost function Without(m: map<Instance, set<GuardedStream>>, p: Instance, gone: set<GuardedStream>)
    : map<Instance, set<GuardedStream>>
  {
    if p in m then m[p := m[p] - gone] else m
  }

  /** Just those streams leave, and just that instance's. */
  lemma WithoutTakesJust(m: map<Instance, set<GuardedStream>>, p: Instance, gone: set<GuardedStream>)
    ensures var r := Without(m, p, gone);
            r.Keys == m.Keys && forall q :: q in m ==> r[q] == if q == p then m[q] - gone else m[q]
  {
  }

  ghost predicate OwnedBy(streams: set<GuardedStream>, p: Instance) { forall x :: x in streams ==> x.owner == p }

  lemma WithoutNone(m: map<Instance, set<GuardedStream>>, p: Instance)
    ensures Without(m, p, {}) == m
  {
    if p in m { assert m[p] - {} == m[p]; }
  }

  lemma WithoutAccumulates(m: map<Instance, set<GuardedStream>>, p: Instance, gone: set<GuardedStream>,
                           x: GuardedStream)
    ensures Without(Without(m, p, gone), p, {x}) == Without(m, p, gone + {x})
  {
    if p in m { assert m[p] - gone - {x} == m[p] - (gone + {x}); }
  }

  /** `_STREAM_REGISTRY`. */
  class Registry {
    var streams: map<Instance, set<GuardedStream>>

    constructor ()
      ensures streams == map[]
    {
      streams := map[];
    }

    ghost predicate Valid()
      reads this
    {
      forall p, x :: p in streams && x in streams[p] ==> x.owner == p
    }

    function Of(p: Instance): set<GuardedStream>
      reads this
    {
      if p in streams then streams[p] else {}
    }

    method Discard(x: GuardedStream)
      requires Valid()
      modifies this
      ensures Valid() && streams == Without(old(streams), x.owner, {x})
    {
      if x.owner in streams {
        streams := streams[x.owner := streams[x.owner] - {x}];
      }
    }
  }

  class GuardedStream {
    const owner: Instance
    var closed: bool
    var freed: bool    // Pa_CloseStream was entered on the raw stream
    ghost var raw: seq<Raw>

    /** The raw stream is freed at most once and never used afterwards. */
    ghost predicate Valid()
      reads this
    {
      && (freed <==> Freed in raw) && (freed ==> closed)
      && forall i :: 0 <= i < |raw| - 1 ==> raw[i] != Freed
    }

    constructor (owner: Instance)
      ensures this.owner == owner && !closed && !freed && raw == [] && Valid()
    {
      this.owner, closed, freed, raw := owner, false, false, [];
    }

    /** `_call`: the raw stream is used exactly when nobody has closed this one, and is freed by no call. */
    method Call(answer: int) returns (r: Result<int, CallError>)
      requires Valid()
      modifies this`raw
      ensures Valid()
      ensures raw == if closed then old(raw) else old(raw) + [Used]
      ensures r.Err? <==> closed
      ensures r.Ok? ==> r.value == answer && Freed !in raw
    {
      if closed { return Err(StreamClosed); }
      raw := raw + [Used];
      return Ok(answer);
    }

    method Close(busy: bool, broken: bool, registry: Registry) returns (out: Outcome)
      requires registry.Valid() && Valid()
      modifies this, registry
      ensures registry.Valid() && Valid() && closed
      ensures out == if busy then TimedOut else if broken && !old(closed) then Raised else Done
      // only a stream that is idle and not yet closed is freed, and it is freed here
      ensures freed == (old(freed) || (!busy && !old(closed)))
      ensures raw == if !busy && !old(closed) then old(raw) + [Freed] else old(raw)
      // a stream leaves the registry exactly when this call frees it
      ensures registry.streams == if busy || old(closed) then old(registry.streams)
              else Without(old(registry.streams), owner, {this})
    {
      if busy {
        closed := true;
        return TimedOut;
      }
      if closed { return Done; }
      freed, raw := true, raw + [Freed];
      closed := true;
      registry.Discard(this);
      return if broken then Raised else Done;
    }
  }

  ghost function Open(streams: set<GuardedStream>): set<GuardedStream>
    reads streams
  {
    set x | x in streams && !x.closed
  }

  /** The flags of `streams` when all but `todo` have been tried and `gone` were freed on the way. */
  ghost predicate Flags(streams: set<GuardedStream>, open: set<GuardedStream>, freed: set<GuardedStream>,
                        todo: set<GuardedStream>, gone: set<GuardedStream>)
    reads streams
  {
    forall x :: x in streams ==>
        x.Valid() && x.closed == (x !in open || x !in todo) && x.freed == (x in freed || x in gone)
  }

  method CloseNext(x: GuardedStream, busy: bool, broken: bool, registry: Registry, ghost streams: set<GuardedStream>,
                   ghost open: set<GuardedStream>, ghost freed: set<GuardedStream>, ghost todo: set<GuardedStream>,
                   ghost gone: set<GuardedStream>)
      returns (r: Outcome, ghost gone': set<GuardedStream>)
    requires registry.Valid() && x in todo && todo <= streams && Flags(streams, open, freed, todo, gone)
    modifies x, registry
    ensures registry.Valid() && Flags(streams, open, freed, todo - {x}, gone')
    ensures gone' == if x in open && !busy then gone + {x} else gone
    ensures r == if busy then TimedOut else if broken && x in open then Raised else Done
    ensures registry.streams == if x in open && !busy then Without(old(registry.streams), x.owner, {x})
            else old(registry.streams)
  {
    hide Without;
    gone' := if x in open && !busy then gone + {x} else gone;
    r := x.Close(busy, broken, registry);
  }

  /** Of `streams`, all but `todo` tried: `gone` are the open ones that were not busy, and `out` sums up how it went. */
  ghost predicate Tally(streams: set<GuardedStream>, open: set<GuardedStream>, busy: set<GuardedStream>,
                        broken: set<GuardedStream>, todo: set<GuardedStream>, gone: set<GuardedStream>, out: Outcome)
  {
    && gone == open - busy - todo
    && (out.Raised? <==> exists x :: x in gone && x in broken)
    && (!out.Raised? ==> (out.Done? <==> forall x :: x in streams && x in busy ==> x in todo))
  }

  lemma TallyStarts(streams: set<GuardedStream>, open: set<GuardedStream>, busy: set<GuardedStream>,
                    broken: set<GuardedStream>)
    requires open <= streams
    ensures Tally(streams, open, busy, broken, streams, {}, Done)
  {
  }

  lemma TallyNext(streams: set<GuardedStream>, open: set<GuardedStream>, busy: set<GuardedStream>,
                  broken: set<GuardedStream>, todo: set<GuardedStream>, gone: set<GuardedStream>,
                  out: Outcome, x: GuardedStream, r: Outcome)
    requires Tally(streams, open, busy, broken, todo, gone, out) && x in todo && todo <= streams && !out.Raised?
    requires r == if x in busy then TimedOut else if x in broken && x in open then Raised else Done
    ensures Tally(streams, open, busy, broken, todo - {x}, if x in open && x !in busy then gone + {x} else gone,
                  if r.Done? then out else r)
  {
  }

  /** What the sum says when nothing is left to try, or a raw close has raised. */
  lemma TallyEnds(streams: set<GuardedStream>, open: set<GuardedStream>, busy: set<GuardedStream>,
                  broken: set<GuardedStream>, todo: set<GuardedStream>, gone: set<GuardedStream>, out: Outcome)
    requires Tally(streams, open, busy, broken, todo, gone, out) && open <= streams && (out.Raised? || todo == {})
    ensures out.Raised? <==> exists x :: x in open && x in broken && x !in busy
    ensures !out.Raised? ==> (out.Done? <==> forall x :: x in streams ==> x !in busy) && gone == open - busy
    ensures gone <= open - busy
  {
  }

  /**
   `_close_streams_for`: the list is built before `all` looks at it, so one busy
   stream does not stop the others from being closed.  A raw close that raises does.
   `gone` are the streams freed and unregistered by this call.
   */
  method CloseStreamsFor(p: Instance, busy: set<GuardedStream>, broken: set<GuardedStream>, registry: Registry)
      returns (out: Outcome, ghost gone: set<GuardedStream>)
    requires registry.Valid() && forall x :: x in registry.Of(p) ==> x.Valid()
    modifies registry, registry.Of(p)
    ensures registry.Valid() && forall x :: x in old(registry.Of(p)) ==> x.Valid()
    ensures out.Raised? <==> exists x :: x in old(Open(registry.Of(p))) && x in broken && x !in busy
    ensures !out.Raised? ==>
              && (out.Done? <==> forall x :: x in old(registry.Of(p)) ==> x !in busy)
              && gone == old(Open(registry.Of(p))) - busy
              && Open(old(registry.Of(p))) == {}
    ensures gone <= old(Open(registry.Of(p))) - busy
    ensures forall x :: x in old(registry.Of(p)) ==> x.freed == (old(x.freed) || x in gone)
    ensures registry.streams == Without(old(registry.streams), p, gone)
  {
    hide Without;
    hide Tally;
    var streams := registry.Of(p);
    var todo := streams;
    out := Done;
    ghost var open := Open(streams);
    ghost var wasFreed := set x | x in streams && x.freed;
    gone := {};
    WithoutNone(registry.streams, p);
    TallyStarts(streams, open, busy, broken);
    while todo != {} && !out.Raised?
      invariant registry.Valid() && todo <= streams && OwnedBy(streams, p)
      invariant Flags(streams, open, wasFreed, todo, gone) && Tally(streams, open, busy, broken, todo, gone, out)
      invariant registry.streams == Without(old(registry.streams), p, gone)
      decreases |todo|
    {
      var x :| x in todo;
      WithoutAccumulates(old(registry.streams), p, gone, x);
      ghost var before := gone;
      var r;
      r, gone := CloseNext(x, x in busy, x in broken, registry, streams, open, wasFreed, todo, gone);
      TallyNext(streams, open, busy, broken, todo, before, out, x, r);
      todo := todo - {x};
      out := if r.Done? then out else r;
    }
    TallyEnds(streams, open, busy, broken, todo, gone, out);
  }

  /**
   `terminate_portaudio`: Pa_Terminate runs exactly when no registered stream is
   busy and no raw close raises.  By then every one of them is closed, and what is
   left for Pa_Terminate to free is just the streams an earlier close abandoned.
   */
  method TerminatePortaudio(pa: Option<Instance>, busy: set<GuardedStream>, broken: set<GuardedStream>,
                            registry: Registry)
      returns (terminated: bool, raised: bool)
    requires registry.Valid() && (pa.Some? ==> forall x :: x in registry.Of(pa.value) ==> x.Valid())
    modifies registry, if pa.Some? then registry.Of(pa.value) else {}
    ensures registry.Valid() && (pa.Some? ==> forall x :: x in old(registry.Of(pa.value)) ==> x.Valid())
    ensures pa.None? ==> !terminated && !raised && registry.streams == old(registry.streams)
    ensures pa.Some? ==>
              var streams, open := old(registry.Of(pa.value)), old(Open(registry.Of(pa.value)));
              && (terminated <==> (forall x :: x in streams ==> x !in busy) && (forall x :: x in open ==> x !in broken))
              && (raised <==> exists x :: x in open && x in broken && x !in busy)
              && (terminated ==>
                  Open(streams) == {} && registry.Of(pa.value) == streams - open && forall x :: x in open ==> x.freed)
  {
    if pa.None? { return false, false; }
    ghost var open := Open(registry.Of(pa.value));
    var out, gone := CloseStreamsFor(pa.value, busy, broken, registry);
    assert out.Done? ==> gone == open;
    terminated, raised := out.Done?, out.Raised?;
  }
}
