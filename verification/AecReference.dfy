/**
 The echo canceller's two bounded reference queues
 (SOURCE/audio_core/aec_reference_base.py).  Samples are opaque and already mono
 at the adapter's rate; loudness is a function the caller supplies.
 */
module AecReference {
  import opened Common
  import opened LoopbackVerdict

  type Sample = int

  const BUFFER_SIZE_SAMPLES := 8000
  const LOCAL_PLAYBACK_BUFFER_SAMPLES := 4000
  const MIN_READY_SAMPLES := 800

  function Zeros(n: nat): seq<Sample> { seq(n, i => 0) }

  /** A stretch of the pushed stream that was handed out. */
  datatype Span = Span(lo: nat, hi: nat)

  /** The stretches are real, in order and apart, and all before `limit`: no sample is handed out twice. */
  ghost predicate InOrder(spans: seq<Span>, limit: nat) {
    && (forall i :: 0 <= i < |spans| ==> spans[i].lo <= spans[i].hi <= limit)
    && (forall i, j :: 0 <= i < j < |spans| ==> spans[i].hi <= spans[j].lo)
  }

  /** What `collections.deque(maxlen=cap)` keeps of `s`. */
  function Newest(s: seq<Sample>, cap: nat): seq<Sample> {
    if |s| <= cap then s else s[|s| - cap..]
  }

  lemma NewestOneMore(s: seq<Sample>, x: Sample, cap: nat)
    ensures Newest(Newest(s, cap) + [x], cap) == Newest(s + [x], cap)
  {
  }

  /** What a queue holds of what went in, when nothing was taken out. */
  predicate KeepsNewest(kept: nat, cap: nat, pushed: nat) { kept == Min(cap, pushed) }

  lemma StillCapped(cap: nat, n: nat)
    ensures Min(cap, Min(cap, n) + 1) == Min(cap, n + 1)
  {
  }

  /** A `deque(maxlen=cap)`; `pushed` is everything ever put in, `served` what was taken out. */
  class BoundedFifo {
    const cap: nat
    var items: seq<Sample>
    ghost var pushed: seq<Sample>
    ghost var served: seq<Span>

    /**
     The queue is always a suffix of everything pushed, and everything served lies before it; until
     something is served it is the whole of it or its newest `cap` samples.
     */
    ghost predicate Valid()
      reads this
    {
      && |items| <= cap && |items| <= |pushed|
      && items == pushed[Head()..]
      && InOrder(served, Head())
      && (served == [] ==> KeepsNewest(|items|, cap, |pushed|))
    }

    /** Where in the pushed stream the queue begins. */
    ghost function Head(): (p: nat)
      reads this
    {
      if |items| <= |pushed| then |pushed| - |items| else 0
    }

    constructor (cap: nat)
      ensures Valid() && this.cap == cap && items == [] && pushed == [] && served == []
    {
      this.cap, items, pushed, served := cap, [], [], [];
    }

    /** `deque.extend`: one sample at a time, each pushing the oldest out of a full queue. */
    method Extend(data: seq<Sample>)
      requires Valid()
      modifies this
      ensures Valid() && pushed == old(pushed) + data && served == old(served)
      ensures items == Newest(old(items) + data, cap)
      // Only an overflow loses samples, and it loses just the oldest.
      ensures |items| == Min(cap, |old(items)| + |data|)
      ensures Head() >= old(Head())
    {
      var i := 0;
      assert Min(cap, |items|) == |items|;
      assert old(items) + data[..0] == old(items) && pushed + data[..0] == pushed;
      hide Newest, InOrder, Min;
      while i < |data|
        invariant i <= |data| && Valid() && served == old(served) && Head() >= old(Head())
        invariant pushed == old(pushed) + data[..i]
        invariant |items| <= cap && items == Newest(old(items) + data[..i], cap)
        invariant |items| == Min(cap, |old(items)| + i)
      {
        NewestOneMore(old(items) + data[..i], data[i], cap);
        assert old(items) + data[..i + 1] == old(items) + data[..i] + [data[i]];
        assert old(pushed) + data[..i + 1] == old(pushed) + data[..i] + [data[i]];
        StillCapped(cap, |old(items)| + i);
        Push(data[i]);
        i := i + 1;
      }
      assert data[..i] == data;
    }

    /** `deque.append`. */
    method Push(x: Sample)
      requires Valid()
      modifies this
      ensures Valid() && pushed == old(pushed) + [x] && served == old(served)
      ensures items == Newest(old(items) + [x], cap)
      ensures |items| == Min(cap, |old(items)| + 1)
      ensures Head() >= old(Head())
    {
      items := if cap == 0 then [] else if |items| == cap then items[1..] + [x] else items + [x];
      pushed := pushed + [x];
    }

    /** `n` calls of `popleft`. */
    method Take(n: nat) returns (taken: seq<Sample>)
      requires Valid() && n <= |items|
      modifies this
      ensures Valid() && pushed == old(pushed) && items == old(items)[n..] && taken == old(items)[..n]
      ensures Head() == old(Head()) + n && served == old(served) + [Span(old(Head()), Head())]
      ensures taken == pushed[old(Head())..Head()]
    {
      taken := [];
      ghost var from := Head();
      while |taken| < n
        invariant |taken| <= n && items == old(items)[|taken|..] && taken == old(items)[..|taken|]
        invariant pushed == old(pushed) && served == old(served)
      {
        taken, items := taken + [items[0]], items[1..];
      }
      served := served + [Span(from, Head())];
    }
  }

  /** The next queued samples, padded with silence. */
  function OwnFrame(queued: seq<Sample>, n: nat): seq<Sample> {
    if n <= |queued| then queued[..n] else queued + Zeros(n - |queued|)
  }

  /** Silence before the gate opens; then the next samples when there are enough, else the last frame once more. */
  function LoopbackFrame(queued: seq<Sample>, open: bool, last: seq<Sample>, n: nat): seq<Sample> {
    if !open then Zeros(n) else if n <= |queued| then queued[..n] else last
  }

  class ReferenceAdapter {
    const buffer: BoundedFifo
    const localBuffer: BoundedFifo
    const learner: LoopbackLearner
    var primed: bool
    var lastFrame: seq<Sample>

    ghost predicate Valid()
      reads this, buffer, localBuffer, learner
    {
      && buffer != localBuffer
      && buffer.Valid() && localBuffer.Valid() && learner.Valid()
      && buffer.cap == BUFFER_SIZE_SAMPLES && localBuffer.cap == LOCAL_PLAYBACK_BUFFER_SAMPLES
      && (buffer.served != [] ==> primed)
      && lastFrame == LastServed(buffer.pushed, buffer.served)
    }

    /** On two empty queues and a learner that has seen nothing. */
    constructor (buffer: BoundedFifo, localBuffer: BoundedFifo, learner: LoopbackLearner)
      requires buffer != localBuffer && buffer.Valid() && localBuffer.Valid() && learner.Valid()
      requires buffer.cap == BUFFER_SIZE_SAMPLES && localBuffer.cap == LOCAL_PLAYBACK_BUFFER_SAMPLES
      requires buffer.pushed == [] && buffer.served == []
      ensures Valid() && this.buffer == buffer && this.localBuffer == localBuffer && this.learner == learner && !primed
    {
      hide InOrder, IsVerdict, Trailing, Evidence, Zeros, KeepsNewest;
      this.buffer, this.localBuffer, this.learner := buffer, localBuffer, learner;
      primed, lastFrame := false, Zeros(160);
    }

    /** What the capture callback does with a block of mono samples. */
    method PushLoopback(data: seq<Sample>)
      requires Valid()
      modifies buffer
      ensures Valid() && buffer.pushed == old(buffer.pushed) + data && buffer.served == old(buffer.served)
      ensures |buffer.items| == Min(BUFFER_SIZE_SAMPLES, |old(buffer.items)| + |data|)
    {
      StillLastServed(buffer.pushed, data, buffer.served, buffer.Head());
      buffer.Extend(data);
    }

    method PushLocalPlayback(data: seq<Sample>)
      requires Valid()
      modifies localBuffer
      ensures Valid() && localBuffer.pushed == old(localBuffer.pushed) + data
              && localBuffer.served == old(localBuffer.served)
      ensures |localBuffer.items| == Min(LOCAL_PLAYBACK_BUFFER_SAMPLES, |old(localBuffer.items)| + |data|)
    {
      if |data| == 0 {
        assert localBuffer.pushed + data == localBuffer.pushed;
        return;
      }
      localBuffer.Extend(data);
    }

    /**
     `_next_loopback_frame_locked`.  A frame is silence before the gate opens, the
     next samples in order when there are enough, and a replay of the last frame
     otherwise; only a fresh frame takes anything from the queue.
     */
    method NextLoopbackFrame(n: nat) returns (frame: seq<Sample>, ghost fresh_: bool)
      requires Valid()
      modifies this, buffer
      ensures Valid() && buffer.pushed == old(buffer.pushed)
      ensures primed <==> old(primed) || |old(buffer.items)| >= MIN_READY_SAMPLES
      ensures fresh_ <==> primed && n <= |old(buffer.items)|
      ensures fresh_ ==> frame == old(buffer.items)[..n] && buffer.items == old(buffer.items)[n..]
      ensures fresh_ ==> |frame| == n && frame == LastServed(buffer.pushed, buffer.served)
                         && buffer.served == old(buffer.served) + [Span(old(buffer.Head()), old(buffer.Head()) + n)]
      ensures !fresh_ ==> buffer.items == old(buffer.items) && buffer.served == old(buffer.served)
      ensures !fresh_ ==> frame == if !primed then Zeros(n) else old(lastFrame)
    {
      if !primed {
        if |buffer.items| < MIN_READY_SAMPLES {
          return Zeros(n), false;
        }
        primed := true;
      }
      if |buffer.items| < n {
        return lastFrame, false;
      }
      frame := buffer.Take(n);
      lastFrame := frame;
      fresh_ := true;
    }

    /** `_next_local_frame_locked`: the next local samples in order, padded with silence; None when none are queued. */
    method NextLocalFrame(n: nat) returns (frame: Option<seq<Sample>>)
      requires Valid()
      modifies localBuffer
      ensures Valid() && localBuffer.pushed == old(localBuffer.pushed)
      ensures frame.None? <==> old(localBuffer.items) == []
      ensures frame.None? ==>
              localBuffer.items == old(localBuffer.items) && localBuffer.served == old(localBuffer.served)
      ensures frame.Some? ==> |frame.value| == n
      ensures frame.Some? ==>
                var count := if n <= |old(localBuffer.items)| then n else |old(localBuffer.items)|;
                && localBuffer.served == old(localBuffer.served)
                   + [Span(old(localBuffer.Head()), old(localBuffer.Head()) + count)]
                && frame.value == LastServed(localBuffer.pushed, localBuffer.served) + Zeros(n - count)
                && frame.value == old(localBuffer.items)[..count] + Zeros(n - count)
                && localBuffer.items == old(localBuffer.items)[count..]
    {
      if |localBuffer.items| == 0 { return None; }
      var count := if n <= |localBuffer.items| then n else |localBuffer.items|;
      var taken := localBuffer.Take(count);
      return Some(taken + Zeros(n - count));
    }

    /**
     `get_aec_reference_frame` at the adapter's own rate.  Viola's own playback is
     served exactly when some is queued and the loopback is judged deaf, or is not
     judged yet and silent in this frame.
     */
    method GetReferenceFrame(n: nat, level: seq<Sample> -> real) returns (frame: seq<Sample>, ghost local: bool)
      requires Valid()
      modifies this, buffer, localBuffer, learner
      ensures Valid() && buffer.pushed == old(buffer.pushed) && localBuffer.pushed == old(localBuffer.pushed)
      ensures old(localBuffer.items) == [] ==> !local && learner.history == old(learner.history)
      ensures old(localBuffer.items) != [] ==>
                && |learner.history| == |old(learner.history)| + 1
                   && old(learner.history) == learner.history[..|old(learner.history)|]
                && (local <==> learner.hears == Some(false)
                               || (learner.hears.None?
                                   && learner.history[|old(learner.history)|].loopback < LOOPBACK_SILENT_RMS))
      // what each of the two frames is, and what is judged
      ensures local ==> frame == OwnFrame(old(localBuffer.items), n)
      ensures !local ==> frame == LoopbackFrame(old(buffer.items), primed, old(lastFrame), n)
      ensures old(localBuffer.items) != [] ==>
                var heard := LoopbackFrame(old(buffer.items), primed, old(lastFrame), n);
                learner.history[|old(learner.history)|]
                == Levels(if |heard| > 0 then level(heard) else 0.0, level(OwnFrame(old(localBuffer.items), n)))
      ensures primed <==> old(primed) || |old(buffer.items)| >= MIN_READY_SAMPLES
      ensures buffer.items == if primed && n <= |old(buffer.items)| then old(buffer.items)[n..] else old(buffer.items)
      ensures localBuffer.items
              == old(localBuffer.items)[if n <= |old(localBuffer.items)| then n else |old(localBuffer.items)|..]
      ensures local ==> |frame| == n
      // the frame has the asked length unless it replays one of another length
      ensures |frame| != n ==> !local && primed && |old(buffer.items)| < n && frame == old(lastFrame)
    {
      hide InOrder, IsVerdict, Trailing, Evidence, LastServed;
      ghost var isFresh;
      frame, isFresh := NextLoopbackFrame(n);
      var localFrame := NextLocalFrame(n);
      local := false;
      assert frame == LoopbackFrame(old(buffer.items), primed, old(lastFrame), n);
      assert localFrame.Some? ==> localFrame.value == OwnFrame(old(localBuffer.items), n);
      if localFrame.Some? {
        frame, local := Choose(frame, localFrame.value, level);
      }
    }

    /** Whether Viola's own playback stands in for the device loopback in this frame. */
    method Choose(loopback: seq<Sample>, own: seq<Sample>, level: seq<Sample> -> real)
        returns (frame: seq<Sample>, ghost local: bool)
      requires learner.Valid()
      modifies learner
      ensures learner.Valid() && frame == if local then own else loopback
      ensures var loopbackRms := if |loopback| > 0 then level(loopback) else 0.0;
              && learner.history == old(learner.history) + [Levels(loopbackRms, level(own))]
              && (local <==> learner.hears == Some(false) || (learner.hears.None? && loopbackRms < LOOPBACK_SILENT_RMS))
    {
      var loopbackRms := if |loopback| > 0 then level(loopback) else 0.0;
      var hears := learner.Learn(loopbackRms, level(own));
      local := hears == Some(false) || (hears.None? && loopbackRms < LOOPBACK_SILENT_RMS);
      frame := if hears == Some(false) || (hears.None? && loopbackRms < LOOPBACK_SILENT_RMS) then own else loopback;
    }

    /** `get_recent_reference`: a read-only suffix of everything pushed. */
    method GetRecentReference(n: nat) returns (r: seq<Sample>)
      requires Valid()
      ensures |r| == (if n <= |buffer.items| then n else |buffer.items|)
      ensures |r| <= |buffer.pushed| && r == buffer.pushed[|buffer.pushed| - |r|..]
    {
      var available := |buffer.items|;
      var k := if n <= available then n else available;
      if k == 0 { return []; }
      return buffer.items[available - k..];
    }
  }

  /** The samples of the latest stretch handed out; 160 of silence before the first. */
  ghost function LastServed(pushed: seq<Sample>, served: seq<Span>): seq<Sample> {
    if served == [] then Zeros(160)
    else
      var s := served[|served| - 1];
      if s.lo <= s.hi <= |pushed| then pushed[s.lo..s.hi] else []
  }

  lemma StillLastServed(pushed: seq<Sample>, data: seq<Sample>, served: seq<Span>, limit: nat)
    requires InOrder(served, limit) && limit <= |pushed|
    ensures LastServed(pushed + data, served) == LastServed(pushed, served)
  {
    if served != [] {
      var s := served[|served| - 1];
      assert (pushed + data)[s.lo..s.hi] == pushed[s.lo..s.hi];
    }
  }

  function Total(spans: seq<Span>): int {
    if spans == [] then 0 else Total(spans[..|spans| - 1]) + spans[|spans| - 1].hi - spans[|spans| - 1].lo
  }

  /** Handed-out stretches never overlap, so what was served plus what is queued is at most what was pushed. */
  lemma {:induction false} NothingServedTwice(spans: seq<Span>, limit: nat)
    requires InOrder(spans, limit)
    ensures 0 <= Total(spans) <= limit
  {
    if spans != [] {
      NothingServedTwice(spans[..|spans| - 1], spans[|spans| - 1].lo);
    }
  }
}
