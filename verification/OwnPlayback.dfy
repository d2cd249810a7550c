/**
 What Viola has just played, kept in a ring on a clock
 (SOURCE/audio_core/own_playback.py).

 Samples are reals already at the ring's rate; the time of every call is a
 parameter and need not grow.
 */
module OwnPlayback {
  import opened Common

  type Sample = real

  const SILENCE_GAP_S := 0.05
  const UTTERANCE_GAP_S := 1.5

  function Zeros(n: nat): seq<Sample> { seq(n, i => 0.0) }

  function Last(s: seq<Sample>, k: nat): seq<Sample>
    requires k <= |s|
  {
    s[|s| - k..]
  }

  /** `int(seconds * rate)`: truncation toward zero. */
  function SamplesIn(seconds: real, rate: nat): (n: int)
    ensures seconds >= 0.0 ==> n >= 0
  {
    var x := seconds * rate as real;
    if x >= 0.0 then x.Floor else -((-x).Floor)
  }

  /** The whole samples in a stretch of time, which is less than one sample more. */
  lemma WholeSamples(seconds: real, rate: nat)
    ensures var n, x := SamplesIn(seconds, rate), seconds * rate as real;
            (x >= 0.0 ==> n as real <= x < (n + 1) as real) && (x <= 0.0 ==> (n - 1) as real < x <= n as real)
  {
  }

  /** `i % size`, for an index at most one turn away. */
  function Turn(i: int, size: nat): (j: nat)
    requires size > 0 && 0 <= i + size && i < 2 * size
    ensures j == if i < 0 then i + size else if i < size then i else i - size
  {
    Remainder(i, size);
    i % size
  }

  lemma Remainder(i: int, size: nat)
    requires size > 0 && 0 <= i + size && i < 2 * size
    ensures i % size == if i < 0 then i + size else if i < size then i else i - size
  {
    var q, r := i / size, i % size;
    assert i == q * size + r && 0 <= r < size;
  }

  // ------------------------------------------------- the unbounded stream

  /** A look at the record writes silence too, up to the moment of the look. */
  datatype Event = Audio(at: real, samples: seq<Sample>) | Look(at: real)

  /** How much silence lies between the clock and `now`. */
  function Silence(clock: Option<real>, now: real, rate: nat): nat {
    if clock.Some? && now - clock.value > SILENCE_GAP_S then SamplesIn(now - clock.value, rate) else 0
  }

  /** Everything written, with every silence at its full length, and the time it reaches. */
  function Played(events: seq<Event>, rate: nat): (seq<Sample>, Option<real>)
    decreases |events|
  {
    if events == [] then ([], None)
    else
      var (stream, clock) := Played(events[..|events| - 1], rate);
      var e := events[|events| - 1];
      var quiet := stream + Zeros(Silence(clock, e.at, rate));
      match e
      case Audio(at, samples) => (quiet + samples, Some(at))
      case Look(at) => (quiet, if clock.Some? && at - clock.value > SILENCE_GAP_S then Some(at) else clock)
  }

  /** The last `k` samples of the record, which is silent before its first event. */
  function Recent(events: seq<Event>, rate: nat, size: nat, k: nat): seq<Sample>
    requires k <= size
  {
    Last(Zeros(size) + Played(events, rate).0, k)
  }

  function AudioTimes(events: seq<Event>): seq<real> {
    if events == [] then []
    else
      var e := events[|events| - 1];
      AudioTimes(events[..|events| - 1]) + (if e.Audio? then [e.at] else [])
  }

  /** The current utterance runs from `start` without a pause of UTTERANCE_GAP_S. */
  ghost predicate BeganUtterance(times: seq<real>, start: real) {
    exists k :: 0 <= k < |times| && BeganAt(times, start, k)
  }

  ghost predicate BeganAt(times: seq<real>, start: real, k: nat)
    requires k < |times|
  {
    && times[k] == start
    && (k == 0 || times[k] - times[k - 1] >= UTTERANCE_GAP_S)
    && (forall i :: k < i < |times| ==> times[i] - times[i - 1] < UTTERANCE_GAP_S)
  }

  // -------------------------------------------------------------- the ring

  /** Keeping the last `k` and then appending loses nothing of the last `k`. */
  lemma LastOfLast(a: seq<Sample>, b: seq<Sample>, k: nat)
    requires k <= |a|
    ensures Last(Last(a, k) + b, k) == Last(a + b, k)
  {
  }

  lemma LongSilence(a: seq<Sample>, n: nat, k: nat)
    requires |a| == k
    ensures Last(a + Zeros(Min(k, n)), k) == Last(a + Zeros(n), k)
  {
  }

  /** The ring read from its oldest sample to its newest. */
  function Rotated(ring: seq<Sample>, write: nat): (s: seq<Sample>)
    requires write <= |ring|
    ensures |s| == |ring|
  {
    ring[write..] + ring[..write]
  }

  lemma LastOfJoin(old': seq<Sample>, kept: seq<Sample>)
    ensures Last(old' + kept, |kept|) == kept
  {
  }

  lemma SilenceOfNothing(s: seq<Sample>)
    ensures Last(s + Zeros(0), |s|) == s
  {
    assert s + Zeros(0) == s;
  }

  lemma InOnePiece(ring: seq<Sample>, write: nat, samples: seq<Sample>)
    requires write + |samples| < |ring|
    ensures var end := write + |samples|;
            Rotated(ring[..write] + samples + ring[end..], end) == Last(Rotated(ring, write) + samples, |ring|)
  {
    var end := write + |samples|;
    var after := ring[..write] + samples + ring[end..];
    var kept := ring[end..] + (ring[..write] + samples);
    assert after[end..] == ring[end..] && after[..end] == ring[..write] + samples;
    LastOfJoin(ring[write..end], kept);
    assert Rotated(ring, write) + samples == ring[write..end] + kept by {
      assert ring[write..] == ring[write..end] + ring[end..];
    }
  }

  lemma UpToTheEnd(ring: seq<Sample>, write: nat, samples: seq<Sample>)
    requires write + |samples| == |ring|
    ensures Rotated(ring[..write] + samples + ring[|ring|..], 0) == Last(Rotated(ring, write) + samples, |ring|)
  {
    var kept := ring[..write] + samples;
    assert ring[..write] + samples + ring[|ring|..] == kept;
    assert kept[0..] + kept[..0] == kept;
    LastOfJoin(ring[write..], kept);
    assert Rotated(ring, write) + samples == ring[write..] + kept;
  }

  lemma AroundTheEnd(ring: seq<Sample>, write: nat, samples: seq<Sample>)
    requires write < |ring| < write + |samples| && |samples| < |ring|
    ensures var first, end := |ring| - write, write + |samples| - |ring|;
            Rotated(samples[first..] + (ring[..write] + samples[..first])[end..], end)
                == Last(Rotated(ring, write) + samples, |ring|)
  {
    var first, end := |ring| - write, write + |samples| - |ring|;
    var kept := ring[end..write] + samples;
    Reordered(ring, write, end, samples, first);
    LastOfJoin(ring[write..] + ring[..end], kept);
    assert ring[..write] == ring[..end] + ring[end..write];
    assert Rotated(ring, write) + samples == ring[write..] + ring[..end] + kept;
  }

  lemma Reordered(ring: seq<Sample>, write: nat, end: nat, samples: seq<Sample>, first: nat)
    requires end <= write <= |ring| && first <= |samples| && |samples| - first == end
    ensures Rotated(samples[first..] + (ring[..write] + samples[..first])[end..], end) == ring[end..write] + samples
  {
    var rest := (ring[..write] + samples[..first])[end..];
    assert rest == ring[end..write] + samples[..first];
    assert samples[..first] + samples[first..] == samples;
    assert (samples[first..] + rest)[end..] == rest && (samples[first..] + rest)[..end] == samples[first..];
  }

  class OwnPlayback {
    const size: nat
    const rate: nat
    const ring: array<Sample>
    var write: nat
    var lastAudioAt: Option<real>
    var ringAt: Option<real>
    var utteranceStartedAt: Option<real>
    var tailWaived: bool
    ghost var events: seq<Event>    // since the last reset

    ghost predicate InBounds()
      reads this
    {
      0 < size == ring.Length && write < size
    }

    /** The ring from its oldest sample to its newest. */
    ghost function Contents(): (s: seq<Sample>)
      reads this, ring
      requires InBounds()
      ensures |s| == size
    {
      Rotated(ring[..], write)
    }

    /** The ring is the tail of the record `es`, and the clock is where the record ends. */
    ghost predicate Holds(es: seq<Event>)
      reads this, ring
    {
      InBounds() && Contents() == Recent(es, rate, size, size) && ringAt == Played(es, rate).1
    }

    ghost predicate OnTime(times: seq<real>)
      reads this
    {
      && (lastAudioAt == if times == [] then None else Some(times[|times| - 1]))
      && (lastAudioAt.Some? <==> utteranceStartedAt.Some?)
      && (utteranceStartedAt.Some? ==> BeganUtterance(times, utteranceStartedAt.value))
    }

    ghost predicate Valid()
      reads this, ring
    {
      Holds(events) && OnTime(AudioTimes(events))
    }

    constructor (size: nat, rate: nat)
      requires size > 0
      ensures Valid() && fresh(ring) && events == [] && this.size == size && this.rate == rate && !tailWaived
    {
      this.size, this.rate := size, rate;
      ring := new Sample[size](_ => 0.0);
      write, lastAudioAt, ringAt, utteranceStartedAt, tailWaived := 0, None, None, None, false;
      events := [];
      new;
      assert ring[..] == Zeros(size);
      AllSilent(size, rate);
    }

    /** `_append_locked`: in one piece, in two around the end, or as a whole new ring. */
    method Append(samples: seq<Sample>)
      requires InBounds()
      modifies `write, ring
      ensures InBounds() && Contents() == Last(old(Contents()) + samples, size)
    {
      var count := |samples|;
      if count >= size {
        OverwriteAll(samples);
        return;
      }
      var end := write + count;
      if end <= size { WriteStraight(samples); } else { WriteAround(samples); }
      write := Turn(end, size);
    }

    /** `ring[at : at + len(chunk)] = chunk`. */
    method Put(at: nat, chunk: seq<Sample>)
      requires at + |chunk| <= ring.Length
      modifies ring
      ensures ring[..] == old(ring[..])[..at] + chunk + old(ring[..])[at + |chunk|..]
    {
      forall i | at <= i < at + |chunk| { ring[i] := chunk[i - at]; }
    }

    method WriteStraight(samples: seq<Sample>)
      requires InBounds() && write + |samples| <= size && |samples| < size
      modifies ring
      ensures Rotated(ring[..], Turn(write + |samples|, size)) == Last(old(Contents()) + samples, size)
    {
      if write + |samples| == size {
        UpToTheEnd(ring[..], write, samples);
      } else {
        InOnePiece(ring[..], write, samples);
      }
      hide Rotated, Last;
      Put(write, samples);
    }

    method OverwriteAll(samples: seq<Sample>)
      requires InBounds() && |samples| >= size
      modifies `write, ring
      ensures InBounds() && Contents() == Last(old(Contents()) + samples, size)
    {
      forall i | 0 <= i < size { ring[i] := samples[|samples| - size + i]; }
      write := 0;
      assert ring[..] == samples[|samples| - size..];
      assert Contents() == ring[..];
    }

    method WriteAround(samples: seq<Sample>)
      requires InBounds() && |samples| < size < write + |samples|
      modifies ring
      ensures Rotated(ring[..], Turn(write + |samples|, size)) == Last(old(Contents()) + samples, size)
    {
      ghost var before := ring[..];
      AroundTheEnd(before, write, samples);
      hide Rotated, Last;
      var first := size - write;
      Put(write, samples[..first]);
      assert ring[..] == before[..write] + samples[..first];
      Put(0, samples[first..]);
      assert ring[..] == samples[first..] + (before[..write] + samples[..first])[write + |samples| - size..];
    }

    /** `_advance_silence_locked`. */
    method AdvanceSilence(now: real)
      requires InBounds()
      modifies `write, `ringAt, ring
      ensures InBounds() && Contents() == Last(old(Contents()) + Zeros(Silence(old(ringAt), now, rate)), size)
      ensures ringAt == if old(ringAt).Some? && now - old(ringAt).value > SILENCE_GAP_S then Some(now) else old(ringAt)
    {
      SilenceOfNothing(Contents());
      if ringAt.None? { return; }
      var gap := now - ringAt.value;
      if gap > SILENCE_GAP_S {
        LongSilence(Contents(), Silence(ringAt, now, rate), size);
        hide Rotated, Last;
        Append(Zeros(Min(size, SamplesIn(gap, rate))));
        ringAt := Some(now);
      }
    }

    method NoteAudio(samples: seq<Sample>, sampleRate: int, now: real)
      requires Valid()
      modifies this, ring
      ensures Valid()
      ensures |samples| == 0 || sampleRate <= 0 ==> events == old(events) && tailWaived == old(tailWaived)
      ensures |samples| > 0 && sampleRate > 0 ==>
                events == old(events) + [Audio(now, samples)] && !tailWaived && lastAudioAt == Some(now)
    {
      if |samples| == 0 || sampleRate <= 0 { return; }
      ghost var before := events;
      StartUtterance(now);
      Play(samples, now);
      lastAudioAt := Some(now);
      tailWaived := false;
      NextTimes(before, Audio(now, samples));
      events := before + [Audio(now, samples)];
      hide BeganUtterance, AudioTimes, Rotated, Last, Played, Recent;
    }

    /** A pause of UTTERANCE_GAP_S or more begins a new utterance. */
    method StartUtterance(now: real)
      requires OnTime(AudioTimes(events))
      modifies `utteranceStartedAt
      ensures utteranceStartedAt.Some? && BeganUtterance(AudioTimes(events) + [now], utteranceStartedAt.value)
    {
      NextUtterance(AudioTimes(events), now, if utteranceStartedAt.Some? then utteranceStartedAt.value else now);
      hide BeganUtterance, AudioTimes;
      if lastAudioAt.None? || now - lastAudioAt.value >= UTTERANCE_GAP_S {
        utteranceStartedAt := Some(now);
      }
    }

    method Play(samples: seq<Sample>, now: real)
      requires Holds(events)
      modifies `write, `ringAt, ring
      ensures Holds(events + [Audio(now, samples)])
    {
      Extended(events, Audio(now, samples), rate, size);
      hide Rotated, Last, Silence, SamplesIn, Played, Recent;
      AdvanceSilence(now);
      Append(samples);
      ringAt := Some(now);
    }

    /** `recent_audio`: exactly the last samples of the whole record, whatever the wrap position. */
    method RecentAudio(seconds: real, now: real) returns (r: Option<seq<Sample>>)
      requires Valid()
      modifies this, ring
      ensures Valid()
      ensures old(lastAudioAt).None? ==> r.None? && events == old(events)
      ensures old(lastAudioAt).Some? ==>
                && events == old(events) + [Look(now)]
                && r == Some(Recent(events, rate, size, Min(size, Max(0, SamplesIn(seconds, rate)))))
                && |r.value| == Min(size, Max(0, SamplesIn(seconds, rate)))
      ensures lastAudioAt == old(lastAudioAt) && utteranceStartedAt == old(utteranceStartedAt)
              && tailWaived == old(tailWaived)
    {
      var wanted := Min(size, Max(0, SamplesIn(seconds, rate)));
      if lastAudioAt.None? { return None; }
      NextTimes(events, Look(now));
      RecentIsTail(events + [Look(now)], rate, size, wanted);
      hide Rotated, Last, Recent, Played, AudioTimes, BeganUtterance, Silence, SamplesIn, Zeros;
      LookNow(now);
      events := events + [Look(now)];
      var tail := Read(wanted);
      return Some(tail);
    }

    /** The newest `wanted` samples of the ring, around its end where needed. */
    method Read(wanted: nat) returns (r: seq<Sample>)
      requires InBounds() && wanted <= size
      ensures r == Last(Contents(), wanted)
    {
      ReadAt(ring[..], write, wanted);
      hide Rotated, Last;
      if wanted == 0 { return []; }
      var start := Turn(write - wanted, size);
      if start < write { return ring[start..write]; }
      return ring[start..] + ring[..write];
    }

    method LookNow(now: real)
      requires Holds(events)
      modifies `write, `ringAt, ring
      ensures Holds(events + [Look(now)])
    {
      Extended(events, Look(now), rate, size);
      hide Rotated, Last, Silence, SamplesIn, Played, Recent;
      AdvanceSilence(now);
    }

    method VoiceTailActive(seconds: real, now: real) returns (active: bool)
      requires Valid()
      ensures active <==>
              !tailWaived && AudioTimes(events) != [] && now - AudioTimes(events)[|AudioTimes(events)| - 1] < seconds
    {
      if tailWaived || lastAudioAt.None? { return false; }
      return now - lastAudioAt.value < seconds;
    }

    method WaiveTail()
      requires Valid()
      modifies `tailWaived
      ensures Valid() && tailWaived
    {
      tailWaived := true;
    }

    /** Forgets the record; a waived tail stays waived until she speaks again. */
    method Reset()
      requires Valid()
      modifies this, ring
      ensures Valid() && events == [] && tailWaived == old(tailWaived)
    {
      forall i | 0 <= i < ring.Length { ring[i] := 0.0; }
      assert ring[..] == Zeros(size);
      AllSilent(size, rate);
      hide Rotated, Recent, Played, Zeros;
      write := 0;
      lastAudioAt, ringAt, utteranceStartedAt := None, None, None;
      events := [];
    }
  }

  lemma AllSilent(size: nat, rate: nat)
    ensures Rotated(Zeros(size), 0) == Recent([], rate, size, size) && Played([], rate).1 == None
  {
    assert Rotated(Zeros(size), 0) == Zeros(size);
    assert Zeros(size) + [] == Zeros(size);
  }

  lemma RecentIsTail(events: seq<Event>, rate: nat, size: nat, k: nat)
    requires k <= size
    ensures Last(Recent(events, rate, size, size), k) == Recent(events, rate, size, k)
  {
  }

  /** Reading backwards from the write position, around the end where needed. */
  lemma ReadAt(ring: seq<Sample>, write: nat, wanted: nat)
    requires write < |ring| && wanted <= |ring|
    ensures var start := Turn(write - wanted, |ring|);
            Last(Rotated(ring, write), wanted) ==
              if wanted == 0 then [] else if start < write then ring[start..write] else ring[start..] + ring[..write]
  {
    var start := Turn(write - wanted, |ring|);
    if 0 < wanted && start < write {
      assert ring[..write] == ring[..start] + ring[start..write];
      LastOfJoin(ring[write..] + ring[..start], ring[start..write]);
      assert Rotated(ring, write) == ring[write..] + ring[..start] + ring[start..write];
    } else if 0 < wanted {
      assert ring[write..] == ring[write..start] + ring[start..];
      LastOfJoin(ring[write..start], ring[start..] + ring[..write]);
      assert Rotated(ring, write) == ring[write..start] + (ring[start..] + ring[..write]);
    }
  }

  /** One more event extends the record's tail by its silence and its samples. */
  lemma Extended(events: seq<Event>, e: Event, rate: nat, size: nat)
    ensures var clock := Played(events, rate).1;
            var quiet := Last(Recent(events, rate, size, size) + Zeros(Silence(clock, e.at, rate)), size);
            && Recent(events + [e], rate, size, size)
               == (match e case Audio(_, samples) => Last(quiet + samples, size) case Look(_) => quiet)
            && Played(events + [e], rate).1 ==
                 if e.Audio? || (clock.Some? && e.at - clock.value > SILENCE_GAP_S) then Some(e.at) else clock
  {
    hide Silence, SamplesIn;
    assert (events + [e])[..|events|] == events;
    var (stream, clock) := Played(events, rate);
    var whole, zeros := Zeros(size) + stream, Zeros(Silence(clock, e.at, rate));
    LastOfLast(whole, zeros, size);
    Regroup(Zeros(size), stream, zeros);
    hide Last;
    if e.Audio? {
      LastOfLast(whole + zeros, e.samples, size);
      Regroup(Zeros(size), stream + zeros, e.samples);
    }
  }

  lemma Regroup(a: seq<Sample>, b: seq<Sample>, c: seq<Sample>)
    ensures a + b + c == a + (b + c)
  {
  }

  lemma NextTimes(events: seq<Event>, e: Event)
    ensures AudioTimes(events + [e]) == if e.Audio? then AudioTimes(events) + [e.at] else AudioTimes(events)
  {
    assert (events + [e])[..|events|] == events;
  }

  lemma NextUtterance(times: seq<real>, now: real, start: real)
    ensures times != [] && BeganUtterance(times, start) && now - times[|times| - 1] < UTTERANCE_GAP_S ==>
            BeganUtterance(times + [now], start)
    ensures times == [] || now - times[|times| - 1] >= UTTERANCE_GAP_S ==> BeganUtterance(times + [now], now)
  {
    var next := times + [now];
    if times != [] && BeganUtterance(times, start) && now - times[|times| - 1] < UTTERANCE_GAP_S {
      var k :| 0 <= k < |times| && BeganAt(times, start, k);
      assert BeganAt(next, start, k);
    }
    if times == [] || now - times[|times| - 1] >= UTTERANCE_GAP_S {
      assert BeganAt(next, now, |times|);
    }
  }

  // ------------------------------------------------------------ the clock

  /** `k` samples fill the time from `start` to `end`, less under one sample for each of `looks` roundings. */
  ghost predicate Fills(k: nat, start: real, end: real, rate: nat, looks: nat) {
    end >= start && (end - start) * rate as real - looks as real <= k as real <= (end - start) * rate as real
  }

  lemma NoTime(start: real, rate: nat)
    ensures Fills(0, start, start, rate, 0)
  {
  }

  lemma NoStretch(start: real, end: real, rate: nat, k: nat, looks: nat)
    requires Fills(k, start, end, rate, looks)
    ensures Fills(k, start, end, rate, looks + 1)
  {
  }

  /** One more stretch of silence, cut to whole samples. */
  lemma OneMoreStretch(start: real, mid: real, at: real, rate: nat, j: nat, looks: nat)
    requires at > mid && Fills(j, start, mid, rate, looks)
    ensures Fills(j + SamplesIn(at - mid, rate), start, at, rate, looks + 1)
  {
    var more := (at - mid) * rate as real;
    assert more >= 0.0;
    calc {
      (at - start) * rate as real;
      ((mid - start) + (at - mid)) * rate as real;
      (mid - start) * rate as real + more;
    }
  }

  lemma SilenceSince(clock: real, now: real, rate: nat)
    ensures Silence(Some(clock), now, rate) == if now - clock > SILENCE_GAP_S then SamplesIn(now - clock, rate) else 0
  {
  }

  lemma PlayedOneMore(events: seq<Event>, e: Event, rate: nat)
    requires e.Look?
    ensures var ((stream, clock), (after, end)) := (Played(events, rate), Played(events + [e], rate));
            && after == stream + Zeros(Silence(clock, e.at, rate))
            && end == if clock.Some? && e.at - clock.value > SILENCE_GAP_S then Some(e.at) else clock
  {
    assert (events + [e])[..|events|] == events;
  }

  lemma ZerosJoin(s: seq<Sample>, j: nat, k: nat)
    ensures s + Zeros(j) + Zeros(k) == s + Zeros(j + k)
  {
  }

  /**
   However often the record is looked at while she is silent, it stays on the
   clock: the silence written is the time passed, less under one sample a look,
   and the record ends within SILENCE_GAP_S of the last look.
   */
  lemma {:induction false} LookingKeepsTime(events: seq<Event>, looks: seq<Event>, rate: nat) returns (k: nat)
    requires Played(events, rate).1.Some? && forall i :: 0 <= i < |looks| ==> looks[i].Look?
    ensures var ((before, start), (after, end)) := (Played(events, rate), Played(events + looks, rate));
            && after == before + Zeros(k)
            && end.Some? && Fills(k, start.value, end.value, rate, |looks|)
            && (looks != [] ==> looks[|looks| - 1].at - end.value <= SILENCE_GAP_S)
    decreases |looks|
  {
    hide Fills, SamplesIn;
    if looks == [] {
      k := 0;
      assert events + looks == events && Played(events, rate).0 + Zeros(0) == Played(events, rate).0;
      NoTime(Played(events, rate).1.value, rate);
    } else {
      hide Played, Zeros, Silence;
      var front, e := looks[..|looks| - 1], looks[|looks| - 1];
      var j := LookingKeepsTime(events, front, rate);
      assert events + looks == events + front + [e];
      PlayedOneMore(events + front, e, rate);
      var start, mid := Played(events, rate).1.value, Played(events + front, rate).1.value;
      var quiet := Silence(Some(mid), e.at, rate);
      SilenceSince(mid, e.at, rate);
      k := j + quiet;
      ZerosJoin(Played(events, rate).0, j, quiet);
      if e.at - mid > SILENCE_GAP_S {
        OneMoreStretch(start, mid, e.at, rate, j, |front|);
      } else {
        NoStretch(start, mid, rate, j, |front|);
      }
    }
  }

  function Concat(events: seq<Event>): seq<Sample> {
    if events == [] then []
    else
      var e := events[|events| - 1];
      Concat(events[..|events| - 1]) + (if e.Audio? then e.samples else [])
  }

  /** A feed whose chunks follow each other within SILENCE_GAP_S is recorded without a gap. */
  lemma {:induction false} PacedFeedHasNoSilence(events: seq<Event>, rate: nat)
    requires forall i :: 0 <= i < |events| ==> events[i].Audio?
    requires forall i :: 0 < i < |events| ==> events[i].at - events[i - 1].at <= SILENCE_GAP_S
    ensures Played(events, rate) == (Concat(events), if events == [] then None else Some(events[|events| - 1].at))
  {
    if events != [] {
      var front := events[..|events| - 1];
      PacedFeedHasNoSilence(front, rate);
      assert Concat(front) + Zeros(0) == Concat(front);
    }
  }
}
