/** What each stream operation does when nobody disturbs it (SOURCE/audio_core/portaudio_guard.py). */
module StreamAlone {
  import opened Common
  import opened StreamProtocol
  import opened StreamOverlap

  /** `t` is between calls, outside any `portaudio_instance` block, and no lock is held. */
  predicate Ready(s: State, t: Tid) { t in s.pcs && s.pcs[t] == Idle(false) && Free(s.sh) }

  lemma Here(s: State)
    ensures Reaches(s, s)
  {
    assert ActAll(s, []) == s;
  }

  /** An opened stream is new, belongs to its instance and is registered. */
  lemma OpenRegisters(s: State, t: Tid, p: Instance) returns (r: State)
    requires Ready(s, t)
    ensures var x := s.sh.next;
            && Reaches(s, r) && r.pcs == s.pcs
            && r.sh == s.sh.(owner := s.sh.owner[x := p], registered := s.sh.registered + {x}, next := x + 1)
  {
    Here(s);
    hide Reaches;
    r := Opens(s, s, t, p);
    r := FinishesOpening(s, r, t, s.sh.next);
    assert s.pcs[t := Idle(false)] == s.pcs;
  }

  /** A call on an open stream runs and comes back. */
  lemma CallRuns(s: State, t: Tid, x: Stream) returns (m: State, r: State)
    requires Ready(s, t) && x in s.sh.owner && x !in s.sh.closed
    ensures Reaches(s, m) && t in m.pcs && m.pcs[t] == InCall(x, false) && x in m.sh.locks
    ensures Reaches(m, r) && r == s
  {
    Here(s);
    hide Reaches;
    m := CallsIt(s, s, t, x);
    Here(m);
    assert m.sh.locks - {x} == map[];
    r := Go(m, m, t, FINE, s.sh, Idle(false));
    assert s.pcs[t := Idle(false)] == s.pcs;
  }

  /** A call on a closed one is refused before it touches the raw stream. */
  lemma CallIsRefused(s: State, t: Tid, x: Stream, c: Choice) returns (r: State)
    requires Ready(s, t) && x in s.sh.closed && x in s.sh.owner
    ensures Reaches(s, r) && r == s
  {
    Here(s);
    hide Reaches;
    var locked := s.sh.(locks := map[x := t]);
    r := Go(s, s, t, FINE.(op := CallWait(x, false)), s.sh, CallWait(x, false));
    r := Go(s, r, t, FINE, locked, CallCheck(x, false));
    assert locked.locks - {x} == map[];
    r := Go(s, r, t, c, s.sh, Idle(false));
    assert s.pcs[t := Idle(false)] == s.pcs;
  }

  /** A close frees the raw stream, once, and takes it out of the registry; a second close does nothing. */
  lemma CloseFrees(s: State, t: Tid, x: Stream) returns (r: State)
    requires Ready(s, t) && x in s.sh.owner
    ensures Reaches(s, r) && r.pcs == s.pcs
    ensures x in s.sh.closed ==> r.sh == s.sh
    ensures x !in s.sh.closed ==>
              r.sh == s.sh.(closed := s.sh.closed + {x}, freed := s.sh.freed + {x}, registered := s.sh.registered - {x},
                            freedTwice := s.sh.freedTwice || x in s.sh.freed)
  {
    Here(s);
    hide Reaches;
    r := Go(s, s, t, FINE.(op := CloseWait(x, Caller, false)), s.sh, CloseWait(x, Caller, false));
    r := CloseGoesOn(s, r, t);
    assert s.pcs[t := Idle(false)] == s.pcs;
  }

  /** The streams of an instance that `terminate_portaudio` finds in the registry. */
  function Listed(sh: Shared, p: Instance): set<Stream> {
    set x | x in sh.registered && x in sh.owner && sh.owner[x] == p
  }

  /**
   A terminate closes every registered stream of its instance, then frees all that
   belong to it, and no stream of another instance is touched.
   */
  lemma TerminateFrees(s: State, t: Tid, p: Instance) returns (r: State)
    requires Ready(s, t)
    ensures Reaches(s, r) && r.pcs == s.pcs && Free(r.sh) && r.sh.owner == s.sh.owner
    ensures r.sh.closed == s.sh.closed + Listed(s.sh, p)
    ensures forall x :: x in s.sh.owner && s.sh.owner[x] == p ==> x in r.sh.freed
    ensures forall x :: x in s.sh.owner && s.sh.owner[x] != p ==>
              (x in r.sh.freed <==> x in s.sh.freed) && (x in r.sh.registered <==> x in s.sh.registered)
  {
    Here(s);
    hide Reaches;
    r := Go(s, s, t, FINE.(op := TermWait(p, false)), s.sh, TermWait(p, false));
    r := Go(s, r, t, FINE, s.sh.(registry := Some(t)), TermList(p, false));
    var next := Next(r.sh, t, TermList(p, false), FINE).1;
    assert next.todo == Listed(s.sh, p);
    r := Go(s, r, t, FINE, s.sh, next);
    r := ClosesEach(s, r, t);
    var sh := r.sh;
    r := Go(s, r, t, FINE, Freed(sh, p).(lifecycle := Some(t)), InTerm(p, false));
    r := Go(s, r, t, FINE, Freed(sh, p), Idle(false));
    assert s.pcs[t := Idle(false)] == s.pcs;
  }

  /** A close that waits in vain marks the stream, and leaves the raw stream and the registration to its user. */
  lemma CloseTimesOut(s: State, t: Tid, c: Choice)
    requires t in s.pcs && s.pcs[t].CloseWait? && s.pcs[t].x in s.sh.locks && c.timeout
    ensures var pc := s.pcs[t];
            Step(s, Event(t, c))
            == State(s.sh.(closed := s.sh.closed + {pc.x}), s.pcs[t := Return(pc.back, pc.inst, false, false)])
  {
  }
}
