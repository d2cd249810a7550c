/**
 Why `open_stream` and `terminate_portaudio` on one instance have to be kept
 apart: opening the raw stream and registering it are two steps, and a terminate
 between them frees a stream it has not seen.
 */
module StreamOverlap {
  import opened Common
  import opened StreamProtocol
  import opened StreamSafety
  import opened StreamTheorems

  /** A step of callers who do not keep the two apart. */
  function Act(s: State, e: Event): State {
    if e.t !in s.pcs || (s.pcs[e.t].Idle? && !MayCall(s, e.t, e.c.op)) then s
    else
      var (sh, pc) := Next(s.sh, e.t, s.pcs[e.t], e.c);
      State(sh, s.pcs[e.t := pc])
  }

  function ActAll(s: State, es: seq<Event>): State
    decreases |es|
  {
    if es == [] then s else ActAll(Act(s, es[0]), es[1..])
  }

  /** Callers who keep them apart get the runs of `Execute`. */
  ghost predicate KeepsApart(s: State, es: seq<Event>)
    decreases |es|
  {
    es == [] || ((es[0].t in s.pcs && s.pcs[es[0].t].Idle? ==> Apart(s, es[0].c.op))
                 && KeepsApart(Act(s, es[0]), es[1..]))
  }

  lemma {:induction false} ApartIsExecute(s: State, es: seq<Event>)
    requires KeepsApart(s, es)
    ensures ActAll(s, es) == Execute(s, es)
    decreases |es|
  {
    hide Next;
    if es != [] { ApartIsExecute(Act(s, es[0]), es[1..]); }
  }

  /** What keeping them apart buys. */
  lemma ApartIsSafe(threads: set<Tid>, es: seq<Event>)
    requires KeepsApart(Initial(threads), es)
    ensures var s := ActAll(Initial(threads), es);
            (forall t :: t in s.pcs && s.pcs[t].InCall? ==> s.pcs[t].x !in s.sh.freed) && !s.sh.freedTwice
  {
    ApartIsExecute(Initial(threads), es);
    NoUseAfterFree(threads, es);
  }

  ghost predicate Reaches(a: State, b: State) { exists es :: ActAll(a, es) == b }

  lemma {:induction false} OneMoreAct(a: State, es: seq<Event>, e: Event)
    ensures ActAll(a, es + [e]) == Act(ActAll(a, es), e)
    decreases |es|
  {
    hide Act;
    if es == [] {
      assert [e][1..] == [];
      assert ActAll(a, [e]) == ActAll(Act(a, e), []);
      assert es + [e] == [e];
    } else {
      assert (es + [e])[1..] == es[1..] + [e];
      OneMoreAct(Act(a, es[0]), es[1..], e);
    }
  }

  /** Thread `t` acts, with the outcome given. */
  lemma Go(a: State, s: State, t: Tid, c: Choice, sh: Shared, pc: Pc) returns (r: State)
    requires Reaches(a, s) && t in s.pcs && (s.pcs[t].Idle? ==> MayCall(s, t, c.op))
             && Next(s.sh, t, s.pcs[t], c) == (sh, pc)
    ensures Reaches(a, r) && r == State(sh, s.pcs[t := pc])
  {
    hide Next, MayCall;
    var es :| ActAll(a, es) == s;
    OneMoreAct(a, es, Event(t, c));
    r := Act(s, Event(t, c));
    assert ActAll(a, es + [Event(t, c)]) == r;
  }

  const FINE := Choice(Idle(false), true, false, 0)

  predicate Free(sh: Shared) { sh.registry.None? && sh.lifecycle.None? && sh.locks == map[] }

  /** The opener's stream is not registered yet and the terminator has finished its list: the two have met. */
  predicate Met(s: State, u: Tid, t: Tid, x: Stream) {
    && u in s.pcs && t in s.pcs && u != t && Free(s.sh) && x !in s.sh.closed
    && s.pcs[u].OpenReg? && s.pcs[u].x == x && !s.pcs[u].inst && x in s.sh.owner && s.sh.owner[x] == s.pcs[u].p
    && s.pcs[t] == TermLock(s.pcs[u].p, false)
  }

  /** Wherever they meet, the opener's first call on its new stream can run on freed memory. */
  lemma MetIsUseAfterFree(a: State, s: State, u: Tid, t: Tid, x: Stream) returns (r: State)
    requires Reaches(a, s) && Met(s, u, t, x)
    ensures Reaches(a, r) && u in r.pcs && r.pcs[u] == InCall(x, false) && x in r.sh.freed
  {
    hide Reaches;
    r := FreesIt(a, s, u, t, x);
    r := FinishesOpening(a, r, u, x);
    r := CallsIt(a, r, u, x);
  }

  lemma FreesIt(a: State, s: State, u: Tid, t: Tid, x: Stream) returns (r: State)
    requires Reaches(a, s) && Met(s, u, t, x)
    ensures Reaches(a, r) && u in r.pcs && r.pcs[u] == s.pcs[u] && x in r.sh.freed && x in r.sh.owner
            && x !in r.sh.closed && Free(r.sh)
  {
    hide Reaches;
    var p := s.pcs[u].p;
    r := Go(a, s, t, FINE, Freed(s.sh, p).(lifecycle := Some(t)), InTerm(p, false));
    r := Go(a, r, t, FINE, Freed(s.sh, p), Idle(false));
  }

  lemma FinishesOpening(a: State, s: State, u: Tid, x: Stream) returns (r: State)
    requires Reaches(a, s) && u in s.pcs && s.pcs[u].OpenReg? && !s.pcs[u].inst && s.pcs[u].x == x && Free(s.sh)
    ensures Reaches(a, r) && r == State(s.sh.(registered := s.sh.registered + {x}), s.pcs[u := Idle(false)])
  {
    hide Reaches;
    r := Go(a, s, u, FINE, s.sh.(registry := Some(u)), OpenAdd(x, s.pcs[u].p, false));
    r := Go(a, r, u, FINE, s.sh.(registered := s.sh.registered + {x}), Idle(false));
  }

  lemma CallsIt(a: State, s: State, u: Tid, x: Stream) returns (r: State)
    requires Reaches(a, s) && u in s.pcs && s.pcs[u] == Idle(false) && x in s.sh.owner && x !in s.sh.closed
             && Free(s.sh)
    ensures Reaches(a, r) && u in r.pcs && r.pcs[u] == InCall(x, false)
    ensures r == State(s.sh.(locks := map[x := u]), s.pcs[u := InCall(x, false)])
  {
    hide Reaches;
    var locked := s.sh.(locks := s.sh.locks[x := u]);
    r := Go(a, s, u, FINE.(op := CallWait(x, false)), s.sh, CallWait(x, false));
    r := Go(a, r, u, FINE, locked, CallCheck(x, false));
    r := Go(a, r, u, FINE, locked, CallGo(x, false));
    r := Go(a, r, u, FINE, locked, InCall(x, false));
  }

  // ------------------------------------------------ wherever callers stop keeping them apart

  lemma Opens(a: State, s: State, u: Tid, p: Instance) returns (r: State)
    requires Reaches(a, s) && u in s.pcs && Free(s.sh) && (s.pcs[u] == Idle(false) || s.pcs[u] == OpenWait(p, false))
    ensures var x := s.sh.next;
            && Reaches(a, r)
            && r == State(s.sh.(owner := s.sh.owner[x := p], next := x + 1), s.pcs[u := OpenReg(x, p, false)])
  {
    hide Reaches;
    var x := s.sh.next;
    r := s;
    if s.pcs[u].Idle? { r := Go(a, r, u, FINE.(op := OpenWait(p, false)), s.sh, OpenWait(p, false)); }
    r := Go(a, r, u, FINE, s.sh.(lifecycle := Some(u)), InOpen(p, false));
    r := Go(a, r, u, FINE, s.sh.(owner := s.sh.owner[x := p], next := x + 1), OpenReg(x, p, false));
  }

  /** From the wait for the lock to the return, for whoever asked for the close. */
  lemma CloseGoesOn(z: State, s: State, t: Tid) returns (r: State)
    requires Reaches(z, s) && t in s.pcs && s.pcs[t].CloseWait? && !s.pcs[t].inst && Free(s.sh)
    ensures Reaches(z, r) && r.pcs == s.pcs[t := Return(s.pcs[t].back, false, true, false)]
    ensures s.pcs[t].x in s.sh.closed ==> r.sh == s.sh
    ensures s.pcs[t].x !in s.sh.closed ==> r.sh == AfterClose(s.sh, s.pcs[t].x)
  {
    hide Reaches;
    var x, back := s.pcs[t].x, s.pcs[t].back;
    var locked := s.sh.(locks := map[x := t]);
    r := Go(z, s, t, FINE, locked, CloseCheck(x, back, false));
    if x in s.sh.closed {
      assert locked.locks - {x} == map[];
      r := Go(z, r, t, FINE, s.sh, Return(back, false, true, false));
    } else {
      r := CloseEnters(z, r, t);
      r := CloseLeaves(z, r, t);
    }
  }

  function AfterClose(sh: Shared, x: Stream): Shared {
    sh.(closed := sh.closed + {x}, freed := sh.freed + {x}, registered := sh.registered - {x},
        freedTwice := sh.freedTwice || x in sh.freed)
  }

  lemma CloseEnters(z: State, s: State, t: Tid) returns (r: State)
    requires Reaches(z, s) && t in s.pcs && s.pcs[t].CloseCheck? && s.pcs[t].x !in s.sh.closed
    ensures var pc := s.pcs[t];
            && Reaches(z, r) && r.pcs == s.pcs[t := CloseMark(pc.x, pc.back, pc.inst, false)]
            && r.sh == s.sh.(freed := s.sh.freed + {pc.x}, freedTwice := s.sh.freedTwice || pc.x in s.sh.freed)
  {
    hide Reaches;
    var pc := s.pcs[t];
    var sh := s.sh.(freed := s.sh.freed + {pc.x}, freedTwice := s.sh.freedTwice || pc.x in s.sh.freed);
    r := Go(z, s, t, FINE, sh, InClose(pc.x, pc.back, pc.inst));
    r := Go(z, r, t, FINE, sh, CloseMark(pc.x, pc.back, pc.inst, false));
  }

  lemma CloseLeaves(z: State, s: State, t: Tid) returns (r: State)
    requires Reaches(z, s) && t in s.pcs && s.pcs[t].CloseMark? && !s.pcs[t].raised && !s.pcs[t].inst
    requires s.sh.registry.None? && s.sh.lifecycle.None? && s.sh.locks == map[s.pcs[t].x := t]
    ensures var pc := s.pcs[t];
            && Reaches(z, r) && r.pcs == s.pcs[t := Return(pc.back, false, true, false)]
            && r.sh == s.sh.(closed := s.sh.closed + {pc.x}, registered := s.sh.registered - {pc.x}, locks := map[])
  {
    hide Reaches;
    var x, back := s.pcs[t].x, s.pcs[t].back;
    var sh := s.sh.(closed := s.sh.closed + {x});
    r := Go(z, s, t, FINE, sh, UnregWait(x, back, false, false));
    r := Go(z, r, t, FINE, sh.(registry := Some(t)), Unreg(x, back, false, false));
    assert sh.locks - {x} == map[];
    r := Go(z, r, t, FINE, sh.(registered := sh.registered - {x}, locks := map[]), Return(back, false, true, false));
  }

  /** What is left of the streams once those of `todo` have been closed. */
  predicate ClosedThem(a: Shared, b: Shared, todo: set<Stream>) {
    && Free(b) && b.owner == a.owner && b.next == a.next
    && b.closed == a.closed + todo && b.freed == a.freed + (todo - a.closed)
    && b.registered == a.registered - (todo - a.closed)
  }

  lemma {:induction false} ClosesEach(z: State, s: State, t: Tid) returns (r: State)
    requires Reaches(z, s) && t in s.pcs && s.pcs[t].TermNext? && s.pcs[t].ok && !s.pcs[t].inst && Free(s.sh)
    ensures Reaches(z, r) && r.pcs == s.pcs[t := TermLock(s.pcs[t].p, false)] && ClosedThem(s.sh, r.sh, s.pcs[t].todo)
    decreases |s.pcs[t].todo|
  {
    hide Reaches;
    var p, todo := s.pcs[t].p, s.pcs[t].todo;
    if todo == {} {
      r := Go(z, s, t, FINE, s.sh, TermLock(p, false));
    } else {
      var x :| x in todo;
      r := Go(z, s, t, FINE.(pick := x), s.sh, CloseWait(x, Terminator(p, todo - {x}, true), false));
      r := CloseGoesOn(z, r, t);
      var m := r;
      r := ClosesEach(z, r, t);
      OneThenTheRest(s.sh, m.sh, r.sh, todo, x);
    }
  }

  lemma OneThenTheRest(a: Shared, m: Shared, b: Shared, todo: set<Stream>, x: Stream)
    requires x in todo && (if x in a.closed then m == a else m == AfterClose(a, x)) && ClosedThem(m, b, todo - {x})
    ensures ClosedThem(a, b, todo)
  {
    assert a.closed + todo == m.closed + (todo - {x});
    assert todo - a.closed == (if x in a.closed then {} else {x}) + (todo - {x} - m.closed);
  }

  /** Where a terminator of `p` may stand with no lock held. */
  predicate TerminatorAt(pc: Pc, p: Instance) {
    pc == Idle(false) || pc == TermWait(p, false) || (pc.TermNext? && pc.p == p && pc.ok && !pc.inst)
        || pc == TermLock(p, false)
  }

  /** It goes on to its end, and never meets `x`. */
  lemma Terminates(a: State, s: State, t: Tid, p: Instance, x: Stream) returns (r: State)
    requires Reaches(a, s) && t in s.pcs && TerminatorAt(s.pcs[t], p) && Free(s.sh) && x !in s.sh.closed
             && x !in s.sh.registered
    requires s.pcs[t].TermNext? ==> x !in s.pcs[t].todo
    ensures Reaches(a, r) && r.pcs == s.pcs[t := TermLock(p, false)]
    ensures Free(r.sh) && r.sh.owner == s.sh.owner && x !in r.sh.closed
  {
    hide Reaches;
    r := s;
    if r.pcs[t].Idle? { r := Go(a, r, t, FINE.(op := TermWait(p, false)), s.sh, TermWait(p, false)); }
    if r.pcs[t].TermWait? {
      r := Go(a, r, t, FINE, s.sh.(registry := Some(t)), TermList(p, false));
      var next := Next(r.sh, t, TermList(p, false), FINE).1;
      assert x !in next.todo;
      r := Go(a, r, t, FINE, s.sh, next);
    }
    if r.pcs[t].TermNext? { r := ClosesEach(a, r, t); }
  }

  /** Where an opener on `p` may stand with no lock held; a stream it has opened is not known to anybody yet. */
  predicate OpenerAt(s: State, u: Tid, t: Tid, p: Instance) {
    && u in s.pcs && t in s.pcs && u != t
    && match s.pcs[u]
       case Idle(inst) => !inst
       case OpenWait(q, inst) => q == p && !inst
       case OpenReg(x, q, inst) =>
         && q == p && !inst && x in s.sh.owner && s.sh.owner[x] == p && x !in s.sh.closed && x !in s.sh.registered
         && (s.pcs[t].TermNext? ==> x !in s.pcs[t].todo)
       case _ => false
  }

  /**
   From every state in which no lock is held, whatever streams are open and wherever the
   other threads stand: an open and a terminate of one instance that are both
   under way, or start now, can end in a call on a freed stream.
   */
  lemma OverlapIsUseAfterFree(s: State, u: Tid, t: Tid, p: Instance) returns (r: State)
    requires Tidy(s.sh) && Free(s.sh) && OpenerAt(s, u, t, p) && TerminatorAt(s.pcs[t], p)
    requires s.pcs[t].TermNext? ==> s.pcs[t].todo <= s.sh.owner.Keys
    ensures Reaches(s, r) && u in r.pcs && r.pcs[u].InCall? && r.pcs[u].x in r.sh.freed
  {
    assert ActAll(s, []) == s;
    hide Reaches;
    r := s;
    if !s.pcs[u].OpenReg? { r := Opens(s, r, u, p); }
    var x := r.pcs[u].x;
    r := Terminates(s, r, t, p, x);
    r := MetIsUseAfterFree(s, r, u, t, x);
  }

  /** A terminate that starts while an open is unfinished: just what `Apart` forbids. */
  lemma OpenThenTerminate(s: State, u: Tid, t: Tid, p: Instance) returns (r: State)
    requires Tidy(s.sh) && Free(s.sh) && OpenerAt(s, u, t, p) && !s.pcs[u].Idle? && s.pcs[t] == Idle(false)
    ensures MayCall(s, t, TermWait(p, false)) && !Apart(s, TermWait(p, false))
    ensures Reaches(Act(s, Event(t, FINE.(op := TermWait(p, false)))), r)
            && u in r.pcs && r.pcs[u].InCall? && r.pcs[u].x in r.sh.freed
  {
    assert Opening(s.pcs[u], p);
    r := OverlapIsUseAfterFree(Act(s, Event(t, FINE.(op := TermWait(p, false)))), u, t, p);
  }

  /** An open that starts while a terminate is under way, likewise. */
  lemma TerminateThenOpen(s: State, u: Tid, t: Tid, p: Instance) returns (r: State)
    requires Tidy(s.sh) && Free(s.sh) && u in s.pcs && t in s.pcs && s.pcs[u] == Idle(false)
    requires TerminatorAt(s.pcs[t], p) && !s.pcs[t].Idle? && (s.pcs[t].TermNext? ==> s.pcs[t].todo <= s.sh.owner.Keys)
    ensures MayCall(s, u, OpenWait(p, false)) && !Apart(s, OpenWait(p, false))
    ensures Reaches(Act(s, Event(u, FINE.(op := OpenWait(p, false)))), r)
            && u in r.pcs && r.pcs[u].InCall? && r.pcs[u].x in r.sh.freed
  {
    assert Terminating(s.pcs[t], p);
    r := OverlapIsUseAfterFree(Act(s, Event(u, FINE.(op := OpenWait(p, false)))), u, t, p);
  }

  /** And it comes to that from the start. */
  lemma OverlapIsReached(threads: set<Tid>, u: Tid, t: Tid) returns (r: State)
    requires u in threads && t in threads && u != t
    ensures Reaches(Initial(threads), r) && u in r.pcs && r.pcs[u].InCall? && r.pcs[u].x in r.sh.freed
  {
    r := OverlapIsUseAfterFree(Initial(threads), u, t, 0);
  }
}
