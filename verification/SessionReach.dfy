/** Runs put together action by action. */
module SessionReach {
  import opened Common
  import opened SessionModel
  import opened SessionProtocol
  import opened SessionRuns
  import opened SessionTheorems

  /** Some run leads from `a` to `b`. */
  ghost predicate Reaches(a: State, b: State) { exists es :: Execute(a, es) == b }

  lemma ReachSelf(a: State)
    ensures Reaches(a, a)
  {
    assert Execute(a, []) == a;
  }

  lemma ReachOn(a: State, b: State, e: Event)
    requires Reaches(a, b)
    ensures Reaches(a, Step(b, e))
  {
    hide Step;
    var es :| Execute(a, es) == b;
    Joined(a, es, [e]);
    assert [e][1..] == [];
    assert Execute(Step(b, e), []) == Step(b, e);
    assert Execute(a, es + [e]) == Step(b, e);
  }

  /** Thread `t` performs the one action it is stopped before, with the outcome `out`. */
  lemma Act(a: State, s: State, t: Tid, c: Choice, out: Out) returns (r: State)
    requires Reaches(a, s) && t in s.pcs && out == Next(s.sh, s.pcs[t], c)
    requires (out.serial.Take? ==> s.serial.None?) && (out.lock.Take? ==> s.lock.None?)
    ensures Reaches(a, r)
    ensures r == State(out.sh, s.pcs[t := out.pc], Holder(s.serial, out.serial, t), Holder(s.lock, out.lock, t))
  {
    hide Next;
    r := Step(s, Run(t, c));
    ReachOn(a, s, Run(t, c));
  }

  const FINE := Choice(Idle, true, Lost, None)

  lemma Waited(a: State, s: State, to: int) returns (r: State)
    requires Reaches(a, s) && to >= s.sh.now
    ensures Reaches(a, r) && r == s.(sh := s.sh.(now := to))
  {
    ReachOn(a, s, Tick(to));
    r := Step(s, Tick(to));
  }

  lemma ReachesInv(a: State, b: State)
    requires Inv(a) && Reaches(a, b)
    ensures Inv(b)
  {
    var es :| Execute(a, es) == b;
    ExecuteInv(a, es);
  }

  lemma SameThreads(a: State, b: State)
    requires Reaches(a, b)
    ensures b.pcs.Keys == a.pcs.Keys
  {
    var es :| Execute(a, es) == b;
    ThreadsStay(a, es);
  }

  lemma {:induction false} ThreadsStay(a: State, es: seq<Event>)
    ensures Execute(a, es).pcs.Keys == a.pcs.Keys
    decreases |es|
  {
    hide Next;
    if es != [] { ThreadsStay(Step(a, es[0]), es[1..]); }
  }
}
