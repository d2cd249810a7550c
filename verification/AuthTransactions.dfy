/**
 Nested `transaction()` blocks on one thread's SQLite connection
 (SOURCE/auth/database.py, `SQLiteAuthDatabase.transaction` and `_commit_if_needed`).

 The driver opens a transaction before any write, so a write that raises, like a
 commit that raises, leaves one open; `BEGIN` raises while one is open.
 */
module AuthTransactions {
  type Record = nat

  /** One thread's connection and its `transaction_depth`. */
  datatype Conn = Conn(durable: seq<Record>, pending: seq<Record>, open: bool, depth: nat)
  {
    predicate Idle() { pending == [] && !open && depth == 0 }
  }

  /** How a piece of code ends: normally, with an Exception, or with a BaseException such as CancelledError. */
  datatype Outcome = Normal | Raised | Cancelled

  /** Code that uses the database; the booleans say what fails when it runs. */
  datatype Code =
    | Skip
    | Then(first: Code, rest: Code)
    | Write(w: Record, fails: bool, commitFails: bool)          // ends with `_commit_if_needed`
    | DirectWrite(w: Record, fails: bool, commitFails: bool)    // ends with `conn.commit()`
    | Transaction(body: Code, commitFails: bool)
    | Guarded(body: Code)                                       // try: body except Exception: pass
    | Check(fails: bool)                                        // a read or a check, which may raise
    | Await(cancelled: bool)                                    // where a coroutine may be cancelled

  // ------------------------------------------------------------- the connection

  function Executed(c: Conn, w: Record, fails: bool): Conn {
    if fails then c.(open := true) else c.(pending := c.pending + [w], open := true)
  }

  function Committed(c: Conn): Conn { c.(durable := c.durable + c.pending, pending := [], open := false) }

  function RolledBack(c: Conn): Conn { c.(pending := [], open := false) }

  /** Whether `transaction()` can be entered: `BEGIN` raises while a transaction is open. */
  predicate MayEnter(c: Conn) { c.depth > 0 || !c.open }

  /** Only the outermost block begins. */
  function Entered(c: Conn): Conn { c.(open := c.open || c.depth == 0, depth := c.depth + 1) }

  /** Leaving a block entered at depth `outer`: only the outermost block commits or rolls back. */
  function Left(c: Conn, outer: nat, outcome: Outcome, commitFails: bool): (Conn, Outcome) {
    var d := c.(depth := outer);
    if outer > 0 then (d, outcome)
    else match outcome
      case Normal => if commitFails then (RolledBack(d), Raised) else (Committed(d), Normal)
      case Raised => (RolledBack(d), Raised)
      case Cancelled => (d, Cancelled)
  }

  /** `made` are the writes executed, the first `kept` of them committed by a direct commit on the way. */
  datatype Ran = Ran(conn: Conn, outcome: Outcome, made: seq<Record>, kept: nat)

  function Run(code: Code, c: Conn): Ran
    decreases code
  {
    match code
    case Skip => Ran(c, Normal, [], 0)
    case Then(first, rest) =>
      var a := Run(first, c);
      if !a.outcome.Normal? then a
      else
        var b := Run(rest, a.conn);
        Ran(b.conn, b.outcome, a.made + b.made, if b.kept > 0 then |a.made| + b.kept else a.kept)
    case Write(w, fails, commitFails) =>
      var d := Executed(c, w, fails);
      if fails then Ran(d, Raised, [], 0)
      else if c.depth > 0 then Ran(d, Normal, [w], 0)
      else if commitFails then Ran(d, Raised, [w], 0)
      else Ran(Committed(d), Normal, [w], 1)
    case DirectWrite(w, fails, commitFails) =>
      var d := Executed(c, w, fails);
      if fails then Ran(d, Raised, [], 0)
      else if commitFails then Ran(d, Raised, [w], 0)
      else Ran(Committed(d), Normal, [w], 1)
    case Transaction(body, commitFails) =>
      if !MayEnter(c) then Ran(c, Raised, [], 0)
      else
        var r := Run(body, Entered(c));
        var (d, outcome) := Left(r.conn, c.depth, r.outcome, commitFails);
        Ran(d, outcome, r.made, if c.depth == 0 && outcome.Normal? then |r.made| else r.kept)
    case Guarded(body) =>
      var r := Run(body, c);
      if r.outcome.Raised? then r.(outcome := Normal) else r
    case Check(fails) => Ran(c, if fails then Raised else Normal, [], 0)
    case Await(cancelled) => Ran(c, if cancelled then Cancelled else Normal, [], 0)
  }

  /** The same, on the fields the source updates. */
  class Database {
    var durable: seq<Record>
    var pending: seq<Record>
    var open: bool
    var depth: nat

    function Value(): Conn
      reads this
    {
      Conn(durable, pending, open, depth)
    }

    constructor ()
      ensures Value().Idle() && durable == []
    {
      durable, pending, open, depth := [], [], false, 0;
    }

    /** `conn.execute` of a write. */
    method Execute(w: Record, fails: bool) returns (outcome: Outcome)
      modifies this
      ensures Value() == Executed(old(Value()), w, fails) && outcome == if fails then Raised else Normal
    {
      open := true;
      if fails { return Raised; }
      pending := pending + [w];
      return Normal;
    }

    method Commit(fails: bool) returns (outcome: Outcome)
      modifies this
      ensures Value() == (if fails then old(Value()) else Committed(old(Value())))
      ensures outcome == if fails then Raised else Normal
    {
      if fails { return Raised; }
      durable, pending, open := durable + pending, [], false;
      return Normal;
    }

    method CommitIfNeeded(fails: bool) returns (outcome: Outcome)
      modifies this
      ensures depth > 0 ==> Value() == old(Value()) && outcome == Normal
      ensures depth == 0 ==>
              && Value() == (if fails then old(Value()) else Committed(old(Value())))
              && outcome == if fails then Raised else Normal
    {
      outcome := Normal;
      if depth == 0 { outcome := Commit(fails); }
    }

    /** Entering `transaction()`: a refused `BEGIN` leaves the depth alone. */
    method Enter() returns (entered: bool, outer: nat)
      modifies this
      ensures outer == old(depth) && (entered <==> MayEnter(old(Value())))
      ensures Value() == if entered then Entered(old(Value())) else old(Value())
    {
      outer := depth;
      if outer == 0 {
        if open { return false, outer; }
        open := true;
      }
      depth := outer + 1;
      entered := true;
    }

    /** Leaving the block; the `finally` restores the depth whatever happened. */
    method Exit(outer: nat, ended: Outcome, commitFails: bool) returns (outcome: Outcome)
      modifies this
      ensures (Value(), outcome) == Left(old(Value()), outer, ended, commitFails)
    {
      outcome := ended;
      if ended.Normal? && outer == 0 { outcome := Commit(commitFails); }
      if outcome.Raised? && outer == 0 { pending, open := [], false; }
      depth := outer;
    }

    method Perform(code: Code) returns (outcome: Outcome)
      modifies this
      ensures Value() == Run(code, old(Value())).conn && outcome == Run(code, old(Value())).outcome
      decreases code
    {
      match code {
        case Skip => outcome := Normal;
        case Check(fails) => outcome := if fails then Raised else Normal;
        case Await(cancelled) => outcome := if cancelled then Cancelled else Normal;
        case Then(first, rest) =>
          outcome := Perform(first);
          if outcome.Normal? { outcome := Perform(rest); }
        case Write(w, fails, commitFails) =>
          outcome := Execute(w, fails);
          if outcome.Normal? { outcome := CommitIfNeeded(commitFails); }
        case DirectWrite(w, fails, commitFails) =>
          outcome := Execute(w, fails);
          if outcome.Normal? { outcome := Commit(commitFails); }
        case Transaction(body, commitFails) =>
          var entered, outer := Enter();
          if !entered { return Raised; }
          var ended := Perform(body);
          outcome := Exit(outer, ended, commitFails);
        case Guarded(body) =>
          outcome := Perform(body);
          if outcome.Raised? { outcome := Normal; }
      }
    }
  }

  // ------------------------------------------------------------ inside a block

  /** Uncommitted writes sit in an open transaction. */
  predicate Sound(c: Conn) { c.pending != [] ==> c.open }

  /** The first `kept` of the writes `made` were flushed, with all that was pending before; the rest are pending. */
  predicate Flushed(durable: seq<Record>, pending: seq<Record>, r: Ran) {
    && r.kept <= |r.made|
    && (r.kept == 0 ==> r.conn.durable == durable && r.conn.pending == pending + r.made)
    && (r.kept > 0 ==> r.conn.durable == durable + pending + r.made[..r.kept] && r.conn.pending == r.made[r.kept..])
  }

  /**
   Inside a block nothing becomes durable but what a direct commit flushes, in
   order, and the depth comes back on every way out.
   */
  lemma {:induction false} Inside(code: Code, c: Conn)
    requires c.depth > 0 && Sound(c)
    ensures var r := Run(code, c);
            && r.conn.depth == c.depth && Sound(r.conn)
            && Flushed(c.durable, c.pending, r)
            && (r.kept == 0 && c.open ==> r.conn.open)
    decreases code
  {
    match code {
      case Then(first, rest) =>
        Inside(first, c);
        var a := Run(first, c);
        if a.outcome.Normal? {
          Inside(rest, a.conn);
          hide Flushed;
          FlushedThen(c.durable, c.pending, a, Run(rest, a.conn));
        }
      case Transaction(body, _) => Inside(body, Entered(c));
      case Guarded(body) => Inside(body, c);
      case _ => OneWrite(code, c);
    }
  }

  lemma OneWrite(code: Code, c: Conn)
    requires c.depth > 0 && Sound(c) && !code.Then? && !code.Transaction? && !code.Guarded?
    ensures Flushed(c.durable, c.pending, Run(code, c))
  {
    assert c.pending + [] == c.pending;
    if code.DirectWrite? {
      assert [code.w][..1] == [code.w] && c.durable + (c.pending + [code.w]) == c.durable + c.pending + [code.w];
    }
  }

  lemma Split(m: seq<Record>, k: nat, n: seq<Record>)
    requires k <= |m|
    ensures m[..k] + m[k..] == m && (m + n)[..k] == m[..k] && (m + n)[k..] == m[k..] + n
  {
  }

  lemma SplitLater(m: seq<Record>, n: seq<Record>, k: nat)
    requires k <= |n|
    ensures (m + n)[..|m| + k] == m + n[..k] && (m + n)[|m| + k..] == n[k..]
  {
  }

  lemma Regroup(a: seq<Record>, b: seq<Record>, c: seq<Record>)
    ensures a + b + c == a + (b + c)
  {
  }

  lemma FlushedThen(durable: seq<Record>, pending: seq<Record>, a: Ran, b: Ran)
    requires Flushed(durable, pending, a) && Flushed(a.conn.durable, a.conn.pending, b)
    ensures Flushed(durable, pending,
                    Ran(b.conn, b.outcome, a.made + b.made, if b.kept > 0 then |a.made| + b.kept else a.kept))
  {
    var flushed := b.made[..b.kept];
    SplitLater(a.made, b.made, b.kept);
    Split(a.made, a.kept, b.made);
    if b.kept > 0 {
      if a.kept > 0 {
        Regroup(durable + pending, a.made[..a.kept], a.made[a.kept..]);
      } else {
        Regroup(durable, pending, a.made);
      }
      Regroup(durable + pending, a.made, flushed);
    } else if a.kept == 0 {
      Regroup(pending, a.made, b.made);
    }
  }

  // ------------------------------------------------------- the outermost block

  /**
   What an outermost block leaves behind, for every body: all its writes, or just
   those a direct commit had flushed; a BaseException alone leaves the rest
   pending.  The depth is zero again on every way out.
   */
  lemma OutermostBlock(body: Code, commitFails: bool, c: Conn)
    requires c.Idle()
    ensures var r := Run(Transaction(body, commitFails), c);
            && r.conn.depth == 0 && r.kept <= |r.made| && Sound(r.conn)
            && (r.outcome.Normal? ==> r.conn.durable == c.durable + r.made && r.conn.Idle())
            && (r.outcome.Raised? ==> r.conn.durable == c.durable + r.made[..r.kept] && r.conn.Idle())
            && (r.outcome.Cancelled? ==>
                r.conn.durable == c.durable + r.made[..r.kept] && r.conn.pending == r.made[r.kept..]
                                         && (r.kept == 0 ==> r.conn.open))
  {
    var b := Run(body, Entered(c));
    Inside(body, Entered(c));
    Unwrapped(body, commitFails, c);
    hide Run, Flushed;
    LeavingOutermost(c, b, commitFails);
  }

  lemma Unwrapped(body: Code, commitFails: bool, c: Conn)
    requires c.Idle()
    ensures var b := Run(body, Entered(c));
            var (d, outcome) := Left(b.conn, 0, b.outcome, commitFails);
            Run(Transaction(body, commitFails), c)
                == Ran(d, outcome, b.made, if outcome.Normal? then |b.made| else b.kept)
  {
  }

  /** Committing, rolling back or neither, on top of what the body did. */
  lemma LeavingOutermost(c: Conn, b: Ran, commitFails: bool)
    requires c.Idle() && Flushed(c.durable, [], b) && Sound(b.conn) && (b.kept == 0 ==> b.conn.open)
    ensures var (d, outcome) := Left(b.conn, 0, b.outcome, commitFails);
            && d.depth == 0 && b.kept <= |b.made| && Sound(d)
            && (outcome.Normal? ==> d.durable == c.durable + b.made && d.Idle())
            && (outcome.Raised? ==> d.durable == c.durable + b.made[..b.kept] && d.Idle())
            && (outcome.Cancelled? ==>
                d.durable == c.durable + b.made[..b.kept] && d.pending == b.made[b.kept..] && (b.kept == 0 ==> d.open))
  {
    Split(b.made, b.kept, []);
    assert c.durable + [] == c.durable && [] + b.made == b.made;
    Regroup(c.durable, b.made[..b.kept], b.made[b.kept..]);
  }

  /** Every write finishes through `_commit_if_needed`, and nothing but Exceptions is raised. */
  predicate Managed(code: Code) {
    match code
    case Then(first, rest) => Managed(first) && Managed(rest)
    case Transaction(body, _) => Managed(body)
    case Guarded(body) => Managed(body)
    case DirectWrite(_, _, _) => false
    case Await(cancelled) => !cancelled
    case _ => true
  }

  lemma {:induction false} ManagedKeepsNothing(code: Code, c: Conn)
    requires Managed(code) && c.depth > 0
    ensures Run(code, c).kept == 0 && !Run(code, c).outcome.Cancelled? && Run(code, c).conn.depth == c.depth
    decreases code
  {
    match code {
      case Then(first, rest) =>
        ManagedKeepsNothing(first, c);
        if Run(first, c).outcome.Normal? { ManagedKeepsNothing(rest, Run(first, c).conn); }
      case Transaction(body, _) => ManagedKeepsNothing(body, Entered(c));
      case Guarded(body) => ManagedKeepsNothing(body, c);
      case _ =>
    }
  }

  predicate AllOrNothing(r: Ran, c: Conn) {
    r.conn.Idle() && (r.conn.durable == c.durable || r.conn.durable == c.durable + r.made)
  }

  /**
   Every tree of nested blocks, with failures anywhere: all the writes made are
   durable if it ends normally, none if it raises, and the connection is idle.
   */
  lemma NestedBlocksAreAtomic(body: Code, commitFails: bool, c: Conn)
    requires c.Idle() && Managed(body)
    ensures var r := Run(Transaction(body, commitFails), c);
            && AllOrNothing(r, c)
            && r.conn.durable == (if r.outcome.Normal? then c.durable + r.made else c.durable)
  {
    OutermostBlock(body, commitFails, c);
    ManagedKeepsNothing(body, Entered(c));
    assert c.durable + [] == c.durable;
  }

  // ------------------------------------------------------- how a block ends

  /** How code inside a block ends, read off the code: it does not depend on the connection. */
  function Ends(code: Code): Outcome {
    match code
    case Skip => Normal
    case Then(first, rest) => if Ends(first).Normal? then Ends(rest) else Ends(first)
    case Write(_, fails, _) => if fails then Raised else Normal
    case DirectWrite(_, fails, commitFails) => if fails || commitFails then Raised else Normal
    case Transaction(body, _) => Ends(body)
    case Guarded(body) => if Ends(body).Raised? then Normal else Ends(body)
    case Check(fails) => if fails then Raised else Normal
    case Await(cancelled) => if cancelled then Cancelled else Normal
  }

  /** The writes that code inside a block executes, in order. */
  function Writings(code: Code): seq<Record> {
    match code
    case Then(first, rest) => Writings(first) + (if Ends(first).Normal? then Writings(rest) else [])
    case Write(w, fails, _) => if fails then [] else [w]
    case DirectWrite(w, fails, _) => if fails then [] else [w]
    case Transaction(body, _) => Writings(body)
    case Guarded(body) => Writings(body)
    case _ => []
  }

  /** Inside a block code ends and writes as its text says: nothing is refused and nothing is skipped. */
  lemma {:induction false} EndsAsWritten(code: Code, c: Conn)
    requires c.depth > 0
    ensures Run(code, c).outcome == Ends(code) && Run(code, c).made == Writings(code)
    decreases code
  {
    match code {
      case Then(first, rest) =>
        EndsAsWritten(first, c);
        KeepsDepth(first, c);
        if Ends(first).Normal? { EndsAsWritten(rest, Run(first, c).conn); }
      case Transaction(body, _) => EndsAsWritten(body, Entered(c));
      case Guarded(body) => EndsAsWritten(body, c);
      case _ =>
    }
  }

  /**
   For every code tree: an outermost block on an idle connection ends normally if and
   only if its body does and its commit does not fail.  Then all the writes of
   the body, in order, are durable, and the connection is idle.  Otherwise it
   raises or is cancelled, as its body or its commit did.
   */
  lemma BlockCommitsExactlyWhen(body: Code, commitFails: bool, c: Conn)
    requires c.Idle()
    ensures var r := Run(Transaction(body, commitFails), c);
            && (r.outcome.Normal? <==> Ends(body).Normal? && !commitFails)
            && (r.outcome.Cancelled? <==> Ends(body).Cancelled?)
            && (r.outcome.Normal? ==> r.conn == Conn(c.durable + Writings(body), [], false, 0))
  {
    EndsAsWritten(body, Entered(c));
    Unwrapped(body, commitFails, c);
    OutermostBlock(body, commitFails, c);
    hide Run;
  }

  /** Outside any block each write is on its own: durable if it ends normally, else left in an open transaction. */
  lemma WriteOutsideABlock(c: Conn, w: Record, fails: bool, commitFails: bool, direct: bool)
    requires c.Idle()
    ensures var r := Run(if direct then DirectWrite(w, fails, commitFails) else Write(w, fails, commitFails), c);
            && (r.outcome.Normal? <==> !fails && !commitFails) && !r.outcome.Cancelled?
            && r.conn == if fails then Conn(c.durable, [], true, 0)
                         else if commitFails then Conn(c.durable, [w], true, 0)
                         else Conn(c.durable + [w], [], false, 0)
  {
    assert [] + [w] == [w];
  }

  /** Nothing fails and nobody cancels. */
  predicate Smooth(code: Code) {
    match code
    case Skip => true
    case Then(first, rest) => Smooth(first) && Smooth(rest)
    case Write(_, fails, commitFails) => !fails && !commitFails
    case DirectWrite(_, fails, commitFails) => !fails && !commitFails
    case Transaction(body, commitFails) => Smooth(body) && !commitFails
    case Guarded(body) => Smooth(body)
    case Check(fails) => !fails
    case Await(cancelled) => !cancelled
  }

  /** All the writes in the text, in order. */
  function AllWrites(code: Code): seq<Record> {
    match code
    case Then(first, rest) => AllWrites(first) + AllWrites(rest)
    case Write(w, _, _) => [w]
    case DirectWrite(w, _, _) => [w]
    case Transaction(body, _) => AllWrites(body)
    case Guarded(body) => AllWrites(body)
    case _ => []
  }

  lemma {:induction false} SmoothEnds(code: Code)
    requires Smooth(code)
    ensures Ends(code).Normal? && Writings(code) == AllWrites(code)
  {
    match code {
      case Then(first, rest) => SmoothEnds(first); SmoothEnds(rest);
      case Transaction(body, _) => SmoothEnds(body);
      case Guarded(body) => SmoothEnds(body);
      case _ =>
    }
  }

  /**
   Code in which nothing fails ends normally on an idle connection, in a block or
   outside any, and leaves exactly its writes durable.
   */
  lemma {:induction false} SmoothCodeIsDurable(code: Code, c: Conn)
    requires c.Idle() && Smooth(code)
    ensures var r := Run(code, c); r.outcome.Normal? && r.conn == Conn(c.durable + AllWrites(code), [], false, 0)
    decreases code
  {
    match code {
      case Then(first, rest) =>
        SmoothCodeIsDurable(first, c);
        SmoothCodeIsDurable(rest, Run(first, c).conn);
        Regroup(c.durable, AllWrites(first), AllWrites(rest));
      case Transaction(body, commitFails) =>
        SmoothEnds(body);
        BlockCommitsExactlyWhen(body, commitFails, c);
      case Guarded(body) => SmoothCodeIsDurable(body, c);
      case Write(w, _, _) => assert c.durable + ([] + [w]) == c.durable + [w];
      case DirectWrite(w, _, _) => assert c.durable + ([] + [w]) == c.durable + [w];
      case _ => assert c.durable + [] == c.durable;
    }
  }

  // --------------------------------------- which blocks are atomic, whatever fails

  /** The same code with other things failing. */
  predicate SameShape(a: Code, b: Code) {
    match (a, b)
    case (Skip, Skip) => true
    case (Then(f1, r1), Then(f2, r2)) => SameShape(f1, f2) && SameShape(r1, r2)
    case (Write(w1, _, _), Write(w2, _, _)) => w1 == w2
    case (DirectWrite(w1, _, _), DirectWrite(w2, _, _)) => w1 == w2
    case (Transaction(b1, _), Transaction(b2, _)) => SameShape(b1, b2)
    case (Guarded(b1), Guarded(b2)) => SameShape(b1, b2)
    case (Check(_), Check(_)) => true
    case (Await(_), Await(_)) => true
    case _ => false
  }

  /** The code contains a write that commits directly. */
  predicate Commits(code: Code) {
    match code
    case Then(first, rest) => Commits(first) || Commits(rest)
    case Transaction(body, _) => Commits(body)
    case Guarded(body) => Commits(body)
    case _ => code.DirectWrite?
  }

  predicate Writes(code: Code) {
    match code
    case Then(first, rest) => Writes(first) || Writes(rest)
    case Transaction(body, _) => Writes(body)
    case Guarded(body) => Writes(body)
    case _ => code.Write? || code.DirectWrite?
  }

  /** No write follows one that commits directly. */
  predicate CommitsLast(code: Code) {
    match code
    case Then(first, rest) => CommitsLast(first) && CommitsLast(rest) && !(Commits(first) && Writes(rest))
    case Transaction(body, _) => CommitsLast(body)
    case Guarded(body) => CommitsLast(body)
    case _ => true
  }

  /**
   Whether the code, inside a block, is certain to leave no transaction open when it
   ends normally; `flushed` says whether none is open before it.
   */
  predicate EndsFlushed(code: Code, flushed: bool) {
    match code
    case Then(first, rest) => EndsFlushed(rest, EndsFlushed(first, flushed))
    case Write(_, _, _) => false
    case DirectWrite(_, _, _) => true
    case Transaction(body, _) => EndsFlushed(body, flushed)
    case Guarded(body) => EndsFlushed(body, flushed) && RaisesFlushed(body, flushed)
    case _ => flushed
  }

  /** ... when it raises. */
  predicate RaisesFlushed(code: Code, flushed: bool) {
    match code
    case Then(first, rest) => RaisesFlushed(first, flushed) && RaisesFlushed(rest, EndsFlushed(first, flushed))
    case Transaction(body, _) => RaisesFlushed(body, flushed)
    case Check(_) => flushed
    case _ => !code.Write? && !code.DirectWrite?
  }

  /** Every await stands where no transaction can be open. */
  predicate AwaitsFlushed(code: Code, flushed: bool) {
    match code
    case Then(first, rest) => AwaitsFlushed(first, flushed) && AwaitsFlushed(rest, EndsFlushed(first, flushed))
    case Transaction(body, _) => AwaitsFlushed(body, flushed)
    case Guarded(body) => AwaitsFlushed(body, flushed)
    case Await(_) => flushed
    case _ => true
  }

  /** Code of the same shape is judged the same. */
  lemma {:induction false} ShapeDecides(a: Code, b: Code, flushed: bool)
    requires SameShape(a, b)
    ensures Commits(a) == Commits(b) && Writes(a) == Writes(b) && CommitsLast(a) == CommitsLast(b)
    ensures EndsFlushed(a, flushed) == EndsFlushed(b, flushed) && RaisesFlushed(a, flushed) == RaisesFlushed(b, flushed)
    ensures AwaitsFlushed(a, flushed) == AwaitsFlushed(b, flushed)
  {
    match a {
      case Then(first, rest) =>
        ShapeDecides(first, b.first, flushed);
        ShapeDecides(rest, b.rest, EndsFlushed(first, flushed));
      case Transaction(body, _) => ShapeDecides(body, b.body, flushed);
      case Guarded(body) => ShapeDecides(body, b.body, flushed);
      case _ =>
    }
  }

  lemma {:induction false} SameAsItself(code: Code)
    ensures SameShape(code, code)
  {
    match code {
      case Then(first, rest) => SameAsItself(first); SameAsItself(rest);
      case Transaction(body, _) => SameAsItself(body);
      case Guarded(body) => SameAsItself(body);
      case _ =>
    }
  }

  /** Inside a block the depth is the same again at every way out. */
  lemma {:induction false} KeepsDepth(code: Code, c: Conn)
    requires c.depth > 0
    ensures Run(code, c).conn.depth == c.depth && Run(code, c).kept <= |Run(code, c).made|
    decreases code
  {
    match code {
      case Then(first, rest) => KeepsDepth(first, c); KeepsDepth(rest, Run(first, c).conn);
      case Transaction(body, _) => KeepsDepth(body, Entered(c));
      case Guarded(body) => KeepsDepth(body, c);
      case _ =>
    }
  }

  /** If no write follows a direct commit, everything is flushed or nothing. */
  lemma {:induction false} FlushesAllOrNone(code: Code, c: Conn)
    requires c.depth > 0 && CommitsLast(code)
    ensures var r := Run(code, c);
            && (r.kept == 0 || r.kept == |r.made|)
            && (!Commits(code) ==> r.kept == 0) && (!Writes(code) ==> r.made == [])
    decreases code
  {
    match code {
      case Then(first, rest) =>
        FlushesAllOrNone(first, c);
        KeepsDepth(first, c);
        FlushesAllOrNone(rest, Run(first, c).conn);
      case Transaction(body, _) => FlushesAllOrNone(body, Entered(c));
      case Guarded(body) => FlushesAllOrNone(body, c);
      case _ =>
    }
  }

  /** If every await stands where nothing is open, a cancellation finds nothing open. */
  lemma {:induction false} CancelledFlushed(code: Code, flushed: bool, c: Conn)
    requires c.depth > 0 && AwaitsFlushed(code, flushed) && (flushed ==> !c.open)
    ensures var r := Run(code, c);
            match r.outcome
            case Normal => EndsFlushed(code, flushed) ==> !r.conn.open
            case Raised => RaisesFlushed(code, flushed) ==> !r.conn.open
            case Cancelled => !r.conn.open
    decreases code
  {
    match code {
      case Then(first, rest) =>
        CancelledFlushed(first, flushed, c);
        KeepsDepth(first, c);
        if Run(first, c).outcome.Normal? { CancelledFlushed(rest, EndsFlushed(first, flushed), Run(first, c).conn); }
      case Transaction(body, _) => CancelledFlushed(body, flushed, Entered(c));
      case Guarded(body) => CancelledFlushed(body, flushed, c);
      case _ =>
    }
  }

  // ------------------------------------------- and what fails to break the others

  /** Some failures let the code end normally, with a transaction open unless none can be. */
  lemma {:induction false} CanEndOpen(code: Code, flushed: bool, c: Conn) returns (p: Code)
    requires c.depth > 0 && (!flushed ==> c.open)
    ensures SameShape(code, p) && Run(p, c).outcome.Normal? && (!EndsFlushed(code, flushed) ==> Run(p, c).conn.open)
    decreases code, 0
  {
    match code {
      case Then(first, rest) =>
        var a := CanEndOpen(first, flushed, c);
        KeepsDepth(a, c);
        var b := CanEndOpen(rest, EndsFlushed(first, flushed), Run(a, c).conn);
        p := Then(a, b);
      case Transaction(body, f) =>
        var b := CanEndOpen(body, flushed, Entered(c));
        KeepsDepth(b, Entered(c));
        p := Transaction(b, f);
      case Guarded(body) =>
        var b: Code;
        if EndsFlushed(body, flushed) && !RaisesFlushed(body, flushed) { b := CanRaiseOpen(body, flushed, c); }
        else { b := CanEndOpen(body, flushed, c); }
        p := Guarded(b);
      case Write(w, _, _) => p := Write(w, false, false);
      case DirectWrite(w, _, _) => p := DirectWrite(w, false, false);
      case Check(_) => p := Check(false);
      case Await(_) => p := Await(false);
      case Skip => p := Skip;
    }
  }

  lemma {:induction false} CanRaiseOpen(code: Code, flushed: bool, c: Conn) returns (p: Code)
    requires c.depth > 0 && (!flushed ==> c.open) && !RaisesFlushed(code, flushed)
    ensures SameShape(code, p) && Run(p, c).outcome.Raised? && Run(p, c).conn.open
    decreases code, 1
  {
    match code {
      case Then(first, rest) =>
        if !RaisesFlushed(first, flushed) {
          var a := CanRaiseOpen(first, flushed, c);
          SameAsItself(rest);
          p := Then(a, rest);
        } else {
          var a := CanEndOpen(first, flushed, c);
          KeepsDepth(a, c);
          var b := CanRaiseOpen(rest, EndsFlushed(first, flushed), Run(a, c).conn);
          p := Then(a, b);
        }
      case Transaction(body, f) =>
        var b := CanRaiseOpen(body, flushed, Entered(c));
        p := Transaction(b, f);
      case Write(w, _, _) => p := Write(w, true, false);
      case DirectWrite(w, _, _) => p := DirectWrite(w, true, false);
      case Check(_) => p := Check(true);
      case _ =>
    }
  }

  /** A misplaced await can be cancelled while a transaction is open. */
  lemma {:induction false} CanCancelOpen(code: Code, flushed: bool, c: Conn) returns (p: Code)
    requires c.depth > 0 && (!flushed ==> c.open) && !AwaitsFlushed(code, flushed)
    ensures SameShape(code, p) && Run(p, c).outcome.Cancelled? && Run(p, c).conn.open
    decreases code
  {
    match code {
      case Then(first, rest) =>
        if !AwaitsFlushed(first, flushed) {
          var a := CanCancelOpen(first, flushed, c);
          SameAsItself(rest);
          p := Then(a, rest);
        } else {
          var a := CanEndOpen(first, flushed, c);
          KeepsDepth(a, c);
          var b := CanCancelOpen(rest, EndsFlushed(first, flushed), Run(a, c).conn);
          p := Then(a, b);
        }
      case Transaction(body, f) =>
        var b := CanCancelOpen(body, flushed, Entered(c));
        p := Transaction(b, f);
      case Guarded(body) =>
        var b := CanCancelOpen(body, flushed, c);
        p := Guarded(b);
      case Await(_) => p := Await(true);
      case _ =>
    }
  }

  /** When nothing fails everything is made, and flushed if anything commits. */
  lemma {:induction false} CanSucceed(code: Code, c: Conn) returns (p: Code)
    requires c.depth > 0
    ensures SameShape(code, p) && Run(p, c).outcome.Normal? && (Commits(code) ==> Run(p, c).kept > 0)
    decreases code
  {
    match code {
      case Then(first, rest) =>
        var a := CanSucceed(first, c);
        KeepsDepth(a, c);
        var b := CanSucceed(rest, Run(a, c).conn);
        p := Then(a, b);
      case Transaction(body, f) =>
        var b := CanSucceed(body, Entered(c));
        p := Transaction(b, f);
      case Guarded(body) =>
        var b := CanSucceed(body, c);
        p := Guarded(b);
      case Write(w, _, _) => p := Write(w, false, false);
      case DirectWrite(w, _, _) => p := DirectWrite(w, false, false);
      case Check(_) => p := Check(false);
      case Await(_) => p := Await(false);
      case Skip => p := Skip;
    }
  }

  /** When just the direct commits fail, nothing is flushed, yet something is made. */
  lemma {:induction false} CanStayUnflushed(code: Code, c: Conn) returns (p: Code)
    requires c.depth > 0
    ensures var r := Run(p, c);
            && SameShape(code, p) && !r.outcome.Cancelled? && r.kept == 0
            && (Writes(code) ==> r.made != []) && (!Writes(code) ==> r.outcome.Normal?)
    decreases code
  {
    match code {
      case Then(first, rest) =>
        var a := CanStayUnflushed(first, c);
        KeepsDepth(a, c);
        var b := CanStayUnflushed(rest, Run(a, c).conn);
        p := Then(a, b);
      case Transaction(body, f) =>
        var b := CanStayUnflushed(body, Entered(c));
        p := Transaction(b, f);
      case Guarded(body) =>
        var b := CanStayUnflushed(body, c);
        p := Guarded(b);
      case Write(w, _, _) => p := Write(w, false, false);
      case DirectWrite(w, _, _) => p := DirectWrite(w, false, true);
      case Check(_) => p := Check(false);
      case Await(_) => p := Await(false);
      case Skip => p := Skip;
    }
  }

  /** A write after a direct commit can be left behind: some, but not all, of the writes are flushed. */
  lemma {:induction false} CanSplit(code: Code, c: Conn) returns (p: Code)
    requires c.depth > 0 && !CommitsLast(code)
    ensures SameShape(code, p) && !Run(p, c).outcome.Cancelled? && 0 < Run(p, c).kept < |Run(p, c).made|
    decreases code
  {
    match code {
      case Then(first, rest) =>
        if CommitsLast(first) && !CommitsLast(rest) {
          var a := CanSucceed(first, c);
          KeepsDepth(a, c);
          var b := CanSplit(rest, Run(a, c).conn);
          p := Then(a, b);
        } else {
          var a: Code;
          if CommitsLast(first) { a := CanSucceed(first, c); } else { a := CanSplit(first, c); }
          KeepsDepth(a, c);
          var b := CanStayUnflushed(rest, Run(a, c).conn);
          p := Then(a, b);
        }
      case Transaction(body, f) =>
        var b := CanSplit(body, Entered(c));
        p := Transaction(b, f);
      case Guarded(body) =>
        var b := CanSplit(body, c);
        p := Guarded(b);
      case _ =>
    }
  }

  // --------------------------------------------------------- putting it together

  /** For one run: it did not end half flushed, and no BaseException left a transaction open. */
  lemma AtomicByTheEnd(body: Code, commitFails: bool, c: Conn)
    requires c.Idle()
    ensures var r := Run(Transaction(body, commitFails), c);
            AllOrNothing(r, c) <==>
              match r.outcome
              case Normal => true
              case Raised => r.kept == 0 || r.kept == |r.made|
              case Cancelled => !r.conn.open
  {
    OutermostBlock(body, commitFails, c);
    var r := Run(Transaction(body, commitFails), c);
    assert r.made[..|r.made|] == r.made && c.durable + [] == c.durable;
    hide Run;
    if r.outcome.Raised? && 0 < r.kept < |r.made| {
      assert |r.conn.durable| == |c.durable| + r.kept;
    }
    if r.outcome.Cancelled? && !r.conn.open {
      assert r.made[r.kept..] == [] && r.made[..r.kept] == r.made;
    }
  }

  /**
   A block is atomic, with its connection idle afterwards, whatever fails in it, if
   and only if no write in it follows a direct commit and no await in it
   stands where a transaction may be open.
   */
  lemma AtomicWhateverFailsExactlyWhen(body: Code, c: Conn)
    requires c.Idle()
    ensures CommitsLast(body) && AwaitsFlushed(body, false)
            <==> forall p, commitFails :: SameShape(body, p) ==> AllOrNothing(Run(Transaction(p, commitFails), c), c)
  {
    if CommitsLast(body) && AwaitsFlushed(body, false) {
      forall p, commitFails | SameShape(body, p) ensures AllOrNothing(Run(Transaction(p, commitFails), c), c) {
        ShapeDecides(body, p, false);
        AlwaysAtomic(p, commitFails, c);
      }
    } else {
      var p, commitFails := CanBreak(body, c);
    }
  }

  lemma AlwaysAtomic(body: Code, commitFails: bool, c: Conn)
    requires c.Idle() && CommitsLast(body) && AwaitsFlushed(body, false)
    ensures AllOrNothing(Run(Transaction(body, commitFails), c), c)
  {
    Unwrapped(body, commitFails, c);
    FlushesAllOrNone(body, Entered(c));
    CancelledFlushed(body, false, Entered(c));
    AtomicByTheEnd(body, commitFails, c);
  }

  lemma CanBreak(body: Code, c: Conn) returns (p: Code, commitFails: bool)
    requires c.Idle() && !(CommitsLast(body) && AwaitsFlushed(body, false))
    ensures SameShape(body, p) && !AllOrNothing(Run(Transaction(p, commitFails), c), c)
  {
    commitFails := true;
    if CommitsLast(body) { p := CanCancelOpen(body, false, Entered(c)); } else { p := CanSplit(body, Entered(c)); }
    Unwrapped(p, true, c);
    AtomicByTheEnd(p, true, c);
  }

  /** A repository method that commits directly splits the block it is called in. */
  lemma DirectCommitSplitsABlock(c: Conn, a: Record, b: Record)
    requires c.Idle()
    ensures var body := Then(DirectWrite(a, false, false), Then(Write(b, false, false), Check(true)));
            var r := Run(Transaction(body, false), c);
            r.outcome == Raised && r.made == [a, b] && r.conn.durable == c.durable + [a] && !AllOrNothing(r, c)
  {
    var body := Then(DirectWrite(a, false, false), Then(Write(b, false, false), Check(true)));
    var e := Entered(c);
    var e1 := Run(DirectWrite(a, false, false), e).conn;
    assert [] + [a] == [a] && e1 == Conn(c.durable + [a], [], false, 1);
    var e2 := Run(Write(b, false, false), e1).conn;
    assert [] + [b] == [b] && e2 == Conn(c.durable + [a], [b], true, 1);
    assert Run(Then(Write(b, false, false), Check(true)), e1) == Ran(e2, Raised, [b], 0) by { assert [b] + [] == [b]; }
    assert Run(body, e) == Ran(e2, Raised, [a] + [b], 1);
    assert |c.durable + [a]| == |c.durable| + 1 && |c.durable + [a, b]| == |c.durable| + 2;
  }

  /**
   A coroutine cancelled inside a block neither commits nor rolls back: the next write
   on the thread commits the abandoned one, and the next block cannot begin.
   */
  lemma CancelledWritesLinger(c: Conn, a: Record, b: Record, next: Code)
    requires c.Idle()
    ensures var r := Run(Transaction(Then(Write(a, false, false), Await(true)), false), c);
            && r.outcome == Cancelled && r.conn == c.(pending := [a], open := true)
            && Run(Write(b, false, false), r.conn).conn.durable == c.durable + [a, b]
            && Run(Transaction(next, false), r.conn) == Ran(r.conn, Raised, [], 0)
  {
    var e := Entered(c);
    var e1 := Run(Write(a, false, false), e).conn;
    assert [] + [a] == [a] && e1 == Conn(c.durable, [a], true, 1);
    assert Run(Then(Write(a, false, false), Await(true)), e)
        == Ran(e1, Cancelled, [a], 0) by { assert [a] + [] == [a]; }
    assert c.durable + ([a] + [b]) == c.durable + [a, b];
  }

  // --------------------------------------------------- blocks that do not nest

  /** Coroutines on one thread share its connection: `outers` is what each block now open found on entry. */
  datatype Shared = Shared(conn: Conn, outers: seq<nat>)

  datatype Move =
    | Enter
    | Leave(i: nat, ended: Outcome, commitFails: bool)   // the i-th of the open blocks, in order of entry

  function After(s: Shared, m: Move): Shared {
    match m
    case Enter => if MayEnter(s.conn) then Shared(Entered(s.conn), s.outers + [s.conn.depth]) else s
    case Leave(i, ended, commitFails) =>
      if i < |s.outers| then Shared(Left(s.conn, s.outers[i], ended, commitFails).0, s.outers[..i] + s.outers[i + 1..])
      else s
  }

  function AfterAll(s: Shared, ms: seq<Move>): Shared
    decreases |ms|
  {
    if ms == [] then s else AfterAll(After(s, ms[0]), ms[1..])
  }

  /** The depth is the number of open blocks. */
  predicate Counts(s: Shared) { s.conn.depth == |s.outers| }

  /** Each block that is left is the one entered last. */
  predicate LastInFirstOut(s: Shared, ms: seq<Move>)
    decreases |ms|
  {
    ms == [] || ((ms[0].Leave? && ms[0].i < |s.outers| ==> ms[0].i == |s.outers| - 1)
                 && LastInFirstOut(After(s, ms[0]), ms[1..]))
  }

  /**
   The depth a block restores is the number of blocks still open, at every moment,
   if and only if blocks are left last in, first out.
   */
  lemma {:induction false} DepthCountsExactlyWhen(s: Shared, ms: seq<Move>)
    requires Counts(s) && forall k :: 0 <= k < |s.outers| ==> s.outers[k] == k
    ensures LastInFirstOut(s, ms) <==> forall n :: 0 <= n <= |ms| ==> Counts(AfterAll(s, ms[..n]))
    decreases |ms|
  {
    if ms != [] {
      var next := After(s, ms[0]);
      FirstMove(s, ms);
      assert Counts(next) <==> (ms[0].Leave? && ms[0].i < |s.outers| ==> ms[0].i == |s.outers| - 1);
      assert AfterAll(next, ms[1..][..0]) == next;
      if Counts(next) { DepthCountsExactlyWhen(next, ms[1..]); }
    }
  }

  lemma FirstMove(s: Shared, ms: seq<Move>)
    requires ms != []
    ensures (forall n :: 0 <= n <= |ms| ==> Counts(AfterAll(s, ms[..n])))
            <==> Counts(s) && forall n :: 0 <= n <= |ms[1..]| ==> Counts(AfterAll(After(s, ms[0]), ms[1..][..n]))
  {
    forall n | 0 < n <= |ms| ensures AfterAll(s, ms[..n]) == AfterAll(After(s, ms[0]), ms[1..][..n - 1]) {
      assert ms[..n][1..] == ms[1..][..n - 1];
    }
    assert AfterAll(s, ms[..0]) == s;
    if forall n :: 0 <= n <= |ms| ==> Counts(AfterAll(s, ms[..n])) {
      forall n | 0 <= n <= |ms[1..]| ensures Counts(AfterAll(After(s, ms[0]), ms[1..][..n])) {
        assert AfterAll(s, ms[..n + 1]) == AfterAll(After(s, ms[0]), ms[1..][..n]);
      }
    }
  }

  /**
   What a stranded depth does: after two blocks that overlap without nesting it is
   one with nobody inside, and no later write on the thread is committed.
   */
  lemma OverlapStrandsTheDepth(c: Conn, w: Record)
    requires c.Idle()
    ensures var s := AfterAll(Shared(c, []), [Enter, Enter, Leave(0, Normal, false), Leave(0, Normal, false)]);
            && s.outers == [] && s.conn.depth == 1
            && Run(Write(w, false, false), s.conn).outcome == Normal
            && Run(Write(w, false, false), s.conn).conn.durable == c.durable
            && Run(Write(w, false, false), s.conn).conn.pending == [w]
  {
    assert c.durable + [] == c.durable && [] + [w] == [w];
    var ms := [Enter, Enter, Leave(0, Normal, false), Leave(0, Normal, false)];
    assert ms[1..] == [Enter, Leave(0, Normal, false), Leave(0, Normal, false)];
    assert ms[1..][1..] == [Leave(0, Normal, false), Leave(0, Normal, false)];
    assert ms[1..][1..][1..] == [Leave(0, Normal, false)];
    assert ms[1..][1..][1..][1..] == [];
  }
}
