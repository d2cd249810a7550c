/** Which events find out the facts a session may end for. */
module SessionFacts {
  import opened SessionModel
  import opened SessionProtocol
  import opened SessionInvariant
  import opened SessionRuns
  import opened SessionTheorems

  /** The server has nothing to give for `t`: it never issued it, or has rotated it away, or has ended its family. */
  predicate Refuses(sv: Server, t: Rotation) {
    t !in sv.familyOf || !sv.Live(t) || sv.familyOf[t] in sv.ended || sv.familyOf[t] in sv.replayed
  }

  /** The next action of a thread stopped at `pc` finds out `f`. */
  predicate Finds(sh: Shared, pc: Pc, c: Choice, f: Fact) {
    match f
    case Asked(h) => pc.Idle? && c.op == DCheck(h, false, f)                        // a caller's delete
    case Purged(h) => pc.PList? && h in sh.rows && sh.rows[h].user == pc.u          // a purge of the account
    case SawExpired(h, x, at) =>                                                    // a look at a row whose time is up
      x <= at == sh.now && ((pc.VExpiry? && pc.h == h && pc.row.expires == x)
                            || (pc.GRow? && pc.h == h && h in sh.rows && sh.rows[h].expires == x))
    case SawVerdict(h) => pc.CPost? && pc.h == h && c.reply.Granted? && Refuses(sh.server, pc.t)
    case SawStranger(h) => pc.CAnswered? && pc.h == h && pc.user != pc.row.user
    // the entry is there, the read fails
    case SawUnreadable(h) => pc.GRead? && pc.h == h && h in sh.refresh && !c.ok
    case Missing(_) => false
  }

  predicate FoundBy(s: State, e: Event, f: Fact) {
    e.Run? && e.t in s.pcs && Finds(s.sh, s.pcs[e.t], e.c, f)
  }

  /** Some event of the run finds out `f`. */
  ghost predicate Happened(s: State, es: seq<Event>, f: Fact) {
    exists k :: 0 <= k < |es| && FoundBy(Execute(s, es[..k]), es[k], f)
  }

  // ------------------------------------------------------------ one action

  ghost predicate Tells(a: Shared, pc: Pc, c: Choice, out: Out, f: Fact) {
    && (f in out.sh.facts <==> f in a.facts || Finds(a, pc, c, f))
    && (Finds(a, pc, c, f) ==> out.serial.Keep? && out.lock.Keep?)
  }

  /** The points at which a thread may find something out. */
  predicate Looking(pc: Pc) {
    pc.Idle? || pc.PList? || pc.VExpiry? || pc.GRow? || pc.CPost? || pc.CAnswered? || pc.GRead?
  }

  lemma Silent(a: Shared, pc: Pc, c: Choice, out: Out, f: Fact)
    requires !Looking(pc) && out.sh.facts == a.facts
    ensures Tells(a, pc, c, out, f)
  {
  }

  lemma LearnsOne(a: Shared, f: Fact)
    ensures Learn(a, f).facts == a.facts + {f}
  {
  }

  lemma StartTells(a: Shared, c: Choice, f: Fact)
    ensures Tells(a, Idle, c, NextIdle(a, c), f)
  {
    hide Learn;
    if c.op.DCheck? { LearnsOne(a, c.op.why); }
  }

  lemma ExpiryTells(a: Shared, pc: Pc, c: Choice, f: Fact)
    requires pc.VExpiry?
    ensures Tells(a, pc, c, NextValidate(a, pc, c), f)
  {
    hide Learn;
    LearnsOne(a, SawExpired(pc.h, pc.row.expires, a.now));
  }

  lemma ValidateTells(a: Shared, pc: Pc, c: Choice, f: Fact)
    requires PartOf(pc).Validate?
    ensures Tells(a, pc, c, NextValidate(a, pc, c), f)
  {
    if pc.VExpiry? {
      hide Tells, NextValidate;
      ExpiryTells(a, pc, c, f);
    } else {
      hide Learn, Touched, Tells, Finds;
      if pc.Touch? { TouchTells(a, pc.h); }
      Silent(a, pc, c, NextValidate(a, pc, c), f);
    }
  }

  lemma PostTells(a: Shared, pc: Pc, c: Choice, f: Fact)
    requires pc.CPost?
    ensures Tells(a, pc, c, NextSection(a, pc, c), f)
  {
    hide Learn;
    var sv := Post(a.server, pc.t, c.reply, a.nextRotation).0;
    LearnsOne(a.(server := sv, posts := a.posts + 1, nextRotation := a.nextRotation + 1), SawVerdict(pc.h));
  }

  lemma AnswerTells(a: Shared, pc: Pc, c: Choice, f: Fact)
    requires pc.CAnswered?
    ensures Tells(a, pc, c, NextSection(a, pc, c), f)
  {
    hide Learn;
    if pc.h in a.owner { LearnsOne(a.(strangers := a.strangers + {a.owner[pc.h]}), SawStranger(pc.h)); }
    LearnsOne(a, SawStranger(pc.h));
  }

  lemma UpdateTells(a: Shared, h: Hash, user: User, exp: int)
    ensures Updated(a, h, user, exp).facts == a.facts
  {
  }

  lemma SectionLearnsNothing(a: Shared, pc: Pc, c: Choice)
    requires PartOf(pc).Section? && !pc.CPost? && !pc.CAnswered?
    ensures NextSection(a, pc, c).sh.facts == a.facts
  {
    hide Learn, Updated, Post;
    if pc.CUpdate? { UpdateTells(a, pc.h, pc.row.user, pc.exp); }
  }

  lemma SectionTells(a: Shared, pc: Pc, c: Choice, f: Fact)
    requires PartOf(pc).Section? && !pc.CPost? && !pc.CAnswered?
    ensures Tells(a, pc, c, NextSection(a, pc, c), f)
  {
    SectionLearnsNothing(a, pc, c);
    hide NextSection, Tells, Finds;
    Silent(a, pc, c, NextSection(a, pc, c), f);
  }

  lemma TouchTells(a: Shared, h: Hash)
    ensures Touched(a, h).facts == a.facts
  {
  }

  lemma GrantTells(a: Shared, pc: Pc, c: Choice, f: Fact)
    requires PartOf(pc).Grant?
    ensures Tells(a, pc, c, NextGrant(a, pc, c), f)
  {
    if pc.GRow? || pc.GRead? {
      hide Tells, NextGrant;
      GrantLooks(a, pc, c, f);
    } else {
      hide Touched, Tells, Finds;
      if pc.GAnswer? { TouchTells(a, pc.h); }
      Silent(a, pc, c, NextGrant(a, pc, c), f);
    }
  }

  lemma GrantLooks(a: Shared, pc: Pc, c: Choice, f: Fact)
    requires pc.GRow? || pc.GRead?
    ensures Tells(a, pc, c, NextGrant(a, pc, c), f)
  {
    hide Learn;
    if pc.GRow? && pc.h in a.rows { LearnsOne(a, SawExpired(pc.h, a.rows[pc.h].expires, a.now)); }
    if pc.GRead? { LearnsOne(a, SawUnreadable(pc.h)); }
  }

  lemma DeleteTells(a: Shared, pc: Pc, c: Choice, f: Fact)
    requires PartOf(pc).Delete?
    ensures Tells(a, pc, c, NextDelete(a, pc, c), f)
  {
    hide Removed, Tells, Finds;
    if pc.DRemove? { RemovalTells(a, {pc.h}, map[pc.h := pc.why]); }
    Silent(a, pc, c, NextDelete(a, pc, c), f);
  }

  lemma RemovalTells(a: Shared, mine: set<Hash>, why: map<Hash, Fact>)
    ensures Removed(a, mine, why).facts == a.facts
  {
  }

  lemma WritingTells(a: Shared, h: Hash, h2: Hash)
    ensures Founded(a).facts == a.facts
    ensures h in a.owner ==> Named(a, h).facts == a.facts
    ensures h in a.rows ==> Renamed(a, h, h2).facts == a.facts
  {
  }

  lemma PurgeTells(a: Shared, pc: Pc, c: Choice, f: Fact)
    requires PartOf(pc).Purge?
    ensures Tells(a, pc, c, NextPurge(a, pc, c), f)
  {
    if !pc.PList? {
      hide Tells, Finds, Removed;
      if pc.PRemove? { PurgingTells(a, pc, c); }
      Silent(a, pc, c, NextPurge(a, pc, c), f);
    }
  }

  lemma PurgingTells(a: Shared, pc: Pc, c: Choice)
    requires pc.PRemove?
    ensures NextPurge(a, pc, c).sh.facts == a.facts
  {
  }

  lemma CreateTells(a: Shared, pc: Pc, c: Choice, f: Fact)
    requires PartOf(pc).Create?
    ensures Tells(a, pc, c, NextCreate(a, pc, c), f)
  {
    hide Founded, Tells, Finds;
    WritingTells(a, 0, 0);
    Silent(a, pc, c, NextCreate(a, pc, c), f);
  }

  lemma ReattachTells(a: Shared, pc: Pc, c: Choice, f: Fact)
    requires PartOf(pc).Reattach?
    ensures Tells(a, pc, c, NextReattach(a, pc, c), f)
  {
    hide Founded, Named, Renamed, Tells, Finds;
    if pc.RScan? && c.pick.Some? { WritingTells(a, c.pick.value, 0); }
    if pc.RRename? { WritingTells(a, pc.h, pc.h2); }
    Silent(a, pc, c, NextReattach(a, pc, c), f);
  }

  lemma ShutdownTells(a: Shared, pc: Pc, c: Choice, f: Fact)
    requires PartOf(pc).Shutdown?
    ensures Tells(a, pc, c, NextShutdown(a, pc, c), f)
  {
    hide Tells, Finds;
    Silent(a, pc, c, NextShutdown(a, pc, c), f);
  }

  lemma ActionTells(a: Shared, pc: Pc, c: Choice, f: Fact)
    ensures Tells(a, pc, c, Next(a, pc, c), f)
  {
    hide Tells, NextValidate, NextSection, NextGrant, NextDelete, NextPurge, NextCreate, NextReattach, NextShutdown;
    match PartOf(pc) {
      case Start => StartTells(a, c, f);
      case Validate => ValidateTells(a, pc, c, f);
      case Section =>
        if pc.CPost? { PostTells(a, pc, c, f); }
        else if pc.CAnswered? { AnswerTells(a, pc, c, f); }
        else { SectionTells(a, pc, c, f); }
      case Grant => GrantTells(a, pc, c, f);
      case Delete => DeleteTells(a, pc, c, f);
      case Purge => PurgeTells(a, pc, c, f);
      case Create => CreateTells(a, pc, c, f);
      case Reattach => ReattachTells(a, pc, c, f);
      case Shutdown => ShutdownTells(a, pc, c, f);
    }
  }

  // -------------------------------------------------------------- whole runs

  lemma StepTells(s: State, e: Event, f: Fact)
    ensures f in Step(s, e).sh.facts <==> f in s.sh.facts || FoundBy(s, e, f)
  {
    if e.Run? && e.t in s.pcs {
      ActionTells(s.sh, s.pcs[e.t], e.c, f);
      hide Next, Finds;
    }
  }

  lemma LastEvent(s: State, es: seq<Event>)
    requires es != []
    ensures var n := |es| - 1; Execute(s, es) == Step(Execute(s, es[..n]), es[n])
  {
    hide Step;
    var n := |es| - 1;
    assert es == es[..n] + [es[n]];
    Joined(s, es[..n], [es[n]]);
    var m := Execute(s, es[..n]);
    assert [es[n]][1..] == [];
    assert Execute(Step(m, es[n]), []) == Step(m, es[n]);
  }

  /**
   In every run each recorded fact was found out by an event of just its kind: a
   caller's delete, a purge that listed the account's row, a look at a row whose
   time was up, a POST the server refused, an answer for another account, or a
   grant's failing read of an entry that was there; and every such event records it.
   */
  lemma {:induction false} FactsAreFound(s: State, es: seq<Event>, f: Fact)
    ensures f in Execute(s, es).sh.facts <==> f in s.sh.facts || Happened(s, es, f)
    decreases |es|
  {
    hide Step, FoundBy;
    if es != [] {
      var n := |es| - 1;
      var front := es[..n];
      FactsAreFound(s, front, f);
      LastEvent(s, es);
      StepTells(Execute(s, front), es[n], f);
      HappenedFrontOrLast(s, es, f);
    }
  }

  lemma HappenedFrontOrLast(s: State, es: seq<Event>, f: Fact)
    requires es != []
    ensures var n := |es| - 1;
            Happened(s, es, f) <==> Happened(s, es[..n], f) || FoundBy(Execute(s, es[..n]), es[n], f)
  {
    hide Step, FoundBy, Execute;
    var n := |es| - 1;
    forall k | 0 <= k < n ensures es[..n][..k] == es[..k] && es[..n][k] == es[k] {
    }
    if Happened(s, es[..n], f) {
      var k :| 0 <= k < n && FoundBy(Execute(s, es[..n][..k]), es[..n][k], f);
      assert FoundBy(Execute(s, es[..k]), es[k], f);
    }
    if Happened(s, es, f) && !FoundBy(Execute(s, es[..n]), es[n], f) {
      var k :| 0 <= k < |es| && FoundBy(Execute(s, es[..k]), es[k], f);
      assert FoundBy(Execute(s, es[..n][..k]), es[..n][k], f);
    }
  }
}
