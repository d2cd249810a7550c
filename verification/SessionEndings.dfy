/** How sessions end, what a refresh grant answers, and what shutting down guarantees. */
module SessionEndings {
  import opened SessionModel
  import opened SessionProtocol
  import opened SessionInvariant
  import opened SessionSteps
  import opened SessionRuns
  import opened SessionTheorems
  import opened SessionFacts

  // ------------------------------------------------------------------ refresh grants

  /**
   Every answered refresh grant carries an access and a refresh token of one
   rotation.  At the moment of answering, that rotation is the stored one (unless
   the session is being deleted meanwhile), and the server accepts it, unless
   Viola is quitting and the family's last answer was another account's.
   */
  lemma GrantAnswersAreCurrent(s: State, es: seq<Event>, t: Tid)
    requires Boot(s)
    ensures var r := Execute(s, es);
            && (forall g :: g in r.sh.grants ==> g.access == g.refresh)
            && (t in r.pcs && r.pcs[t].GAnswer? ==>
                  var pc := r.pcs[t];
                  && pc.a == pc.t
                  && (pc.h in r.sh.access ==> r.sh.access[pc.h] == pc.a)
                  && (pc.h in r.sh.refresh ==> r.sh.refresh[pc.h] == pc.t)
                  && (pc.h in r.sh.rows && pc.h in r.sh.access && pc.h in r.sh.refresh ==>
                        r.sh.server.Live(pc.t)
                        || (r.sh.shutdown && pc.h in r.sh.owner && r.sh.owner[pc.h] in r.sh.strangers)))
  {
    BootInv(s);
    ExecuteInv(s, es);
    var r := Execute(s, es);
    hide Execute;
    assert GrantsPaired(r.sh.grants);
    if t in r.pcs && r.pcs[t].GAnswer? { AnsweringIsCurrent(r, t); }
  }

  lemma AnsweringIsCurrent(r: State, t: Tid)
    requires Inv(r) && t in r.pcs && r.pcs[t].GAnswer?
    ensures var pc := r.pcs[t];
            && pc.a == pc.t && BothAre(r.sh, pc.h, pc.t)
            && (pc.h in r.sh.rows && pc.h in r.sh.access && pc.h in r.sh.refresh ==>
                  r.sh.server.Live(pc.t)
                  || (r.sh.shutdown && pc.h in r.sh.owner && r.sh.owner[pc.h] in r.sh.strangers))
  {
    assert ThreadInv(r.sh, r.pcs[t]);
    assert SerialPhase(r) == Quiet;
  }

  // ------------------------------------------------------------------ sessions end by verdict

  lemma {:induction false} GoneForGood(s: State, es: seq<Event>, h: Hash)
    requires Inv(s) && Known(s.sh.rows, s.sh.gone, h)
    ensures Known(Execute(s, es).sh.rows, Execute(s, es).sh.gone, h)
    ensures h in s.sh.gone ==> h in Execute(s, es).sh.gone && h !in Execute(s, es).sh.rows
    decreases |es|
  {
    if es != [] {
      StepInv(s, es[0]);
      StepKnown(s, es[0], h);
      GoneForGood(Step(s, es[0]), es[1..], h);
    } else {
      GlobalNames(s.sh, SerialPhase(s));
    }
  }

  lemma StepKnown(s: State, e: Event, h: Hash)
    requires Inv(s)
    ensures Known(s.sh.rows, s.sh.gone, h) ==> Known(Step(s, e).sh.rows, Step(s, e).sh.gone, h)
    ensures s.sh.gone <= Step(s, e).sh.gone
  {
    if e.Run? && e.t in s.pcs {
      hide Global, ThreadInv, Next, HoldsSerial, HoldsLock;
      var out := Next(s.sh, s.pcs[e.t], e.c);
      if !((out.serial.Take? && s.serial.Some?) || (out.lock.Take? && s.lock.Some?)) {
        LocksOk(s.sh, s.pcs[e.t], e.c);
        LocalStep(s.sh, SerialPhase(s), s.pcs[e.t], e.c);
      }
    }
  }

  /** An event of the run found `f` out, and at its end `f` is true. */
  ghost predicate Came(s: State, es: seq<Event>, f: Fact) {
    var r := Execute(s, es).sh;
    Happened(s, es, f) && FactTrue(r.owner, r.strangers, r.server.ended, r.now, f)
  }

  /**
   What a row's remover acted on: a fact found out in this run, or a token entry missing since
   launch or after one.
   */
  ghost predicate EndedFor(s: State, es: seq<Event>, h: Hash, why: Fact) {
    && why.h == h
    && if why.Missing? then h in Bare(s.sh) || exists f: Fact :: f.h == h && Came(s, es, f) else Came(s, es, why)
  }

  /**
   A session that ever had a row either still has it, was renamed by a reattach, or
   was removed by a statement acting on something about it that an event of this
   very run found out: a caller asked for the delete, its account was purged, its
   expiry had passed, GoTrue had ended its family, the refreshed tokens were
   another account's, or a grant failed to read a stored token.  A missing token
   entry ends one too; then it was missing at launch already or such a fact came
   first.  And a row once gone never comes back.
   */
  lemma SessionsEndOnlyByVerdict(s: State, es: seq<Event>, n: nat, h: Hash)
    requires Boot(s) && n <= |es| && h in Execute(s, es[..n]).sh.rows
    ensures var r := Execute(s, es).sh;
            && (h in r.rows || h in r.gone)
            && !(h in r.rows && h in r.gone)
            && (h in r.gone ==> h in r.renamed || (h in r.causes && EndedFor(s, es, h, r.causes[h])))
  {
    hide Boot, Inv, Execute, EndedFor;
    BootInv(s);
    var m := Execute(s, es[..n]);
    ExecuteInv(s, es[..n]);
    ExecuteInv(m, es[n..]);
    Joined(s, es[..n], es[n..]);
    assert es[..n] + es[n..] == es;
    RowIsKnown(m, h);
    GoneForGood(m, es[n..], h);
    var r := Execute(s, es);
    RowIsKnown(r, h);
    if h in r.sh.gone && h !in r.sh.renamed { CausesAreTrue(s, es, h); }
  }

  lemma RowIsKnown(s: State, h: Hash)
    requires Inv(s)
    ensures h in s.sh.rows ==> Known(s.sh.rows, s.sh.gone, h) && h !in s.sh.gone
  {
    GlobalNames(s.sh, SerialPhase(s));
  }

  lemma CausesAreTrue(s: State, es: seq<Event>, h: Hash)
    requires Boot(s) && Inv(Execute(s, es)) && h in Execute(s, es).sh.gone && h !in Execute(s, es).sh.renamed
    ensures var r := Execute(s, es).sh; h in r.causes && EndedFor(s, es, h, r.causes[h])
  {
    var r := Execute(s, es).sh;
    BareStays(s, es);
    hide Execute, Happened;
    assert h in r.causes && Backed(r.facts, h, r.causes[h]) && Rooted(r.facts, r.bare, h);
    if !r.causes[h].Missing? {
      RecordedCame(s, es, r.causes[h]);
    } else if h !in r.bare {
      var f :| f in r.facts && f.h == h;
      RecordedCame(s, es, f);
    }
  }

  lemma RecordedCame(s: State, es: seq<Event>, f: Fact)
    requires Boot(s) && Inv(Execute(s, es)) && f in Execute(s, es).sh.facts
    ensures Came(s, es, f)
  {
    FactsAreFound(s, es, f);
    hide Execute, Happened;
    var r := Execute(s, es).sh;
    assert FactTrue(r.owner, r.strangers, r.server.ended, r.now, f);
  }

  lemma StepBare(s: State, e: Event)
    requires Inv(s)
    ensures Step(s, e).sh.bare == s.sh.bare
  {
    if e.Run? && e.t in s.pcs {
      hide Global, ThreadInv, Next, HoldsSerial, HoldsLock;
      var out := Next(s.sh, s.pcs[e.t], e.c);
      if !((out.serial.Take? && s.serial.Some?) || (out.lock.Take? && s.lock.Some?)) {
        LocksOk(s.sh, s.pcs[e.t], e.c);
        LocalStep(s.sh, SerialPhase(s), s.pcs[e.t], e.c);
      }
    }
  }

  /** Which sessions lacked an entry at launch is history. */
  lemma {:induction false} BareKept(s: State, es: seq<Event>)
    requires Inv(s)
    ensures Execute(s, es).sh.bare == s.sh.bare
    decreases |es|
  {
    hide Inv, Step;
    if es != [] {
      StepBare(s, es[0]);
      StepInv(s, es[0]);
      BareKept(Step(s, es[0]), es[1..]);
    }
  }

  lemma BareStays(s: State, es: seq<Event>)
    requires Boot(s)
    ensures Execute(s, es).sh.bare == Bare(s.sh)
  {
    BootInv(s);
    BareKept(s, es);
  }

  // ------------------------------------------------------- what a good session can be lost to

  /** A row is removed now, by a delete or a purge. */
  predicate Removing(s: State, e: Event, h: Hash) {
    && e.Run? && e.t in s.pcs && e.c.ok && h in s.sh.rows
    && ((s.pcs[e.t].DRemove? && s.pcs[e.t].h == h) || (s.pcs[e.t].PRemove? && s.pcs[e.t].u == s.sh.rows[h].user))
  }

  /**
   A delete acting on an expiry: inside the refresh lock the row still has the expiry
   it saw, so it has passed.  Only a validator, which looks without that lock,
   can be about to remove a session that has not expired; then it has been renewed
   since.
   */
  lemma OnlyUnlockedLooksGoStale(s: State, es: seq<Event>, t: Tid)
    requires Boot(s)
    ensures var r := Execute(s, es);
            t in r.pcs && r.pcs[t].DRemove? && r.pcs[t].why.SawExpired? && r.pcs[t].h in r.sh.rows ==>
              var pc, expires := r.pcs[t], r.sh.rows[r.pcs[t].h].expires;
              && pc.why.expires <= pc.why.at <= r.sh.now
              && (pc.sec ==> expires == pc.why.expires)
              && (expires > r.sh.now ==> !pc.sec && expires != pc.why.expires)
  {
    BootInv(s);
    ExecuteInv(s, es);
    var r := Execute(s, es);
    hide Execute;
    if t in r.pcs && r.pcs[t].DRemove? && r.pcs[t].why.SawExpired? && r.pcs[t].h in r.sh.rows { ExpiryLooked(r, t); }
  }

  lemma ExpiryLooked(r: State, t: Tid)
    requires Inv(r) && t in r.pcs && r.pcs[t].DRemove? && r.pcs[t].why.SawExpired? && r.pcs[t].h in r.sh.rows
    ensures var pc := r.pcs[t];
            pc.why.expires <= pc.why.at <= r.sh.now && (pc.sec ==> r.sh.rows[pc.h].expires == pc.why.expires)
  {
    assert ThreadInv(r.sh, r.pcs[t]);
    var why := r.pcs[t].why;
    assert FactTrue(r.sh.owner, r.sh.strangers, r.sh.server.ended, r.sh.now, why);
  }

  /** The server honours the session, it is this account's, and nobody asked for its end. */
  ghost predicate Good(s: State, es: seq<Event>, h: Hash) {
    var r := Execute(s, es).sh;
    && h in r.rows && r.rows[h].expires > r.now
    && h in r.owner && r.owner[h] !in r.server.ended && r.owner[h] !in r.strangers
    && !Happened(s, es, Asked(h)) && !Happened(s, es, Purged(h))
  }

  /** A look found the session expired that by now has been renewed. */
  ghost predicate StaleLook(s: State, es: seq<Event>, h: Hash) {
    var r := Execute(s, es).sh;
    h in r.rows && exists x, at :: Happened(s, es, SawExpired(h, x, at)) && x <= at <= r.now < r.rows[h].expires
  }

  /**
   A session in good standing is removed in three ways only: one of its token entries
   was missing at launch, a grant failed to read the one that was there, or a
   look had found it expired before it was renewed.
   */
  lemma GoodSessionsEndInThreeWays(s: State, es: seq<Event>, e: Event, h: Hash)
    requires Boot(s) && Good(s, es, h) && Removing(Execute(s, es), e, h)
    ensures h in Bare(s.sh) || Happened(s, es, SawUnreadable(h)) || StaleLook(s, es, h)
  {
    BootInv(s);
    ExecuteInv(s, es);
    BareStays(s, es);
    var r := Execute(s, es);
    hide Execute, Happened;
    if h !in r.sh.bare {
      var f := RemoverActsOn(r, e, h);
      RecordedCame(s, es, f);
      assert f.SawExpired? || f.SawUnreadable?;
      if f.SawExpired? { assert Happened(s, es, SawExpired(h, f.expires, f.at)); }
    }
  }

  lemma RemoverActsOn(r: State, e: Event, h: Hash) returns (f: Fact)
    requires Inv(r) && Removing(r, e, h) && h !in r.sh.bare
    ensures f in r.sh.facts && f.h == h
  {
    assert ThreadInv(r.sh, r.pcs[e.t]);
    if r.pcs[e.t].PRemove? {
      f := Purged(h);
    } else {
      GlobalNames(r.sh, SerialPhase(r));
      assert Rooted(r.sh.facts, r.sh.bare, h);
      f :| f in r.sh.facts && f.h == h;
    }
  }

  /** A reattach moves the row to its new name with its account, and the new name holds the same token pair. */
  lemma RenameKeepsTheSession(s: State, t: Tid, c: Choice)
    requires Inv(s) && t in s.pcs && s.pcs[t].RRename? && c.ok
    ensures var pc := s.pcs[t]; var a := s.sh; var b := Step(s, Run(t, c)).sh;
            && pc.h in a.rows && pc.h2 !in a.rows
            && b.rows == map[pc.h2 := a.rows[pc.h]] + (a.rows - {pc.h})
            && pc.h2 in b.access && pc.h2 in b.refresh && pc.h in a.access && pc.h in a.refresh
            && b.access[pc.h2] == a.access[pc.h] == a.refresh[pc.h] == b.refresh[pc.h2]
            && pc.h in b.renamed
  {
    hide Global, LockInv, Step, ThreadInv, NextReattach;
    RenameStep(s, t, c);
    RenameEffect(s.sh, s.pcs[t], c);
  }

  lemma RenameStep(s: State, t: Tid, c: Choice)
    requires t in s.pcs && s.pcs[t].RRename?
    ensures Step(s, Run(t, c)).sh == NextReattach(s.sh, s.pcs[t], c).sh
  {
    hide NextValidate, NextSection, NextGrant, NextDelete, NextPurge, NextCreate, NextShutdown, Renamed, Named;
  }

  lemma RenameEffect(a: Shared, pc: Pc, c: Choice)
    requires pc.RRename? && c.ok && ThreadInv(a, pc)
    ensures var b := NextReattach(a, pc, c).sh;
            && pc.h in a.rows && pc.h2 !in a.rows
            && b.rows == map[pc.h2 := a.rows[pc.h]] + (a.rows - {pc.h})
            && pc.h2 in b.access && pc.h2 in b.refresh && pc.h in a.access && pc.h in a.refresh
            && b.access[pc.h2] == a.access[pc.h] == a.refresh[pc.h] == b.refresh[pc.h2]
            && pc.h in b.renamed
  {
  }
}
