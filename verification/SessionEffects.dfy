/** The writes that threads make to the shared data, one lemma each. */
module SessionEffects {
  import opened SessionModel
  import opened SessionProtocol
  import opened SessionInvariant

  lemma RootedGrows(a: set<Fact>, b: set<Fact>, bare: set<Hash>)
    requires a <= b
    ensures forall h :: Rooted(a, bare, h) ==> Rooted(b, bare, h)
  {
    forall h | Rooted(a, bare, h) ensures Rooted(b, bare, h) {
      if h !in bare {
        var f :| f in a && f.h == h;
        assert f in b;
      }
    }
  }

  /** Recording what was learnt. */
  lemma FactsGrow(a: Shared, b: Shared, ph: Phase, s: bool, l: bool)
    requires Global(a, ph)
    requires b == a.(facts := b.facts, strangers := b.strangers)
    requires a.facts <= b.facts && a.strangers <= b.strangers
    requires FactsTrue(b.owner, b.strangers, b.server.ended, b.now, b.facts)
    ensures Global(b, ph) && Env(a, b, s, l)
  {
    RootedGrows(a.facts, b.facts, a.bare);
  }

  lemma Learned(a: Shared, f: Fact, ph: Phase, s: bool, l: bool)
    requires Global(a, ph) && FactTrue(a.owner, a.strangers, a.server.ended, a.now, f)
    ensures Global(Learn(a, f), ph) && Env(a, Learn(a, f), s, l)
    ensures Rooted(Learn(a, f).facts, a.bare, f.h)
  {
    FactsGrow(a, Learn(a, f), ph, s, l);
    assert f in Learn(a, f).facts;
  }

  lemma Nothing(a: Shared, s: bool, l: bool)
    ensures Env(a, a, s, l)
  {
  }

  lemma Answered(a: Shared, b: Shared, g: GrantAnswer, s: bool, l: bool)
    requires Global(b, Quiet) && Env(a, b, s, l) && g.access == g.refresh
    ensures Global(b.(grants := b.grants + {g}), Quiet) && Env(a, b.(grants := b.grants + {g}), s, l)
  {
  }

  lemma ShutdownStarts(a: Shared, ph: Phase)
    requires Global(a, ph)
    ensures Global(a.(shutdown := true), ph) && Env(a, a.(shutdown := true), false, false)
  {
  }

  lemma ShutdownEnds(a: Shared)
    requires Global(a, Quiet) && a.shutdown
    ensures Global(a.(quiesced := true), Quiet) && Env(a, a.(quiesced := true), true, false)
  {
  }

  lemma PostUnanswered(a: Shared, b: Shared, ph: Phase)
    requires Global(a, Posting) && (ph.Quiet? || ph.Dropping?)
    requires b == a.(posts := a.posts + 1, nextRotation := a.nextRotation + 1, facts := b.facts)
    requires a.facts <= b.facts && forall f :: f in b.facts ==>
             f in a.facts || FactTrue(a.owner, a.strangers, a.server.ended, a.now, f)
    ensures Global(b, ph) && Env(a, b, true, false)
  {
    RootedGrows(a.facts, b.facts, a.bare);
  }

  // ------------------------------------------------------- changing the phase

  /** The invariant reads the phase only where a rotation is under way or a session is being dropped. */
  lemma Rephase(sh: Shared, ph: Phase, ph2: Phase)
    requires Global(sh, ph)
    requires ph.Quiet? || ph.Updating? || ph.Posting?
    requires ph2.Quiet? || ph2.Dropping? || (ph2.Posting? && !sh.shutdown)
    ensures Global(sh, ph2)
  {
  }

  /** The section stops `Dropping` once its session has no row, no token, or may not be removed any more. */
  lemma Dropped(sh: Shared, h: Hash)
    requires Global(sh, Dropping(h))
    requires sh.shutdown || h !in sh.rows || h !in sh.refresh
    ensures Global(sh, Quiet)
  {
  }

  /** Another account's tokens: nothing is stored, the session is dropped. */
  lemma StrangerOk(a: Shared, h: Hash, b: Shared)
    requires Global(a, Unwritten(h)) && h in a.owner
    requires b == a.(strangers := a.strangers + {a.owner[h]}, facts := a.facts + {SawStranger(h)})
    ensures Global(b, Dropping(h)) && Env(a, b, true, false) && Rooted(b.facts, b.bare, h)
  {
    FactsGrow(a, b, Unwritten(h), true, false);
    assert SawStranger(h) in b.facts;
  }

  // ------------------------------------------------------ what reading teaches

  lemma ReadRow(a: Shared, h: Hash)
    requires Global(a, Quiet) && h in a.rows && a.rows[h].expires > a.booted
    ensures RowRead(a, h, a.rows[h]) && (h in a.access ==> StoredSpendable(a, h))
  {
  }

  lemma ClockRuns(a: Shared, ph: Phase)
    requires Global(a, ph)
    ensures a.booted <= a.now
  {
  }

  lemma ReadPair(a: Shared, h: Hash)
    requires Global(a, Quiet) && h in a.access
    ensures BothAre(a, h, a.access[h])
  {
  }

  lemma ReadRefresh(a: Shared, h: Hash)
    requires Global(a, Quiet) && h in a.refresh
    ensures TokenOf(a, h, a.refresh[h])
  {
  }

  lemma MissingEnds(a: Shared, h: Hash, ph: Phase)
    requires Global(a, ph) && Known(a.rows, a.gone, h) && (h !in a.access || h !in a.refresh)
    ensures Ends(a, h)
  {
  }

  /** Rewriting a row in place: the set of rows is the same, and so is whose they are. */
  lemma RewriteRow(a: Shared, h: Hash, row: Row, ph: Phase, s: bool, l: bool)
    requires Global(a, ph) && h in a.rows && SameRow(a.rows[h], row, false)
    ensures var b := a.(rows := a.rows[h := row]); Global(b, ph) && Env(a, b, s, l)
  {
    var b := a.(rows := a.rows[h := row]);
    assert b.rows.Keys == a.rows.Keys;
    assert StoredIsLive(b.rows, b.access, b.refresh, b.server, b.owner, b.strangers, b.shutdown, b.booted, ph);
    assert OneRowPerFamily(b.rows, b.owner);
    assert MissingIsRooted(b.rows, b.access, b.refresh, b.facts, b.bare);
    assert ExpiryIsStored(b.rows, b.owner, b.stored);
    assert EnvRows(a, b, s, l);
  }

  lemma TouchOk(a: Shared, h: Hash, ph: Phase, s: bool, l: bool)
    requires Global(a, ph)
    ensures Global(Touched(a, h), ph) && Env(a, Touched(a, h), s, l)
  {
    if h in a.rows { RewriteRow(a, h, a.rows[h].(lastUsed := a.now), ph, s, l); }
  }

  // ------------------------------------------------------------ token entries

  lemma DropAccess(a: Shared, h: Hash, ph: Phase, s: bool)
    requires Global(a, ph) && (h in a.rows ==> Rooted(a.facts, a.bare, h))
    ensures var b := a.(access := Without(a.access, h)); Global(b, ph) && Env(a, b, s, true)
  {
  }

  lemma DropRefresh(a: Shared, h: Hash, ph: Phase, s: bool)
    requires Global(a, ph) && (h in a.rows ==> Rooted(a.facts, a.bare, h))
    ensures var b := a.(refresh := Without(a.refresh, h)); Global(b, ph) && Env(a, b, s, true)
  {
  }

  /** A token under a hash no session has yet, stored by a thread that holds the store lock. */
  lemma StoreNewAccess(a: Shared, h: Hash, r: Rotation, ph: Phase, s: bool)
    requires Global(a, ph) && Minted(a, h) && h !in a.refresh
    ensures var b := a.(access := a.access[h := r]); Global(b, ph) && Env(a, b, s, true)
  {
  }

  lemma StoreNewRefresh(a: Shared, h: Hash, r: Rotation, ph: Phase, s: bool)
    requires Global(a, ph) && Minted(a, h) && TokenOf(a, h, r) && Is(a.access, h, r)
    ensures var b := a.(refresh := a.refresh[h := r]); Global(b, ph) && Env(a, b, s, true)
  {
  }

  // ------------------------------------------------------------ the rotation

  lemma StoreAccess(a: Shared, h: Hash, r: Rotation)
    requires Global(a, Unwritten(h)) && Known(a.rows, a.gone, h)
    ensures var b := a.(access := a.access[h := r]); Global(b, HalfWritten(h)) && Env(a, b, true, false)
  {
  }

  lemma StoreRefresh(a: Shared, h: Hash, r: Rotation)
    requires Global(a, HalfWritten(h)) && Known(a.rows, a.gone, h) && Is(a.access, h, r) && TokenOf(a, h, r)
             && a.server.Live(r)
    ensures var b := a.(refresh := a.refresh[h := r]); Global(b, Updating) && Env(a, b, true, false)
  {
  }

  lemma UpdatedRows(a: Shared, h: Hash, user: User, exp: int)
    requires Global(a, Updating) && h in a.rows && a.rows[h].user == user && SoleOwner(a.rows, a.owner, h)
    ensures var b := Updated(a, h, user, exp);
            && b.rows.Keys == a.rows.Keys
            && OneRowPerFamily(b.rows, a.owner)
            && MissingIsRooted(b.rows, a.access, a.refresh, a.facts, a.bare)
            && ExpiryIsStored(b.rows, a.owner, b.stored)
            && StoredBounds(b.stored, a.nextFamily)
  {
    var b := Updated(a, h, user, exp);
    assert b.rows.Keys == a.rows.Keys;
  }

  lemma UpdatedLasts(a: Shared, h: Hash, user: User, exp: int)
    requires Global(a, Updating) && h in a.rows && a.rows[h].user == user
    requires h in a.refresh ==> a.server.Live(a.refresh[h])
    ensures var b := Updated(a, h, user, exp);
            StoredIsLive(b.rows, a.access, a.refresh, a.server, a.owner, a.strangers, a.shutdown, a.booted, Quiet)
  {
    var b := Updated(a, h, user, exp);
    assert b.rows.Keys == a.rows.Keys;
  }

  lemma UpdatedEnv(a: Shared, h: Hash, user: User, exp: int)
    requires Global(a, Updating) && h in a.rows && a.rows[h].user == user
    ensures EnvRows(a, Updated(a, h, user, exp), true, false)
  {
    var b := Updated(a, h, user, exp);
    assert b.rows.Keys == a.rows.Keys && b.gone == a.gone;
  }

  lemma UpdateRow(a: Shared, h: Hash, user: User, exp: int)
    requires Global(a, Updating) && Known(a.rows, a.gone, h) && SoleOwner(a.rows, a.owner, h)
    requires h in a.refresh ==> a.server.Live(a.refresh[h])
    ensures Global(Updated(a, h, user, exp), Quiet) && Env(a, Updated(a, h, user, exp), true, false)
  {
    if h in a.rows && a.rows[h].user == user {
      UpdatedRows(a, h, user, exp);
      UpdatedLasts(a, h, user, exp);
      UpdatedEnv(a, h, user, exp);
      assert KnownFamily(a, a.owner[h]);
    }
  }

  function Rotated(sv: Server, f: Family, minted: Rotation): Server {
    sv.(familyOf := sv.familyOf[minted := f], current := sv.current[f := minted])
  }

  /** Tokens of other families stay what they were when `f` gets a new current token. */
  lemma RotationIsLocal(sv: Server, f: Family, minted: Rotation, t: Rotation)
    requires t in sv.familyOf && minted !in sv.familyOf && sv.familyOf[t] != f
    ensures sv.Live(t) <==> Rotated(sv, f, minted).Live(t)
  {
  }

  /** The server rotates `h`'s live token. */
  lemma RotateOk(a: Shared, h: Hash, b: Shared)
    requires Global(a, Posting) && Known(a.rows, a.gone, h) && SoleOwner(a.rows, a.owner, h)
    requires a.owner[h] in a.server.current
    requires b == a.(server := Rotated(a.server, a.owner[h], a.nextRotation), posts := a.posts + 1,
                     nextRotation := a.nextRotation + 1)
    requires !a.quiesced
    ensures Global(b, Unwritten(h)) && TokenOf(b, h, a.nextRotation) && b.server.Live(a.nextRotation)
    ensures Env(a, b, true, false)
  {
    assert KnownFamily(a, a.owner[h]);
    forall x | x in b.rows && x in b.refresh && x != h
      ensures a.server.Live(b.refresh[x]) <==> b.server.Live(b.refresh[x])
    {
      assert OfFamily(a.owner, a.server, x, a.refresh[x]);
      RotationIsLocal(a.server, a.owner[h], a.nextRotation, a.refresh[x]);
    }
    forall x | x in b.refresh ensures OfFamily(b.owner, b.server, x, b.refresh[x]) {
      assert OfFamily(a.owner, a.server, x, a.refresh[x]);
    }
  }

  // -------------------------------------------------------------------- rows

  lemma RemoveRows(a: Shared, mine: set<Hash>, why: map<Hash, Fact>, ph: Phase, s: bool)
    requires Global(a, ph) && mine <= a.rows.Keys && why.Keys == mine
    requires forall h :: h in mine ==> Rooted(a.facts, a.bare, h) && Backed(a.facts, h, why[h])
    ensures Global(Removed(a, mine, why), ph) && Env(a, Removed(a, mine, why), s, true)
  {
    RemoveEnv(a, mine, why, s);
    hide Env;
  }

  lemma RemoveEnv(a: Shared, mine: set<Hash>, why: map<Hash, Fact>, s: bool)
    requires mine <= a.rows.Keys
    ensures Env(a, Removed(a, mine, why), s, true)
  {
  }

  lemma InsertRow(a: Shared, h: Hash, row: Row, ph: Phase, s: bool)
    requires Global(a, ph) && Newborn(a, h, if h in a.refresh then a.refresh[h] else 0)
    requires h in a.access && h in a.refresh
    ensures var b := a.(rows := a.rows[h := row]); Global(b, ph) && Env(a, b, s, true)
  {
  }

  lemma RenamedRows(a: Shared, h: Hash, h2: Hash, t: Rotation, rows: map<Hash, Row>)
    requires Global(a, Quiet) && Copying(a, h, h2, t)
    requires h2 in a.access && h2 in a.refresh && Is(a.refresh, h2, t)
    requires rows == Without(a.rows, h)[h2 := a.rows[h]]
    ensures StoredIsLive(rows, a.access, a.refresh, a.server, a.owner, a.strangers, a.shutdown, a.booted, Quiet)
    ensures OneRowPerFamily(rows, a.owner)
    ensures MissingIsRooted(rows, a.access, a.refresh, a.facts, a.bare)
    ensures ExpiryIsStored(rows, a.owner, a.stored)
    ensures rows.Keys == a.rows.Keys - {h} + {h2}
  {
  }

  lemma RenameEnv(a: Shared, h: Hash, h2: Hash, t: Rotation)
    requires Global(a, Quiet) && Copying(a, h, h2, t)
    ensures Env(a, Renamed(a, h, h2), true, true)
  {
    var b := Renamed(a, h, h2);
    assert b.rows.Keys == a.rows.Keys - {h} + {h2};
  }

  lemma RenameRow(a: Shared, h: Hash, h2: Hash, t: Rotation)
    requires Global(a, Quiet) && Copying(a, h, h2, t)
    requires h2 in a.access && h2 in a.refresh && Is(a.refresh, h2, t)
    ensures Global(Renamed(a, h, h2), Quiet) && Env(a, Renamed(a, h, h2), true, true)
  {
    RenameGlobal(a, h, h2, t);
    RenameEnv(a, h, h2, t);
  }

  lemma RenameGlobal(a: Shared, h: Hash, h2: Hash, t: Rotation)
    requires Global(a, Quiet) && Copying(a, h, h2, t)
    requires h2 in a.access && h2 in a.refresh && Is(a.refresh, h2, t)
    ensures Global(Renamed(a, h, h2), Quiet)
  {
    var b := Renamed(a, h, h2);
    RenamedRows(a, h, h2, t, b.rows);
    hide StoredIsLive, OneRowPerFamily, MissingIsRooted, ExpiryIsStored;
    assert EndsHaveCause(b.gone, b.renamed, b.facts, b.causes, b.bare);
  }

  // ----------------------------------------------------------------- minting

  lemma MintKeepsTokens(a: Shared, b: Shared, ph: Phase, x: Hash)
    requires Global(a, ph) && b == Founded(a) && x in b.refresh
    ensures OfFamily(b.owner, b.server, x, b.refresh[x])
    ensures a.server.Live(b.refresh[x]) <==> b.server.Live(b.refresh[x])
  {
    assert a.nextHash !in a.owner;
    assert OfFamily(a.owner, a.server, x, a.refresh[x]);
    RotationIsLocal(a.server, a.nextFamily, a.nextRotation, a.refresh[x]);
  }

  lemma MintGlobal(a: Shared, ph: Phase)
    requires Global(a, ph)
    ensures Global(Founded(a), ph)
  {
    MintTokens(a, ph);
    var b := Founded(a);
    hide TokensOfOwner, StoredIsLive, OfFamily, Server.Live;
    assert a.nextHash !in a.owner;
  }

  lemma MintTokens(a: Shared, ph: Phase)
    requires Global(a, ph)
    ensures var b := Founded(a);
            && TokensOfOwner(b.owner, b.refresh, b.server)
            && StoredIsLive(b.rows, b.access, b.refresh, b.server, b.owner, b.strangers, b.shutdown, b.booted, ph)
  {
    var b := Founded(a);
    forall x | x in b.refresh
      ensures OfFamily(b.owner, b.server, x, b.refresh[x])
      ensures a.server.Live(b.refresh[x]) <==> b.server.Live(b.refresh[x])
    {
      MintKeepsTokens(a, b, ph, x);
    }
    assert a.nextHash !in a.owner;
    hide OfFamily, Server.Live;
  }

  lemma MintSession(a: Shared, ph: Phase, s: bool)
    requires Global(a, ph)
    ensures var b := Founded(a);
            && Global(b, ph) && Env(a, b, s, true)
            && Newborn(b, a.nextHash, a.nextRotation) && a.nextHash !in b.access && a.nextHash !in b.refresh
  {
    assert a.nextHash !in a.owner;
    MintGlobal(a, ph);
  }

  lemma NameGlobal(a: Shared, h: Hash)
    requires Global(a, Quiet) && h in a.owner
    ensures Global(Named(a, h), Quiet) && a.nextHash !in a.owner
  {
    var b := Named(a, h);
    assert a.nextHash !in a.owner;
    forall x | x in b.refresh ensures OfFamily(b.owner, b.server, x, b.refresh[x]) {
      assert OfFamily(a.owner, a.server, x, a.refresh[x]);
    }
  }

  lemma NameCopies(a: Shared, h: Hash)
    requires Global(a, Quiet) && h in a.rows && h in a.access && h in a.refresh && a.rows[h].expires > a.now
    ensures Copying(Named(a, h), h, a.nextHash, a.refresh[h]) && a.access[h] == a.refresh[h]
    ensures a.nextHash !in a.access && a.nextHash !in a.refresh
  {
    assert a.nextHash !in a.owner;
    assert OfFamily(a.owner, a.server, h, a.refresh[h]);
  }

  lemma NameEnv(a: Shared, h: Hash)
    requires Global(a, Quiet) && h in a.rows
    ensures h in a.owner && Env(a, Named(a, h), true, true)
  {
    assert a.nextHash !in a.owner;
  }

  lemma MintName(a: Shared, h: Hash)
    requires Global(a, Quiet) && h in a.rows && h in a.access && h in a.refresh && a.rows[h].expires > a.now
    ensures h in a.owner && Global(Named(a, h), Quiet) && Env(a, Named(a, h), true, true)
    ensures Copying(Named(a, h), h, a.nextHash, a.refresh[h]) && a.access[h] == a.refresh[h]
    ensures a.nextHash !in a.access && a.nextHash !in a.refresh
  {
    NameEnv(a, h);
    hide Global, Copying, Env, Named;
    NameGlobal(a, h);
    NameCopies(a, h);
  }
}
