/**
 The inductive invariant of the session protocol, proved by rely/guarantee:
 `LocalStep` shows what one thread's action keeps and what it may disturb
 (`Env`); `Stable` shows that no other thread's facts depend on the rest.
 */
module SessionInvariant {
  import opened SessionModel
  import opened SessionProtocol

  // ------------------------------------------------------------ vocabulary
  // Predicates take just the fields they read, so that a write to one field
  // leaves the rest of the invariant untouched.

  /** Why a token entry of `h` may be missing: it already was at launch, or a recorded fact ends the session. */
  ghost predicate Rooted(facts: set<Fact>, bare: set<Hash>, h: Hash) {
    h in bare || exists f :: f in facts && f.h == h
  }

  /** What a delete of `h` acts on is about `h`, and recorded unless it is a missing token entry. */
  predicate Backed(facts: set<Fact>, h: Hash, why: Fact) {
    why.h == h && (why.Missing? || why in facts)
  }

  /** `h` names a session that has, or once had, a row. */
  predicate Known(rows: map<Hash, Row>, gone: set<Hash>, h: Hash) {
    h in rows || h in gone
  }

  /** No row other than `h`'s own holds tokens of `h`'s family. */
  ghost predicate SoleOwner(rows: map<Hash, Row>, owner: map<Hash, Family>, h: Hash) {
    h in owner && forall x :: x in rows && x in owner && owner[x] == owner[h] ==> x == h
  }

  /** `h` was minted for a family no other hash was ever given. */
  ghost predicate FreshOwner(owner: map<Hash, Family>, h: Hash) {
    h in owner && forall x :: x in owner && owner[x] == owner[h] ==> x == h
  }

  predicate OfFamily(owner: map<Hash, Family>, sv: Server, h: Hash, r: Rotation) {
    h in owner && r in sv.familyOf && sv.familyOf[r] == owner[h]
  }

  predicate Is(m: map<Hash, Rotation>, h: Hash, r: Rotation) { h in m ==> m[h] == r }

  /** How far the holder of the refresh lock has got with a rotation. */
  datatype Phase =
    | Quiet
    | Posting
    | Unwritten(h: Hash)     // answered, neither token stored yet
    | HalfWritten(h: Hash)   // access token stored, refresh token not yet
    | Updating
    | Dropping(h: Hash)      // deleting the session from inside the section

  function PhaseOf(pc: Pc): Phase {
    match pc
    case CPost(_, _, _, _) => Posting
    case CAnswered(h, _, _, _, _, _) => Unwritten(h)
    case CStoreAccess(h, _, _, _, _) => Unwritten(h)
    case CStoreRefresh(h, _, _, _, _) => HalfWritten(h)
    case CUpdate(_, _, _, _, _) => Updating
    case DCheck(h, sec, _) => if sec then Dropping(h) else Quiet
    case DWait(h, sec, _) => if sec then Dropping(h) else Quiet
    case DRow(h, sec, _) => if sec then Dropping(h) else Quiet
    case DAccess(h, sec, _) => if sec then Dropping(h) else Quiet
    case DRefresh(h, sec, _) => if sec then Dropping(h) else Quiet
    case DRemove(h, sec, _) => if sec then Dropping(h) else Quiet
    case _ => Quiet
  }

  predicate Deleting(pc: Pc) {
    pc.DCheck? || pc.DWait? || pc.DRow? || pc.DAccess? || pc.DRefresh? || pc.DRemove?
  }

  /** The last answer for `h`'s family carried another account's tokens and the row is still to be removed. */
  predicate Misdelivered(owner: map<Hash, Family>, strangers: set<Family>, shutdown: bool, ph: Phase, h: Hash) {
    h in owner && owner[h] in strangers && (shutdown || ph == Dropping(h))
  }

  /** From the shutdown check to the last write of the rotated pair. */
  predicate RefreshUnderWay(ph: Phase) {
    ph.Posting? || ph.Unwritten? || ph.HalfWritten? || ph.Updating?
  }

  // ------------------------------------------------------------- invariant
  // `ph` is the phase of the thread that holds the refresh lock, or Quiet.

  ghost predicate OwnerBounds(owner: map<Hash, Family>, nextHash: Hash, nextFamily: Family) {
    forall h :: h in owner ==> h < nextHash && owner[h] < nextFamily
  }

  ghost predicate ServerBounds(sv: Server, nextRotation: Rotation, nextFamily: Family) {
    && (forall r :: r in sv.familyOf ==> r < nextRotation)
    && (forall f :: f in sv.current ==> f < nextFamily)
  }

  ghost predicate StoredBounds(stored: map<Family, int>, nextFamily: Family) {
    forall f :: f in stored ==> f < nextFamily
  }

  ghost predicate TokensOfOwner(owner: map<Hash, Family>, refresh: map<Hash, Rotation>, sv: Server) {
    forall h :: h in refresh ==> OfFamily(owner, sv, h, refresh[h])
  }

  /** If `h` has a row, it had not expired when this process was launched. */
  predicate Lasting(rows: map<Hash, Row>, booted: int, h: Hash) { h in rows ==> rows[h].expires > booted }

  /**
   The stored refresh token of a session is the one the server still accepts,
   except while a rotation is being written.  Nothing is asked of a session that
   no thread will refresh: one without an access entry, or expired at launch.
   */
  ghost predicate StoredIsLive(rows: map<Hash, Row>, access: map<Hash, Rotation>, refresh: map<Hash, Rotation>,
                               sv: Server,
                               owner: map<Hash, Family>, strangers: set<Family>, shutdown: bool, booted: int, ph: Phase)
  {
    forall h :: h in rows && h in access && h in refresh && rows[h].expires > booted ==>
      sv.Live(refresh[h]) || ph == Unwritten(h) || ph == HalfWritten(h)
          || Misdelivered(owner, strangers, shutdown, ph, h)
  }

  /** The cached access and refresh token of a session are of one rotation. */
  ghost predicate Paired(access: map<Hash, Rotation>, refresh: map<Hash, Rotation>, ph: Phase) {
    forall h :: h in access && h in refresh ==> access[h] == refresh[h] || ph == HalfWritten(h)
  }

  ghost predicate OneRowPerFamily(rows: map<Hash, Row>, owner: map<Hash, Family>) {
    forall h1, h2 :: h1 in rows && h2 in rows && h1 in owner && h2 in owner && owner[h1] == owner[h2] ==> h1 == h2
  }

  ghost predicate MissingIsRooted(rows: map<Hash, Row>, access: map<Hash, Rotation>, refresh: map<Hash, Rotation>,
                                  facts: set<Fact>, bare: set<Hash>)
  {
    forall h :: h in rows && (h !in access || h !in refresh) ==> Rooted(facts, bare, h)
  }

  /** The sessions without one of their token entries. */
  function Bare(sh: Shared): set<Hash> { set h | h in sh.rows && (h !in sh.access || h !in sh.refresh) }

  /** What there is to check of a recorded fact; asking and purging are the callers' own. */
  ghost predicate FactTrue(owner: map<Hash, Family>, strangers: set<Family>, ended: set<Family>, now: int, f: Fact) {
    match f
    case SawExpired(_, expires, at) => expires <= at <= now
    case SawVerdict(h) => h in owner && owner[h] in ended
    case SawStranger(h) => h in owner && owner[h] in strangers
    case Missing(_) => false
    case _ => true
  }

  ghost predicate FactsTrue(owner: map<Hash, Family>, strangers: set<Family>, ended: set<Family>, now: int,
                            facts: set<Fact>)
  {
    forall f :: f in facts ==> FactTrue(owner, strangers, ended, now, f)
  }

  /** Every removal names the fact it acted on. */
  ghost predicate EndsHaveCause(gone: set<Hash>, renamed: set<Hash>, facts: set<Fact>, causes: map<Hash, Fact>,
                                bare: set<Hash>)
  {
    renamed <= gone
    && forall h :: h in gone ==>
         h in renamed || (Rooted(facts, bare, h) && h in causes && Backed(facts, h, causes[h]))
  }

  ghost predicate ExpiryIsStored(rows: map<Hash, Row>, owner: map<Hash, Family>, stored: map<Family, int>) {
    forall h :: h in rows && h in owner && owner[h] in stored ==> rows[h].accessExpires == stored[owner[h]]
  }

  ghost predicate GrantsPaired(grants: set<GrantAnswer>) {
    forall g :: g in grants ==> g.access == g.refresh
  }

  ghost predicate Global(sh: Shared, ph: Phase) {
    && sh.rows.Keys <= sh.owner.Keys && sh.gone <= sh.owner.Keys
    && sh.access.Keys <= sh.owner.Keys && sh.refresh.Keys <= sh.owner.Keys
    && OwnerBounds(sh.owner, sh.nextHash, sh.nextFamily)
    && ServerBounds(sh.server, sh.nextRotation, sh.nextFamily)
    && StoredBounds(sh.stored, sh.nextFamily)
    && TokensOfOwner(sh.owner, sh.refresh, sh.server)
    && StoredIsLive(sh.rows, sh.access, sh.refresh, sh.server, sh.owner, sh.strangers, sh.shutdown, sh.booted, ph)
    && Paired(sh.access, sh.refresh, ph)
    && OneRowPerFamily(sh.rows, sh.owner)
    && sh.gone !! sh.rows.Keys
    && MissingIsRooted(sh.rows, sh.access, sh.refresh, sh.facts, sh.bare)
    && FactsTrue(sh.owner, sh.strangers, sh.server.ended, sh.now, sh.facts)
    && EndsHaveCause(sh.gone, sh.renamed, sh.facts, sh.causes, sh.bare)
    && ExpiryIsStored(sh.rows, sh.owner, sh.stored)
    && GrantsPaired(sh.grants)
    && sh.server.replayed == {} && sh.booted <= sh.now
    && (sh.quiesced ==> sh.shutdown && !RefreshUnderWay(ph))
  }

  // ------------------------------------------------- what each thread knows

  ghost predicate Ends(sh: Shared, h: Hash) { Rooted(sh.facts, sh.bare, h) || h in sh.gone }

  /** What a thread inside the section knows about the row it read. */
  ghost predicate RowRead(sh: Shared, h: Hash, row: Row) {
    && Known(sh.rows, sh.gone, h) && Lasting(sh.rows, sh.booted, h)
    && SoleOwner(sh.rows, sh.owner, h)
    && (h in sh.rows ==> sh.rows[h].accessExpires == row.accessExpires && sh.rows[h].user == row.user)
    && (sh.owner[h] in sh.stored ==> sh.stored[sh.owner[h]] == row.accessExpires)
  }

  /** `t` may still be spent; the exception can only be read, never sent. */
  predicate Spendable(sh: Shared, h: Hash, t: Rotation) {
    sh.server.Live(t) || (h in sh.owner && sh.owner[h] in sh.strangers && sh.shutdown)
  }

  predicate StoredSpendable(sh: Shared, h: Hash) {
    h in sh.refresh ==> Spendable(sh, h, sh.refresh[h])
  }

  predicate BothAre(sh: Shared, h: Hash, r: Rotation) { Is(sh.access, h, r) && Is(sh.refresh, h, r) }

  predicate TokenOf(sh: Shared, h: Hash, r: Rotation) { OfFamily(sh.owner, sh.server, h, r) }

  predicate Minted(sh: Shared, h: Hash) { h in sh.owner && !Known(sh.rows, sh.gone, h) }

  /** A session being created, with the first token of its family. */
  ghost predicate Newborn(sh: Shared, h: Hash, r: Rotation) {
    Minted(sh, h) && FreshOwner(sh.owner, h) && TokenOf(sh, h, r) && sh.server.Live(r) && sh.owner[h] !in sh.stored
  }

  /** Reattach between its copy and its rename: `h2` is a second name for `h`'s tokens. */
  predicate Copying(sh: Shared, h: Hash, h2: Hash, t: Rotation) {
    && h in sh.rows && h in sh.owner && Minted(sh, h2) && sh.owner[h2] == sh.owner[h]
    && TokenOf(sh, h, t)
    && h in sh.access && h in sh.refresh && sh.access[h] == t && sh.refresh[h] == t
    && Spendable(sh, h, t)
  }

  /** The server has rotated `h`'s family to `next`; the row is as it was read. */
  ghost predicate HasRotated(sh: Shared, h: Hash, row: Row, next: Rotation) {
    RowRead(sh, h, row) && TokenOf(sh, h, next) && sh.server.Live(next)
        && row.accessExpires <= sh.now + ACCESS_REFRESH_SKEW
  }

  /** What is still stored for `h` is spent. */
  predicate SpentAt(sh: Shared, h: Hash) {
    h in sh.refresh ==> sh.refresh[h] in sh.server.familyOf && sh.server.familyOf[sh.refresh[h]] in sh.server.current
                        && !sh.server.Live(sh.refresh[h])
  }

  ghost predicate PurgeKnows(sh: Shared, u: User, todo: set<Hash>) {
    && (forall h :: h in sh.rows && sh.rows[h].user == u ==> Purged(h) in sh.facts)
    && (forall h :: h in todo ==> Purged(h) in sh.facts)
  }

  /** ... while validating. */
  ghost predicate ValidateInv(sh: Shared, pc: Pc) {
    match pc
    case VExpiry(h, row) => Known(sh.rows, sh.gone, h) && (row.expires > sh.booted ==> Lasting(sh.rows, sh.booted, h))
    case VAccess(h, _, _) => Known(sh.rows, sh.gone, h) && Lasting(sh.rows, sh.booted, h)
    case VRefresh(h, _, _, _) => Known(sh.rows, sh.gone, h) && Lasting(sh.rows, sh.booted, h)
    case VPresent(h) => Known(sh.rows, sh.gone, h)
    case CWait(h) => Known(sh.rows, sh.gone, h) && Lasting(sh.rows, sh.booted, h)
    case _ => true
  }

  /** ... while inside the refresh section. */
  ghost predicate SectionInv(sh: Shared, pc: Pc) {
    match pc
    case CRow(h, _) => Known(sh.rows, sh.gone, h) && Lasting(sh.rows, sh.booted, h)
    case CAccess(h, _, row) => RowRead(sh, h, row) && (h in sh.access ==> StoredSpendable(sh, h))
    case CRefresh(h, _, row, got) =>
      RowRead(sh, h, row) && (got.Some? ==> StoredSpendable(sh, h) && BothAre(sh, h, got.value))
    case CPresent(h) => Known(sh.rows, sh.gone, h)
    case CSkew(h, _, row, a, t) =>
      RowRead(sh, h, row) && a == t && TokenOf(sh, h, t) && BothAre(sh, h, t) && Spendable(sh, h, t)
    case CShutdown(h, _, row, t) =>
      RowRead(sh, h, row) && TokenOf(sh, h, t) && BothAre(sh, h, t) && Spendable(sh, h, t)
      && row.accessExpires <= sh.now + ACCESS_REFRESH_SKEW
    case CPost(h, _, row, t) =>
      RowRead(sh, h, row) && TokenOf(sh, h, t) && BothAre(sh, h, t) && sh.server.Live(t)
      && row.accessExpires <= sh.now + ACCESS_REFRESH_SKEW
    case CAnswered(h, _, row, next, _, _) => HasRotated(sh, h, row, next) && SpentAt(sh, h)
    case CStoreAccess(h, _, row, next, _) => HasRotated(sh, h, row, next) && SpentAt(sh, h)
    case CStoreRefresh(h, _, row, next, _) => HasRotated(sh, h, row, next) && SpentAt(sh, h) && Is(sh.access, h, next)
    case CUpdate(h, _, row, next, _) => HasRotated(sh, h, row, next) && BothAre(sh, h, next)
    case _ => true
  }

  /** ... while answering a grant. */
  ghost predicate GrantInv(sh: Shared, pc: Pc) {
    match pc
    case GRow(h) => Known(sh.rows, sh.gone, h)
    case GRead(h, a) => Known(sh.rows, sh.gone, h) && Lasting(sh.rows, sh.booted, h) && BothAre(sh, h, a)
    case GAnswer(h, a, t) => Known(sh.rows, sh.gone, h) && Lasting(sh.rows, sh.booted, h) && a == t && BothAre(sh, h, t)
    case _ => true
  }

  /** A delete acts on a fact about its session; inside the refresh lock an expiry it acts on is still the row's. */
  ghost predicate Deletes(sh: Shared, h: Hash, sec: bool, why: Fact) {
    Ends(sh, h) && Backed(sh.facts, h, why) && (sec ==> ExpiryAsRead(sh.rows, sh.gone, h, why))
  }

  predicate ExpiryAsRead(rows: map<Hash, Row>, gone: set<Hash>, h: Hash, why: Fact) {
    why.SawExpired? ==> Known(rows, gone, h) && (h in rows ==> rows[h].expires == why.expires)
  }

  /** ... while deleting. */
  ghost predicate DeleteInv(sh: Shared, pc: Pc) {
    match pc
    case DCheck(h, sec, why) => Deletes(sh, h, sec, why)
    case DWait(h, sec, why) => Deletes(sh, h, sec, why)
    case DRow(h, sec, why) => Deletes(sh, h, sec, why)
    case DAccess(h, sec, why) => Deletes(sh, h, sec, why)
    case DRefresh(h, sec, why) => Deletes(sh, h, sec, why)
    case DRemove(h, sec, why) => Deletes(sh, h, sec, why) && (sec && h in sh.rows ==> h !in sh.refresh)
    case _ => true
  }

  /** ... while purging. */
  ghost predicate PurgeInv(sh: Shared, pc: Pc) {
    match pc
    case PAccess(u, todo) => PurgeKnows(sh, u, todo)
    case PRefresh(u, todo, h) => PurgeKnows(sh, u, todo) && Purged(h) in sh.facts
    case PRemove(u) => PurgeKnows(sh, u, {})
    case _ => true
  }

  /** ... while creating. */
  ghost predicate CreateInv(sh: Shared, pc: Pc) {
    match pc
    case KStoreAccess(h, _, r, _) => Newborn(sh, h, r) && h !in sh.access && h !in sh.refresh
    case KStoreRefresh(h, _, r, _) => Newborn(sh, h, r) && h in sh.access && h !in sh.refresh && Is(sh.access, h, r)
    case KInsert(h, _, r, _) => Newborn(sh, h, r) && h in sh.access && h in sh.refresh && BothAre(sh, h, r)
    case KUndo(h) => Minted(sh, h)
    case _ => true
  }

  /** ... while reattaching. */
  ghost predicate ReattachInv(sh: Shared, pc: Pc) {
    match pc
    case RStoreAccess(h, h2, a, t) => Copying(sh, h, h2, t) && a == t && h2 !in sh.access && h2 !in sh.refresh
    case RStoreRefresh(h, h2, a, t) => Copying(sh, h, h2, t) && h2 in sh.access && h2 !in sh.refresh
      && Is(sh.access, h2, t)
    case RRename(h, h2, t) => Copying(sh, h, h2, t) && h2 in sh.access && h2 in sh.refresh && BothAre(sh, h2, t)
    case RUndo(h2) => Minted(sh, h2)
    case RDropAccess(h) => h in sh.gone
    case RDropRefresh(h) => h in sh.gone
    case _ => true
  }

  /** ... while shutting down. */
  ghost predicate ShutdownInv(sh: Shared, pc: Pc) {
    match pc
    case SWait => sh.shutdown
    case SHeld => sh.shutdown
    case _ => true
  }

  /** What a thread stopped at `pc` knows. */
  ghost predicate ThreadInv(sh: Shared, pc: Pc) {
    match PartOf(pc)
    case Start => true
    case Validate => ValidateInv(sh, pc)
    case Section => SectionInv(sh, pc)
    case Grant => GrantInv(sh, pc)
    case Delete => DeleteInv(sh, pc)
    case Purge => PurgeInv(sh, pc)
    case Create => CreateInv(sh, pc)
    case Reattach => ReattachInv(sh, pc)
    case Shutdown => ShutdownInv(sh, pc)
  }

  // --------------------------------------------------------- what a step may disturb

  /** The effect of one action, as far as the other threads care. */
  ghost predicate Env(a: Shared, b: Shared, serial: bool, lock: bool) {
    && a.facts <= b.facts && a.gone <= b.gone && a.strangers <= b.strangers
    && (a.shutdown ==> b.shutdown) && a.now <= b.now && b.booted == a.booted && b.bare == a.bare
    && EnvOwner(a.owner, b.owner, lock)
    && EnvRows(a, b, serial, lock)
    && EnvTokens(a, a.access, b.access, serial, lock)
    && EnvTokens(a, a.refresh, b.refresh, serial, lock)
    && EnvServer(a, b, serial)
  }

  ghost predicate EnvOwner(a: map<Hash, Family>, b: map<Hash, Family>, lock: bool) {
    && (forall h :: h in a ==> h in b && b[h] == a[h])
    && (!lock ==> b == a)
  }

  ghost predicate EnvRows(a: Shared, b: Shared, serial: bool, lock: bool) {
    && (forall h :: h in b.gone ==> Known(a.rows, a.gone, h))
    && (forall h :: h in a.rows ==> Known(b.rows, b.gone, h))
    && (!lock ==> a.rows.Keys == b.rows.Keys)
    && (forall h :: h in a.rows && h in b.rows ==> SameRow(a.rows[h], b.rows[h], serial))
    && (forall h :: h in a.rows && h in b.rows && a.rows[h].expires > a.booted ==> b.rows[h].expires > a.booted)
    && (forall h :: h in b.rows && h !in a.rows ==> h !in a.gone && (serial || FreshOwner(a.owner, h)))
  }

  predicate SameRow(a: Row, b: Row, serial: bool) {
    b.user == a.user && (!serial ==> b.accessExpires == a.accessExpires && b.expires == a.expires)
  }

  /** Only a refresh-lock holder writes tokens of a known session; only a store-lock holder writes other tokens. */
  ghost predicate EnvTokens(sh: Shared, a: map<Hash, Rotation>, b: map<Hash, Rotation>, serial: bool, lock: bool) {
    && (!serial ==> forall h :: Known(sh.rows, sh.gone, h) && h in b ==> h in a && b[h] == a[h])
    && (!lock ==> forall h :: Minted(sh, h) ==> SameAt(a, b, h))
    && (!serial && !lock ==> b == a)
  }

  predicate SameAt(a: map<Hash, Rotation>, b: map<Hash, Rotation>, h: Hash) {
    (h in a <==> h in b) && (h in a ==> a[h] == b[h])
  }

  ghost predicate EnvServer(a: Shared, b: Shared, serial: bool) {
    && (forall r :: r in a.server.familyOf ==> r in b.server.familyOf && b.server.familyOf[r] == a.server.familyOf[r])
    && (forall f :: f in a.server.current ==> f in b.server.current)
    && (forall f :: f in a.server.current && b.server.current[f] != a.server.current[f] ==> serial && KnownFamily(a, f))
    && (forall f :: f in b.stored && (f !in a.stored || a.stored[f] != b.stored[f]) ==> serial && KnownFamily(a, f))
    && a.stored.Keys <= b.stored.Keys
  }

  ghost predicate KnownFamily(sh: Shared, f: Family) {
    exists h :: h in sh.owner && sh.owner[h] == f && Known(sh.rows, sh.gone, h)
  }
}
