/** What a thread knows survives every action of the others. */
module SessionStable {
  import opened SessionModel
  import opened SessionProtocol
  import opened SessionInvariant

  lemma RootedGrows(a: set<Fact>, b: set<Fact>, bare: set<Hash>, h: Hash)
    requires a <= b
    ensures Rooted(a, bare, h) ==> Rooted(b, bare, h)
  {
    if Rooted(a, bare, h) && h !in bare {
      var f :| f in a && f.h == h;
      assert f in b;
    }
  }

  lemma KnownStable(a: Shared, b: Shared, s: bool, l: bool, h: Hash)
    requires Env(a, b, s, l)
    ensures Known(a.rows, a.gone, h) ==> Known(b.rows, b.gone, h)
  {
  }

  lemma LastingStable(a: Shared, b: Shared, s: bool, l: bool, h: Hash)
    requires Env(a, b, s, l) && b.gone !! b.rows.Keys && Known(a.rows, a.gone, h) && Lasting(a.rows, a.booted, h)
    ensures Known(b.rows, b.gone, h) && Lasting(b.rows, b.booted, h)
  {
    if h in b.rows { assert h in a.rows; }
  }

  lemma RowReadStable(a: Shared, b: Shared, l: bool, h: Hash, row: Row)
    requires Env(a, b, false, l) && b.gone !! b.rows.Keys && RowRead(a, h, row)
    requires a.rows.Keys <= a.owner.Keys
    ensures RowRead(b, h, row)
  {
    KnownStable(a, b, false, l, h);
    LastingStable(a, b, false, l, h);
    forall x | x in b.rows && x in b.owner && b.owner[x] == b.owner[h]
      ensures x == h
    {
      if x !in a.rows { assert FreshOwner(a.owner, x); }
    }
    if h in b.rows { assert h !in a.gone; }
  }

  lemma StableSection(a: Shared, b: Shared, l: bool, pc: Pc)
    requires Env(a, b, false, l) && b.gone !! b.rows.Keys && a.rows.Keys <= a.owner.Keys
    requires SectionInv(a, pc) && PartOf(pc).Section?
    ensures SectionInv(b, pc)
  {
    if pc.CAccess? || pc.CRefresh? || pc.CSkew? || pc.CShutdown? || pc.CPost? || pc.CAnswered? || pc.CStoreAccess?
       || pc.CStoreRefresh? || pc.CUpdate? {
      RowReadStable(a, b, l, pc.h, pc.row);
    }
    if pc.CPresent? { KnownStable(a, b, false, l, pc.h); }
    if pc.CRow? { LastingStable(a, b, false, l, pc.h); }
  }

  lemma StableGrant(a: Shared, b: Shared, l: bool, pc: Pc)
    requires Env(a, b, false, l) && b.gone !! b.rows.Keys && PartOf(pc).Grant?
    requires GrantInv(a, pc)
    ensures GrantInv(b, pc)
  {
    if pc.GRow? { KnownStable(a, b, false, l, pc.h); }
    if pc.GRead? || pc.GAnswer? { LastingStable(a, b, false, l, pc.h); }
  }

  /** A hash minted by a thread that holds the store lock is nobody else's business. */
  lemma MintedStable(a: Shared, b: Shared, s: bool, h: Hash)
    requires Env(a, b, s, false) && Minted(a, h)
    ensures Minted(b, h)
    ensures SameAt(a.access, b.access, h) && SameAt(a.refresh, b.refresh, h)
  {
  }

  lemma NewbornStable(a: Shared, b: Shared, s: bool, h: Hash, r: Rotation)
    requires Env(a, b, s, false) && Newborn(a, h, r)
    ensures Newborn(b, h, r)
  {
    MintedStable(a, b, s, h);
    assert !KnownFamily(a, a.owner[h]);
  }

  lemma StableCreate(a: Shared, b: Shared, s: bool, pc: Pc)
    requires Env(a, b, s, false) && PartOf(pc).Create?
    requires CreateInv(a, pc)
    ensures CreateInv(b, pc)
  {
    if !pc.KWait? { MintedStable(a, b, s, pc.h); }
    if pc.KStoreAccess? || pc.KStoreRefresh? || pc.KInsert? { NewbornStable(a, b, s, pc.h, pc.r); }
  }

  lemma StableReattach(a: Shared, b: Shared, pc: Pc)
    requires Env(a, b, false, false) && PartOf(pc).Reattach?
    requires ReattachInv(a, pc)
    ensures ReattachInv(b, pc)
  {
    if pc.RStoreAccess? || pc.RStoreRefresh? || pc.RRename? || pc.RUndo? { MintedStable(a, b, false, pc.h2); }
  }

  lemma StableDelete(a: Shared, b: Shared, s: bool, l: bool, pc: Pc)
    requires Env(a, b, s, l) && PartOf(pc).Delete? && (HoldsSerial(pc) ==> !s) && (HoldsLock(pc) ==> !l)
    requires DeleteInv(a, pc)
    ensures DeleteInv(b, pc)
  {
    RootedGrows(a.facts, b.facts, a.bare, pc.h);
    if pc.DRemove? && pc.sec && pc.h in b.rows { assert pc.h in a.rows; }
  }

  lemma StablePurge(a: Shared, b: Shared, s: bool, pc: Pc)
    requires Env(a, b, s, false) && PartOf(pc).Purge?
    requires PurgeInv(a, pc)
    ensures PurgeInv(b, pc)
  {
  }

  lemma StableValidate(a: Shared, b: Shared, s: bool, l: bool, pc: Pc)
    requires Env(a, b, s, l) && b.gone !! b.rows.Keys && PartOf(pc).Validate? && ValidateInv(a, pc)
    ensures ValidateInv(b, pc)
  {
    if pc.VAccess? || pc.VRefresh? || pc.CWait? || (pc.VExpiry? && pc.row.expires > a.booted) {
      LastingStable(a, b, s, l, pc.h);
    }
    else if pc.VExpiry? || pc.VPresent? { KnownStable(a, b, s, l, pc.h); }
  }

  lemma Stable(a: Shared, b: Shared, s: bool, l: bool, pc: Pc)
    requires Env(a, b, s, l) && (HoldsSerial(pc) ==> !s) && (HoldsLock(pc) ==> !l)
    requires b.gone !! b.rows.Keys && a.rows.Keys <= a.owner.Keys
    requires ThreadInv(a, pc)
    ensures ThreadInv(b, pc)
  {
    hide Env, ValidateInv, SectionInv, GrantInv, DeleteInv, PurgeInv, CreateInv, ReattachInv;
    match PartOf(pc) {
      case Start =>
      case Validate => StableValidate(a, b, s, l, pc);
      case Section => StableSection(a, b, l, pc);
      case Grant => StableGrants(a, b, s, l, pc);
      case Delete => StableDelete(a, b, s, l, pc);
      case Purge => StablePurges(a, b, s, l, pc);
      case Create => StableCreates(a, b, s, l, pc);
      case Reattach => StableReattaches(a, b, s, l, pc);
      case Shutdown => StableShutdown(a, b, s, l, pc);
    }
  }

  lemma StableGrants(a: Shared, b: Shared, s: bool, l: bool, pc: Pc)
    requires Env(a, b, s, l) && b.gone !! b.rows.Keys && PartOf(pc).Grant? && (HoldsSerial(pc) ==> !s)
             && GrantInv(a, pc)
    ensures GrantInv(b, pc)
  {
    if !pc.GWait? { hide Env; StableGrant(a, b, l, pc); }
  }

  lemma StablePurges(a: Shared, b: Shared, s: bool, l: bool, pc: Pc)
    requires Env(a, b, s, l) && PartOf(pc).Purge? && (HoldsLock(pc) ==> !l) && PurgeInv(a, pc)
    ensures PurgeInv(b, pc)
  {
    if !pc.PWait? { hide Env; StablePurge(a, b, s, pc); }
  }

  lemma StableCreates(a: Shared, b: Shared, s: bool, l: bool, pc: Pc)
    requires Env(a, b, s, l) && PartOf(pc).Create? && (HoldsLock(pc) ==> !l) && CreateInv(a, pc)
    ensures CreateInv(b, pc)
  {
    if !pc.KWait? { hide Env; StableCreate(a, b, s, pc); }
  }

  lemma StableReattaches(a: Shared, b: Shared, s: bool, l: bool, pc: Pc)
    requires Env(a, b, s, l) && PartOf(pc).Reattach? && (HoldsSerial(pc) ==> !s) && (HoldsLock(pc) ==> !l)
             && ReattachInv(a, pc)
    ensures ReattachInv(b, pc)
  {
    if !pc.RWaitSerial? && !pc.RWaitLock? { hide Env; StableReattach(a, b, pc); }
  }

  lemma StableShutdown(a: Shared, b: Shared, s: bool, l: bool, pc: Pc)
    requires Env(a, b, s, l) && PartOf(pc).Shutdown? && ShutdownInv(a, pc)
    ensures ShutdownInv(b, pc)
  {
  }
}
