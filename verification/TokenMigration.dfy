/**
 OAuth tokens that are re-encrypted when they are read
 (SOURCE/auth/database.py, `SQLiteOAuthTokenRepository`; SOURCE/auth/kdf.py and
 SOURCE/auth/secret_rotation.py).

 A ciphertext opens under the key that made it and no other; different secrets,
 versions and salts give different keys.  A token's text is not empty: an empty
 one counts as absent, as the source's tests on it do.
 */
module TokenMigration {
  import opened Common

  type Secret = nat
  type Salt = nat
  type Text = nat
  type RowId = nat

  const KEY_VERSION_CURRENT := 2

  datatype Key = Key(secret: Secret, version: nat, salt: Option<Salt>)

  /** `nonce` tells apart two encryptions of one text. */
  datatype Cipher = Cipher(key: Key, plain: Text, nonce: nat)

  /** Versions before 2 kept the id token in the clear. */
  datatype IdToken = Clear(text: Text) | Sealed(cipher: Cipher)

  datatype TokenRow = TokenRow(
    id: RowId, access: Option<Cipher>, refresh: Option<Cipher>, idToken: Option<IdToken>, version: nat, updatedAt: nat)

  /** `previous` is None when it is blank. */
  datatype Env = Env(secret: Secret, previous: Option<Secret>, salt: Salt)

  // ------------------------------------------------------------------- keys

  function DeriveKey(secret: Secret, version: nat, salt: Salt): Key {
    Key(secret, version, if version >= 2 then Some(salt) else None)
  }

  /** `derive_fernet_keys`. */
  function DeriveKeys(env: Env, version: nat): (Key, Option<Key>) {
    (DeriveKey(env.secret, version, env.salt),
     if env.previous.None? || env.previous.value == env.secret then None
     else Some(DeriveKey(env.previous.value, version, env.salt)))
  }

  function Seal(env: Env, text: Text, nonce: nat): Cipher {
    Cipher(DeriveKey(env.secret, KEY_VERSION_CURRENT, env.salt), text, nonce)
  }

  datatype DecryptError = InvalidToken

  /** `decrypt_with_fallback`; `overlap` says the previous secret's deadline has not passed. */
  function DecryptWithFallback(c: Cipher, current: Key, previous: Option<Key>, overlap: bool)
    : Result<(Text, bool), DecryptError>
  {
    if c.key == current then Ok((c.plain, false))
    else if previous.None? || !overlap then Err(InvalidToken)
    else if c.key == previous.value then Ok((c.plain, true))
    else Err(InvalidToken)
  }

  /** The versions tried for a token stored at `version`. */
  predicate MayTry(version: nat, tried: nat) { if version >= 2 then tried == 2 else tried <= 1 }

  predicate OpensCurrent(c: Cipher, version: nat, env: Env) {
    MayTry(version, c.key.version) && c.key == DeriveKey(env.secret, c.key.version, env.salt)
  }

  predicate OpensPrevious(c: Cipher, version: nat, env: Env) {
    && env.previous.Some? && env.previous.value != env.secret
    && MayTry(version, c.key.version) && c.key == DeriveKey(env.previous.value, c.key.version, env.salt)
  }

  predicate Opens(c: Cipher, version: nat, env: Env, overlap: bool) {
    OpensCurrent(c, version, env) || (overlap && OpensPrevious(c, version, env))
  }

  function Unsealed(c: Option<Cipher>, version: nat, env: Env, overlap: bool): Option<Text> {
    if c.Some? && Opens(c.value, version, env, overlap) then Some(c.value.plain) else None
  }

  function UsesPrevious(c: Option<Cipher>, version: nat, env: Env, overlap: bool): bool {
    c.Some? && overlap && OpensPrevious(c.value, version, env)
  }

  /**
   `_decrypt_token_with_rotation`: trying the versions one after another finds the
   text exactly when some allowed key opens it, and says whether that key was of
   the previous secret.
   */
  method DecryptTokenWithRotation(c: Cipher, version: Option<nat>, env: Env, overlap: bool)
      returns (plain: Option<Text>, usedPrevious: bool)
    ensures var v := if version.Some? then version.value else 0;
            && plain == Unsealed(Some(c), v, env, overlap)
            && usedPrevious == UsesPrevious(Some(c), v, env, overlap)
  {
    ghost var v := if version.Some? then version.value else 0;
    var versions: seq<nat>;
    if version.Some? && version.value >= 2 {
      versions := [2];
    } else if version == Some(1) {
      versions := [1, 0];
    } else {
      versions := [0, 1];
    }
    assert MayTry(v, c.key.version) ==> c.key.version in versions;
    var i := 0;
    while i < |versions|
      invariant i <= |versions|
      invariant c.key.version in versions[..i] ==> !Opens(c, v, env, overlap)
    {
      var (current, previous) := DeriveKeys(env, versions[i]);
      var r := DecryptWithFallback(c, current, previous, overlap);
      if r.Ok? { return Some(r.value.0), r.value.1; }
      i := i + 1;
    }
    return None, false;
  }

  // ------------------------------------------------------------- operations

  /** `store_tokens`: the access and id tokens are overwritten, the refresh token only by another. */
  function Stored(row: Option<TokenRow>, newId: RowId, access: Option<Text>, refresh: Option<Text>, id: Option<Text>,
                  env: Env, nonces: (nat, nat, nat), now: nat): TokenRow {
    var sealedRefresh := if refresh.Some? then Some(Seal(env, refresh.value, nonces.1)) else None;
    TokenRow(
      if row.Some? then row.value.id else newId,
      if access.Some? then Some(Seal(env, access.value, nonces.0)) else None,
      if sealedRefresh.Some? || row.None? then sealedRefresh else row.value.refresh,
      if id.Some? then Some(Sealed(Seal(env, id.value, nonces.2))) else None,
      KEY_VERSION_CURRENT, now)
  }

  /** Whether the previous secret was still accepted at each of the three decryptions of one read. */
  datatype Overlap = Overlap(access: bool, refresh: bool, id: bool)

  const WHOLE := Overlap(true, true, true)

  predicate WantsReencrypt(snap: TokenRow, env: Env, o: Overlap) {
    && (snap.version < KEY_VERSION_CURRENT || UsesPrevious(snap.access, snap.version, env, o.access)
        || UsesPrevious(snap.refresh, snap.version, env, o.refresh))
    && (Unsealed(snap.access, snap.version, env, o.access).Some?
        || Unsealed(snap.refresh, snap.version, env, o.refresh).Some?)
  }

  function Resealed(c: Option<Cipher>, version: nat, env: Env, overlap: bool, nonce: nat): Option<Cipher> {
    var text := Unsealed(c, version, env, overlap);
    if text.Some? then Some(Seal(env, text.value, nonce)) else c
  }

  function ResealedId(t: Option<IdToken>, version: nat, env: Env, overlap: bool, nonce: nat): Option<IdToken> {
    if t.None? then None
    else if t.value.Clear? then (if version < 2 then Some(Sealed(Seal(env, t.value.text, nonce))) else t)
    else
      var text := Unsealed(Some(t.value.cipher), version, env, overlap);
      if text.Some? then Some(Sealed(Seal(env, text.value, nonce))) else t
  }

  /** Id tokens are in the clear up to version 1 and sealed from version 2 on. */
  predicate WellFormed(row: TokenRow) { row.idToken.Some? ==> (row.idToken.value.Clear? <==> row.version < 2) }

  /** The row the migrating UPDATE would write: a token that does not open is kept as it is. */
  function Migrated(snap: TokenRow, env: Env, o: Overlap, nonces: (nat, nat, nat), now: nat): TokenRow {
    TokenRow(
      snap.id,
      Resealed(snap.access, snap.version, env, o.access, nonces.0),
      Resealed(snap.refresh, snap.version, env, o.refresh, nonces.1),
      ResealedId(snap.idToken, snap.version, env, o.id, nonces.2),
      KEY_VERSION_CURRENT, now)
  }

  /** The UPDATE's WHERE clause. */
  predicate Unchanged(row: Option<TokenRow>, snap: TokenRow) {
    && row.Some? && row.value.id == snap.id && row.value.updatedAt == snap.updatedAt
    && row.value.access == snap.access && row.value.refresh == snap.refresh && row.value.idToken == snap.idToken
  }

  function AfterRead(row: Option<TokenRow>, snap: TokenRow, env: Env, o: Overlap, nonces: (nat, nat, nat),
                     now: nat): Option<TokenRow>
  {
    if WantsReencrypt(snap, env, o) && Unchanged(row, snap) then Some(Migrated(snap, env, o, nonces, now)) else row
  }

  /** The repository for one user and provider. */
  class OAuthTokenRepository {
    const env: Env
    var row: Option<TokenRow>

    constructor (env: Env)
      ensures this.env == env && row == None
    {
      this.env, row := env, None;
    }

    method StoreTokens(newId: RowId, access: Option<Text>, refresh: Option<Text>, id: Option<Text>,
                       nonces: (nat, nat, nat), now: nat)
      modifies this
      ensures row == Some(Stored(old(row), newId, access, refresh, id, env, nonces, now))
      ensures row.Some? && row.value.version == KEY_VERSION_CURRENT && row.value.updatedAt == now
      ensures Unsealed(row.value.access, KEY_VERSION_CURRENT, env, false) == access
      ensures refresh.Some? ==> Unsealed(row.value.refresh, KEY_VERSION_CURRENT, env, false) == refresh
      ensures refresh.None? ==> row.value.refresh == if old(row).Some? then old(row).value.refresh else None
    {
      var accessSealed := if access.Some? then Some(Seal(env, access.value, nonces.0)) else None;
      var refreshSealed := if refresh.Some? then Some(Seal(env, refresh.value, nonces.1)) else None;
      var idSealed := if id.Some? then Some(Sealed(Seal(env, id.value, nonces.2))) else None;
      if row.Some? {
        var kept := if refreshSealed.Some? then refreshSealed else row.value.refresh;
        row := Some(row.value.(access := accessSealed, refresh := kept, idToken := idSealed,
                               version := KEY_VERSION_CURRENT, updatedAt := now));
      } else {
        row := Some(TokenRow(newId, accessSealed, refreshSealed, idSealed, KEY_VERSION_CURRENT, now));
      }
    }

    /** The second half of `get_tokens`: decrypt the row that was read, answer, and migrate it if it is still there. */
    method FinishRead(snap: TokenRow, o: Overlap, nonces: (nat, nat, nat), now: nat)
        returns (access: Option<Text>, refresh: Option<Text>)
      requires WellFormed(snap)
      modifies this
      ensures access == Unsealed(snap.access, snap.version, env, o.access)
      ensures refresh == Unsealed(snap.refresh, snap.version, env, o.refresh)
      ensures row == AfterRead(old(row), snap, env, o, nonces, now)
      // A read of the row as it stands, while the previous secret is accepted, leaves the pair it answers to the
      // current secret alone.
      ensures old(row) == Some(snap) && PairReadable(snap, env, true) && o == WHOLE ==>
                row.Some? && Decrypted(row.value, env, false) == (access, refresh)
                && (access, refresh) == (PlainOf(snap.access), PlainOf(snap.refresh))
      // If it could read anything of an older row, the row is of the current version afterwards, with no id token in
      // the clear.
      ensures Unchanged(old(row), snap) && snap.version < KEY_VERSION_CURRENT && (access.Some? || refresh.Some?) ==>
                && row.Some? && row.value.version == KEY_VERSION_CURRENT
                && (row.value.idToken.Some? ==> row.value.idToken.value.Sealed?)
      // A row that needs nothing, that could not be read, or that has changed meanwhile is left alone.
      ensures snap.version >= KEY_VERSION_CURRENT && PairReadable(snap, env, false) ==> row == old(row)
      ensures access.None? && refresh.None? ==> row == old(row)
      ensures !Unchanged(old(row), snap) ==> row == old(row)
    {
      AfterReadMeans(row, snap, env, o, nonces, now);
      hide PairReadable, Decrypted, PlainOf;
      access, refresh := None, None;
      var usedPrevious := false;
      if snap.access.Some? {
        var used;
        access, used := DecryptTokenWithRotation(snap.access.value, Some(snap.version), env, o.access);
        usedPrevious := usedPrevious || used;
      }
      if snap.refresh.Some? {
        var used;
        refresh, used := DecryptTokenWithRotation(snap.refresh.value, Some(snap.version), env, o.refresh);
        usedPrevious := usedPrevious || used;
      }
      if (snap.version < KEY_VERSION_CURRENT || usedPrevious) && (access.Some? || refresh.Some?) {
        var newId := snap.idToken;
        if snap.idToken.Some? {
          if snap.version >= 2 {
            var text, used := DecryptTokenWithRotation(snap.idToken.value.cipher, Some(snap.version), env, o.id);
            if text.Some? { newId := Some(Sealed(Seal(env, text.value, nonces.2))); }
          } else {
            newId := Some(Sealed(Seal(env, snap.idToken.value.text, nonces.2)));
          }
        }
        if Unchanged(row, snap) {
          row := Some(row.value.(
            access := if access.Some? then Some(Seal(env, access.value, nonces.0)) else row.value.access,
            refresh := if refresh.Some? then Some(Seal(env, refresh.value, nonces.1)) else row.value.refresh,
            idToken := newId, version := KEY_VERSION_CURRENT, updatedAt := now));
        }
      }
    }
  }

  // ------------------------------------------------------------- interleavings

  type Tid = nat

  /** A read between its SELECT and its UPDATE; `overlap`: the deadline had not passed at the SELECT. */
  datatype Flight = Flight(snap: TokenRow, overlap: bool)

  datatype State = State(row: Option<TokenRow>, overlap: bool, flights: map<Tid, Flight>)

  datatype Event =
    | Store(newId: RowId, access: Option<Text>, refresh: Option<Text>, id: Option<Text>, nonces: (nat, nat, nat),
            now: nat)
    | Select(t: Tid)
    | Update(t: Tid, o: Overlap, nonces: (nat, nat, nat), now: nat)
    | Delete
    | DeadlinePasses

  /** A decryption finds the overlap open only if it was at the SELECT, and closed only if it is by now. */
  predicate Timely(s: State, f: Flight, o: Overlap) {
    && (s.overlap ==> o == Overlap(true, true, true))
    && (!f.overlap ==> o == Overlap(false, false, false))
  }

  function Step(s: State, e: Event, env: Env): State {
    match e
    case Store(newId, access, refresh, id, nonces, now) =>
      s.(row := Some(Stored(s.row, newId, access, refresh, id, env, nonces, now)))
    case Select(t) => if s.row.Some? then s.(flights := s.flights[t := Flight(s.row.value, s.overlap)]) else s
    case Update(t, o, nonces, now) =>
      if t in s.flights && Timely(s, s.flights[t], o) then
        s.(row := AfterRead(s.row, s.flights[t].snap, env, o, nonces, now), flights := s.flights - {t})
      else s
    case Delete => s.(row := None)
    case DeadlinePasses => s.(overlap := false)
  }

  function Execute(s: State, es: seq<Event>, env: Env): State
    decreases |es|
  {
    if es == [] then s else Execute(Step(s, es[0], env), es[1..], env)
  }

  // --------------------------------------------------------- what a row means

  datatype Tokens = Tokens(access: Option<Text>, refresh: Option<Text>, id: Option<Text>)

  function PlainOf(c: Option<Cipher>): Option<Text> { if c.Some? then Some(c.value.plain) else None }

  function IdTextOf(t: Option<IdToken>): Option<Text> {
    if t.None? then None else if t.value.Clear? then Some(t.value.text) else Some(t.value.cipher.plain)
  }

  /** The texts inside the row, whoever can read them. */
  function Meaning(row: TokenRow): Tokens { Tokens(PlainOf(row.access), PlainOf(row.refresh), IdTextOf(row.idToken)) }

  /** What the calls stored, seen from outside: migrations do not appear in it. */
  function LastStored(initial: Option<Tokens>, es: seq<Event>): Option<Tokens>
    decreases |es|
  {
    if es == [] then initial
    else
      var next := match es[0]
        case Store(_, access, refresh, id, _, _) =>
          Some(Tokens(access, if refresh.Some? || initial.None? then refresh else initial.value.refresh, id))
        case Delete => None
        case _ => initial;
      LastStored(next, es[1..])
  }

  function MeaningOf(row: Option<TokenRow>): Option<Tokens> { if row.Some? then Some(Meaning(row.value)) else None }

  lemma MigrationKeepsMeaning(snap: TokenRow, env: Env, o: Overlap, nonces: (nat, nat, nat), now: nat)
    ensures Meaning(Migrated(snap, env, o, nonces, now)) == Meaning(snap)
  {
  }

  /**
   In every interleaving of stores, deletes and reads that migrate, whatever the
   keys: the row means exactly what was stored last.
   */
  lemma {:induction false} RowMeansLastStored(s: State, es: seq<Event>, env: Env)
    ensures MeaningOf(Execute(s, es, env).row) == LastStored(MeaningOf(s.row), es)
    decreases |es|
  {
    if es != [] {
      var e := es[0];
      if e.Update? && e.t in s.flights && Unchanged(s.row, s.flights[e.t].snap) {
        MigrationKeepsMeaning(s.flights[e.t].snap, env, e.o, e.nonces, e.now);
      }
      RowMeansLastStored(Step(s, e, env), es[1..], env);
    }
  }

  // --------------------------------------------------------------- who can read it

  predicate OpensIfAny(c: Option<Cipher>, version: nat, env: Env, overlap: bool) {
    c.Some? ==> Opens(c.value, version, env, overlap)
  }

  /** All tokens present decrypt at the row's key version. */
  predicate Readable(row: TokenRow, env: Env, overlap: bool) {
    && OpensIfAny(row.access, row.version, env, overlap)
    && OpensIfAny(row.refresh, row.version, env, overlap)
    && (row.idToken.Some? ==>
          if row.version < 2 then row.idToken.value.Clear?
          else row.idToken.value.Sealed? && Opens(row.idToken.value.cipher, row.version, env, overlap))
  }

  function Decrypted(row: TokenRow, env: Env, overlap: bool): (Option<Text>, Option<Text>) {
    (Unsealed(row.access, row.version, env, overlap), Unsealed(row.refresh, row.version, env, overlap))
  }

  /** A decrypted token is the one stored last or none: a read is never wrong, and right when the row is readable. */
  lemma ReadsAreNeverWrong(s: State, es: seq<Event>, env: Env, overlap: bool)
    ensures var r := Execute(s, es, env).row;
            var last := LastStored(MeaningOf(s.row), es);
            r.Some? ==>
              && last.Some?
              && Decrypted(r.value, env, overlap).0 in {None, last.value.access}
              && Decrypted(r.value, env, overlap).1 in {None, last.value.refresh}
              && (Readable(r.value, env, overlap) ==>
                  Decrypted(r.value, env, overlap) == (last.value.access, last.value.refresh))
  {
    RowMeansLastStored(s, es, env);
  }

  lemma SealedOpens(env: Env, text: Text, nonce: nat, overlap: bool)
    ensures Opens(Seal(env, text, nonce), KEY_VERSION_CURRENT, env, overlap)
  {
  }

  /** A migration whose read opened everything leaves a row that the current secret alone opens; and only then. */
  lemma MigratedRowNeedsOnlyTheCurrentSecret(snap: TokenRow, env: Env, o: Overlap, nonces: (nat, nat, nat), now: nat)
    requires Readable(snap, env, true) && WantsReencrypt(snap, env, o)
    ensures Readable(Migrated(snap, env, o, nonces, now), env, false)
            <==> (Unsealed(snap.access, snap.version, env, o.access) == PlainOf(snap.access)
                  && Unsealed(snap.refresh, snap.version, env, o.refresh) == PlainOf(snap.refresh)
                  && (snap.version >= 2 && snap.idToken.Some? ==> Opens(snap.idToken.value.cipher, 2, env, o.id)))
  {
    if snap.access.Some? { SealedOpens(env, snap.access.value.plain, nonces.0, false); }
    if snap.refresh.Some? { SealedOpens(env, snap.refresh.value.plain, nonces.1, false); }
  }

  /** A store leaves a readable row exactly when it supplies the refresh token or the kept one opens at version 2. */
  lemma StoreKeepsReadable(row: Option<TokenRow>, newId: RowId, access: Option<Text>, refresh: Option<Text>,
                           id: Option<Text>,
                           env: Env, nonces: (nat, nat, nat), now: nat, overlap: bool)
    ensures Readable(Stored(row, newId, access, refresh, id, env, nonces, now), env, overlap)
            <==> (refresh.Some? || row.None? || OpensIfAny(row.value.refresh, KEY_VERSION_CURRENT, env, overlap))
  {
  }

  /** So refreshing the access token alone, on a row an older version wrote, loses its refresh token for good. */
  lemma AccessOnlyStoreLosesALegacyRefreshToken(env: Env, old': TokenRow, newId: RowId, access: Text,
                                                nonces: (nat, nat, nat), now: nat)
    requires old'.version < 2 && old'.refresh.Some? && old'.refresh.value.key.version < 2 && Readable(old', env, true)
    ensures var r := Stored(Some(old'), newId, Some(access), None, None, env, nonces, now);
            && Unsealed(old'.refresh, old'.version, env, true) == PlainOf(old'.refresh)
            && r.refresh == old'.refresh
            && forall e: Env, o: bool :: Unsealed(r.refresh, r.version, e, o) == None
  {
  }

  /** The access and the refresh token, as far as present, decrypt at the row's version. */
  predicate PairReadable(row: TokenRow, env: Env, overlap: bool) {
    OpensIfAny(row.access, row.version, env, overlap) && OpensIfAny(row.refresh, row.version, env, overlap)
  }

  /** A read that finds the row as selected, with the previous secret accepted, makes the pair the current secret's. */
  lemma ReadSecuresThePair(row: TokenRow, snap: TokenRow, env: Env, nonces: (nat, nat, nat), now: nat)
    requires Unchanged(Some(row), snap) && PairReadable(row, env, true) && PairReadable(snap, env, true)
    ensures var r := AfterRead(Some(row), snap, env, WHOLE, nonces, now);
            && r.Some? && PairReadable(r.value, env, false)
            && PlainOf(r.value.access) == PlainOf(snap.access) && PlainOf(r.value.refresh) == PlainOf(snap.refresh)
  {
    if snap.access.Some? { SealedOpens(env, snap.access.value.plain, nonces.0, false); }
    if snap.refresh.Some? { SealedOpens(env, snap.refresh.value.plain, nonces.1, false); }
  }

  /** What a read leaves of the row, in terms of who can read it. */
  lemma AfterReadMeans(row: Option<TokenRow>, snap: TokenRow, env: Env, o: Overlap, nonces: (nat, nat, nat), now: nat)
    requires WellFormed(snap)
    ensures var r := AfterRead(row, snap, env, o, nonces, now);
            var access, refresh := Unsealed(snap.access, snap.version, env, o.access),
                                   Unsealed(snap.refresh, snap.version, env, o.refresh);
            && (row == Some(snap) && PairReadable(snap, env, true) && o == WHOLE ==>
                  && r.Some? && Decrypted(r.value, env, false) == (access, refresh)
                  && (access, refresh) == (PlainOf(snap.access), PlainOf(snap.refresh)))
            && (Unchanged(row, snap) && snap.version < KEY_VERSION_CURRENT && (access.Some? || refresh.Some?) ==>
                  && r.Some? && r.value.version == KEY_VERSION_CURRENT
                  && (r.value.idToken.Some? ==> r.value.idToken.value.Sealed?))
            && (snap.version >= KEY_VERSION_CURRENT && PairReadable(snap, env, false) ==> r == row)
            && (access.None? && refresh.None? ==> r == row)
            && (!Unchanged(row, snap) ==> r == row)
  {
    if row == Some(snap) && PairReadable(snap, env, true) && o == WHOLE {
      ReadSecuresThePair(snap, snap, env, nonces, now);
    }
  }

  /** Every token the code has written at some version opens at that version: what encryption and fallback are for. */
  lemma WrittenTokensOpen(env: Env, text: Text, nonce: nat, tokenVersion: nat, rowVersion: nat, overlap: bool)
    requires tokenVersion <= KEY_VERSION_CURRENT && rowVersion <= KEY_VERSION_CURRENT
    ensures var own := Cipher(DeriveKey(env.secret, tokenVersion, env.salt), text, nonce);
            Unsealed(Some(own), rowVersion, env, overlap)
            == if (tokenVersion == 2) == (rowVersion == 2) then Some(text) else None
    ensures env.previous.Some? && env.previous.value != env.secret ==>
              var before := Cipher(DeriveKey(env.previous.value, tokenVersion, env.salt), text, nonce);
              Unsealed(Some(before), rowVersion, env, overlap)
              == if overlap && (tokenVersion == 2) == (rowVersion == 2) then Some(text) else None
  {
  }

  // ------------------------------------------------------ runs of whole stores

  /** Every store supplies both tokens. */
  predicate StoresBoth(es: seq<Event>) {
    forall i :: 0 <= i < |es| && es[i].Store? ==> es[i].access.Some? && es[i].refresh.Some?
  }

  ghost predicate GoodFlights(flights: map<Tid, Flight>, env: Env) {
    forall t :: t in flights ==>
        WellFormed(flights[t].snap) && (flights[t].overlap ==> Readable(flights[t].snap, env, true))
  }

  /**
   The row can be read while the overlap is `overlap`, and so could the rows that reads in flight
   carry when they were selected.
   */
  ghost predicate Good(s: State, env: Env, overlap: bool) {
    GoodFlights(s.flights, env) && (s.row.Some? ==> Readable(s.row.value, env, overlap))
  }

  lemma TokenSurvives(c: Option<Cipher>, rowVersion: nat, snapVersion: nat, env: Env, overlap: bool, nonce: nat)
    requires OpensIfAny(c, rowVersion, env, overlap) && (snapVersion < 2 || rowVersion >= 2)
    ensures var r := Resealed(c, snapVersion, env, overlap, nonce);
            OpensIfAny(r, KEY_VERSION_CURRENT, env, overlap)
                && (Unsealed(c, snapVersion, env, overlap).Some? ==> OpensIfAny(r, KEY_VERSION_CURRENT, env, false))
  {
  }

  /**
   The row may have moved to a newer version since the SELECT and still match the WHERE clause: its
   tokens are safe all the same.
   */
  lemma MatchingVersions(row: TokenRow, snap: TokenRow, env: Env, overlap: bool, o: Overlap)
    requires Readable(row, env, overlap) && Unchanged(Some(row), snap) && WantsReencrypt(snap, env, o)
    ensures snap.version < 2 || row.version >= 2
  {
  }

  lemma OverlapOpensMore(row: TokenRow, env: Env)
    requires Readable(row, env, false)
    ensures Readable(row, env, true)
  {
  }

  lemma UpdateKeepsReadable(row: TokenRow, snap: TokenRow, env: Env, overlap: bool, o: Overlap,
                            nonces: (nat, nat, nat), now: nat)
    requires Readable(row, env, overlap) && WellFormed(snap) && Unchanged(Some(row), snap)
             && WantsReencrypt(snap, env, o)
    requires overlap ==> o == Overlap(true, true, true)
    ensures Readable(Migrated(snap, env, o, nonces, now), env, overlap)
  {
    MatchingVersions(row, snap, env, overlap, o);
    TokenSurvives(snap.access, row.version, snap.version, env, overlap, nonces.0);
    TokenSurvives(snap.refresh, row.version, snap.version, env, overlap, nonces.1);
  }

  lemma StepKeepsReadable(s: State, e: Event, env: Env, overlap: bool)
    requires Good(s, env, overlap) && StoresBoth([e]) && (overlap ==> Step(s, e, env).overlap)
    ensures Good(Step(s, e, env), env, overlap)
  {
    assert [e][0] == e;
    match e {
      case Store(_, _, _, _, _, _) =>
      case Update(t, o, nonces, now) =>
        if t in s.flights && Unchanged(s.row, s.flights[t].snap) && WantsReencrypt(s.flights[t].snap, env, o)
            && Timely(s, s.flights[t], o) {
          UpdateKeepsReadable(s.row.value, s.flights[t].snap, env, overlap, o, nonces, now);
        }
      case Select(_) => if s.row.Some? && !overlap { OverlapOpensMore(s.row.value, env); }
      case _ =>
    }
  }

  lemma {:induction false} OverlapOnlyEnds(s: State, es: seq<Event>, env: Env)
    requires Execute(s, es, env).overlap
    ensures s.overlap
    decreases |es|
  {
    if es != [] { OverlapOnlyEnds(Step(s, es[0], env), es[1..], env); }
  }

  lemma {:induction false} RunKeepsReadable(s: State, es: seq<Event>, env: Env, overlap: bool)
    requires Good(s, env, overlap) && StoresBoth(es) && (overlap ==> Execute(s, es, env).overlap)
    ensures Good(Execute(s, es, env), env, overlap)
    decreases |es|
  {
    if es != [] {
      var next := Step(s, es[0], env);
      if overlap { OverlapOnlyEnds(next, es[1..], env); }
      assert StoresBoth([es[0]]) by { assert es[0] == [es[0]][0]; }
      StepKeepsReadable(s, es[0], env, overlap);
      assert forall i :: 0 <= i < |es[1..]| ==> es[1..][i] == es[i + 1];
      RunKeepsReadable(next, es[1..], env, overlap);
    }
  }

  /**
   From a row whose tokens all decrypt, any number of migrating reads interleaved
   with deletes and with stores of both tokens leave the decrypted pair equal to
   the last stored pair, for as long as the previous secret is accepted.
   */
  lemma InterleavedReadsKeepTheTokens(s: State, es: seq<Event>, env: Env)
    requires Good(s, env, true) && StoresBoth(es)
    ensures var r := Execute(s, es, env);
            var last := LastStored(MeaningOf(s.row), es);
            r.overlap && r.row.Some? ==>
              last.Some? && Decrypted(r.row.value, env, true) == (last.value.access, last.value.refresh)
  {
    if Execute(s, es, env).overlap { RunKeepsReadable(s, es, env, true); }
    RowMeansLastStored(s, es, env);
  }

  /**
   A row that a migration has rewritten during the overlap decrypts to the last
   stored pair under the current secret alone, in every continuation: the end of
   the overlap takes nothing from it.
   */
  lemma MigratedRowsOutliveTheOverlap(s: State, e: Event, es: seq<Event>, env: Env)
    requires Good(s, env, true) && s.overlap && StoresBoth(es)
    requires e.Update? && e.t in s.flights && Timely(s, s.flights[e.t], e.o)
    requires WantsReencrypt(s.flights[e.t].snap, env, e.o) && Unchanged(s.row, s.flights[e.t].snap)
    ensures var r := Execute(Step(s, e, env), es, env);
            var last := LastStored(MeaningOf(s.row), es);
            r.row.Some? ==> last.Some? && Decrypted(r.row.value, env, false) == (last.value.access, last.value.refresh)
  {
    var snap := s.flights[e.t].snap;
    assert Readable(snap, env, true);
    MigratedRowNeedsOnlyTheCurrentSecret(snap, env, e.o, e.nonces, e.now);
    RunKeepsReadable(Step(s, e, env), es, env, false);
    RowMeansLastStored(Step(s, e, env), es, env);
    MigrationKeepsMeaning(snap, env, e.o, e.nonces, e.now);
  }

  // -------------------------------------------------------- a read is enough

  /** The pair of the row opens under the current secret alone. */
  predicate PairSafe(row: Option<TokenRow>, env: Env) { row.Some? ==> PairReadable(row.value, env, false) }

  lemma PairVersions(row: TokenRow, snap: TokenRow, env: Env, o: Overlap)
    requires PairReadable(row, env, false) && Unchanged(Some(row), snap) && WantsReencrypt(snap, env, o)
    ensures snap.version < 2 || row.version >= 2
  {
  }

  lemma StepKeepsPair(s: State, e: Event, env: Env)
    requires PairSafe(s.row, env) && (e.Store? ==> e.access.Some? && e.refresh.Some?)
    ensures PairSafe(Step(s, e, env).row, env)
  {
    if e.Update? && e.t in s.flights {
      var snap := s.flights[e.t].snap;
      if Unchanged(s.row, snap) && WantsReencrypt(snap, env, e.o) {
        PairVersions(s.row.value, snap, env, e.o);
        TokenSurvives(snap.access, s.row.value.version, snap.version, env, false, e.nonces.0);
        TokenSurvives(snap.refresh, s.row.value.version, snap.version, env, false, e.nonces.1);
        UpdateSurvives(s.row.value, snap, env, e.o, e.nonces, e.now);
      }
    }
  }

  lemma UpdateSurvives(row: TokenRow, snap: TokenRow, env: Env, o: Overlap, nonces: (nat, nat, nat), now: nat)
    requires PairReadable(row, env, false) && Unchanged(Some(row), snap) && (snap.version < 2 || row.version >= 2)
    ensures PairReadable(Migrated(snap, env, o, nonces, now), env, false)
  {
  }

  lemma {:induction false} RunKeepsPair(s: State, es: seq<Event>, env: Env)
    requires PairSafe(s.row, env) && StoresBoth(es)
    ensures PairSafe(Execute(s, es, env).row, env)
    decreases |es|
  {
    if es != [] {
      StepKeepsPair(s, es[0], env);
      assert forall i :: 0 <= i < |es[1..]| ==> es[1..][i] == es[i + 1];
      RunKeepsPair(Step(s, es[0], env), es[1..], env);
    }
  }

  /**
   What migrating on read is for.  One read during the overlap, of a row that decrypts,
   is enough: in every continuation, with any stores of both tokens, deletes and further
   reads, the pair stored last decrypts under the current secret alone.
   */
  lemma OneReadIsEnough(s: State, t: Tid, nonces: (nat, nat, nat), now: nat, es: seq<Event>, env: Env)
    requires s.overlap && s.row.Some? && PairReadable(s.row.value, env, true) && StoresBoth(es)
    ensures var m := Step(Step(s, Select(t), env), Update(t, WHOLE, nonces, now), env);
            var r := Execute(m, es, env);
            var last := LastStored(MeaningOf(s.row), es);
            && t !in m.flights
            && (r.row.Some? ==>
                  last.Some? && Decrypted(r.row.value, env, false) == (last.value.access, last.value.refresh))
  {
    var m := Step(Step(s, Select(t), env), Update(t, WHOLE, nonces, now), env);
    ReadSecuresThePair(s.row.value, s.row.value, env, nonces, now);
    MigrationKeepsMeaning(s.row.value, env, WHOLE, nonces, now);
    RunKeepsPair(m, es, env);
    RowMeansLastStored(m, es, env);
  }

  /** The same for a read that began before other events, as long as its compare-and-swap still finds its row. */
  lemma ReadsOutliveTheOverlap(s: State, e: Event, es: seq<Event>, env: Env)
    requires Good(s, env, true) && s.overlap && StoresBoth(es)
    requires e.Update? && e.t in s.flights && Timely(s, s.flights[e.t], e.o) && Unchanged(s.row, s.flights[e.t].snap)
    ensures var r := Execute(Step(s, e, env), es, env);
            var last := LastStored(MeaningOf(s.row), es);
            r.row.Some? ==> last.Some? && Decrypted(r.row.value, env, false) == (last.value.access, last.value.refresh)
  {
    var snap := s.flights[e.t].snap;
    assert Readable(snap, env, true);
    ReadSecuresThePair(s.row.value, snap, env, e.nonces, e.now);
    MigrationKeepsMeaning(snap, env, e.o, e.nonces, e.now);
    RunKeepsPair(Step(s, e, env), es, env);
    RowMeansLastStored(Step(s, e, env), es, env);
  }
}
