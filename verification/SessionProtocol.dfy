/**
 Any number of threads sharing one desktop session store, interleaved one
 statement at a time (SOURCE/auth/desktop_session.py).

 Every `Pc` value is a thread stopped just before one read, write, lock
 operation or server call.  `Next` performs that one action; `Choice` carries
 what the thread cannot know (the network's reply, whether a stored token can be
 decrypted right now, whether a SQLite write fails, whether a wait times out).

 The refresh lock is `serial`, the store's reentrant lock is `lock`.  Deletes
 and purges take only `lock`, a refresh takes only `serial`, so they interleave.
 */
module SessionProtocol {
  import opened Common
  import opened SessionModel

  type Tid = nat

  // ---------------------------------------------------------------- shared data

  /** Why a session may end; recorded at the statement that found it out. */
  datatype Fact =
    | Asked(h: Hash)                            // a caller asked for the delete
    | Purged(h: Hash)                           // the account is being purged
    | SawExpired(h: Hash, expires: int, at: int)
    | SawVerdict(h: Hash)                       // the server said the session is over
    | SawStranger(h: Hash)                      // the refreshed tokens are another account's
    // lines 581-583: a stored refresh token stopped being readable mid-grant
    | SawUnreadable(h: Hash)
    // a token entry was gone; never recorded, it only names what a delete acted on
    | Missing(h: Hash)

  datatype GrantAnswer = GrantAnswer(h: Hash, access: Rotation, refresh: Rotation)

  datatype Shared = Shared(
    rows: map<Hash, Row>,                  // desktop_sessions
    access: map<Hash, Rotation>,           // encrypted token cache, access entries
    refresh: map<Hash, Rotation>,          // encrypted token cache, refresh entries
    server: Server,
    shutdown: bool,                        // _shutdown_started
    now: int,
    nextHash: Hash, nextRotation: Rotation, nextFamily: Family,
    // history, read by no thread
    owner: map<Hash, Family>,              // the token family a session was created for
    gone: set<Hash>,                       // hashes that once had a row and lost it
    renamed: set<Hash>,                    // those of them that a reattach renamed
    facts: set<Fact>,
    strangers: set<Family>,                // families whose last answer carried another account's tokens
    stored: map<Family, int>,              // access expiry written by the family's last refresh
    posts: nat,                            // refresh POSTs sent
    grants: set<GrantAnswer>,
    causes: map<Hash, Fact>,               // what the remover of each row acted on
    booted: int,                           // when this process was launched
    bare: set<Hash>,                       // sessions found at launch without one of their token entries
    quiesced: bool)                        // begin_desktop_session_shutdown has returned True

  // -------------------------------------------------------------------- threads

  datatype Pc =
    | Idle
    // validate_session_token / active_access_token
    | VRow(h: Hash)
    | VExpiry(h: Hash, row: Row)
    | VAccess(h: Hash, row: Row, at: int)
    | VRefresh(h: Hash, row: Row, at: int, had: bool)
    | VPresent(h: Hash)
    | Touch(h: Hash)
    | CWait(h: Hash)
    // _refresh_session_row_assume_locked; g is true inside a refresh grant
    | CRow(h: Hash, g: bool)
    | CAccess(h: Hash, g: bool, row: Row)
    | CRefresh(h: Hash, g: bool, row: Row, got: Option<Rotation>)
    | CPresent(h: Hash)
    | CSkew(h: Hash, g: bool, row: Row, a: Rotation, t: Rotation)
    | CShutdown(h: Hash, g: bool, row: Row, t: Rotation)
    | CPost(h: Hash, g: bool, row: Row, t: Rotation)
    | CAnswered(h: Hash, g: bool, row: Row, next: Rotation, user: User, exp: int)
    | CStoreAccess(h: Hash, g: bool, row: Row, next: Rotation, exp: int)
    | CStoreRefresh(h: Hash, g: bool, row: Row, next: Rotation, exp: int)
    | CUpdate(h: Hash, g: bool, row: Row, next: Rotation, exp: int)
    | CRelease(touch: Option<Hash>)
    // _gotrue_refresh_grant_locked_sync
    | GWait(cookie: Option<Hash>, presented: Option<Rotation>)
    | GResolve(cookie: Option<Hash>, presented: Option<Rotation>)
    | GRow(h: Hash)
    | GRead(h: Hash, a: Rotation)
    | GAnswer(h: Hash, a: Rotation, t: Rotation)
    // delete_session_hash; sec is true inside the refresh lock
    | DCheck(h: Hash, sec: bool, why: Fact)
    | DWait(h: Hash, sec: bool, why: Fact)
    | DRow(h: Hash, sec: bool, why: Fact)
    | DAccess(h: Hash, sec: bool, why: Fact)
    | DRefresh(h: Hash, sec: bool, why: Fact)
    | DRemove(h: Hash, sec: bool, why: Fact)
    // purge_user
    | PWait(u: User)
    | PList(u: User)
    | PAccess(u: User, todo: set<Hash>)
    | PRefresh(u: User, todo: set<Hash>, h: Hash)
    | PRemove(u: User)
    // create_session
    | KWait(u: User, exp: int)
    | KStoreAccess(h: Hash, u: User, r: Rotation, exp: int)
    | KStoreRefresh(h: Hash, u: User, r: Rotation, exp: int)
    | KInsert(h: Hash, u: User, r: Rotation, exp: int)
    | KUndo(h: Hash)
    // reattach_active_session
    | RWaitSerial
    | RWaitLock
    | RScan
    | RStoreAccess(h: Hash, h2: Hash, a: Rotation, t: Rotation)
    | RStoreRefresh(h: Hash, h2: Hash, a: Rotation, t: Rotation)
    | RRename(h: Hash, h2: Hash, t: Rotation)
    | RUndo(h2: Hash)
    | RDropAccess(h: Hash)
    | RDropRefresh(h: Hash)
    | RUnlock
    // begin_desktop_session_shutdown
    | SFlag
    | SWait
    | SHeld

  datatype Choice = Choice(op: Pc, ok: bool, reply: Reply, pick: Option<Hash>)

  datatype LockOp = Keep | Take | Free
  datatype Out = Out(sh: Shared, pc: Pc, serial: LockOp, lock: LockOp)

  predicate HoldsSerial(pc: Pc) {
    match pc
    case CRow(_, _) | CAccess(_, _, _) | CRefresh(_, _, _, _) | CPresent(_) | CSkew(_, _, _, _, _)
       | CShutdown(_, _, _, _) | CPost(_, _, _, _) | CAnswered(_, _, _, _, _, _) | CStoreAccess(_, _, _, _, _)
       | CStoreRefresh(_, _, _, _, _) | CUpdate(_, _, _, _, _) | CRelease(_) => true
    case GResolve(_, _) | GRow(_) | GRead(_, _) | GAnswer(_, _, _) => true
    case DCheck(_, sec, _) => sec
    case DWait(_, sec, _) => sec
    case DRow(_, sec, _) => sec
    case DAccess(_, sec, _) => sec
    case DRefresh(_, sec, _) => sec
    case DRemove(_, sec, _) => sec
    case RWaitLock | RScan | RStoreAccess(_, _, _, _) | RStoreRefresh(_, _, _, _) | RRename(_, _, _)
       | RUndo(_) | RDropAccess(_) | RDropRefresh(_) | RUnlock => true
    case SHeld => true
    case _ => false
  }

  predicate HoldsLock(pc: Pc) {
    match pc
    case DRow(_, _, _) | DAccess(_, _, _) | DRefresh(_, _, _) | DRemove(_, _, _) => true
    case PList(_) | PAccess(_, _) | PRefresh(_, _, _) | PRemove(_) => true
    case KStoreAccess(_, _, _, _) | KStoreRefresh(_, _, _, _) | KInsert(_, _, _, _) | KUndo(_) => true
    case RScan | RStoreAccess(_, _, _, _) | RStoreRefresh(_, _, _, _) | RRename(_, _, _)
       | RUndo(_) | RDropAccess(_) | RDropRefresh(_) | RUnlock => true
    case _ => false
  }

  // ---------------------------------------------------------------------- steps

  function Go(sh: Shared, pc: Pc): Out { Out(sh, pc, Keep, Keep) }

  /** Where a delete returns to: out of the refresh lock when it was called inside it. */
  function Done(sec: bool): Pc { if sec then CRelease(None) else Idle }

  function Without<T>(m: map<Hash, T>, h: Hash): (r: map<Hash, T>)
    ensures r.Keys == m.Keys - {h}
    ensures forall x | x in r :: r[x] == m[x]
  {
    m - {h}
  }

  function Learn(sh: Shared, f: Fact): Shared { sh.(facts := sh.facts + {f}) }

  /** Deleting a session for a recorded reason. */
  function Drop(sh: Shared, why: Fact, sec: bool): Out { Go(Learn(sh, why), DCheck(why.h, sec, why)) }

  predicate Starts(op: Pc) {
    op.VRow? || op.GWait? || (op.DCheck? && !op.sec && op.why == Asked(op.h)) || op.PWait? || op.KWait?
        || op.RWaitSerial? || op.SFlag?
  }

  function NextIdle(sh: Shared, c: Choice): (out: Out)
    ensures out.sh.now == sh.now
  {
    if !Starts(c.op) then Go(sh, Idle)
    else if c.op.DCheck? then Go(Learn(sh, c.op.why), c.op)
    else Go(sh, c.op)
  }

  /** `validate_session_token`, lines 382-444. */
  function NextValidate(sh: Shared, pc: Pc, c: Choice): (out: Out)
    requires pc.VRow? || pc.VExpiry? || pc.VAccess? || pc.VRefresh? || pc.VPresent? || pc.Touch? || pc.CWait?
    ensures out.sh.now == sh.now
  {
    match pc
    case VRow(h) => if h in sh.rows then Go(sh, VExpiry(h, sh.rows[h])) else Go(sh, Idle)
    case VExpiry(h, row) =>
      if row.expires <= sh.now then Drop(sh, SawExpired(h, row.expires, sh.now), false)
      else Go(sh, VAccess(h, row, sh.now))
    case VAccess(h, row, at) => Go(sh, VRefresh(h, row, at, h in sh.access && c.ok))
    case VRefresh(h, row, at, had) =>
      if !had || h !in sh.refresh || !c.ok then Go(sh, VPresent(h))
      else if row.accessExpires <= at + ACCESS_REFRESH_SKEW then Go(sh, CWait(h))
      else Go(sh, Touch(h))
    case VPresent(h) =>
      if h in sh.access && h in sh.refresh then Go(sh, Idle) else Go(sh, DCheck(h, false, Missing(h)))
    case Touch(h) => Go(Touched(sh, h), Idle)
    case CWait(h) => Out(sh, CRow(h, false), Take, Keep)
  }

  function Touched(sh: Shared, h: Hash): Shared {
    if h in sh.rows then sh.(rows := sh.rows[h := sh.rows[h].(lastUsed := sh.now)]) else sh
  }

  /** `_refresh_session_row_assume_locked` and `_apply_refreshed_tokens`, up to the lock's release. */
  function NextSection(sh: Shared, pc: Pc, c: Choice): (out: Out)
    requires pc.CRow? || pc.CAccess? || pc.CRefresh? || pc.CPresent? || pc.CSkew? || pc.CShutdown? || pc.CPost?
             || pc.CAnswered? || pc.CStoreAccess? || pc.CStoreRefresh? || pc.CUpdate? || pc.CRelease?
    ensures out.sh.now == sh.now
  {
    match pc
    case CRow(h, g) => if h in sh.rows then Go(sh, CAccess(h, g, sh.rows[h])) else Go(sh, CRelease(None))
    case CAccess(h, g, row) =>
      Go(sh, CRefresh(h, g, row, if h in sh.access && c.ok then Some(sh.access[h]) else None))
    case CRefresh(h, g, row, got) =>
      if got.None? || h !in sh.refresh || !c.ok then Go(sh, CPresent(h))
      else Go(sh, CSkew(h, g, row, got.value, sh.refresh[h]))
    case CPresent(h) =>
      if h in sh.access && h in sh.refresh then Go(sh, CRelease(None)) else Go(sh, DCheck(h, true, Missing(h)))
    case CSkew(h, g, row, a, t) =>
      if row.accessExpires > sh.now + ACCESS_REFRESH_SKEW then Go(sh, if g then GRead(h, a) else CRelease(Some(h)))
      else Go(sh, CShutdown(h, g, row, t))
    case CShutdown(h, g, row, t) =>
      if sh.shutdown then Go(sh, CRelease(if !g && c.ok then Some(h) else None)) else Go(sh, CPost(h, g, row, t))
    case CPost(h, g, row, t) =>
      var (sv, answer) := Post(sh.server, t, c.reply, sh.nextRotation);
      var sh1 := sh.(server := sv, posts := sh.posts + 1, nextRotation := sh.nextRotation + 1);
      (match answer
       case Rotated(next, user, exp) => Go(sh1, CAnswered(h, g, row, next, user, exp))
       case Verdict => Drop(sh1, SawVerdict(h), true)
       case NoVerdict => Go(sh1, CRelease(if !g && c.ok then Some(h) else None)))
    case CAnswered(h, g, row, next, user, exp) =>
      if user != row.user then
        var sh1 := if h in sh.owner then sh.(strangers := sh.strangers + {sh.owner[h]}) else sh;
        Drop(sh1, SawStranger(h), true)
      else Go(sh, CStoreAccess(h, g, row, next, exp))
    case CStoreAccess(h, g, row, next, exp) =>
      Go(sh.(access := sh.access[h := next]), CStoreRefresh(h, g, row, next, exp))
    case CStoreRefresh(h, g, row, next, exp) =>
      Go(sh.(refresh := sh.refresh[h := next]), CUpdate(h, g, row, next, exp))
    case CUpdate(h, g, row, next, exp) =>
      // sqlite3.Error: the pair is stored, the row is not updated
      if !c.ok then Go(sh, CRelease(if !g && c.pick.Some? then Some(h) else None))
      else Go(Updated(sh, h, row.user, exp), if g then GRead(h, next) else CRelease(Some(h)))
    case CRelease(touch) =>
      Out(sh, if touch.Some? then Touch(touch.value) else Idle, Free, Keep)
  }

  /** The UPDATE of lines 868-886; it changes no row when the row is gone. */
  function Updated(sh: Shared, h: Hash, user: User, exp: int): Shared {
    if h in sh.rows && sh.rows[h].user == user then
      var row := sh.rows[h].(accessExpires := exp, lastUsed := sh.now, expires := sh.now + LOCAL_SESSION_TTL);
      sh.(rows := sh.rows[h := row], stored := if h in sh.owner then sh.stored[sh.owner[h] := exp] else sh.stored)
    else sh
  }

  /** `_gotrue_refresh_grant_locked_sync` around the section. */
  function NextGrant(sh: Shared, pc: Pc, c: Choice): (out: Out)
    requires pc.GWait? || pc.GResolve? || pc.GRow? || pc.GRead? || pc.GAnswer?
    ensures out.sh.now == sh.now
  {
    match pc
    case GWait(cookie, presented) => Out(sh, GResolve(cookie, presented), Take, Keep)
    case GResolve(cookie, presented) =>
      if cookie.Some? && cookie.value in sh.rows then Go(sh, GRow(cookie.value))
      else if presented.Some? && c.pick.Some? && c.pick.value in sh.rows && c.pick.value in sh.refresh
              && sh.refresh[c.pick.value] == presented.value then Go(sh, GRow(c.pick.value))
      else Go(sh, CRelease(None))
    case GRow(h) =>
      if h !in sh.rows then Go(sh, CRelease(None))
      else if sh.rows[h].expires <= sh.now then
        Drop(sh, SawExpired(h, sh.rows[h].expires, sh.now), true)
      else Go(sh, CRow(h, true))
    case GRead(h, a) =>
      if h !in sh.refresh then Go(sh, DCheck(h, true, Missing(h)))
      else if !c.ok then Drop(sh, SawUnreadable(h), true)
      else Go(sh, GAnswer(h, a, sh.refresh[h]))
    case GAnswer(h, a, t) =>
      Go(Touched(sh, h).(grants := sh.grants + {GrantAnswer(h, a, t)}), CRelease(None))
  }

  /** Rows taken away for good, and the facts their remover acted on. */
  function Removed(sh: Shared, mine: set<Hash>, why: map<Hash, Fact>): Shared {
    sh.(rows := sh.rows - mine, gone := sh.gone + mine, causes := sh.causes + why)
  }

  /** `delete_session_hash`, lines 665-686. */
  function NextDelete(sh: Shared, pc: Pc, c: Choice): (out: Out)
    requires pc.DCheck? || pc.DWait? || pc.DRow? || pc.DAccess? || pc.DRefresh? || pc.DRemove?
    ensures out.sh.now == sh.now
  {
    match pc
    case DCheck(h, sec, why) => if sh.shutdown then Go(sh, Done(sec)) else Go(sh, DWait(h, sec, why))
    case DWait(h, sec, why) => Out(sh, DRow(h, sec, why), Keep, Take)
    case DRow(h, sec, why) => Go(sh, if h in sh.rows then DAccess(h, sec, why) else DRemove(h, sec, why))
    case DAccess(h, sec, why) => Go(sh.(access := Without(sh.access, h)), DRefresh(h, sec, why))
    case DRefresh(h, sec, why) => Go(sh.(refresh := Without(sh.refresh, h)), DRemove(h, sec, why))
    case DRemove(h, sec, why) =>
      var sh1 := if c.ok && h in sh.rows then Removed(sh, {h}, map[h := why]) else sh;
      Out(sh1, Done(sec), Keep, Free)
  }

  /** `purge_user`, lines 688-707. */
  function NextPurge(sh: Shared, pc: Pc, c: Choice): (out: Out)
    requires pc.PWait? || pc.PList? || pc.PAccess? || pc.PRefresh? || pc.PRemove?
    ensures out.sh.now == sh.now
  {
    match pc
    case PWait(u) => Out(sh, PList(u), Keep, Take)
    case PList(u) =>
      var mine := set h | h in sh.rows && sh.rows[h].user == u;
      Go(sh.(facts := sh.facts + set h | h in mine :: Purged(h)), PAccess(u, mine))
    case PAccess(u, todo) =>
      if todo == {} then Go(sh, PRemove(u))
      else if c.pick.Some? && c.pick.value in todo then
        Go(sh.(access := Without(sh.access, c.pick.value)), PRefresh(u, todo - {c.pick.value}, c.pick.value))
      else Go(sh, pc)
    case PRefresh(u, todo, h) => Go(sh.(refresh := Without(sh.refresh, h)), PAccess(u, todo))
    case PRemove(u) =>
      var mine := set h | h in sh.rows && sh.rows[h].user == u;
      var sh1 := if c.ok then Removed(sh, mine, map h | h in mine :: Purged(h)) else sh;
      Out(sh1, Idle, Keep, Free)
  }

  /** A fresh hash, for a family whose first token is fresh. */
  function Founded(sh: Shared): Shared {
    var sv := sh.server.(
      familyOf := sh.server.familyOf[sh.nextRotation := sh.nextFamily],
      current := sh.server.current[sh.nextFamily := sh.nextRotation]);
    sh.(server := sv, owner := sh.owner[sh.nextHash := sh.nextFamily],
        nextHash := sh.nextHash + 1, nextRotation := sh.nextRotation + 1, nextFamily := sh.nextFamily + 1)
  }

  /** `create_session`, lines 209-263: a fresh hash for a fresh token family. */
  function NextCreate(sh: Shared, pc: Pc, c: Choice): (out: Out)
    requires pc.KWait? || pc.KStoreAccess? || pc.KStoreRefresh? || pc.KInsert? || pc.KUndo?
    ensures out.sh.now == sh.now
  {
    match pc
    case KWait(u, exp) =>
      Out(Founded(sh), KStoreAccess(sh.nextHash, u, sh.nextRotation, exp), Keep, Take)
    case KStoreAccess(h, u, r, exp) => Go(sh.(access := sh.access[h := r]), KStoreRefresh(h, u, r, exp))
    case KStoreRefresh(h, u, r, exp) => Go(sh.(refresh := sh.refresh[h := r]), KInsert(h, u, r, exp))
    case KInsert(h, u, r, exp) =>
      if c.ok then
        var row := Row(u, sh.now, sh.now, sh.now + LOCAL_SESSION_TTL, exp);
        Out(sh.(rows := sh.rows[h := row]), Idle, Keep, Free)
      else Go(sh, KUndo(h))
    case KUndo(h) =>
      Out(sh.(access := Without(sh.access, h), refresh := Without(sh.refresh, h)), Idle, Keep, Free)
  }

  /** A fresh hash that is to be another name of session `h`. */
  function Named(sh: Shared, h: Hash): Shared
    requires h in sh.owner
  {
    sh.(owner := sh.owner[sh.nextHash := sh.owner[h]], nextHash := sh.nextHash + 1)
  }

  /** The UPDATE that gives a row its new hash. */
  function Renamed(sh: Shared, h: Hash, h2: Hash): Shared
    requires h in sh.rows
  {
    sh.(rows := Without(sh.rows, h)[h2 := sh.rows[h]], gone := sh.gone + {h}, renamed := sh.renamed + {h})
  }

  /** `reattach_active_session`, lines 619-662: both locks, then a rename. */
  function NextReattach(sh: Shared, pc: Pc, c: Choice): (out: Out)
    requires pc.RWaitSerial? || pc.RWaitLock? || pc.RScan? || pc.RStoreAccess? || pc.RStoreRefresh? || pc.RRename?
             || pc.RUndo? || pc.RDropAccess? || pc.RDropRefresh? || pc.RUnlock?
    ensures out.sh.now == sh.now
  {
    match pc
    case RWaitSerial => Out(sh, RWaitLock, Take, Keep)
    case RWaitLock => Out(sh, RScan, Keep, Take)
    case RScan =>
      if c.pick.Some? && c.pick.value in sh.rows && sh.rows[c.pick.value].expires > sh.now
         && c.pick.value in sh.access && c.pick.value in sh.refresh && c.pick.value in sh.owner then
        var h := c.pick.value;
        Go(Named(sh, h), RStoreAccess(h, sh.nextHash, sh.access[h], sh.refresh[h]))
      else Go(sh, RUnlock)
    case RStoreAccess(h, h2, a, t) => Go(sh.(access := sh.access[h2 := a]), RStoreRefresh(h, h2, a, t))
    case RStoreRefresh(h, h2, a, t) => Go(sh.(refresh := sh.refresh[h2 := t]), RRename(h, h2, t))
    case RRename(h, h2, t) =>
      if c.ok && h in sh.rows then
        Go(Renamed(sh, h, h2), RDropAccess(h))
      else Go(sh, RUndo(h2))
    case RUndo(h2) => Go(sh.(access := Without(sh.access, h2), refresh := Without(sh.refresh, h2)), RUnlock)
    case RDropAccess(h) => Go(sh.(access := Without(sh.access, h)), RDropRefresh(h))
    case RDropRefresh(h) => Go(sh.(refresh := Without(sh.refresh, h)), RUnlock)
    case RUnlock => Out(sh, Idle, Free, Free)
  }

  /** `begin_desktop_session_shutdown`, lines 982-999. */
  function NextShutdown(sh: Shared, pc: Pc, c: Choice): (out: Out)
    requires pc.SFlag? || pc.SWait? || pc.SHeld?
    ensures out.sh.now == sh.now
  {
    match pc
    case SFlag => Go(sh.(shutdown := true), SWait)
    case SWait => if c.ok then Out(sh, SHeld, Take, Keep) else Go(sh, Idle)
    case SHeld => Out(sh.(quiesced := true), Idle, Free, Keep)
  }

  datatype Part = Start | Validate | Section | Grant | Delete | Purge | Create | Reattach | Shutdown

  function PartOf(pc: Pc): Part {
    match pc
    case Idle => Start
    case VRow(_) | VExpiry(_, _) | VAccess(_, _, _) | VRefresh(_, _, _, _) | VPresent(_) | Touch(_) | CWait(_) =>
      Validate
    case CRow(_, _) | CAccess(_, _, _) | CRefresh(_, _, _, _) | CPresent(_) | CSkew(_, _, _, _, _)
       | CShutdown(_, _, _, _) | CPost(_, _, _, _) | CAnswered(_, _, _, _, _, _) | CStoreAccess(_, _, _, _, _)
       | CStoreRefresh(_, _, _, _, _) | CUpdate(_, _, _, _, _) | CRelease(_) => Section
    case GWait(_, _) | GResolve(_, _) | GRow(_) | GRead(_, _) | GAnswer(_, _, _) => Grant
    case DCheck(_, _, _) | DWait(_, _, _) | DRow(_, _, _) | DAccess(_, _, _) | DRefresh(_, _, _) | DRemove(_, _, _) =>
      Delete
    case PWait(_) | PList(_) | PAccess(_, _) | PRefresh(_, _, _) | PRemove(_) => Purge
    case KWait(_, _) | KStoreAccess(_, _, _, _) | KStoreRefresh(_, _, _, _) | KInsert(_, _, _, _) | KUndo(_) => Create
    case RWaitSerial | RWaitLock | RScan | RStoreAccess(_, _, _, _) | RStoreRefresh(_, _, _, _) | RRename(_, _, _)
       | RUndo(_) | RDropAccess(_) | RDropRefresh(_) | RUnlock => Reattach
    case SFlag | SWait | SHeld => Shutdown
  }

  /** One action of one thread; only the `Tick` event moves the clock. */
  function Next(sh: Shared, pc: Pc, c: Choice): (out: Out)
    ensures out.sh.now == sh.now
  {
    match PartOf(pc)
    case Start => NextIdle(sh, c)
    case Validate => NextValidate(sh, pc, c)
    case Section => NextSection(sh, pc, c)
    case Grant => NextGrant(sh, pc, c)
    case Delete => NextDelete(sh, pc, c)
    case Purge => NextPurge(sh, pc, c)
    case Create => NextCreate(sh, pc, c)
    case Reattach => NextReattach(sh, pc, c)
    case Shutdown => NextShutdown(sh, pc, c)
  }

  // ------------------------------------------------------------------------ runs

  datatype State = State(sh: Shared, pcs: map<Tid, Pc>, serial: Option<Tid>, lock: Option<Tid>)

  /** One thread's next action, the clock, or the server closing a session of its own accord. */
  datatype Event = Run(t: Tid, c: Choice) | Tick(to: int) | EndFamily(f: Family)

  function Holder(held: Option<Tid>, op: LockOp, t: Tid): Option<Tid> {
    match op case Keep => held case Take => Some(t) case Free => None
  }

  /** An event that is not enabled (a thread waiting for a held lock) changes nothing. */
  function Step(s: State, e: Event): State {
    match e
    case Tick(to) => if to >= s.sh.now then s.(sh := s.sh.(now := to)) else s
    case EndFamily(f) => s.(sh := s.sh.(server := s.sh.server.(ended := s.sh.server.ended + {f})))
    case Run(t, c) =>
      if t !in s.pcs then s
      else
        var out := Next(s.sh, s.pcs[t], c);
        if (out.serial.Take? && s.serial.Some?) || (out.lock.Take? && s.lock.Some?) then s
        else State(out.sh, s.pcs[t := out.pc], Holder(s.serial, out.serial, t), Holder(s.lock, out.lock, t))
  }

  function Execute(s: State, es: seq<Event>): State
    decreases |es|
  {
    if es == [] then s else Execute(Step(s, es[0]), es[1..])
  }
}
