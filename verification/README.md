# Viola: sessions, audio lifetimes, token storage and entitlements

A Dafny model of six cores of the Viola desktop application, with proofs of what
they promise. Each core is modelled with the same branches and constants as the
code; where threads interleave, the model is a step relation in which one step is
one read, write, lock operation or outside call, and the theorems hold over every
run of any number of threads. Next to each step relation stands a class with the
source's own fields and methods.

* **Rotating refresh tokens** (`Session*.dfy`). Many threads share one GoTrue
  session whose refresh token is rotated on every use; presenting a spent token
  revokes the family (section 6 and section 10.4 of RFC 6749, section 4.14.2 of
  RFC 9700). `SessionModel` has the server, `SessionProtocol` the threads,
  `SessionInvariant`, `SessionEffects`, `SessionSteps`, `SessionStable` and
  `SessionRuns` the inductive invariant, `SessionTheorems`, `SessionFacts`,
  `SessionEndings`, `SessionShutdown`, `SessionLeftovers` and `SessionProgress` the
  results, `SessionReach` and `SessionCorners` the runs that reach what the code
  does not promise, `SessionAlone` what each call does undisturbed, `SessionStore`
  the class.
* **PortAudio lifetimes** (`StreamProtocol`, `StreamSafety`, `StreamTheorems`,
  `StreamOverlap`, `StreamAlone`, `GuardedStream`) and the **device change** (`PlaybackGate`,
  `DeviceChange`, and both together in `DeviceSwitch`).
* **Own-playback ring** (`OwnPlayback`), **echo reference queues**
  (`AecReference`) and the **loopback verdict** (`LoopbackVerdict`).
* **Nested transactions** (`AuthTransactions`) and **migrate-on-read token
  storage** (`TokenMigration`).
* **Gift months** (`GiftWindows`), **entitlement through time**
  (`EntitlementProjection`) and the **audit sampler** (`AuditSampler`).

## Assumptions

* A process may start on any rows, also on rows without token entries. Of a row with
  both entries that has not expired, the stored refresh token is the server's current
  one, both entries are of one rotation, and no two rows share a token family.
* Each creation of a desktop session receives a fresh token family and a fresh
  session hash. An answer that rotated the token is not lost on the way back and
  carries a usable token payload; a lost reply is one the server never acted on.
  Writes of the local token cache succeed.
* Raw PortAudio calls do not re-enter on one thread. Callers keep opens and
  terminates of one instance apart, both ways round: no open starts while the
  instance is being terminated, and no terminate starts while an open on it is
  unfinished (the open and its registration are separate steps).
  `StreamOverlap` shows what either overlap leads to.
* A suspend that returns has closed its owner's stream.
* A ciphertext opens under the key that made it and no other, and different
  secrets, key versions and salts give different keys.
* The SQLite driver opens a transaction before a write, also before one that
  fails, and refuses `BEGIN` while one is open.

## Where the code does less than it says

Each of these is a lemma, and those about interleavings are reached by a run: for
sessions from every start on which the server has not ended the next session in
advance, for streams, gate and device change from an initial state.

* A missing token entry ends a session, also one that was missing when Viola was
  launched and that nothing else speaks for (`BareSessionEnds`), although the
  sources know of a cut-off cache file that took other sessions' tokens with it
  (SOURCE/auth/desktop_session.py:763-764).
* Two more deletes act on less than they know. In a refresh grant the session is
  deleted when its refresh token cannot be read at that moment, without the check
  that the entry is really missing which the shared refresh makes
  (`UnreadableTokenEndsASession`). And validation deletes an expired row it read
  earlier even if a refresh has renewed it since (`RenewedRowIsDropped`,
  `RenewedRowIsReached`). A session in good standing is lost in just these three
  ways (`GoodSessionsEndInThreeWays`), and a delete for expiry removes one that has
  not expired only after a look without the refresh lock
  (`OnlyUnlockedLooksGoStale`).
* A refresh grant whose answer was another account's deletes the session and then
  reports "try later, session kept" (`Granted` in `SessionStore`).
* A deleted session can leave a token pair behind, and a live one
  (`EntriesStayGoneExactlyWhen`, `LeftoverIsReached`).
* The shutdown docstring promises that no session is deleted after the flag. That
  holds for deletes that have not passed their check (`LateDeletesAreSkipped`); a
  purge has no check (`PurgeIgnoresTheFlag`, `PurgedWhileQuitting`).
* A True answer of the shutdown handshake means that nothing is in flight, not that
  every rotated token is stored: when the refreshed tokens belong to another account
  while quitting, the delete is skipped and a spent token stays behind
  (`StrangerSurvivesShutdown`, `TrueAnswerCanBeUnsafe`). The exact condition is
  `SafeToQuitExactlyWhen`.
* Opening a stream and terminating its instance are not protected against each
  other (`OverlapIsUseAfterFree`, `OpenThenTerminate`, `TerminateThenOpen`).
* The gate's exclusion needs more than a drained writer when writers overlap
  (`DrainedSpanIsExclusive`, `AnotherWriterLeavingBreaksIt`,
  `OverlappingWritersReachIt`).
* A device change is safe under an exact condition that the code does not enforce
  (`RefreshOverlapsNothingExactlyWhen`): owners may open a stream between the
  snapshot and the teardown, a suspend may raise, and the gate gives up on a
  playback after its timeout (`TimeoutCutsPlaybacks`, `RouterWaitsForAPlayback`,
  `LateOwnerIsCut`).
* A transaction block is all-or-nothing for every failure exactly when no write
  follows a direct commit and no await stands where a transaction may be open
  (`AtomicWhateverFailsExactlyWhen`); `DirectCommitSplitsABlock` and
  `CancelledWritesLinger` show the two failures. Depth restoration relies on
  blocks that nest (`DepthCountsExactlyWhen`, `OverlapStrandsTheDepth`); the
  coroutine bridge that could overlap them (`_db_transaction`,
  SOURCE/auth/routes.py:122-132) has no caller in this tree.
* Storing an access token alone on a row of an older key version loses its refresh
  token (`AccessOnlyStoreLosesALegacyRefreshToken`).
* A replayed frame has the length of the last served one, whatever was asked
  (`GetReferenceFrame`).
* The sampler's threshold is the maximum itself, not one less
  (`OneKeyTooManyForgetsTheHour`, `NothingForgottenExactlyWhen`), and its keys can
  collide through a colon (`KeysCollideExactlyWhen`).

## Model

| member | source | states |
|---|---|---|
| SessionTheorems.NoReplay | SOURCE/auth/desktop_session.py:446-509 | In every interleaving of any number of validators, refresh grants, reattaches, deletes, purges, creations and shutdowns, no refresh token the server has rotated away is ever presented: each thread about to POST holds the token the server still accepts, and no family is revoked for reuse |
| SessionTheorems.StoredTokenIsCurrent | SOURCE/auth/desktop_session.py:837-900 | In every run the stored refresh token of a session with a token pair that had not expired at launch is the one the server accepts, unless a thread is between the answer and its last write of exactly that session, or its last answer carried another account's tokens and it is being dropped for that or Viola is quitting |
| SessionTheorems.SingleFlight | SOURCE/auth/desktop_session.py:446-509 | At most one thread at a time is between its shutdown check and the last write of a rotated pair, and a POST is sent only for a row whose access expiry is within the skew |
| SessionTheorems.OnlyNearExpiry | SOURCE/auth/desktop_session.py:494-497 | No single step of any thread changes a family's current token or stored expiry while that expiry is beyond the skew |
| SessionTheorems.WaitersReuse | SOURCE/auth/desktop_session.py:494-497 | Over any run in which a family's stored expiry stays beyond the skew, token and expiry are the same at the end and no thread is about to present a token of the family |
| SessionTheorems.NoSecondPost | SOURCE/auth/desktop_session.py:446-509 | Whoever waited for that refresh reuses it: at no point of the run is a second POST for the family about to be sent, answered or lost |
| SessionTheorems.ExecuteInv | SOURCE/auth/desktop_session.py:382-686 | Every run of every set of threads keeps the invariant: bounds, liveness of stored tokens, pairing, one row per family, causes recorded for every ended session, and what each thread knows at its program point |
| SessionTheorems.EmptyStoreBoots | SOURCE/auth/desktop_session.py:177-197 | An empty store with idle threads is a legitimate start of every such run |
| SessionRuns.LocksOk | SOURCE/auth/desktop_session.py:446-475 | The refresh lock and the store lock are taken only by threads without them and freed only by their holder |
| SessionModel.OnlyGoTrueSignsOut | SOURCE/auth/desktop_session.py:1115-1182 | An HTTP answer signs the user out if and only if it is a 400, 401 or 403 in GoTrue's own words, and carries tokens if and only if it is an object below 400; transport errors, 5xx, rate limits, gateway pages and unreadable answers keep the session |
| SessionEndings.GrantAnswersAreCurrent | SOURCE/auth/desktop_session.py:562-586 | Every answered refresh grant carries an access and a refresh token of one rotation; when it answers, that rotation is the stored one, and the one the server accepts unless the session is being deleted meanwhile, or Viola is quitting and the family's last answer was another account's |
| SessionEndings.SessionsEndOnlyByVerdict | SOURCE/auth/desktop_session.py:382-509 | Over all runs a session with a row keeps it, is renamed by a reattach, or was removed by a statement acting on something about it that an event of this very run found out: a caller asked for the delete, its account was purged, the clock had passed its expiry, the server had ended its family, another account's tokens came, or a grant failed to read a token; or one of its token entries was missing, which then was so at launch already or came after such an event |
| SessionFacts.FactsAreFound | SOURCE/auth/desktop_session.py:382-583 | Over all runs each of these facts is recorded if and only if an event of just its kind happened: a caller's delete, a purge listing the account's row, a look at a row whose time was up, a POST the server refused, an answer for another account, a grant's failing read of an entry that was there |
| SessionEndings.GoodSessionsEndInThreeWays | SOURCE/auth/desktop_session.py:382-509 | A session that has not expired, that the server honours, that is this account's and that nobody asked to end is removed in three ways only: a token entry was missing at launch, a grant failed to read one that was there, or a look had found it expired before it was renewed |
| SessionEndings.OnlyUnlockedLooksGoStale | SOURCE/auth/desktop_session.py:382-398 | A delete for expiry inside the refresh lock never removes a session that has not expired; only validation's look without that lock can, and then the session has been renewed since |
| SessionEndings.GoneForGood | SOURCE/auth/desktop_session.py:619-686 | A row that is gone never comes back under its hash |
| SessionEndings.RenameKeepsTheSession | SOURCE/auth/desktop_session.py:619-663 | A reattach moves the row to its new hash with its account, and the new hash holds the same token pair |
| SessionShutdown.WhoRemovesRows | SOURCE/auth/desktop_session.py:665-713 | Only three statements take a row away: a delete's, recording the very fact it carries, a purge's, for a row of its own account, and a reattach's rename |
| SessionShutdown.NoPostAfterShutdown | SOURCE/auth/desktop_session.py:982-999 | Once the shutdown handshake has returned True, no refresh POST is sent in any continuation and no rotation is unwritten |
| SessionShutdown.LateDeletesAreSkipped | SOURCE/auth/desktop_session.py:665-669 | After the flag is set no delete gets past its check that had not passed it before |
| SessionShutdown.SafeToQuit | SOURCE/auth/desktop_session.py:982-999 | If no unexpired session holds a token pair the server has rotated away when the handshake answers True, the process may die at any statement of any thread, and the next launch is a legitimate start on which no interleaving replays a token |
| SessionCorners.SafeToQuitExactlyWhen | SOURCE/auth/desktop_session.py:982-999 | That condition at the True answer is exact: every way to die after it and every interleaving of the next launch is free of replays if and only if it holds |
| SessionShutdown.RestartBootsExactlyWhen | SOURCE/auth/desktop_session.py:177-197 | Whenever no refresh is under way, what a killed process leaves is a legitimate start if and only if no unexpired session holds a spent token pair |
| SessionCorners.ReplayableIsReplayed | SOURCE/auth/desktop_session.py:562-586 | Where one does, a single refresh grant of the next launch presents the spent token and the family is revoked |
| SessionCorners.UnwrittenRotationIsLost | SOURCE/auth/desktop_session.py:837-900 | Why the handshake waits: dying between the answer and the write of the refresh token leaves a session some next launch replays |
| SessionCorners.StrangerSurvivesShutdown | SOURCE/auth/desktop_session.py:499-509 | The exception to the handshake, from any state in which a thread has been given another account's tokens: the flag is set, the delete is skipped, the answer is True and the row keeps a spent token |
| SessionCorners.TrueAnswerCanBeUnsafe | SOURCE/auth/desktop_session.py:982-999 | And it happens from any start: a run with a True answer after which the next launch replays a token |
| SessionCorners.BareSessionEnds | SOURCE/auth/desktop_session.py:394-406 | From any start, the first validation of a session one of whose token entries was missing at launch deletes it, although it has not expired and nothing was found out about it |
| SessionCorners.RenewedRowIsDropped | SOURCE/auth/desktop_session.py:382-398 | Validation decides on the row it read without a lock: a row renewed after that read is deleted all the same |
| SessionCorners.RenewedRowIsReached | SOURCE/auth/desktop_session.py:382-398 | And it happens from any start, with a validator and a refresh grant: a session that has not expired is deleted as expired |
| SessionCorners.UnreadableTokenEndsASession | SOURCE/auth/desktop_session.py:580-583 | From any start a refresh grant deletes a session that has not expired, whose entries are there and whose token the server accepts, because the token could not be read at one moment |
| SessionCorners.PurgeIgnoresTheFlag | SOURCE/auth/desktop_session.py:688-713 | A purge removes exactly its account's rows whether or not Viola is quitting |
| SessionCorners.PurgedWhileQuitting | SOURCE/auth/desktop_session.py:688-713 | And from any start a session can be purged after the shutdown flag was set |
| SessionAlone.ValidationUses | SOURCE/auth/desktop_session.py:394-435 | Undisturbed, validation of an unexpired session with a good access token changes its last use and nothing else |
| SessionAlone.ValidationRefreshes | SOURCE/auth/desktop_session.py:408-435 | Of one near its end it leaves the new pair, which the server accepts, and a row that lasts another thirty days |
| SessionAlone.ValidationExpires | SOURCE/auth/desktop_session.py:390-393 | And of an expired one nothing |
| SessionAlone.GrantServes | SOURCE/auth/desktop_session.py:562-586 | Undisturbed, a refresh grant by cookie or by the stored token answers the stored pair while it is good |
| SessionAlone.GrantRefreshes | SOURCE/auth/desktop_session.py:562-586 | And a new one otherwise, stored, accepted by the server, with the row renewed |
| SessionAlone.GrantEndsIt | SOURCE/auth/desktop_session.py:505-508 | A session the server has ended is removed for that verdict |
| SessionAlone.GrantKeepsIt | SOURCE/auth/desktop_session.py:484-509 | A lost reply leaves row and pair as they were |
| SessionAlone.QuittingSendsNothing | SOURCE/auth/desktop_session.py:498-502 | While quitting no refresh is sent and nothing is lost |
| SessionAlone.GrantNeedsProof | SOURCE/auth/desktop_session.py:588-611 | In every state a grant goes on only for the cookie's session or for one whose stored token is presented |
| SessionAlone.ReattachRenames | SOURCE/auth/desktop_session.py:619-663 | Undisturbed, a reattach leaves the session under the new name with its row and pair, and nothing under the old one |
| SessionAlone.ReattachUndoes | SOURCE/auth/desktop_session.py:647-655 | A rename that fails leaves the session and removes the copied pair |
| SessionAlone.DeleteCleans | SOURCE/auth/desktop_session.py:665-686 | Undisturbed, a delete leaves neither row nor tokens of the session and all of the others |
| SessionAlone.CreateUndoes | SOURCE/auth/desktop_session.py:238-258 | A creation whose row cannot be written leaves no tokens behind |
| SessionStore.DesktopSessionStore.RefreshSessionRowAssumeLocked | SOURCE/auth/desktop_session.py:477-509 | Whatever fails, each outcome exactly when, from what was stored before: fresh when the pair is good or was rotated for its own account and written, failed, transient, ended or rejected otherwise; which token the server is shown; and a refreshed row lasts a whole local lifetime from now |
| SessionStore.DesktopSessionStore.ValidateSessionToken | SOURCE/auth/desktop_session.py:382-444 | Each of the nine answers if and only if the old state and what fails say so: in particular an unexpired session with a good, a refreshed or a for-now usable token is authenticated with just that token; and what is left of row and pair after each |
| SessionStore.DesktopSessionStore.ValidateReadable | SOURCE/auth/desktop_session.py:408-444 | The same for a session whose tokens have been read |
| SessionStore.DesktopSessionStore.RefreshedIsNotExpired | SOURCE/auth/desktop_session.py:866-886 | A session refreshed at t is answered neither expired nor unknown by any validation before t and its local lifetime are over |
| SessionStore.DesktopSessionStore.GotrueRefreshGrant | SOURCE/auth/desktop_session.py:511-560 | The presented token only picks the session, which no other request could pick; no other session is touched, and the answer is as `Granted` says |
| SessionStore.DesktopSessionStore.GrantFor | SOURCE/auth/desktop_session.py:562-586 | Each answer if and only if the old state and what fails say so: served with the stored pair of one rotation when it is good or was rotated and written; no session, or try-later, which has kept the session save for another account's answer; and what the session can be removed for |
| SessionStore.DesktopSessionStore.ResolveRefreshGrantSessionHash | SOURCE/auth/desktop_session.py:588-611 | The scan finds the cookie's session, else a session whose stored token is the presented one, else none |
| SessionStore.DesktopSessionStore.ResolutionIsUnique | SOURCE/auth/desktop_session.py:588-611 | A presented token names at most one session |
| SessionStore.DesktopSessionStore.ReattachActiveSession | SOURCE/auth/desktop_session.py:619-663 | The most recently used live session is renamed with its pair; on a failed write the store is exactly as before |
| SessionStore.DesktopSessionStore.RenameSession | SOURCE/auth/desktop_session.py:637-656 | The pair is copied, the row renamed and the old pair removed, or nothing has changed |
| SessionStore.DesktopSessionStore.DeleteSessionHash | SOURCE/auth/desktop_session.py:665-686 | Tokens and row of one session go, the row stays when the DELETE fails, others are untouched, and nothing happens while quitting |
| SessionStore.DesktopSessionStore.PurgeUser | SOURCE/auth/desktop_session.py:688-713 | Exactly the account's sessions lose tokens and rows |
| SessionStore.DesktopSessionStore.CreateSession | SOURCE/auth/desktop_session.py:205-258 | A new session appears with its pair, or the store is exactly as before |
| SessionStore.RotatedHealthy | SOURCE/auth/desktop_session.py:837-900 | Rotating one session's family leaves every other session's token live and its family its own |
| SessionStore.DesktopSessionStore.ApplyRefreshedTokens | SOURCE/auth/desktop_session.py:837-900 | The pair and the renewed row of this session are written and nothing else, the pair alone if the UPDATE fails, or another account's tokens end the session unless Viola is quitting |
| SessionLeftovers.EntriesStayGoneExactlyWhen | SOURCE/auth/desktop_session.py:665-713 | Once a row is gone, by delete, purge or reattach: no token entry of the session is found again in any continuation if and only if none is there and no thread is so far with a refresh of it that it can still store one |
| SessionLeftovers.LeftoverIsReached | SOURCE/auth/desktop_session.py:754-758 | And from any start one is: a session is deleted while its refresh is on the wire, and the new pair, which the server accepts, is stored under the deleted session |
| SessionProgress.EverybodyCanFinish | SOURCE/auth/desktop_session.py:446-475 | No deadlock: from every state of every run there is a continuation in which every thread finishes its call and both locks are free |
| SessionProgress.CanAct | SOURCE/auth/desktop_session.py:446-475 | Every thread inside a call that does not wait for a held lock has an action that brings the call's end nearer |
| SessionProgress.LockOrder | SOURCE/auth/desktop_session.py:619-632 | A thread that holds a lock waits only for the lock after it: the refresh lock first, then the store lock |
| StreamTheorems.NoUseAfterFree | SOURCE/audio_core/portaudio_guard.py:210-298 | In every interleaving of calls, closes with any timeouts, opens and terminations, where no open and terminate of one instance overlap: no raw call runs on a stream whose close or whose instance's terminate has been entered, and no stream is closed twice or after a terminate |
| StreamOverlap.ApartIsSafe | SOURCE/audio_core/portaudio_guard.py:300-317 | The same for callers free to do anything whose opens and terminates of one instance happen not to overlap |
| StreamOverlap.OverlapIsUseAfterFree | SOURCE/audio_core/portaudio_guard.py:300-317 | From every state in which no lock is held, whatever streams are open: an open and a terminate of one instance that are both under way, or start now, can end in a call on a freed stream |
| StreamOverlap.OpenThenTerminate | SOURCE/audio_core/portaudio_guard.py:300-317 | So wherever callers stop keeping them apart by a terminate that starts while an open is unfinished |
| StreamOverlap.TerminateThenOpen | SOURCE/audio_core/portaudio_guard.py:456-481 | Or by an open that starts while a terminate is under way |
| StreamOverlap.OverlapIsReached | SOURCE/audio_core/portaudio_guard.py:300-317 | And from the initial state |
| StreamOverlap.MetIsUseAfterFree | SOURCE/audio_core/portaudio_guard.py:300-317 | From every state in which an unregistered stream's opener meets a terminator that has finished its list |
| StreamTheorems.TerminateOverlapsNothing | SOURCE/audio_core/portaudio_guard.py:402-481 | While Pa_Terminate of an instance runs, no thread is inside or about to enter a call on any of its streams, and every one of them is closed (opens and terminates of one instance kept apart) |
| StreamTheorems.AbandonedStaysRegistered | SOURCE/audio_core/portaudio_guard.py:273-298 | A stream some thread is still inside stays in the registry, also after a close gave up on it, so the next terminator meets it again |
| StreamTheorems.AbandonedCanBeTerminated | SOURCE/audio_core/portaudio_guard.py:280-288 | Once the abandoned call has ended, closing again reports success without freeing, so termination may go on |
| StreamAlone.OpenRegisters | SOURCE/audio_core/portaudio_guard.py:300-317 | Undisturbed, an open leaves a new stream, of its instance, registered |
| StreamAlone.CallRuns | SOURCE/audio_core/portaudio_guard.py:210-217 | A call on an open stream runs with its lock held and comes back |
| StreamAlone.CallIsRefused | SOURCE/audio_core/portaudio_guard.py:210-217 | One on a closed stream is refused |
| StreamAlone.CloseFrees | SOURCE/audio_core/portaudio_guard.py:257-298 | A close frees and unregisters the stream, once; a second close changes nothing |
| StreamAlone.CloseTimesOut | SOURCE/audio_core/portaudio_guard.py:273-288 | A close that waits in vain marks the stream and neither frees nor unregisters it |
| StreamAlone.TerminateFrees | SOURCE/audio_core/portaudio_guard.py:402-481 | A terminate closes every registered stream of its instance, frees all that belong to it, and touches no other |
| StreamTheorems.LockOrder | SOURCE/audio_core/portaudio_guard.py:257-317 | A thread waits only for a lock ranked above every lock it holds: PORTAUDIO_LOCK, one stream lock, the registry lock |
| StreamTheorems.NoWaitCycle | SOURCE/audio_core/portaudio_guard.py:402-481 | The waits-for graph has no cycle, in any state |
| StreamTheorems.SomebodyCanMove | SOURCE/audio_core/portaudio_guard.py:402-481 | In every reachable state, behind each blocked thread some lock holder has an action that changes its program point |
| StreamTheorems.CanAct | SOURCE/audio_core/portaudio_guard.py:402-481 | Every thread inside a call that does not wait for a held lock has an action that takes it on |
| StreamTheorems.CannotAct | SOURCE/audio_core/portaudio_guard.py:402-481 | And one that does has none but its close's timeout |
| GuardedStream.GuardedStream.Call | SOURCE/audio_core/portaudio_guard.py:210-215 | The raw stream is used exactly when nobody has closed the guard, so never after it was freed; otherwise the caller gets the closed error and nothing is touched |
| GuardedStream.GuardedStream.Close | SOURCE/audio_core/portaudio_guard.py:257-298 | A close frees and unregisters an idle open stream once; a busy one is marked closed, kept registered and not freed; a closed one is left alone |
| GuardedStream.CloseStreamsFor | SOURCE/audio_core/portaudio_guard.py:402-406 | All registered streams are tried even when one is busy; the answer is True exactly when none was, and exactly the idle open ones are freed and unregistered |
| GuardedStream.TerminatePortaudio | SOURCE/audio_core/portaudio_guard.py:456-481 | Pa_Terminate runs exactly when no registered stream is busy and no raw close raises; what is left for it to free is what an earlier close abandoned |
| PlaybackGate.NoLostWakeup | SOURCE/audio_core/device_change.py:118-165 | In every run, with overlapping writers and timeouts, a sleeping thread's condition is false, and while anybody sleeps somebody is inside the gate or awake and about to test it |
| PlaybackGate.PlaybackGetsInExactlyWhen | SOURCE/audio_core/device_change.py:136-146 | A playback that tries gets in if and only if no writer is inside or waiting, and sleeps otherwise |
| PlaybackGate.RefreshGetsInExactlyWhen | SOURCE/audio_core/device_change.py:150-165 | A refresh that tries gets in if and only if nobody is inside or its time is up, and knows which |
| PlaybackGate.DrainedSpanIsExclusive | SOURCE/audio_core/device_change.py:150-165 | A writer that went in drained runs with zero readers for as long as no other writer leaves, whatever else happens |
| PlaybackGate.AnotherWriterLeavingBreaksIt | SOURCE/audio_core/device_change.py:150-165 | When another writer leaves inside that span, the next reader walks in beside the drained writer if and only if no third writer waits |
| PlaybackGate.OverlappingWritersReachIt | SOURCE/audio_core/device_change.py:150-165 | And two writers, one reader and one timeout reach it |
| PlaybackGate.GateExclusion | SOURCE/audio_core/device_change.py:118-165 | With one writer at a time, every step keeps: active means a writer is inside, and a drained writer has no readers beside it |
| PlaybackGate.DrainedWriterIsAlone | SOURCE/audio_core/device_change.py:118-165 | In every run with one writer at a time, a drained writer is alone for its whole span |
| PlaybackGate.ReadersNeverRise | SOURCE/audio_core/device_change.py:136-165 | Over the whole span from a writer's arrival to its leaving, the readers are among those inside at its arrival |
| PlaybackGate.PlaybackGate.TryEnterWriter | SOURCE/audio_core/device_change.py:150-160 | One evaluation of the writer's wait: drained means no reader and no writer, and it enters when drained or out of time |
| DeviceChange.OwnerRegistry.HandleDeviceChange | SOURCE/audio_core/device_change.py:310-363 | For every pattern of failing suspends, teardown, re-initialisation and resumes the trace is all suspends, one refresh inside one writer section, all resumes; what Pa_Terminate finds open is exactly what was not suspended or came late |
| DeviceChange.EveryOwnerResumedOnce | SOURCE/audio_core/device_change.py:355-359 | Every snapshot owner is suspended once and resumed once whatever failed, and nobody else is |
| DeviceChange.SuspendTerminateResume | SOURCE/audio_core/device_change.py:329-359 | The device table is torn down at most once, after every suspend, inside the writer section, before every resume |
| DeviceChange.TeardownIsFollowedByInitialize | SOURCE/audio_core/portaudio_guard.py:484-546 | The device table is torn down if and only if the library is there; a teardown that does not raise is followed by an initialisation, and by a second one exactly when the first failed, before the writer leaves |
| DeviceSwitch.RefreshOverlapsNothingExactlyWhen | SOURCE/audio_core/device_change.py:310-363 | In every run of the router among playbacks that come and go and owners that open, close and register, at every moment the device table is down: no playback and no owner has a stream open if and only if every owner that had one when the change began has suspended without raising or closed it, nobody has opened one since, and every playback inside at the router's arrival has ended, which a drained gate means |
| DeviceSwitch.ExecuteInv | SOURCE/audio_core/device_change.py:118-165 | Every step of router, playbacks and owners keeps: who is inside the gate, which playbacks are left, and which owners' streams are open and why |
| DeviceSwitch.RouterFollowsTheTrace | SOURCE/audio_core/device_change.py:310-363 | Whatever happens around it, the router's statements are those of `HandleDeviceChange`, in that order |
| DeviceSwitch.ChangeMovesEveryOwner | SOURCE/audio_core/device_change.py:310-363 | A change nothing disturbs goes drained through teardown and initialisation with no owner's stream open, and leaves every owner with one |
| DeviceSwitch.TimeoutCutsPlaybacks | SOURCE/audio_core/device_change.py:150-165 | A router asleep at the gate gets in once its timeout passes, and the playbacks inside then are still inside when the table goes down |
| DeviceSwitch.RouterWaitsForAPlayback | SOURCE/audio_core/device_change.py:150-165 | And a playback that has begun puts the router there |
| DeviceSwitch.LateOwnerIsCut | SOURCE/audio_core/device_change.py:310-363 | An owner that opens a stream after the snapshot has it cut, even when the gate drained |
| DeviceChange.SoundDevice.Refresh | SOURCE/audio_core/portaudio_guard.py:484-546 | Teardown then initialise with one retry, a second failure raised, nothing done without the library |
| DeviceChange.OwnerRegistry.Register | SOURCE/audio_core/device_change.py:190-211 | Registration is idempotent, keeps order, and asks for the device watch exactly on first registration |
| DeviceChange.OwnerRegistry.Unregister | SOURCE/audio_core/device_change.py:214-219 | The one entry of the owner is removed and the others keep their order |
| OwnPlayback.OwnPlayback.RecentAudio | SOURCE/audio_core/own_playback.py:135-147 | For every wrap position, exactly the last samples of everything played with every silence at full length, zero-prefixed; None exactly when nothing was ever played |
| OwnPlayback.OwnPlayback.NoteAudio | SOURCE/audio_core/own_playback.py:96-123 | The ring stays the tail of the record extended by the silence and the samples, and the utterance start is where the last long pause ended |
| OwnPlayback.OwnPlayback.Append | SOURCE/audio_core/own_playback.py:71-84 | Written in one piece, in two around the end or as a whole new ring, the contents are the last samples of the old contents and the new |
| OwnPlayback.OwnPlayback.AdvanceSilence | SOURCE/audio_core/own_playback.py:86-94 | Capping the silence at the ring's size leaves the same contents as the whole silence |
| OwnPlayback.OwnPlayback.Reset | SOURCE/audio_core/own_playback.py:182-190 | The record is empty again, and a waived tail stays waived |
| OwnPlayback.Extended | SOURCE/audio_core/own_playback.py:86-123 | One more event on the unbounded record is one more append on its bounded tail |
| OwnPlayback.OwnPlayback.Read | SOURCE/audio_core/own_playback.py:144-147 | Reading backwards from the write position around the end gives the newest samples in order |
| OwnPlayback.WholeSamples | SOURCE/audio_core/own_playback.py:135-147 | Seconds become the whole samples they hold, truncated toward zero |
| OwnPlayback.OwnPlayback.VoiceTailActive | SOURCE/audio_core/own_playback.py:155-160 | Active exactly within the time after the last audio of the record, unless waived |
| OwnPlayback.LookingKeepsTime | SOURCE/audio_core/own_playback.py:86-94 | However often the record is looked at in silence, the silence written is the time passed less under one sample a look, up to SILENCE_GAP_S before the last look |
| OwnPlayback.PacedFeedHasNoSilence | SOURCE/audio_core/own_playback.py:86-122 | A feed whose chunks follow within SILENCE_GAP_S is recorded without any gap |
| AecReference.BoundedFifo.Extend | SOURCE/audio_core/aec_reference_base.py:261-263 | The queue is the newest samples of everything pushed, as many as were there and came, up to `cap`: only an overflow loses any, and just the oldest |
| AecReference.BoundedFifo.Push | SOURCE/audio_core/aec_reference_base.py:179 | A sample is added, and just the oldest leaves a full queue |
| AecReference.BoundedFifo.Take | SOURCE/audio_core/aec_reference_base.py:342-346 | Samples are taken in order from the pushed stream, each stretch after all earlier ones |
| AecReference.NothingServedTwice | SOURCE/audio_core/aec_reference_base.py:342-350 | What was handed out never overlaps: served samples plus queued ones are at most the pushed ones |
| AecReference.ReferenceAdapter.NextLoopbackFrame | SOURCE/audio_core/aec_reference_base.py:325-350 | Silence before the priming gate, the next samples in order when there are enough, else a replay of the last frame; unprimed and underrun reads consume nothing |
| AecReference.ReferenceAdapter.NextLocalFrame | SOURCE/audio_core/aec_reference_base.py:401-412 | The next local samples in order, padded with silence; None exactly when nothing is queued |
| AecReference.ReferenceAdapter.GetReferenceFrame | SOURCE/audio_core/aec_reference_base.py:295-323 | Viola's own playback is served exactly when some is queued and the loopback is judged deaf, or is unjudged and silent now; the contents of the frame and of both queues afterwards, and what is judged, in every case |
| AecReference.ReferenceAdapter.GetRecentReference | SOURCE/audio_core/aec_reference_base.py:508-527 | A read-only suffix of everything pushed, as long as asked or as the queue |
| LoopbackVerdict.LoopbackLearner.Learn | SOURCE/audio_core/aec_reference_base.py:352-399 | Frame by frame the answer is that of the most recent streak of loud frames that reached its threshold, and the two run counters are never both positive |
| LoopbackVerdict.VerdictIsUnique | SOURCE/audio_core/aec_reference_base.py:352-399 | A history has exactly one such answer |
| LoopbackVerdict.LoudFramesDecide | SOURCE/audio_core/aec_reference_base.py:374-391 | Whatever came before, 50 frames in a row of loud playback that the loopback missed judge it deaf, 20 that it heard judge it to hear |
| LoopbackVerdict.FewLoudFramesDecideNothing | SOURCE/audio_core/aec_reference_base.py:374-391 | And fewer than 20 loud frames judge nothing |
| LoopbackVerdict.CounterIsStreak | SOURCE/audio_core/aec_reference_base.py:374-391 | A run counter is at its threshold exactly when a streak ends at the latest frame |
| LoopbackVerdict.QuietFramesAreIgnored | SOURCE/audio_core/aec_reference_base.py:372-373 | A frame with quiet own playback, anywhere in the history, changes no verdict |
| AuthTransactions.BlockCommitsExactlyWhen | SOURCE/auth/database.py:783-798 | For every code tree: an outermost block on an idle connection ends normally if and only if its body does and its commit does not fail, and then all the writes of the body, in order, are durable and the connection is idle |
| AuthTransactions.EndsAsWritten | SOURCE/auth/database.py:770-798 | Inside a block code ends and writes as its text says: nothing is refused and nothing skipped |
| AuthTransactions.SmoothCodeIsDurable | SOURCE/auth/database.py:766-798 | Code in which nothing fails ends normally, in a block or outside any, with exactly its writes durable |
| AuthTransactions.WriteOutsideABlock | SOURCE/auth/database.py:766-774 | A write outside any block is durable if it ends normally, else left in an open transaction |
| AuthTransactions.NestedBlocksAreAtomic | SOURCE/auth/database.py:766-798 | For every tree of nested blocks whose writes end in `_commit_if_needed`, with failures anywhere: all writes made are durable on a normal end, none on an exception, and the connection is idle |
| AuthTransactions.AtomicWhateverFailsExactlyWhen | SOURCE/auth/database.py:766-798 | For every code tree: the block is all-or-nothing with its connection idle afterwards, whatever fails in it, if and only if no write in it follows a direct commit and no await stands where a transaction may be open |
| AuthTransactions.OutermostBlock | SOURCE/auth/database.py:775-798 | What an outermost block leaves durable and pending for every body and every way out, with the depth back at zero |
| AuthTransactions.Inside | SOURCE/auth/database.py:770-798 | Inside a block only a direct commit makes anything durable, in order, and the depth comes back on every way out |
| AuthTransactions.DirectCommitSplitsABlock | SOURCE/auth/database.py:2748 | A repository method that ends in its own commit makes the enclosing block's earlier writes durable before it fails |
| AuthTransactions.CancelledWritesLinger | SOURCE/auth/database.py:789-798 | A cancelled block neither commits nor rolls back: the next write commits what it left, and the next block cannot begin |
| AuthTransactions.DepthCountsExactlyWhen | SOURCE/auth/database.py:783-798 | For any blocks opened and left on one thread: the depth is the number of open blocks at every moment if and only if they are left last in, first out |
| AuthTransactions.OverlapStrandsTheDepth | SOURCE/auth/database.py:783-798 | Two blocks that overlap without nesting leave the depth at one with nobody inside, and later writes are not committed |
| AuthTransactions.Database.Perform | SOURCE/auth/database.py:770-798 | The statements on the source's own fields do exactly what the tree semantics says |
| TokenMigration.DecryptTokenWithRotation | SOURCE/auth/database.py:2622-2652 | Trying versions one after another finds the text if and only if a key of an allowed version opens it, under the current secret or the previous one inside its overlap, and says which |
| TokenMigration.RowMeansLastStored | SOURCE/auth/database.py:2679-2890 | In every interleaving of stores, deletes and migrating reads, whatever the keys, the texts inside the row are what was stored last |
| TokenMigration.OneReadIsEnough | SOURCE/auth/database.py:2778-2890 | What migrating on read is for: one read during the overlap of a row that decrypts, and in every continuation the pair stored last decrypts under the current secret alone |
| TokenMigration.ReadsOutliveTheOverlap | SOURCE/auth/database.py:2778-2890 | The same for a read that began before other events and still finds its row |
| TokenMigration.WrittenTokensOpen | SOURCE/auth/database.py:2622-2652 | A token sealed under the current secret opens exactly at rows of its version, one sealed under the previous secret only during the overlap |
| TokenMigration.ReadsAreNeverWrong | SOURCE/auth/database.py:2786-2812 | A decrypted token is the one stored last or none, and the pair is right whenever the row is readable |
| TokenMigration.InterleavedReadsKeepTheTokens | SOURCE/auth/database.py:2750-2890 | From a readable row, any number of migrating reads interleaved with deletes and stores of both tokens leave the decrypted pair equal to the last stored pair while the previous secret is accepted |
| TokenMigration.MigratedRowsOutliveTheOverlap | SOURCE/auth/database.py:2818-2882 | A row a migration has rewritten during the overlap decrypts to the last stored pair under the current secret alone, in every continuation |
| TokenMigration.MigratedRowNeedsOnlyTheCurrentSecret | SOURCE/auth/database.py:2820-2866 | A rewritten row opens under the current secret alone if and only if the read had opened every token present |
| TokenMigration.StoreKeepsReadable | SOURCE/auth/database.py:2698-2723 | A store leaves a readable row if and only if it supplies the refresh token or the kept one opens at version 2 |
| TokenMigration.AccessOnlyStoreLosesALegacyRefreshToken | SOURCE/auth/database.py:2700-2723 | Storing an access token alone on a version 0 or 1 row makes its readable refresh token unreadable under every key from then on |
| TokenMigration.OAuthTokenRepository.FinishRead | SOURCE/auth/database.py:2778-2890 | The read answers what the snapshot's tokens decrypt to; if the row is still there and decrypts, its pair is left to the current secret alone; a row of an older version that could be read at all becomes one of the current version without a clear id token; any other row is left alone |
| TokenMigration.OAuthTokenRepository.StoreTokens | SOURCE/auth/database.py:2654-2748 | Access and id tokens are overwritten, the refresh token only by another, the version becomes current |
| GiftWindows.AnchoredMonthsIncrease | SOURCE/auth/entitlement_projection.py:71-74 | The anchored date is strictly increasing in the month offset despite day clamping |
| GiftWindows.MonthsOfTheYear | SOURCE/auth/entitlement_projection.py:71-74 | The days of the months add up to the Gregorian calendar's table, 365 days a year or 366 in a leap year |
| GiftWindows.FourHundredYears | SOURCE/auth/entitlement_projection.py:71-74 | And any 400 years in a row to 146097 days |
| GiftWindows.AnchorDayComesBack | SOURCE/auth/entitlement_projection.py:71-74 | Every month takes its day from the anchor: clamping never carries over to the next month |
| GiftWindows.AcceptedExactlyWhenAnchored | SOURCE/auth/entitlement_projection.py:64-82 | A window is accepted if and only if it covers whole anchored months from some offset on, and that offset is unique |
| GiftWindows.MonthsTileTime | SOURCE/auth/entitlement_projection.py:71-86 | Every instant from the anchor to the calendar's last anchored date is active in exactly one one-month window |
| GiftWindows.ConsecutiveWindowsMeet | SOURCE/auth/entitlement_projection.py:71-86 | Both of two consecutive windows are accepted and the second begins where the first ends |
| GiftWindows.LongWindowIsItsMonths | SOURCE/auth/entitlement_projection.py:64-86 | An accepted window of several months is active exactly in the months it is made of |
| EntitlementProjection.ProjectionComposesExactlyWhen | SOURCE/auth/models.py:463-486 | Projecting at t1 and then at t2 equals projecting at t2 if and only if no gift, and no paid access under one gift, begins in between |
| EntitlementProjection.ProjectionComposes | SOURCE/auth/models.py:463-486 | It composes without a gift, and with one that has started when effective access uses its window |
| EntitlementProjection.ManyLooksAreOne | SOURCE/auth/models.py:463-486 | Any number of projections in order of time are the last one |
| EntitlementProjection.LookingTwiceChangesNothing | SOURCE/auth/models.py:463-486 | Projection is idempotent |
| EntitlementProjection.ProjectionStaysValid | SOURCE/auth/entitlement_projection.py:110-123 | Base, queue and identity are unchanged, and the result passes the validators again if and only if a gift is active or the base does not itself claim to be one |
| EntitlementProjection.AccessLiesInAWindow | SOURCE/auth/entitlement_projection.py:115-122 | Paid gift access always lies inside a window of the same account, and runs exactly as long |
| EntitlementProjection.AccessExactlyWhen | SOURCE/auth/models.py:463-486 | A projection grants access if and only if the effective facts of an active gift, or else the base subscription up to the instant it is funded to, say so; without access everything falls back to the free plan |
| EntitlementProjection.ValidExactlyWhen | SOURCE/auth/entitlement_projection.py:101-123 | A projection is accepted if and only if both families are those of their plans, every gift is the account's own, and effective access that claims to be a gift covers just the window of one |
| EntitlementProjection.DerivedAccessIsProjectedAccess | SOURCE/auth/models.py:489-555 | The derived user has paid access only if the projection does; foreign or malformed projections derive nothing |
| EntitlementProjection.DerivedAccessExactlyWhen | SOURCE/auth/models.py:489-555 | The derived user has access if and only if the projection grants it under a paid plan and its status, end and provider allow it |
| EntitlementProjection.StaleUserOutlivesFundingExactlyWhen | SOURCE/auth/models.py:463-555 | A derived user kept on keeps access the projection has lost if and only if the base is funded only to an instant now past |
| AuditSampler.Sampler.ShouldEmit | SOURCE/auth/middleware.py:358-379 | One call of the sampler on its map, whose size stays within the maximum; blank ids emit nothing |
| AuditSampler.AgreesWithUnboundedMemory | SOURCE/auth/middleware.py:358-379 | With time that does not go back and at most CACHE_MAX keys so far in its hour, a call is answered as an unbounded set would, however crowded earlier hours were: True exactly the first time |
| AuditSampler.BucketsAreHours | SOURCE/auth/middleware.py:358-366 | A bucket is one hour, from one multiple of 3600 seconds up to the next |
| AuditSampler.BucketsFollowTime | SOURCE/auth/middleware.py:358-366 | Calls of one bucket are less than an hour apart, and a call an hour later has a later bucket |
| AuditSampler.NothingForgottenExactlyWhen | SOURCE/auth/middleware.py:368-379 | After any run of calls in order of time, none of the hour's sessions would be reported again if and only if the hour's keys fit the maximum |
| AuditSampler.ACrowdIsForgotten | SOURCE/auth/middleware.py:368-379 | And a run of one session more than the maximum in an hour has one of them reported twice |
| AuditSampler.OneKeyTooManyForgetsTheHour | SOURCE/auth/middleware.py:370-377 | On a map full of the hour's keys a new key clears them all, and each is reported again |
| AuditSampler.NeverTooBig | SOURCE/auth/middleware.py:358-379 | The map never exceeds its maximum, whatever the keys and whichever way the clock goes |
| AuditSampler.KeysCollideExactlyWhen | SOURCE/auth/middleware.py:360-366 | Two sessions share a key if and only if they are the same or one user's id is the other's with a colon and the front of the other's session id after it |
| AuditSampler.KeysAreDistinct | SOURCE/auth/middleware.py:360-366 | So user ids without a colon keep every session apart |

## Left out

- Cryptography, JWT contents, HTTP, cookies, SQL text and schema: abstract keys, records, replies and maps stand for them.
- The session rows' e-mail and GoTrue session id columns, and the account-change notifications: no decision modelled here reads them.
- SessionProtocol.GResolve and SessionProtocol.RScan: the scans over rows are one atomic pick each; `SessionStore` models their loops and order.
- The order of a user's token deletions in a purge: any order.
- Token caches keyed by account and hash: the row's account never changes, so the hash alone is the key.
- Failing token-cache writes between a rotation and its storage: assumed to succeed.
- A shutdown before any store exists: it returns True with nothing in flight.
- Restart in the middle of a statement is modelled by `Restart` between statements, which are the atomic steps.
- Wall-clock bounds on lock waits: a timed wait may end at any step.
- `terminate_portaudio` of another instance from inside a `portaudio_instance` block, and streams opened through sounddevice (`open_deep_input_stream`): only streams opened through `open_stream` are modelled.
- The weak references of the stream registry: an instance is not dropped while it has streams.
- GuardedStream.CloseStreamsFor: threads do not interfere during this method; `StreamProtocol` has the interleavings.
- PlaybackGate.GateExclusion: assumes one writer at a time, as the device watch uses it; `DrainedSpanIsExclusive` covers several.
- DeviceSwitch.RefreshOverlapsNothingExactlyWhen: one router; device changes do not overlap each other.
- DeviceChange.OwnerRegistry.HandleDeviceChange: owners that come late are taken to arrive between the suspends and the refresh, and readers inside the gate do not move during the call; `DeviceSwitch` has the interleavings.
- StreamTheorems.NoUseAfterFree: rests on callers keeping opens and terminates of one instance apart, which the code asks of them and does not check.
- Availability reports, device probing and the polling thread: they follow the resume loop and decide nothing in it.
- OwnPlayback.OwnPlayback.NoteAudio: samples arrive already mono and at the ring's rate; resampling and numeric conversion are left out, and the ring has at least one sample.
- The spoken-text record and the onset gap of the own-playback class: lists filtered by time.
- AecReference.ReferenceAdapter.GetReferenceFrame: the rate is the adapter's own; loudness is a function given by the caller.
- Diagnostics, callback error counting and the buffer target's smoothing of the reference adapter.
- AuthTransactions.Database.Perform: a rollback that itself fails is not modelled.
- The creation of a user's encryption salt: the salt exists; two first uses racing to create it are not modelled.
- TokenMigration.RowMeansLastStored: expiry and scope columns are left out; an empty token text counts as absent, so a ciphertext of the empty text is not modelled.
- GiftWindows.MonthsTileTime: instants after the last anchored date of year 9999, which no window can end.
- Prices, capacities, renewal dates and the return plan of a projection: copied, never decided on.
- AuditSampler.Sampler.ShouldEmit: ids arrive trimmed of blanks.
- Request routing, middleware decisions, boot and user interface code: settled by reading one branch.
