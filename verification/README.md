# Room ownership, match completion and their neighbours, verified in Dafny

The project models the realtime side of a house-game server: how many server instances agree on
who owns a game room, how a match starts once and ends with one result, and the state machines
around it. `dafny verify dfyconfig.toml` checks all of it.

## The protocol

`RoomProtocol` is a concurrent step system. Any number of activations run for one room on any
number of instances. Each remote call is a message that the servers handle at most once, at any
later time; the caller may give up on it at any time, whether or not it took or will take effect.
So delayed claims, timeouts after the effect, lease expiry and takeover in every order, crashes,
restarts of the fence counter, expiry of the checkpoint and resets of Redis are all steps of one
`Next` relation. The servers' side of each message is a function shared with the classes that
model the repositories and the coordinator:

- `RoomLease`: the Redis lease (holder, lease ID, fencing token, time to live) and its scripts.
- `RuntimeOwner`: the durable owner record, its generation and its start, completion and trigger
  barriers, with the conditional writes.
- `RuntimeCheckpoint`, `DecimalOrder`: the checkpoint scripts, on numbers and on the decimal text
  Redis holds.
- `GameMatch`: the completion transaction on the owner record, the session, the receipts and the result.

`RoomInvariant`, `RoomTime`, `RoomSpawn`, `RoomOutcome` and `RoomCheckpoint` prove the inductive
invariants step by step; `RoomTheorems` states what follows for every run, `RoomDeletion` how long
a deleted checkpoint stays away, and `RoomReset` what a reset of Redis allows. `RoomRuns` builds runs
step by step; `RoomLateSave` uses it to reach a deletion that a late save undoes, and `RoomProgress`
to show what a room reaches when the servers answer.

The steps follow the code of one activation and the room it opens:

| steps of `RoomProtocol` | code |
|---|---|
| `Begin` | `EnsureRoom`, internal/infrastructure/realtime/roomManager.go:259-311 |
| `ReadGeneration`, `AcquireFirst`, `ReadHolder`, `FreeOwn`, `AcquireAgain`, `ReadHolderAgain` | `activateRoom`, internal/infrastructure/realtime/roomManager.go:313-375 |
| `Observe`, `ObserveLease`, `Observed` | `waitForRuntimeOwner`, internal/infrastructure/realtime/roomManager.go:380-409 |
| `LoadSession`, `Claiming`, `FirstRenew` | `startRoom`, internal/infrastructure/realtime/roomManager.go:436-465 |
| `RenewCall`, `RenewReturn` | `renewLoop`, internal/infrastructure/realtime/room.go:68-98 |
| `Spawn`, `SpawnMark`, `Abandon`, `AbandonMark` | `startRuntimeLocked`, `abandonUnstartedMatch`, internal/infrastructure/realtime/tickHost.go:174-251 |
| `Restore`, `RestoreLoad`, `Install`, `RefuseCheckpoint` | `restoreRuntime`, internal/infrastructure/realtime/tickCheckpoint.go:84-115 |
| `SaveCall`, `SaveReturn`, `SaveFail` | `protectCheckpoint`, internal/infrastructure/realtime/tickCheckpoint.go:28-67 |
| `PublishCall` | `publishTickUpdates`, internal/infrastructure/realtime/tickHost.go:287-311 |
| `Trigger`, `TriggerSave` | `requestMatchCancellation`, internal/infrastructure/realtime/roomCompletion.go:89-115 |
| `Propose`, `Finish`, `Commit`, `Resolve`, `ReadBack` | `captureResult`, `completeMatch`, internal/infrastructure/realtime/roomCompletion.go:29-145, and `Complete`, internal/data/database/gameMatchRepository.go:103-161 |
| `Drop`, `DropCheckpoint` | `releaseCheckpoint`, internal/infrastructure/realtime/tickCheckpoint.go:72-80 |
| `Releasing` | `releaseLease`, internal/infrastructure/realtime/roomManager.go:663-667 |

## The components

- `SessionStore`: the session documents, command receipts and the active-slot index, over every
  run of accepted writes. `Repositories`: the two MongoDB repositories as classes that refine it.
- `Coordination`: the Redis coordinator as a class. `LeaseCodec`: how keys and lease values are
  written. `CommandSubscription`: the command stream with at-least-once delivery.
- `RoomRegistry`: the manager's room and activation maps. `CheckpointBarrier`: the barrier between
  publications and checkpoints. `RoomCompletion`: the lifecycle loop around the end of a match.
- `GatewayClient`: one websocket connection and its bounded queues. `RecoveryScan`: the paging
  recovery scanner. `RateLimit`, `ResetCode`, `DurationHistogram`: the small algorithms.

Parameters stand for what the outside world decides: clocks, replies, lost requests and replies
(`Fault`), the runtime's proposals, verdicts of JSON checks and of the session domain.

## Where the code does less than it says

- `releaseCheckpoint` says that queued frames must not recreate the checkpoint. No later save is
  sent, but one already on its way can still recreate it: the deletion holds exactly when none of
  the room's saves is unanswered (`RoomDeletion.DeletionHoldsIff`), and a run reaches a deletion with
  such a save (`RoomLateSave.DeletionCanFail`).
- A change with an empty critical key and no positive sequence passes the barrier before anything
  is stored; exactly those do (`CheckpointBarrier.CheckpointState.UnstoredIffBlank`). The two tick
  games never build an empty key for a roster with players, and houseTanks never builds one at all
  (internal/application/game/games/houseRockets/runtimeCheckpoint.go:50,
  internal/application/game/games/houseTanks/runtimeCheckpoint.go:42).
- A cancel is meant to stay unacknowledged until its result commits. A held cancel that is
  redelivered before a result was captured, and is refused for good the second time, is
  acknowledged; exactly those are (`RoomCompletion.RoomLoop.HandleDelivery`,
  `RoomCompletion.HeldCancelIsLost`).
- A cancel refused because the runtime had already finished leaves its trigger in the owner record
  (`RoomCompletion.RoomLoop.RequestMatchCancellation`). Delivered again while the result is being
  saved it is held and named to the commit, which refuses a command named for a result that no user
  cancelled; the room retries until its budget is spent and never commits
  (`RoomCompletion.RoomLoop.MisnamesIff`, `RoomCompletion.RefusedCancelBlocksCommit`).
- The buffer before activation is one message too generous for turn games
  (`GatewayClient.ActivationFits`, `GatewayClient.TurnActivationOverflows`).
- The active-slot index joins house ID and game key without escaping, so two pairs can collide when
  a house ID and a game key both hold a colon (`SessionStore.KeysCollideIff`,
  `SessionStore.CollisionBreaksLookup`). House IDs are MongoDB object IDs and the keys of the three
  games are constants without colons, so no two pairs of this server do.
- A result whose start rounds to the zero time is stored but cannot be read back; exactly those
  cannot (`GameMatch.StoredIsReadable`, `Repositories.StoredEpochIsPositive`,
  `Repositories.StoredAtZeroIsUnreadable`).
- A request whose time lies in a window that an overtaking janitor pass removed escapes that window;
  exactly those do (`RateLimit.JanitorIsInvisibleIff`, `RateLimit.OvertakenRequestEscapes`).
- After a reset of Redis two rooms can be valid until the older deadline passes
  (`RoomReset.ResetSplitsRoom`); afterwards never (`RoomTheorems.OneValidRoom`).

## Model

| member | source | states |
|---|---|---|
| `RoomTheorems.ClaimedHolderOwns` | internal/infrastructure/realtime/roomManager.go:318-374 | In every state of every run, if a generation was claimed under the lease whose value is in the Redis key, the durable record carries exactly that generation, instance and lease ID. Holds with delayed claims, timeouts that took effect, expiries, counter restarts and Redis resets. |
| `RoomTheorems.ActivationOwns` | internal/infrastructure/realtime/roomManager.go:448-462 | The same for an activation that has learnt of its claim: while its lease value is in the key, its generation, instance and lease are the record's. |
| `RoomTheorems.ObserverSeesCurrent` | internal/infrastructure/realtime/roomManager.go:380-409 | When waitForRuntimeOwner accepts an owner record under the live lease it first observed, the durable record still is that record at that moment, although the record was read before the lease was checked again. |
| `RoomTheorems.ReloadedClaimFencesHolder` | internal/infrastructure/realtime/roomManager.go:318-330 | Why the generation is read before the lease: a claimant that reloaded it after losing its lease would fence the next holder (a concrete schedule). |
| `RoomTheorems.ValidLeaseIsHeld` | internal/infrastructure/realtime/room.go:62-98 | From one time to live after the last reset of Redis on, and always when there was none, leaseValid() implies that the key holds the room's value and the durable record carries its generation. |
| `RoomTheorems.OneValidRoom` | internal/infrastructure/realtime/room.go:62-65 | So at such times no two activations of one room are ever locally valid at once. |
| `RoomReset.ResetSplitsRoom` | internal/infrastructure/realtime/room.go:62-65 | The time to live is needed in full: for any two instances and any moment less than one time to live after a reset, there is a run in which both are locally valid at that moment. |
| `RoomTheorems.DepartedForGood` | internal/infrastructure/coordination/roomLease.go:17-35 | A lease value that has left the key never returns to it, even when the fence counter restarts. |
| `RoomTheorems.DepartedIsPowerless` | internal/infrastructure/coordination/messageBus.go:25-29 | A request under such a value changes nothing on the server whenever it arrives, and is refused: no renewal, release, checkpoint save, load or delete, and no publication. |
| `RoomTheorems.HolderIsServed` | internal/infrastructure/coordination/runtimeCheckpoint.go:17-40 | The other half: the requests of the holder take effect and are answered so. Its load returns what is stored, its deletion removes it, its event reaches the channel, its release empties the key, its renewal extends it, and its save is stored exactly when it is later than what is stored. |
| `RoomTheorems.SpawnAtMostOnce` | internal/infrastructure/realtime/tickHost.go:174-234 | Across all generations of a session, at most one runtime built by NewRuntime ever becomes a room's running runtime. |
| `RoomTheorems.StartedStays` | internal/data/database/runtimeOwnerRepository.go:69-80 | A recorded start, made by a spawn or by an abandonment and with its reply received, lost or late, is never taken back, and no second one is recorded. |
| `RoomTheorems.LaterOwnersRestore` | internal/infrastructure/realtime/tickCheckpoint.go:84-115 | Over every run: whoever claims a generation after the start was recorded, however it was, sees `started` and never spawns or abandons. A runtime it has was restored; without one it can only restore, refuse the checkpoint, and finish with the proposed cancellation. |
| `RoomTheorems.ResultIsFinal` | internal/data/database/gameMatchRepository.go:103-146 | A stored result never changes, and from then on the owner record (generation, owner, barriers, trigger) and the set of claimed generations are frozen. |
| `RoomTheorems.SupersededNeverStores` | internal/data/database/gameMatchRepository.go:116-125 | Whichever completion stores the result names the current owner record and the newest claimed generation. |
| `RoomTheorems.SuccessMeansStored` | internal/data/database/gameMatchRepository.go:147-161 | A room that was told of success, directly or after an ambiguous commit, finds its own proposal stored, then and at every later time: the same identifiers, status, end reason and payload digest, and both times to the millisecond. |
| `RoomTheorems.SuccessesAgree` | internal/data/database/gameMatchRepository.go:182-187 | Any two rooms that were told of success proposed the same identifiers, status, end reason and payload, and the same times to the millisecond. |
| `RoomTheorems.TriggerIsFinal` | internal/data/database/runtimeOwnerRepository.go:84-99 | A stored completion trigger is never replaced by another command in any later generation. |
| `RoomTheorems.CapturedResultIsFinal` | internal/infrastructure/realtime/roomCompletion.go:29-48 | Once a room has captured a result, taken from its runtime, its restore or its abandonment, that result never changes. |
| `RoomTheorems.PublishedGenerationsRise` | internal/infrastructure/coordination/messageBus.go:80-118 | The generations of the events published through Redis never go down, and none exceeds the newest claimed one. |
| `RoomTheorems.AnnouncedIsProtected` | internal/infrastructure/realtime/tickCheckpoint.go:28-67 | Until its release a room announces a change only under a protected checkpoint of its own generation with the change's own critical key. |
| `RoomTheorems.PublishedChangeSurvives` | internal/infrastructure/realtime/tickCheckpoint.go:84-115 | The holder of the lease that loads the checkpoint is given one that is the one an announced change was protected by, or a later one, unless the checkpoint was deleted, expired or lost in between; anybody else is refused. |
| `RoomTheorems.NoSaveAfterRelease` | internal/infrastructure/realtime/tickCheckpoint.go:72-80 | A room that has released its checkpoint sends no further save, in any interleaving of publisher and finalizer. |
| `RoomDeletion.ReappearsByLateSave` | internal/infrastructure/realtime/tickCheckpoint.go:69-80 | Once a released room's deletion was served, the checkpoint is there again only if a save that this room sent before the release, unanswered at the deletion, stored it since. |
| `RoomDeletion.DeletionHoldsIff` | internal/infrastructure/realtime/tickCheckpoint.go:69-80 | The deletion holds in every continuation of the run if and only if none of the room's saves is unanswered. |
| `RoomLateSave.LateSaveUndoesDeletion` | internal/infrastructure/realtime/tickCheckpoint.go:69-80 | The failing side is real: for every completion that can end the match there is a run in which the room has committed it, released its checkpoint and seen it deleted while a save of its own is unanswered; once that save is served, the checkpoint is there again. |
| `RoomLateSave.DeletionCanFail` | internal/infrastructure/realtime/tickCheckpoint.go:69-80 | So it happens to every new session whose match runs. |
| `RoomTheorems.RunSound` | internal/infrastructure/realtime/roomManager.go:313-374 | Every state of every run satisfies the inductive invariant (ownership, time, spawning, outcome, checkpoints) from which the results above follow. |
| `RoomProgress.ObserverArrives` | internal/infrastructure/realtime/roomManager.go:331-409 | From any reachable state in which another instance holds the room and its claim is recorded, a new activation comes to observe just that owner and changes nothing. |
| `RoomProgress.OwnLeaseIsReplaced` | internal/infrastructure/realtime/roomManager.go:331-374 | From any reachable state in which the key holds a value its own instance left behind, a new activation frees that value and opens the room under a new lease and the next generation, without waiting for the old one to expire. |
| `RoomProgress.RenewalExtends` | internal/infrastructure/realtime/room.go:68-98 | An answered renewal leaves the key and the room's deadline one time to live away. |
| `RoomProgress.TriggerIsRecorded` | internal/infrastructure/realtime/roomCompletion.go:89-115 | A cancel's trigger can be stored for the owner of a started, open match, and the room keeps it. |
| `RoomProgress.AbandonStep` | internal/infrastructure/realtime/tickHost.go:236-251 | A match that is too old to spawn can be abandoned: its start is recorded and its end proposed. |
| `RoomProgress.LostReplyResolves` | internal/data/database/gameMatchRepository.go:147-161 | From any state before a commit that the store takes, losing its reply ends with the room told of success. |
| `RoomProgress.LostRequestRetries` | internal/data/database/gameMatchRepository.go:147-161 | Losing the request instead leaves the store as it was and the room open to try again. |
| `RoomProgress.RefusedRenewalStops` | internal/infrastructure/realtime/room.go:68-98 | A room whose renewal is refused, or answered too late, stops and is no longer valid. |
| `RoomProgress.StoppedRoomReleases` | internal/infrastructure/realtime/roomManager.go:663-667 | A room that stops can give its lease back: the key is free before it expires. |
| `RoomProgress.RefusedFallsBack` | internal/infrastructure/realtime/tickCheckpoint.go:94-115 | A checkpoint that cannot be used leads to the proposed end. |
| `RoomProgress.LoadStep` | internal/infrastructure/realtime/tickCheckpoint.go:84-115 | The holder's load leads to the checkpoint, or to the proposed end when there is none. |
| `RoomProgress.TakeoverRestores` | internal/infrastructure/realtime/tickCheckpoint.go:84-115 | The match outlives its owner: from every reachable state with a started match, a free key and a stored checkpoint, any free instance can open the room and restore its runtime, under a checkpoint that still covers every announced change that relies on one. |
| `RoomInvariant.StepInv` | internal/infrastructure/realtime/roomManager.go:313-374 | Each of the nineteen kinds of step keeps the fencing invariant: a rival with an unanswered or later claim can never overtake the lease in the key. |
| `RoomTime.StepTimeInv` | internal/infrastructure/realtime/room.go:68-98 | Each step keeps the clock invariant: the local deadline, dated from the start of the last confirmed renewal, never exceeds the key's expiry. |
| `RoomSpawn.StepSpawnInv` | internal/infrastructure/realtime/tickHost.go:204-216 | Each step keeps the start barrier: a recorded start names the one activation that made it, and later claims report it. |
| `RoomOutcome.StepOutcomeInv` | internal/data/database/gameMatchRepository.go:103-161 | Each step keeps the outcome invariant: results, replies and rooms that were told of success agree. |
| `RoomCheckpoint.StepCheckpointInv` | internal/infrastructure/realtime/tickCheckpoint.go:28-67 | Each step keeps the checkpoint invariant: what rooms and published events rely on is in the stored checkpoint of the same wipe. |
| `RuntimeOwner.ClaimTakesNext` | internal/data/database/runtimeOwnerRepository.go:50-65 | A claim succeeds exactly on the current generation of a record that is not completed; it takes the next generation and keeps the start and trigger barriers. |
| `RuntimeOwner.OneClaimPerGeneration` | internal/data/database/runtimeOwnerRepository.go:50-65 | Two claimants that read the same generation cannot both claim it. |
| `RuntimeOwner.CompletedIsFrozen` | internal/data/database/runtimeOwnerRepository.go:50-99 | A completed record refuses every claim, start, trigger and completion. |
| `RuntimeOwner.SupersededIsRefused` | internal/data/database/runtimeOwnerRepository.go:69-99 | After a successful claim every conditional write of the previous claimant is refused. |
| `Repositories.GameSessionRepository.FindRuntimeOwner` | internal/data/database/runtimeOwnerRepository.go:36-46 | The stored record or none, and a conflict for an empty session ID. |
| `Repositories.GameSessionRepository.ClaimRuntimeOwner` | internal/data/database/runtimeOwnerRepository.go:50-65 | The conditional upsert takes effect exactly as the claim function says, also when its reply is lost; success returns the stored record. |
| `Repositories.GameSessionRepository.MarkRuntimeStarted` | internal/data/database/runtimeOwnerRepository.go:69-80 | The start barrier is set exactly for the named owner of an unstarted record; otherwise recovery is required. |
| `Repositories.GameSessionRepository.SaveCompletionTrigger` | internal/data/database/runtimeOwnerRepository.go:84-99 | The trigger is stored exactly for the named owner of a started, open record without another trigger. |
| `GameMatch.StoredMatchesProposal` | internal/data/database/gameMatchRepository.go:178-187 | What is stored is recognised as the proposal it came from, at millisecond precision. |
| `GameMatch.StoredIsReadable` | internal/data/database/gameMatchRepository.go:37-65 | What a valid completion stores reads back if and only if its start does not round to the zero time and its epoch is positive. |
| `Repositories.StoredEpochIsPositive` | internal/data/database/gameMatchRepository.go:103-146 | The epoch always is positive: a stored result carries the generation of a named owner, or else the version of a stored session. |
| `Repositories.StoredAtZeroIsUnreadable` | internal/data/database/gameMatchRepository.go:37-65 | The other half is needed: a valid completion of a match that started within a millisecond of the zero time is stored and cannot be read back. |
| `GameMatch.SameMatchResultIsEquivalence` | internal/data/database/gameMatchRepository.go:182-187 | Results are compared by an equivalence relation. |
| `GameMatch.CompletionIsIdempotent` | internal/data/database/gameMatchRepository.go:103-115 | A retried completion finds itself stored and changes nothing. Any other is taken for it exactly when identifiers, status, end reason, payload and event type are the same and both times agree to the millisecond; otherwise it is a conflict. |
| `GameMatch.StoredFields` | internal/data/database/gameMatchRepository.go:67-146 | What a completion stores: each field of its result, the digest of its payload, its event type, the generation of the owner it names or else the version it expects; and it completes the owner record it names. |
| `Repositories.GameMatchRepository.FindResult` | internal/data/database/gameMatchRepository.go:50-65 | The stored result if its digest, epoch, event type and domain checks hold, otherwise the matching error. |
| `Repositories.GameMatchRepository.CompleteWithin` | internal/data/database/gameMatchRepository.go:103-146 | The ordered writes of the transaction keep all or none of their effects, and every failure names its branch. |
| `Repositories.GameMatchRepository.Complete` | internal/data/database/gameMatchRepository.go:67-162 | Success means that the stored result has the proposed identifiers, status, end reason and payload and its times to the millisecond, even when the reply of the commit was lost. A stored result that differs in one of them, or in its event type, is answered with a conflict under every fault, and no other is; each other failure names its cause. |
| `SessionStore.EventLogIsGapFree` | internal/data/database/gameSessionRepository.go:291-331 | For any interleaving of Create, Save and Complete, the events of a session's accepted writes carry the versions 1 to the stored version, each exactly once and in order. |
| `SessionStore.CommandTakesEffectOnce` | internal/data/database/gameSessionRepository.go:259-271 | A client command is carried by at most one committed write, has a receipt exactly when it was, and the receipt names the session written. |
| `SessionStore.NoCommandTwice` | internal/data/database/gameSessionRepository.go:191-214 | No two committed writes of a run carry the same client command, however often it was delivered or retried. |
| `SessionStore.ReceiptStays` | internal/data/database/gameSessionRepository.go:136-164 | A receipt never changes, so a replay at any later time reports the original session. |
| `SessionStore.IndexAgreesIff` | internal/data/database/gameSessionRepository.go:102-134 | FindActive's index lookup agrees with a plain scan if and only if no active session of another pair shares the joined key. |
| `SessionStore.FindActiveIsScan` | internal/data/database/gameSessionDocument.go:62 | With house IDs free of colons the lookup is the scan in every state of every run. |
| `SessionStore.JoinedKeyInjective` | internal/data/database/gameSessionDocument.go:62 | The joined key determines house and game when house IDs hold no colon. |
| `SessionStore.KeysCollideIff` | internal/data/database/gameSessionDocument.go:62 | The exact condition: two joined keys are equal exactly when the pairs are, or when the longer house ID continues the shorter one past a colon that the other game key holds as well. |
| `SessionStore.CollisionBreaksLookup` | internal/data/database/gameSessionRepository.go:102-134 | After any accepted write that creates an active session, looking up a colliding pair reports a broken invariant although no session of it exists. |
| `Repositories.GameSessionRepository.ValidatePersistenceBatch` | internal/data/database/gameSessionRepository.go:291-331 | The loop accepts a batch if and only if it is empty at an unchanged version, or holds one well-formed event per new version with distinct event IDs. |
| `Repositories.ReplayIsRecognised` | internal/data/database/gameSessionRepository.go:136-164 | At every later state of a run a command with the ID of a committed one is reported with the session that one went to if type and payload hash are the committed ones, and refused as a reused ID if not. |
| `Repositories.NewIsUncommitted` | internal/data/database/gameSessionRepository.go:136-164 | A client command is reported as new exactly when no committed write of the run carries its ID. |
| `SessionStore.ResultHasWrite` | internal/data/database/gameMatchRepository.go:103-146 | In every state of every run a stored result describes, at stored precision, the end of its session in a committed write. |
| `SessionStore.StoredResultStays` | internal/data/database/gameMatchRepository.go:103-115 | A session has at most one result in a whole run: once stored it is never changed or removed, also when its completion had no owner record. |
| `Repositories.GameSessionRepository.FindByID` | internal/data/database/gameSessionRepository.go:80-100 | The stored session, which always restores, or the matching error. |
| `Repositories.GameSessionRepository.FindActive` | internal/data/database/gameSessionRepository.go:102-134 | The active session of the pair exactly when there is one, a broken invariant exactly when another pair's active session has the joined key, otherwise not found. |
| `Repositories.GameSessionRepository.Create` | internal/data/database/gameSessionRepository.go:35-78 | A session is created exactly when its receipt, identifier and active slot are free, as one accepted step of the store. A replay is answered with the original session. Otherwise the error is exact: another active session of the pair, a broken index, or an identifier already taken. |
| `Repositories.GameSessionRepository.ReplaceSession` | internal/data/database/gameSessionRepository.go:219-238 | The write happens exactly at the expected version; otherwise not found or a concurrent update is reported. |
| `Repositories.GameSessionRepository.Save` | internal/data/database/gameSessionRepository.go:166-216 | A save is one accepted step of the store or changes nothing; a client command whose reply was lost is reported as processed, a replay returns the original result without writing, and every other failure names its cause. |
| `DecimalOrder.GreaterIsNumeric` | internal/infrastructure/coordination/runtimeCheckpoint.go:17-28 | The script's comparison of decimal texts is numeric comparison on all natural numbers. |
| `RuntimeCheckpoint.TextScriptIsNumeric` | internal/infrastructure/coordination/runtimeCheckpoint.go:17-28 | On the numerals the coordinator writes, the save script replies and stores as if it compared numbers. |
| `RuntimeCheckpoint.AcceptedSavesIncrease` | internal/infrastructure/coordination/runtimeCheckpoint.go:17-28 | Between deletions and expiries accepted (epoch, sequence) pairs strictly increase, whoever saves, and a rejected save leaves the checkpoint unchanged. |
| `Coordination.RedisCoordinator.AcquireRoom` | internal/infrastructure/coordination/roomLease.go:43-85 | The lease is granted exactly when the key is free, tracked only when the reply arrives, and then held in the key. |
| `Coordination.RedisCoordinator.RenewRoom` | internal/infrastructure/coordination/roomLease.go:87-124 | The key is extended exactly for its own value; a refused renewal forgets that lease and no other. |
| `Coordination.RedisCoordinator.ReleaseRoom` | internal/infrastructure/coordination/roomLease.go:126-163 | After an answered release the key does not hold the value, and the lease is no longer tracked; no other tracked lease changes. |
| `Coordination.RedisCoordinator.CurrentRoomOwner` | internal/infrastructure/coordination/roomLease.go:165-206 | The holder named by an unexpired key, with the time it has left counted from the reply, or nobody. |
| `Coordination.RedisCoordinator.ForgetLease` | internal/infrastructure/coordination/roomLease.go:244-251 | Exactly this lease is forgotten; a newer lease of the room stays tracked. |
| `Coordination.RedisCoordinator.PublishRoomEvent` | internal/infrastructure/coordination/messageBus.go:80-118 | An event reaches the channel exactly when the publisher's value is in the key; a publisher told that it is not forgets that lease and no other. |
| `Coordination.RedisCoordinator.SaveRuntimeCheckpoint` | internal/infrastructure/coordination/runtimeCheckpoint.go:42-64 | Input checks first, then the script on decimal text; each reply code maps to its own error. |
| `Coordination.RedisCoordinator.LoadRuntimeCheckpoint` | internal/infrastructure/coordination/runtimeCheckpoint.go:66-87 | The stored checkpoint, or none, exactly for the holder. |
| `Coordination.RedisCoordinator.DeleteRuntimeCheckpoint` | internal/infrastructure/coordination/runtimeCheckpoint.go:89-104 | The checkpoint is deleted exactly for the holder, also when the reply is lost. |
| `LeaseCodec.DecodeEncode` | internal/infrastructure/coordination/redisKeys.go:7-14 | Decoding a base64url key part gives back the bytes it was made from. |
| `LeaseCodec.EncodeInAlphabet` | internal/infrastructure/coordination/redisKeys.go:7-9 | An encoded part holds no separator. |
| `LeaseCodec.LeaseValueRoundTrip` | internal/infrastructure/coordination/roomLease.go:218-242 | A lease value parses back to the instance, lease ID and token it was written from, whatever the instance is called. |
| `LeaseCodec.LeaseValuesCompareAsLeases` | internal/infrastructure/coordination/roomLease.go:31-35 | Two lease values are equal texts if and only if they are the same lease. |
| `LeaseCodec.RoomKeysApart` | internal/infrastructure/coordination/redisKeys.go:20-46 | Two rooms, or two purposes, never share a Redis key. |
| `CommandSubscription.CommandStream.Read` | internal/infrastructure/coordination/redisSubscription.go:112-117 | A read returns exactly the first 16 unread entries, in order, or all of them. |
| `CommandSubscription.Subscription.Take` | internal/infrastructure/coordination/redisSubscription.go:130-168 | A decodable entry becomes pending before the read position passes it; an undecodable one leaves the stream exactly when its deletion arrives, and is skipped either way. Nothing else leaves. |
| `CommandSubscription.Subscription.ReadOnce` | internal/infrastructure/coordination/redisSubscription.go:103-172 | A read takes the next batch to its end, or up to the decodable entry whose send is cancelled, and it is cancelled exactly when the batch has more of them than the channel takes. Exactly the decodable entries passed are handed over, each once, and become pending with their envelope and a fresh clock; exactly the undecodable ones passed leave the stream, unless their deletion does not arrive. |
| `CommandSubscription.Subscription.Ack` | internal/infrastructure/coordination/redisSubscription.go:30-41 | Only a confirmed deletion counts as an acknowledgement; exactly this entry leaves the stream, and only when the deletion arrives. |
| `CommandSubscription.Subscription.RedeliverPending` | internal/infrastructure/coordination/redisSubscription.go:174-194 | A pass drops exactly the acknowledged deliveries and hands over exactly the due ones the channel takes, restarting their clocks. |
| `CheckpointBarrier.CheckpointState.Protect` | internal/infrastructure/realtime/tickCheckpoint.go:28-67 | The exact verdict and the exact new barrier state for every combination of release, order, interval, lease and save outcome; no save is attempted after the release, and the sequence never decreases. |
| `CheckpointBarrier.CheckpointState.Release` | internal/infrastructure/realtime/tickCheckpoint.go:72-80 | The release is recorded even if the deletion fails, and stays. |
| `CheckpointBarrier.PublishedWasStored` | internal/infrastructure/realtime/tickHost.go:289-304 | Until the release every published change other than a blank one is preceded by a stored checkpoint with its critical key. |
| `CheckpointBarrier.CheckpointState.UnstoredIffBlank` | internal/infrastructure/realtime/tickCheckpoint.go:35-46 | Before the first save the guard lets a change pass without a save if and only if its sequence is not positive and its critical key is empty, whatever the interval and the force flag. |
| `CheckpointBarrier.SavesRise` | internal/infrastructure/realtime/tickCheckpoint.go:36-41 | The protected sequence strictly rises over the saves of a room. |
| `CheckpointBarrier.Publisher.PublishUpdate` | internal/infrastructure/realtime/tickHost.go:289-311 | One update: the exact conditions under which its change is skipped, stops the room, or is announced after any finalizer steps in between. |
| `CheckpointBarrier.Publisher.PublishTickUpdates` | internal/infrastructure/realtime/tickHost.go:273-313 | The loop announces exactly the changes of the updates that were sent, in order, until one stops the room, and keeps the barrier throughout. |
| `CheckpointBarrier.Publisher.FinalStep` | internal/infrastructure/realtime/roomCompletion.go:158-169 | The final save is forced: it is sent unless the barrier is released or the sequence is already protected, and once stored it is what the barrier protects. Dropping the checkpoint releases the barrier. |
| `CheckpointBarrier.Publisher.Finalize` | internal/infrastructure/realtime/roomCompletion.go:120-169 | The finalizer keeps the barrier and announces no change, whenever it runs, and releases the barrier exactly when it drops the checkpoint. |
| `RoomCompletion.RoomLoop.CaptureResult` | internal/infrastructure/realtime/roomCompletion.go:29-48 | The first proposed result is captured and never replaced; a broken runtime stops the room. |
| `RoomCompletion.RoomLoop.HoldDuringFinalization` | internal/infrastructure/realtime/roomCompletion.go:52-72 | A retried cancel is held while there is room and never acknowledged; every other command is rejected and acknowledged. With it the commit becomes misnamed exactly when the delivery matches the stored trigger, there is room for it, and no user cancelled the captured result. |
| `RoomCompletion.RoomLoop.RequestMatchCancellation` | internal/infrastructure/realtime/roomCompletion.go:89-115 | The trigger is stored exactly when the request arrives and the owner record takes it, remembered exactly when the reply arrives too, also when the runtime had already finished and the cancel is then refused. |
| `RoomCompletion.RoomLoop.CancelRunningMatch` | internal/infrastructure/realtime/roomCompletion.go:76-87 | Exactly an accepted cancel is held, exactly a refused one is acknowledged; a held delivery is acknowledged early if and only if its own redelivery is refused for good. |
| `RoomCompletion.RoomLoop.HandleDelivery` | internal/infrastructure/realtime/room.go:250-291 | Capture comes first. With a captured result the delivery is held or turned away; otherwise the cancel of a running tick game goes to its runtime and is held or refused, and any other command, a turn game's cancel too, is written to the session and acknowledged. Before the commit a held delivery is acknowledged if and only if no result was captured, it is a cancel of a running tick game, and its request is refused for good. |
| `RoomCompletion.HeldCancelIsLost` | internal/infrastructure/realtime/roomCompletion.go:76-87 | This does happen, for every cancel: it is held, delivered again, refused for good, and acknowledged while nothing is committed. |
| `RoomCompletion.RoomLoop.Open` | internal/infrastructure/realtime/roomManager.go:476-480 | The first state of an opened room is followed before anything else: a session that runs already gets its runtime or the result of its abandonment, and a failure ends the room. |
| `RoomCompletion.RoomLoop.Reconcile` | internal/infrastructure/realtime/room.go:225-248 | A captured result keeps reconciliation from writing the session; otherwise the written state is made current and followed, a failure stops the room, and no loop survives a reconciliation on a terminal session. |
| `RoomCompletion.RoomLoop.HandleDeadline` | internal/infrastructure/realtime/room.go:295-338 | A captured result never meets a deadline: those of a tick game end when its session runs, and a turn game captures nothing. At a deadline, the exact new state and when the loop ends; it goes on with a terminal session only if a failed advance found one stored, or the exclusion of players finished it. |
| `RoomCompletion.RoomLoop.CompleteMatch` | internal/infrastructure/realtime/roomCompletion.go:120-155 | Held cancels are acknowledged exactly when the commit succeeds; a transient failure within the budget leaves everything for the next attempt. |
| `RoomCompletion.RoomLoop.NamedIsStored` | internal/infrastructure/realtime/roomCompletion.go:173-182 | The author of the stored trigger is named to the commit for every result that a user cancelled, and whenever a cancel is held; exactly otherwise nobody is. |
| `RoomCompletion.RoomLoop.MisnamesIff` | internal/application/game/commands/completeMatch.go:92-100 | The commit refuses the name if and only if no user cancelled the result and a cancel is held, or the result gives the user's reason without being cancelled while a trigger is stored. |
| `RoomCompletion.RoomLoop.MisnamedForGood` | internal/infrastructure/realtime/roomCompletion.go:120-145 | Once a cancel is held for a result that no user cancelled, no later attempt of the room commits. |
| `RoomCompletion.RefusedCancelBlocksCommit` | internal/infrastructure/realtime/roomCompletion.go:52-115 | This does happen, for every cancel and every such result: the cancel is refused because the runtime had finished, delivered again and held, and from then on no attempt commits. |
| `RoomRegistry.RoomManager.EnsureRoom` | internal/infrastructure/realtime/roomManager.go:259-311 | Every answer exactly: a room held here with a valid lease is owned, a terminal one is reported so, an activation under way is waited for; a new activation begins exactly when the room has neither a room nor an activation here, and then every earlier activation of it has ended. |
| `RoomRegistry.RoomManager.Install` | internal/infrastructure/realtime/roomManager.go:478-500 | The installing activation never finds another room in its place. |
| `RoomRegistry.RoomManager.EndActivation` | internal/infrastructure/realtime/roomManager.go:299-308 | The activation leaves the map; it has ended unless its room was installed. |
| `RoomRegistry.RoomManager.RemoveRoom` | internal/infrastructure/realtime/roomManager.go:655-661 | Exactly this room is removed, and with it its activation has ended. |
| `GatewayClient.TrailGoesOn` | internal/infrastructure/realtime/gatewayV2.go:335-391 | A trail of positions that goes on from its last one, or further, never goes back; every frame, grant and refresh of a connection extends its trail by such a step, so over its whole life (epoch, sequence) never goes back. |
| `GatewayClient.ClientState.Observe` | internal/infrastructure/realtime/gatewayV2.go:335-362 | A frame is taken exactly when it is newer; a request of this epoch is answered with the newest frame seen; the cached frame carries exactly the position, and a newer epoch drops the grant. |
| `GatewayClient.ClientState.Take` | internal/infrastructure/realtime/gatewayV2.go:303-322 | A grant is taken unless its epoch is older; a held grant carries exactly the current epoch. |
| `GatewayClient.ClientState.Elect` | internal/infrastructure/realtime/gatewayV2.go:562-573 | A newer elected epoch resets frame, grant and sequence, and asks for a snapshot and a bind. |
| `GatewayClient.ClientState.Owed` | internal/infrastructure/realtime/gatewayV2.go:582-597 | A snapshot is requested once, and a bind exactly for a living player in play and at most once a second. |
| `GatewayClient.Client.EnqueueV2` | internal/infrastructure/realtime/gatewayV2.go:155-187 | Before activation messages are buffered in order up to capacity less two; afterwards a session snapshot that is not newer is dropped, a full queue stops the connection, and the broadcast versions ever sent strictly rise. |
| `GatewayClient.Client.ActivateV2` | internal/infrastructure/realtime/gatewayV2.go:189-227 | Activation succeeds if and only if the capacity is at least 3 and welcome, initial snapshot, turn state and kept messages fit; it then queues exactly those, in order. |
| `GatewayClient.Client.FlushPending` | internal/infrastructure/realtime/gatewayV2.go:206-218 | The loop keeps exactly the buffered messages that are not stale, in arrival order, and stops at the first that does not fit. |
| `GatewayClient.ActivationFits` | internal/infrastructure/realtime/gatewayV2.go:162-206 | Without a turn state every buffer the bound allows fits; with one, exactly those that keep one message fewer. |
| `GatewayClient.TurnActivationOverflows` | internal/infrastructure/realtime/gatewayV2.go:162-206 | For every capacity there is a buffer the bound allows with which a turn game's activation does not fit. |
| `GatewayClient.KeptStep` | internal/infrastructure/realtime/gatewayV2.go:207-212 | Comparing with the newest version so far drops exactly the snapshots that the initial version or an earlier buffered snapshot makes stale. |
| `GatewayClient.Client.EnqueueGameFrame` | internal/infrastructure/realtime/gatewayV2.go:335-391 | The position never goes back; a view waits for activation, is sent as a control message, or replaces the waiting frame, and the one-slot queue never blocks. |
| `GatewayClient.Client.HandleGrant` | internal/infrastructure/realtime/gatewayV2.go:303-325 | A taken grant is announced to the client; an older one changes nothing. |
| `GatewayClient.Client.RefreshPresence` | internal/infrastructure/realtime/gatewayV2.go:551-578 | A failed refresh stops the connection; a newly elected epoch is learnt; the position never goes back. |
| `RecoveryScan.ActiveSessionScanner.ListActiveSessions` | internal/data/database/activeGameSessionScanner.go:14-36 | A page holds the first keys past the cursor in key order, up to the limit; sizes outside 1 to 1000 are refused. |
| `RecoveryScan.RecoveryLoop.ScanPage` | internal/infrastructure/realtime/runtimeRecovery.go:27-82 | One tick considers a prefix of the page and asks for exactly its sessions without an owner, in order; it stops at the exact session that ran out of time or whose owner could not be read, and starts over exactly after a finished short page. |
| `RecoveryScan.RecoveryLoop.ReachSessions` | internal/infrastructure/realtime/runtimeRecovery.go:47-73 | The cursor moves to a session before anything is asked about it. |
| `RecoveryScan.ConsideredAscends` | internal/infrastructure/realtime/runtimeRecovery.go:47-53 | Within a cycle sessions are considered in strictly increasing key order, so none twice. |
| `RecoveryScan.CycleCoversOnce` | internal/infrastructure/realtime/runtimeRecovery.go:27-82 | While sessions come and go between pages, a finished cycle considers every key that was active at all of its pages exactly once. |
| `RecoveryScan.CycleEnds` | internal/infrastructure/realtime/runtimeRecovery.go:74-76 | Over an unchanged index without failures a cycle of n full pages and a short one ends with its tick n. |
| `RateLimit.WindowBound` | internal/infrastructure/realtime/gateway.go:705-712 | For every non-decreasing trace any half-open interval one window long lets at most 2 x maximum - 1 messages pass. |
| `RateLimit.WindowBoundIsSharp` | internal/infrastructure/realtime/gateway.go:705-712 | The bound is reached. |
| `RateLimit.ConnectionRateLimit.Allow` | internal/infrastructure/realtime/gateway.go:705-712 | The decision is the fixed window's on the whole history of the connection. |
| `RateLimit.PassChangesCounterIff` | internal/infrastructure/middleware/rateLimitMiddleware.go:42-70 | One janitor pass at time c changes the counter of a request at time t if and only if the key is stored and t <= resetAt < c. |
| `RateLimit.JanitorIsInvisibleIff` | internal/infrastructure/middleware/rateLimitMiddleware.go:42-70 | Over every history, with times in any order: the counters of a key are those of its own window without a janitor if and only if no request of it belongs to a window that an earlier pass removed. |
| `RateLimit.NothingEscapes` | internal/infrastructure/middleware/rateLimitMiddleware.go:42-70 | With non-decreasing times no request does. |
| `RateLimit.CounterIsPerKey` | internal/infrastructure/middleware/rateLimitMiddleware.go:58-70 | So with non-decreasing times a request's counter is its key's own fixed window over that key's request times. |
| `RateLimit.CleanupIsInvisible` | internal/infrastructure/middleware/rateLimitMiddleware.go:42-54 | Janitor passes at any points never change a decision, for non-decreasing times. |
| `RateLimit.MiddlewareBound` | internal/infrastructure/middleware/rateLimitMiddleware.go:56-98 | With any janitor passes a key passes at most 2 x maximum - 1 requests in an interval one window long. |
| `RateLimit.OvertakenRequestEscapes` | internal/infrastructure/middleware/rateLimitMiddleware.go:42-60 | For every maximum, a request whose time was read before a janitor pass that overtakes it escapes a full window and passes. |
| `RateLimit.RateLimiter.Handle` | internal/infrastructure/middleware/rateLimitMiddleware.go:56-98 | The stored counter decides, and the remaining budget is reported without going below zero. |
| `RateLimit.RateLimiter.Cleanup` | internal/infrastructure/middleware/rateLimitMiddleware.go:42-54 | The pass removes exactly the entries whose window has passed. |
| `ResetCode.GenerateResetCode` | internal/helpers/codeGenerator.go:51-75 | The in-place loops compute the drawn characters and their shuffle, with every index in range. |
| `ResetCode.ShuffleIsPermutation` | internal/helpers/codeGenerator.go:68-72 | The shuffle only rearranges. |
| `ResetCode.ShuffleIsInjective` | internal/helpers/codeGenerator.go:68-72 | On distinct characters different picks give different orders. |
| `ResetCode.CodeHasFourLettersTwoDigits` | internal/helpers/codeGenerator.go:57-74 | Every code has exactly four letters and two digits. |
| `ResetCode.EveryDrawOccurs` | internal/helpers/codeGenerator.go:57-72 | Every draw of characters and every pick of the shuffle occurs for some digest, all of them together. |
| `ResetCode.EveryCodeOccurs` | internal/helpers/codeGenerator.go:51-75 | So the codes are exactly the strings of four letters and two digits, in any order. |
| `ResetCode.TriedIff` | internal/helpers/codeGenerator.go:77-85 | The windows tried are exactly the current one and the one before, for all times in order. |
| `ResetCode.CodeLifetime` | internal/helpers/codeGenerator.go:44-85 | A code's window is tried whenever at most the validity has passed. Once twice the validity has, it is tried if and only if it was made before 1970, not at the start of a window, and is tried from 1970 on two window numbers later. |
| `ResetCode.EarlyCodeOutlives` | internal/helpers/codeGenerator.go:44-85 | For every validity that exception has an input: a code made one second into the last window before 1970 is tried one second into the second window from 1970 on. |
| `ResetCode.FreshCodeIsValid` | internal/helpers/codeGenerator.go:77-85 | So a code is accepted throughout its validity, for every address, secret and digest. |
| `DurationHistogram.Histogram.Observe` | internal/infrastructure/telemetry/durationHistogram.go:27-47 | Each observation is counted in exactly the first bucket whose bound it does not exceed, and count, sum and maximum follow the history. |
| `DurationHistogram.Histogram.UpperBound` | internal/infrastructure/telemetry/durationHistogram.go:66-75 | The least bucket bound covering the target number of actual observations, or the maximum when none does. |
| `DurationHistogram.Histogram.Snapshot` | internal/infrastructure/telemetry/durationHistogram.go:51-62 | The p95 and p99 values are those bounds for count - count/20 and count - count/100. |
| `DurationHistogram.BucketsCover` | internal/infrastructure/telemetry/durationHistogram.go:66-75 | The first buckets hold exactly the observations their last bound covers, and all of them every observation. |
| `DurationHistogram.UpperBoundCovers` | internal/infrastructure/telemetry/durationHistogram.go:51-75 | Either way the reported bound covers the target. |
| `DurationHistogram.PercentilesInOrder` | internal/infrastructure/telemetry/durationHistogram.go:58-60 | A higher percentile never reads lower. |

## Left out

- Assumptions about the stores: MongoDB transactions and Redis scripts are atomic, and their driver
  does not send one request twice; no owner record, receipt, result or session is removed by
  retention while a request is in flight; lease times are whole milliseconds, and fencing tokens
  are small enough for Lua to print exactly.
- Assumptions about values: UUIDs are fresh, so lease IDs are numbered in the order they are drawn
  and an empty lease ID does not occur; SHA-256 is injective; an HMAC is some function of its input.
- RoomTheorems.ValidLeaseIsHeld: says nothing within one time to live after a reset of Redis, as
  RoomReset.ResetSplitsRoom shows that it must not; clocks of all instances run at one rate.
- RoomTheorems.PublishedGenerationsRise: covers events published through Redis; delivery to sockets
  of the same instance does not pass through the channel and is not modelled.
- RoomTheorems.NoSaveAfterRelease: speaks of saves sent, as RoomDeletion.DeletionHoldsIff shows that
  it must.
- Repositories.GameSessionRepository.FindByID: stored session times keep their nanoseconds, so the
  store's rounding to milliseconds, and the restore error it causes for a time within a millisecond
  of the zero time, are not modelled.
- RecoveryScan.CycleEnds: assumes no failures and an unchanged index; otherwise a cycle may go on.
- Repositories.GameSessionRepository.Save: a client save without events may change the body of a
  session at its version, as the code allows; expiry dates of documents are not stored.
- Turn games in `RoomProtocol`: it follows a tick game's room; a turn game claims no owner record and
  has neither runtime nor checkpoint, and its match ends by a session write. A server without match
  storage, which captures no result, is left out as well.
- RoomCompletion.RoomLoop.MisnamesIff: preparing a result for the commit keeps its status and its end
  reason, as the codecs of the games do.
- RoomCompletion.RoomLoop.CompleteMatch: the checkpoint protected before the commit and the events
  announced after it are parameters of the attempt; the idle timer of the loop is left out.
- RoomRegistry.RoomManager.EnsureRoom: waiting for another activation is an answer, not a loop, and
  the limit on owned rooms is left out as a counter that is easy to prove.
- CommandSubscription.Subscription.ReadOnce: retention of the stream is left out; a send that blocks
  is one that is eventually taken or cancelled.
- GatewayClient.Client.EnqueueGameFrame: the wire order between the two queues is the writer's choice
  and no order is claimed for it; rendering and shared encodings of frames are a verdict.
- Game modules and the session domain: a runtime is a source of checkpoints and at most one result,
  and restoring a session is a predicate on the snapshot.
- Forwarding of deliveries to the owning instance, presence, gameplay input and the configuration bus.
- Graceful shutdown, metrics, goroutine scheduling and socket I/O.
- HTTP controllers, routing, e-mail, storage, localisation, sign-in and migrations. The unique
  indexes on receipts and active keys are taken from the migrations.
