/** The MongoDB repositories as objects over one shared database. A call either leaves the database
    as it was or makes one accepted write; `fault` says what the caller gets to see of it. */
module Repositories {
  import opened Wrappers
  import opened GameDomain
  import opened RoomLease
  import opened RuntimeOwner
  import opened GameMatch
  import opened SessionStore

  datatype RepositoryError =
    | InvalidPersistenceBatch | InvalidCommand | CommandIDReused
    | SessionIDRequired | HouseIDRequired | GameKeyRequired
    | SessionNotFound | SessionAlreadyExists | ActiveSessionExists | ActiveSessionInvariant
    | ConcurrentSessionUpdate | DuplicateKey
    | RuntimeOwnerConflict | RuntimeRecoveryRequired
    | MatchResultConflict | MatchResultNotFound
    | Unavailable

  datatype PersistenceResult = PersistenceResult(sessionID: string, alreadyProcessed: bool)

  /** What the receipts say about a command: nothing, the session it went to, or a reused ID. */
  function Processed(db: Database, command: Command): Result<Option<PersistenceResult>, RepositoryError> {
    if !command.Described() then Err(InvalidCommand)
    else if command.IsSystem() || command.Key() !in db.receipts then Ok(None)
    else
      var receipt := db.receipts[command.Key()];
      if receipt.commandType != command.commandType || receipt.payloadHash != command.payloadHash
          then Err(CommandIDReused)
      else Ok(Some(PersistenceResult(receipt.sessionID, true)))
  }

  /** What a replay is told: for as long as the run goes on, a command whose ID was committed is reported
      with the session it went to when type and payload are the committed ones, and is refused as a
      reused ID when they are not. */
  lemma ReplayIsRecognised(run: seq<Database>, i: nat, n: nat, committed: Command, command: Command)
    requires StoreRun(run) && i < |run| && n < |run[i].writes|
    requires committed in run[i].writes[n].commands && !committed.IsSystem()
    requires command.Described() && command.Key() == committed.Key()
    ensures Processed(run[i], command) ==
            if command == committed then Ok(Some(PersistenceResult(run[i].writes[n].ID(), true)))
                else Err(CommandIDReused)
  {
    WriteLeavesReceipt(run, i, n, committed);
  }

  /** And a client command is reported as new exactly when no committed write carries its ID. */
  lemma NewIsUncommitted(run: seq<Database>, i: nat, command: Command)
    requires StoreRun(run) && i < |run| && command.Described() && !command.IsSystem()
    ensures Processed(run[i], command) == Ok(None) <==> Effects(run[i].writes, command.Key()) == 0
  {
    CommandTakesEffectOnce(run, i, command.Key());
  }

  /** The transaction's write is accepted and creates a session. */
  predicate Creates(db: Database, w: Write) {
    Accepts(db, w) && w.ID() !in db.sessions
  }

  predicate Replaces(db: Database, w: Write) {
    Accepts(db, w) && w.ID() in db.sessions
  }

  // ----- completion as a write of the session

  function Lookup<V>(m: map<string, V>, id: string): Option<V> {
    if id in m then Some(m[id]) else None
  }

  function View(db: Database, id: string): MatchStore {
    MatchStore(Lookup(db.owners, id), if id in db.sessions then Some(db.sessions[id].snapshot)
        else None, Lookup(db.results, id), db.receipts)
  }

  function CompletionWrite(c: MatchCompletion): Write {
    Write(c.session, c.expectedVersion, c.events, [c.command] + if c.trigger.Some? then [c.trigger.value] else [])
  }

  /** The database after the transaction of `c` was stored. */
  function Completed(db: Database, c: MatchCompletion): Database
    requires CompleteTransaction(View(db, c.result.sessionID), c).1.Stored?
  {
    var id := c.result.sessionID;
    var s := CompleteTransaction(View(db, id), c).0;
    Database(db.sessions[id := DocumentFrom(c.session)],
             s.receipts,
             if s.owner.Some? then db.owners[id := s.owner.value] else db.owners,
             db.results[id := s.result.value],
             db.writes + [CompletionWrite(c)])
  }

  lemma CompletionReceipts(receipts: Receipts, c: MatchCompletion)
    ensures InsertReceipts(receipts, CompletionWrite(c).commands, c.result.sessionID)
            == InsertCompletionReceipts(receipts, c)
  {
    var commands := CompletionWrite(c).commands;
    var own := InsertReceipt(receipts, c.command, c.result.sessionID);
    assert commands[0] == c.command;
    if own.Some? && c.trigger.Some? {
      assert commands[1..] == [c.trigger.value] && commands[1..][1..] == [];
      assert InsertReceipts(own.value, commands[1..], c.result.sessionID)
          == InsertReceipt(own.value, c.trigger.value, c.result.sessionID);
    }
  }

  /** A stored completion is one accepted write of the session it ends. */
  lemma CompletionIsWrite(db: Database, c: MatchCompletion)
    requires DocumentsOk(db.sessions) && ValidCompletion(c)
    requires CompleteTransaction(View(db, c.result.sessionID), c).1.Stored?
    ensures Replaces(db, CompletionWrite(c)) && SameSessions(Commit(db, CompletionWrite(c)), Completed(db, c))
    ensures Step(db, Completed(db, c))
  {
    CompletionReceipts(db.receipts, c);
    MillisecondIdempotent(c.result.startedAt);
    MillisecondIdempotent(c.result.endedAt);
    assert RecordsResult(db, CompletionWrite(c), Completed(db, c));
    assert Accepts(db, CompletionWrite(c));
  }

  /** A stored result has a positive epoch: the generation of a named owner, or else the version of a
      stored session. */
  lemma StoredEpochIsPositive(db: Database, c: MatchCompletion)
    requires DocumentsOk(db.sessions) && ValidCompletion(c)
    requires CompleteTransaction(View(db, c.result.sessionID), c).1.Stored?
    ensures Proposed(c).runtimeEpoch >= 1
  {
    assert DocumentOk(db.sessions[c.result.sessionID], c.result.sessionID);
  }

  /** A match that started within a millisecond of the zero time. */
  const AT_ZERO := MatchCompletion(
    1,
    SessionSnapshot("s", "h", "g", Finished, 2, 1, 2, "over", "", true),
    [SessionEvent("e", "s", "finished", 2, 2)],
    MatchResult("s", "h", "g", 1, MatchCompleted, "over", 1, 2, "{}", true),
    None,
    Command("c", SYSTEM_ACTOR, "complete", Sha256("{}")),
    None,
    "ended")

  /** Its valid completion is stored, and what was stored cannot be read back. */
  lemma StoredAtZeroIsUnreadable(receipts: Receipts, running: SessionSnapshot)
    requires running.version == 1 && running.state.Running?
    ensures ValidCompletion(AT_ZERO)
    ensures var r := CompleteTransaction(MatchStore(None, Some(running), None, receipts), AT_ZERO);
            r.1.Stored? && r.0.result.Some? && !r.0.result.value.Readable()
  {
    assert !Blank("s") && !Blank("h") && !Blank("g") && !Blank("over") && !Blank("ended") by {
      NotBlank("s");
      NotBlank("h");
      NotBlank("g");
      NotBlank("over");
      NotBlank("ended");
    }
    assert Millisecond(1) == 0 == Millisecond(2);
  }

  /** What the unique index finds is the one document with the joined key. */
  lemma FoundIsOnly(db: Database, found: Option<SessionDoc>, houseID: string, gameKey: string)
    requires DocumentsOk(db.sessions) && Indexed(db, found, houseID, gameKey)
    ensures found.None? ==> forall id :: !IsActive(db, id, houseID, gameKey) && !Collides(db, id, houseID, gameKey)
    ensures found.Some? ==>
              && var id := found.value.snapshot.sessionID;
              && id in db.sessions && db.sessions[id] == found.value
              && found.value.activeKey == Some(ActiveSessionKey(houseID, gameKey))
              && (forall other :: IsActive(db, other, houseID, gameKey) ==> other == id)
              && (forall other :: Collides(db, other, houseID, gameKey) ==> other == id)
              && (IsActive(db, id, houseID, gameKey) <==> !Collides(db, id, houseID, gameKey))
  {
    forall id | id in db.sessions ensures DocumentOk(db.sessions[id], id) {}
  }

  /** A pair has at most one active session, and then no other pair's has its joined key. */
  lemma OneActive(db: Database, houseID: string, gameKey: string)
    requires DocumentsOk(db.sessions)
    ensures forall a, b :: IsActive(db, a, houseID, gameKey) && IsActive(db, b, houseID, gameKey) ==> a == b
    ensures forall a, b :: IsActive(db, a, houseID, gameKey) ==> !Collides(db, b, houseID, gameKey)
  {
    forall id | id in db.sessions ensures DocumentOk(db.sessions[id], id) {}
  }

  class MongoDatabase {
    var db: Database

    constructor ()
      ensures db == EMPTY && Valid()
    {
      db := EMPTY;
    }

    ghost predicate Valid()
      reads this
    {
      DocumentsOk(db.sessions)
    }
  }

  class GameSessionRepository {
    const mongo: MongoDatabase

    constructor (mongo: MongoDatabase)
      ensures this.mongo == mongo
    {
      this.mongo := mongo;
    }

    static method ValidatePersistenceBatch(expected: int, snapshot: SessionSnapshot, events: seq<SessionEvent>)
      returns (ok: bool)
      ensures ok <==> ValidBatch(expected, snapshot, events)
    {
      if expected < 0 || snapshot.version < expected || !Restorable(snapshot) {
        return false;
      }
      if |events| == 0 {
        return snapshot.version == expected;
      }
      if |events| != snapshot.version - expected {
        return false;
      }
      var eventIDs: set<string> := {};
      for index := 0 to |events|
        invariant eventIDs == set i | 0 <= i < index :: events[i].eventID
        invariant forall i :: 0 <= i < index ==> ValidEvent(events[i], snapshot.sessionID, expected + i + 1)
        invariant forall i, j :: 0 <= i < j < index ==> events[i].eventID != events[j].eventID
      {
        var event := events[index];
        if !ValidEvent(event, snapshot.sessionID, expected + index + 1) {
          return false;
        }
        if event.eventID in eventIDs {
          var i :| 0 <= i < index && events[i].eventID == event.eventID;
          return false;
        }
        eventIDs := eventIDs + {event.eventID};
      }
      return true;
    }

    method FindProcessedCommand(command: Command) returns (r: Result<Option<PersistenceResult>, RepositoryError>)
      ensures r == Processed(mongo.db, command)
    {
      if !command.Described() {
        return Err(InvalidCommand);
      }
      if command.IsSystem() || command.Key() !in mongo.db.receipts {
        return Ok(None);
      }
      var receipt := mongo.db.receipts[command.Key()];
      if receipt.commandType != command.commandType || receipt.payloadHash != command.payloadHash {
        return Err(CommandIDReused);
      }
      return Ok(Some(PersistenceResult(receipt.sessionID, true)));
    }

    method FindByID(sessionID: string) returns (r: Result<SessionSnapshot, RepositoryError>)
      requires mongo.Valid()
      ensures sessionID == "" ==> r == Err(SessionIDRequired)
      ensures sessionID != "" && sessionID in mongo.db.sessions ==>
              r == Ok(mongo.db.sessions[sessionID].snapshot)
              && Restorable(r.value)
      ensures sessionID != "" && sessionID !in mongo.db.sessions ==> r == Err(SessionNotFound)
    {
      if sessionID == "" {
        return Err(SessionIDRequired);
      }
      if sessionID !in mongo.db.sessions {
        return Err(SessionNotFound);
      }
      assert DocumentOk(mongo.db.sessions[sessionID], sessionID);
      return Ok(mongo.db.sessions[sessionID].snapshot);
    }

    /** The lookup by joined key; it agrees with a scan by pair as IndexAgreesIff says. */
    method FindActive(houseID: string, gameKey: string) returns (r: Result<SessionSnapshot, RepositoryError>)
      requires mongo.Valid()
      ensures houseID == "" ==> r == Err(HouseIDRequired)
      ensures houseID != "" && gameKey == "" ==> r == Err(GameKeyRequired)
      ensures houseID != "" && gameKey != "" ==>
                exists found :: Indexed(mongo.db, found, houseID, gameKey) &&
                                r == match AnswerActive(found, houseID, gameKey)
                                     case Active(s) => Ok(s)
                                     case NoActive => Err(SessionNotFound)
                                     case BrokenInvariant => Err(ActiveSessionInvariant)
      ensures houseID != "" && gameKey != "" ==>
                && (r.Ok? <==> exists id :: IsActive(mongo.db, id, houseID, gameKey))
                && (r.Ok? ==> IsActive(mongo.db, r.value.sessionID, houseID, gameKey)
                              && mongo.db.sessions[r.value.sessionID].snapshot == r.value)
                && (r == Err(ActiveSessionInvariant) <==> exists id :: Collides(mongo.db, id, houseID, gameKey))
                && (r.Err? ==> r.error == ActiveSessionInvariant || r.error == SessionNotFound)
    {
      if houseID == "" {
        return Err(HouseIDRequired);
      }
      if gameKey == "" {
        return Err(GameKeyRequired);
      }
      var key := ActiveSessionKey(houseID, gameKey);
      var found: Option<SessionDoc> := None;
      if exists id :: id in mongo.db.sessions && mongo.db.sessions[id].activeKey == Some(key) {
        var id :| id in mongo.db.sessions && mongo.db.sessions[id].activeKey == Some(key);
        found := Some(mongo.db.sessions[id]);
      }
      assert Indexed(mongo.db, found, houseID, gameKey);
      FoundIsOnly(mongo.db, found, houseID, gameKey);
      if found.None? {
        return Err(SessionNotFound);
      }
      var snapshot := found.value.snapshot;
      if snapshot.houseID != houseID || snapshot.gameKey != gameKey || IsTerminal(snapshot.state) {
        return Err(ActiveSessionInvariant);
      }
      return Ok(snapshot);
    }

    method Create(snapshot: SessionSnapshot, events: seq<SessionEvent>, command: Command, fault: Fault)
      returns (r: Result<PersistenceResult, RepositoryError>)
      requires mongo.Valid()
      modifies mongo
      ensures mongo.Valid() && Step(old(mongo.db), mongo.db)
      ensures var w := Write(snapshot, 0, events, [command]);
              mongo.db == if command.Described() && !fault.LostRequest? && Creates(old(mongo.db), w)
                  then Commit(old(mongo.db), w) else old(mongo.db)
      ensures r == Ok(PersistenceResult(snapshot.sessionID, false)) <==>
              command.Described() && fault.Replied? && Creates(old(mongo.db), Write(snapshot, 0, events, [command]))
      ensures r.Ok? && r.value.alreadyProcessed ==> Processed(old(mongo.db), command) == Ok(Some(r.value))
      ensures !ValidBatch(0, snapshot, events) ==> r == Err(InvalidPersistenceBatch)
      ensures ValidBatch(0, snapshot, events) && !command.Described() ==> r == Err(InvalidCommand)
      ensures ValidBatch(0, snapshot, events) && command.Described() && !fault.Replied? ==> r == Err(Unavailable)
      ensures fault.Replied? && Processed(old(mongo.db), command) == Err(CommandIDReused)
              && ValidBatch(0, snapshot, events)
              ==> r == Err(CommandIDReused)
      ensures fault.Replied? && ValidBatch(0, snapshot, events)
              && Processed(old(mongo.db), command).Ok? && Processed(old(mongo.db), command).value.Some?
              ==> r == Ok(Processed(old(mongo.db), command).value.value) && mongo.db == old(mongo.db)
      ensures fault.Replied? && ValidBatch(0, snapshot, events) && Processed(old(mongo.db), command) == Ok(None)
              && !Creates(old(mongo.db), Write(snapshot, 0, events, [command]))
              ==> r == Err(if exists id :: && IsActive(old(mongo.db), id, snapshot.houseID, snapshot.gameKey)
                                           && id != snapshot.sessionID
                           then ActiveSessionExists
                           else if exists id :: Collides(old(mongo.db), id, snapshot.houseID, snapshot.gameKey)
                           then ActiveSessionInvariant
                           else SessionAlreadyExists)
      ensures r == Err(SessionAlreadyExists) ==> snapshot.sessionID in old(mongo.db).sessions
    {
      var valid := ValidatePersistenceBatch(0, snapshot, events);
      if !valid {
        return Err(InvalidPersistenceBatch);
      }
      if !command.Described() {
        return Err(InvalidCommand);
      }
      ghost var w := Write(snapshot, 0, events, [command]);
      SingleReceipt(mongo.db.receipts, command, snapshot.sessionID);
      if fault.LostRequest? {
        return Err(Unavailable);
      }
      var document := DocumentFrom(snapshot);
      var receipts := InsertReceipt(mongo.db.receipts, command, snapshot.sessionID);
      if receipts.Some? && snapshot.sessionID !in mongo.db.sessions && !KeyTaken(mongo.db.sessions, document) {
        assert Creates(mongo.db, w);
        CommitDocuments(mongo.db, w);
        mongo.db := mongo.db.(sessions := mongo.db.sessions[snapshot.sessionID := document], receipts := receipts.value,
                              writes := mongo.db.writes + [Write(snapshot, 0, events, [command])]);
        if fault.LostReply? {
          return Err(Unavailable);
        }
        return Ok(PersistenceResult(snapshot.sessionID, false));
      }
      if fault.LostReply? {
        return Err(Unavailable);
      }
      var processed := FindProcessedCommand(command);
      if processed.Err? {
        return Err(processed.error);
      }
      if processed.value.Some? {
        return Ok(processed.value.value);
      }
      var active := FindActive(snapshot.houseID, snapshot.gameKey);
      OneActive(mongo.db, snapshot.houseID, snapshot.gameKey);
      if active.Ok? && active.value.sessionID != snapshot.sessionID {
        return Err(ActiveSessionExists);
      }
      if active.Err? && active.error != SessionNotFound {
        return Err(active.error);
      }
      return Err(SessionAlreadyExists);
    }

    method Save(expected: int, snapshot: SessionSnapshot, events: seq<SessionEvent>, command: Command, fault: Fault)
      returns (r: Result<PersistenceResult, RepositoryError>)
      requires mongo.Valid()
      modifies mongo
      ensures mongo.Valid() && Step(old(mongo.db), mongo.db)
      ensures var w := Write(snapshot, expected, events, [command]);
              mongo.db == if command.Described() && !fault.LostRequest? && !(command.IsSystem() && events == [])
                  && Replaces(old(mongo.db), w)
                          then Commit(old(mongo.db), w) else old(mongo.db)
      ensures r == Ok(PersistenceResult(snapshot.sessionID, false)) <==>
              && command.Described() && ValidBatch(expected, snapshot, events)
              && ((command.IsSystem() && events == [])
                  || (fault.Replied? && Replaces(old(mongo.db), Write(snapshot, expected, events, [command]))))
      ensures r.Ok? && r.value.alreadyProcessed ==> Processed(mongo.db, command) == Ok(Some(r.value))
      ensures command.Described() && !command.IsSystem() && fault.LostReply?
              && Replaces(old(mongo.db), Write(snapshot, expected, events, [command]))
              ==> r == Ok(PersistenceResult(snapshot.sessionID, true))
      ensures !ValidBatch(expected, snapshot, events) ==> r == Err(InvalidPersistenceBatch)
      ensures ValidBatch(expected, snapshot, events) && !command.Described() ==> r == Err(InvalidCommand)
      ensures Processed(old(mongo.db), command) == Err(CommandIDReused) && ValidBatch(expected, snapshot, events) ==>
              r == Err(CommandIDReused)
      ensures ValidBatch(expected, snapshot, events) && Processed(old(mongo.db), command) == Ok(None)
              && !(command.IsSystem() && events == []) && r.Err? ==>
                r.error == if !fault.Replied? then Unavailable
                           else if snapshot.sessionID !in old(mongo.db).sessions then SessionNotFound
                           else if old(mongo.db).sessions[snapshot.sessionID].snapshot.version != expected then
                             ConcurrentSessionUpdate
                           else DuplicateKey
      ensures Processed(old(mongo.db), command).Ok? && Processed(old(mongo.db), command).value.Some?
              && ValidBatch(expected, snapshot, events)
              ==> r == Ok(Processed(old(mongo.db), command).value.value) && mongo.db == old(mongo.db)
    {
      var valid := ValidatePersistenceBatch(expected, snapshot, events);
      if !valid {
        return Err(InvalidPersistenceBatch);
      }
      if !command.Described() {
        return Err(InvalidCommand);
      }
      if command.IsSystem() && |events| == 0 {
        return Ok(PersistenceResult(snapshot.sessionID, false));
      }
      SingleReceipt(mongo.db.receipts, command, snapshot.sessionID);
      var failure := Unavailable;
      if !fault.LostRequest? {
        var receipts := InsertReceipt(mongo.db.receipts, command, snapshot.sessionID);
        if receipts.None? {
          failure := DuplicateKey;
        } else {
          var replaced := ReplaceSession(expected, DocumentFrom(snapshot), receipts.value, events, command);
          if replaced.Ok? && fault.Replied? {
            return Ok(PersistenceResult(snapshot.sessionID, false));
          }
          failure := if fault.LostReply? || replaced.Ok? then Unavailable else replaced.error;
        }
      }
      if command.IsSystem() && !IsTerminal(snapshot.state) {
        return Err(failure);
      }
      var processed := FindProcessedCommand(command);
      if processed.Err? {
        return Err(processed.error);
      }
      if processed.value.Some? {
        return Ok(processed.value.value);
      }
      return Err(failure);
    }

    /** The optimistic-concurrency write, with the receipts of its transaction. */
    method ReplaceSession(expected: int, document: SessionDoc, receipts: Receipts, events: seq<SessionEvent>,
        command: Command)
      returns (r: Result<(), RepositoryError>)
      requires mongo.Valid() && document == DocumentFrom(document.snapshot)
      requires ValidBatch(expected, document.snapshot, events)
      requires InsertReceipts(mongo.db.receipts, [command], document.snapshot.sessionID) == Some(receipts)
      modifies mongo
      ensures mongo.Valid()
      ensures var w := Write(document.snapshot, expected, events, [command]);
              && (r.Ok? <==> Replaces(old(mongo.db), w))
              && mongo.db == (if Replaces(old(mongo.db), w) then Commit(old(mongo.db), w) else old(mongo.db))
      ensures r == Err(SessionNotFound) <==> document.snapshot.sessionID !in old(mongo.db).sessions
      ensures r == Err(ConcurrentSessionUpdate) <==>
              document.snapshot.sessionID in old(mongo.db).sessions
                  && old(mongo.db).sessions[document.snapshot.sessionID].snapshot.version != expected
      ensures r.Err? ==> r.error in {SessionNotFound, ConcurrentSessionUpdate, DuplicateKey}
    {
      var id := document.snapshot.sessionID;
      if id in mongo.db.sessions && mongo.db.sessions[id].snapshot.version == expected {
        if KeyTaken(mongo.db.sessions, document) {
          return Err(DuplicateKey);
        }
        CommitDocuments(mongo.db, Write(document.snapshot, expected, events, [command]));
        mongo.db := mongo.db.(sessions := mongo.db.sessions[id := document], receipts := receipts,
                              writes := mongo.db.writes + [Write(document.snapshot, expected, events, [command])]);
        return Ok(());
      }
      if id !in mongo.db.sessions {
        return Err(SessionNotFound);
      }
      return Err(ConcurrentSessionUpdate);
    }

    // ----- runtime owners

    method FindRuntimeOwner(sessionID: string) returns (r: Result<Option<OwnerDoc>, RepositoryError>)
      ensures sessionID == "" ==> r == Err(RuntimeOwnerConflict)
      ensures sessionID != "" ==> r == Ok(Lookup(mongo.db.owners, sessionID))
    {
      if sessionID == "" {
        return Err(RuntimeOwnerConflict);
      }
      return Ok(if sessionID in mongo.db.owners then Some(mongo.db.owners[sessionID]) else None);
    }

    /** The find-and-update of a claim, tied to ClaimUpdate. */
    method ClaimRuntimeOwner(sessionID: string, expected: int, instance: string, lease: LeaseID, fault: Fault)
      returns (r: Result<OwnerDoc, RepositoryError>)
      modifies mongo
      ensures var update := ClaimUpdate(Lookup(old(mongo.db).owners, sessionID), expected, instance, lease);
              var takes := sessionID != "" && instance != "" && update.1.Some?;
              && mongo.db == (if takes && !fault.LostRequest?
                  then old(mongo.db).(owners := old(mongo.db).owners[sessionID := update.1.value])
                              else old(mongo.db))
              && (r.Ok? <==> takes && fault.Replied?)
              && (r.Ok? ==> r.value == update.1.value)
              && (r.Err? ==> r.error == RuntimeOwnerConflict || (r.error == Unavailable && !fault.Replied?))
    {
      if expected < 0 || expected == MAX_INT64 || sessionID == "" || instance == "" {
        return Err(RuntimeOwnerConflict);
      }
      if fault.LostRequest? {
        return Err(Unavailable);
      }
      var claimed: OwnerDoc;
      if sessionID in mongo.db.owners {
        var doc := mongo.db.owners[sessionID];
        if doc.generation != expected || doc.completed {
          return Err(if fault.LostReply? then Unavailable else RuntimeOwnerConflict);
        }
        claimed := doc.(generation := doc.generation + 1, instance := instance, lease := lease);
      } else {
        if expected != 0 {
          return Err(if fault.LostReply? then Unavailable else RuntimeOwnerConflict);
        }
        claimed := OwnerDoc(1, instance, lease, false, false, None);
      }
      mongo.db := mongo.db.(owners := mongo.db.owners[sessionID := claimed]);
      if fault.LostReply? {
        return Err(Unavailable);
      }
      return Ok(claimed);
    }

    method MarkRuntimeStarted(sessionID: string, ref: OwnerRef, fault: Fault) returns (r: Result<(), RepositoryError>)
      modifies mongo
      ensures var update := MarkStartedUpdate(Lookup(old(mongo.db).owners, sessionID), ref);
              && mongo.db == (if update.1 && !fault.LostRequest?
                  then old(mongo.db).(owners := old(mongo.db).owners[sessionID := update.0.value])
                              else old(mongo.db))
              && (r.Ok? <==> update.1 && fault.Replied?)
              && (fault.Replied? && !update.1 ==> r == Err(RuntimeRecoveryRequired))
              && (!fault.Replied? ==> r == Err(Unavailable))
    {
      if fault.LostRequest? {
        return Err(Unavailable);
      }
      var matched := false;
      if sessionID in mongo.db.owners {
        var doc := mongo.db.owners[sessionID];
        if doc.generation == ref.generation && doc.instance == ref.instance && doc.lease == ref.lease && !doc.started {
          matched := true;
          mongo.db := mongo.db.(owners := mongo.db.owners[sessionID := doc.(started := true)]);
        }
      }
      if fault.LostReply? {
        return Err(Unavailable);
      }
      return if matched then Ok(()) else Err(RuntimeRecoveryRequired);
    }

    method SaveCompletionTrigger(sessionID: string, ref: OwnerRef, command: Command, fault: Fault)
      returns (r: Result<(), RepositoryError>)
      modifies mongo
      ensures !command.Described() ==> r == Err(InvalidCommand) && mongo.db == old(mongo.db)
      ensures var update := TriggerUpdate(Lookup(old(mongo.db).owners, sessionID), ref, command);
              command.Described() ==>
                && mongo.db == (if update.1 && !fault.LostRequest?
                    then old(mongo.db).(owners := old(mongo.db).owners[sessionID := update.0.value])
                                else old(mongo.db))
                && (r.Ok? <==> update.1 && fault.Replied?)
                && (fault.Replied? && !update.1 ==> r == Err(RuntimeOwnerConflict))
                && (!fault.Replied? ==> r == Err(Unavailable))
    {
      if !command.Described() {
        return Err(InvalidCommand);
      }
      if fault.LostRequest? {
        return Err(Unavailable);
      }
      var matched := false;
      if sessionID in mongo.db.owners {
        var doc := mongo.db.owners[sessionID];
        if doc.generation == ref.generation && doc.instance == ref.instance && doc.lease == ref.lease && doc.started
            && !doc.completed
           && (doc.trigger.None? || doc.trigger.value == command) {
          matched := true;
          mongo.db := mongo.db.(owners := mongo.db.owners[sessionID := doc.(trigger := Some(command))]);
        }
      }
      if fault.LostReply? {
        return Err(Unavailable);
      }
      return if matched then Ok(()) else Err(RuntimeOwnerConflict);
    }
  }

  class GameMatchRepository {
    const sessions: GameSessionRepository

    constructor (sessions: GameSessionRepository)
      ensures this.sessions == sessions
    {
      this.sessions := sessions;
    }

    method FindResult(sessionID: string) returns (r: Result<MatchResult, RepositoryError>)
      ensures var doc := Lookup(sessions.mongo.db.results, sessionID);
              r == if doc.None? then Err(MatchResultNotFound)
                   else if doc.value.Readable() then Ok(doc.value.Result())
                   else Err(InvalidPersistenceBatch)
    {
      if sessionID !in sessions.mongo.db.results {
        return Err(MatchResultNotFound);
      }
      var document := sessions.mongo.db.results[sessionID];
      if Sha256(document.payload) != document.payloadHash || document.runtimeEpoch < 1
          || Blank(document.resultEventType)
         || !document.Result().Valid() {
        return Err(InvalidPersistenceBatch);
      }
      return Ok(document.Result());
    }

    /** One fenced transaction. Success means that the stored result is the proposed one, even when
        the reply of the commit was lost; a failure whose write did not take effect changes nothing. */
    method Complete(c: MatchCompletion, fault: Fault) returns (r: Result<MatchResult, RepositoryError>)
      requires sessions.mongo.Valid()
      modifies sessions.mongo
      ensures sessions.mongo.Valid() && Step(old(sessions.mongo.db), sessions.mongo.db)
      ensures var outcome := CompleteTransaction(View(old(sessions.mongo.db), c.result.sessionID), c).1;
              sessions.mongo.db == if ValidCompletion(c) && !fault.LostRequest? && outcome.Stored?
                  then Completed(old(sessions.mongo.db), c)
                                   else old(sessions.mongo.db)
      ensures !ValidCompletion(c) ==> r == Err(InvalidPersistenceBatch)
      ensures r.Ok? ==>
                && c.command.Described() && c.command.payloadHash == Sha256(r.value.payload)
                && (c.trigger.Some? ==> c.trigger.value.Described())
                && (c.owner.Some? ==> c.owner.value.generation > 0 && c.owner.value.instance != "")
      ensures r.Ok? ==>
                && c.result.sessionID in sessions.mongo.db.results
                && r.value == sessions.mongo.db.results[c.result.sessionID].Result()
                && var a, b := r.value, c.result;
                && a.sessionID == b.sessionID && a.houseID == b.houseID && a.gameKey == b.gameKey
                && a.schemaVersion == b.schemaVersion && a.status == b.status && a.endReason == b.endReason
                && a.payload == b.payload
                && SameMillisecond(a.startedAt, b.startedAt) && SameMillisecond(a.endedAt, b.endedAt)
      ensures ValidCompletion(c) && c.result.sessionID in old(sessions.mongo.db.results) ==>
                var a, b := old(sessions.mongo.db.results[c.result.sessionID]), c.result;
                (r != Err(MatchResultConflict) <==>
                  && a.sessionID == b.sessionID && a.houseID == b.houseID && a.gameKey == b.gameKey
                  && a.schemaVersion == b.schemaVersion && a.status == b.status && a.endReason == b.endReason
                  && a.payloadHash == Sha256(b.payload) && a.resultEventType == c.resultEventType
                  && SameMillisecond(a.startedAt, b.startedAt) && SameMillisecond(a.endedAt, b.endedAt))
      ensures ValidCompletion(c) && c.result.sessionID !in old(sessions.mongo.db.results) ==>
                var outcome := CompleteTransaction(View(old(sessions.mongo.db), c.result.sessionID), c).1;
                r != Err(MatchResultConflict) && (!outcome.Stored? || fault.LostRequest? ==>
                  r == Err(if !fault.Replied? then Unavailable
                           else match outcome
                             case OwnerConflict => RuntimeOwnerConflict
                             case DuplicateReceipt => DuplicateKey
                             case VersionConflict => ConcurrentSessionUpdate
                             case _ => InvalidPersistenceBatch))
      ensures var outcome := CompleteTransaction(View(old(sessions.mongo.db), c.result.sessionID), c).1;
              ValidCompletion(c) && !fault.LostRequest? && outcome.Stored? ==>
                (r.Ok? <==> Millisecond(c.result.startedAt) != 0)
    {
      if !ValidCompletion(c) {
        return Err(InvalidPersistenceBatch);
      }
      var mongo := sessions.mongo;
      var id := c.result.sessionID;
      var failure := Some(Unavailable);
      StoredIsReadable(c);
      if CompleteTransaction(View(mongo.db, id), c).1.Stored? { StoredEpochIsPositive(mongo.db, c); }
      if !fault.LostRequest? {
        var committed := CompleteWithin(c);
        failure := if fault.LostReply? then Some(Unavailable) else committed;
      }
      if failure.Some? && id in mongo.db.results {
        if !SameMatchResult(mongo.db.results[id], Proposed(c)) {
          return Err(MatchResultConflict);
        }
        failure := None;
      }
      if failure.Some? {
        return Err(failure.value);
      }
      r := FindResult(id);
    }

    /** The body of the transaction: its writes in order, all or none of them kept. */
    method CompleteWithin(c: MatchCompletion) returns (failure: Option<RepositoryError>)
      requires sessions.mongo.Valid() && ValidCompletion(c)
      modifies sessions.mongo
      ensures sessions.mongo.Valid() && Step(old(sessions.mongo.db), sessions.mongo.db)
      ensures var outcome := CompleteTransaction(View(old(sessions.mongo.db), c.result.sessionID), c).1;
              && sessions.mongo.db == (if outcome.Stored? then Completed(old(sessions.mongo.db), c)
                  else old(sessions.mongo.db))
              && (failure.None? <==> outcome.Success())
              && (failure == Some(MatchResultConflict) <==> outcome.ResultConflict?)
              && (failure == Some(RuntimeOwnerConflict) <==> outcome.OwnerConflict?)
              && (failure == Some(ConcurrentSessionUpdate) <==> outcome.VersionConflict?)
              && (failure == Some(DuplicateKey) <==> outcome.DuplicateReceipt?)
              && (failure == Some(InvalidPersistenceBatch) <==> outcome.InvalidBatch?)
      ensures failure.None? ==> c.result.sessionID in sessions.mongo.db.results
                                && SameMatchResult(sessions.mongo.db.results[c.result.sessionID], Proposed(c))
    {
      var mongo := sessions.mongo;
      var id := c.result.sessionID;
      if id in mongo.db.results {
        return if SameMatchResult(mongo.db.results[id], Proposed(c)) then None else Some(MatchResultConflict);
      }
      if |c.events| == 0 {
        return Some(InvalidPersistenceBatch);
      }
      var owners := mongo.db.owners;
      if c.owner.Some? {
        var ref := c.owner.value;
        if id !in owners {
          return Some(RuntimeOwnerConflict);
        }
        var doc := owners[id];
        if doc.generation != ref.generation || doc.instance != ref.instance || doc.lease != ref.lease || !doc.started
            || doc.completed {
          return Some(RuntimeOwnerConflict);
        }
        owners := owners[id := doc.(completed := true)];
      }
      var receipts := InsertReceipt(mongo.db.receipts, c.command, id);
      if receipts.None? {
        return Some(DuplicateKey);
      }
      if c.trigger.Some? {
        receipts := InsertReceipt(receipts.value, c.trigger.value, id);
        if receipts.None? {
          return Some(DuplicateKey);
        }
      }
      if id !in mongo.db.sessions {
        return Some(ConcurrentSessionUpdate);
      }
      var stored := mongo.db.sessions[id].snapshot;
      if stored.version != c.expectedVersion || !stored.state.Running? {
        return Some(ConcurrentSessionUpdate);
      }
      CompletionIsWrite(mongo.db, c);
      CommitDocuments(mongo.db, CompletionWrite(c));
      StoredMatchesProposal(c);
      OwnersKept(mongo.db.owners, id);
      mongo.db := Database(mongo.db.sessions[id := DocumentFrom(c.session)], receipts.value, owners,
          mongo.db.results[id := AsStored(Proposed(c))],
                           mongo.db.writes + [CompletionWrite(c)]);
      return None;
    }
  }

  lemma OwnersKept(owners: map<string, OwnerDoc>, id: string)
    ensures id in owners ==> owners == owners[id := owners[id]]
  {
  }

  lemma SingleReceipt(receipts: Receipts, command: Command, sessionID: string)
    ensures InsertReceipts(receipts, [command], sessionID) == InsertReceipt(receipts, command, sessionID)
  {
    assert [command][1..] == [];
  }
}
