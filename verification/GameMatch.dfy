/** The completion transaction of a match: one fenced, all-or-nothing write. */
module GameMatch {
  import opened Wrappers
  import opened GameDomain
  import opened RuntimeOwner

  datatype Receipt = Receipt(commandType: string, payloadHash: Digest, sessionID: string)

  type Receipts = map<(string, string), Receipt>

  datatype ResultDoc = ResultDoc(
    sessionID: string,
    houseID: string,
    gameKey: string,
    schemaVersion: int,
    status: MatchStatus,
    endReason: string,
    startedAt: int,
    endedAt: int,
    resultEventType: string,
    runtimeEpoch: int,
    payload: string,
    payloadValid: bool,
    payloadHash: Digest)
  {
    function Result(): MatchResult {
      MatchResult(sessionID, houseID, gameKey, schemaVersion, status, endReason, startedAt, endedAt, payload,
          payloadValid)
    }

    /** The checks FindResult makes on what it read. */
    predicate Readable() {
      Sha256(payload) == payloadHash && runtimeEpoch >= 1 && !Blank(resultEventType) && Result().Valid()
    }
  }

  datatype MatchCompletion = MatchCompletion(
    expectedVersion: int,
    session: SessionSnapshot,
    events: seq<SessionEvent>,
    result: MatchResult,
    owner: Option<OwnerRef>,
    command: Command,
    trigger: Option<Command>,
    resultEventType: string)

  /** Everything the transaction reads or writes for one session. */
  datatype MatchStore = MatchStore(
    owner: Option<OwnerDoc>,
    session: Option<SessionSnapshot>,
    result: Option<ResultDoc>,
    receipts: Receipts)

  datatype Outcome =
    | Stored | AlreadyStored
    | ResultConflict | InvalidBatch | OwnerConflict | DuplicateReceipt | VersionConflict
  {
    predicate Success() { Stored? || AlreadyStored? }
  }

  const MILLISECOND := 1_000_000

  function Millisecond(t: int): int {
    t / MILLISECOND * MILLISECOND
  }

  predicate SameMillisecond(a: int, b: int) {
    Millisecond(a) == Millisecond(b)
  }

  predicate SameMatchResult(a: ResultDoc, b: ResultDoc) {
    && a.sessionID == b.sessionID && a.houseID == b.houseID && a.gameKey == b.gameKey
    && a.schemaVersion == b.schemaVersion && a.status == b.status && a.endReason == b.endReason
    && a.resultEventType == b.resultEventType
    && a.payloadHash == b.payloadHash
    && SameMillisecond(a.startedAt, b.startedAt) && SameMillisecond(a.endedAt, b.endedAt)
  }

  predicate ResultBelongsToSession(result: MatchResult, session: SessionSnapshot) {
    && result.sessionID == session.sessionID && result.houseID == session.houseID && result.gameKey == session.gameKey
    && (|| (result.status.MatchCompleted? && session.state.Finished?)
        || (result.status.MatchCancelled? && session.state.Cancelled?))
    && result.endReason == session.endReason
    && SameMillisecond(result.endedAt, session.endedAt) && SameMillisecond(result.startedAt, session.startedAt)
  }

  predicate OwnerCompletes(ref: OwnerRef) {
    ref.generation > 0 && ref.instance != ""
  }

  /** An event batch moves a session from `expected` to the snapshot's version, one version per event. */
  predicate ValidBatch(expected: int, snapshot: SessionSnapshot, events: seq<SessionEvent>) {
    && 0 <= expected <= snapshot.version
    && Restorable(snapshot)
    && |events| == snapshot.version - expected
    && (forall i :: 0 <= i < |events| ==> ValidEvent(events[i], snapshot.sessionID, expected + i + 1))
    && (forall i, j :: 0 <= i < j < |events| ==> events[i].eventID != events[j].eventID)
  }

  predicate ValidEvent(event: SessionEvent, sessionID: string, version: int) {
    event.eventID != "" && event.sessionID == sessionID && event.kind != "" && event.occurredAt != 0
        && event.version == version
  }

  /** The checks Complete makes before it opens the transaction. */
  predicate ValidCompletion(c: MatchCompletion) {
    && ValidBatch(c.expectedVersion, c.session, c.events)
    && c.command.Described()
    && c.result.Valid() && !Blank(c.resultEventType)
    && ResultBelongsToSession(c.result, c.session)
    && (c.owner.Some? ==> OwnerCompletes(c.owner.value))
    && (c.trigger.Some? ==> c.trigger.value.Described())
    && Sha256(c.result.payload) == c.command.payloadHash
  }

  function Proposed(c: MatchCompletion): ResultDoc {
    var r := c.result;
    ResultDoc(r.sessionID, r.houseID, r.gameKey, r.schemaVersion, r.status, r.endReason, r.startedAt, r.endedAt,
              c.resultEventType, if c.owner.Some? then c.owner.value.generation else c.expectedVersion,
              r.payload, r.payloadValid, Sha256(r.payload))
  }

  /** BSON keeps dates at millisecond precision. */
  function AsStored(d: ResultDoc): ResultDoc {
    d.(startedAt := Millisecond(d.startedAt), endedAt := Millisecond(d.endedAt))
  }

  /** A system command keeps no receipt; a client command may have only one. */
  function InsertReceipt(receipts: Receipts, command: Command, sessionID: string): (r: Option<Receipts>) {
    if command.IsSystem() then Some(receipts)
    else if command.Key() in receipts then None
    else Some(receipts[command.Key() := Receipt(command.commandType, command.payloadHash, sessionID)])
  }

  function InsertCompletionReceipts(receipts: Receipts, c: MatchCompletion): (r: Option<Receipts>) {
    var own := InsertReceipt(receipts, c.command, c.result.sessionID);
    if own.None? || c.trigger.None? then own else InsertReceipt(own.value, c.trigger.value, c.result.sessionID)
  }

  predicate ReplacesRunning(session: Option<SessionSnapshot>, expected: int) {
    session.Some? && session.value.version == expected && session.value.state.Running?
  }

  /** The transaction body. Every outcome but Stored leaves the store as it was. */
  function CompleteTransaction(s: MatchStore, c: MatchCompletion): (r: (MatchStore, Outcome)) {
    if s.result.Some? then
      (s, if SameMatchResult(s.result.value, Proposed(c)) then AlreadyStored else ResultConflict)
    else if c.events == [] then
      (s, InvalidBatch)
    else
      var fence := if c.owner.Some? then CompleteUpdate(s.owner, c.owner.value) else (s.owner, true);
      var receipts := InsertCompletionReceipts(s.receipts, c);
      if !fence.1 then (s, OwnerConflict)
      else if receipts.None? then (s, DuplicateReceipt)
      else if !ReplacesRunning(s.session, c.expectedVersion) then (s, VersionConflict)
      else (MatchStore(fence.0, Some(c.session), Some(AsStored(Proposed(c))), receipts.value), Stored)
  }

  // ----- laws of the transaction

  lemma {:induction false} MillisecondIdempotent(t: int)
    ensures Millisecond(Millisecond(t)) == Millisecond(t)
    ensures Millisecond(t) <= t < Millisecond(t) + MILLISECOND
  {
    var q := t / MILLISECOND;
    assert q * MILLISECOND / MILLISECOND == q;
  }

  /** What is stored is recognised as the proposal it came from, at millisecond precision. */
  lemma StoredMatchesProposal(c: MatchCompletion)
    ensures SameMatchResult(AsStored(Proposed(c)), Proposed(c))
  {
    MillisecondIdempotent(c.result.startedAt);
    MillisecondIdempotent(c.result.endedAt);
  }

  /** What a valid completion stores can be read back exactly when its start does not round to the
      zero time and its epoch is positive. */
  lemma StoredIsReadable(c: MatchCompletion)
    requires ValidCompletion(c)
    ensures AsStored(Proposed(c)).Readable() <==> Millisecond(c.result.startedAt) != 0 && Proposed(c).runtimeEpoch >= 1
  {
    assert c.result.startedAt / MILLISECOND <= c.result.endedAt / MILLISECOND;
  }

  /** Results are compared by an equivalence, so two proposals that match one stored result match each other. */
  lemma SameMatchResultIsEquivalence(a: ResultDoc, b: ResultDoc, c: ResultDoc)
    ensures SameMatchResult(a, a)
    ensures SameMatchResult(a, b) ==> SameMatchResult(b, a)
    ensures SameMatchResult(a, b) && SameMatchResult(b, c) ==> SameMatchResult(a, c)
  {
  }

  /** A completion that succeeded can be retried: it finds itself stored and changes nothing, while
      any proposal of another result is refused. */
  lemma CompletionIsIdempotent(s: MatchStore, c: MatchCompletion, other: MatchCompletion)
    requires CompleteTransaction(s, c).1.Success()
    ensures var s' := CompleteTransaction(s, c).0;
            CompleteTransaction(s', c) == (s', AlreadyStored) && CompleteTransaction(s', other).0 == s'
    ensures var outcome, a, b := CompleteTransaction(CompleteTransaction(s, c).0, other).1, c.result, other.result;
            if && a.sessionID == b.sessionID && a.houseID == b.houseID && a.gameKey == b.gameKey
               && a.schemaVersion == b.schemaVersion && a.status == b.status && a.endReason == b.endReason
               && a.payload == b.payload && c.resultEventType == other.resultEventType
               && SameMillisecond(a.startedAt, b.startedAt) && SameMillisecond(a.endedAt, b.endedAt)
            then outcome.AlreadyStored? else outcome.ResultConflict?
  {
    StoredMatchesProposal(c);
  }

  /** What a completion stores: its result under its own event type, with the epoch of the owner it
      names, or else the version it expects. */
  lemma StoredFields(s: MatchStore, c: MatchCompletion)
    requires CompleteTransaction(s, c).1.Stored?
    ensures CompleteTransaction(s, c).0.result.Some? && CompleteTransaction(s, c).0.session == Some(c.session)
    ensures var d, r := CompleteTransaction(s, c).0.result.value, c.result;
            && d.sessionID == r.sessionID && d.houseID == r.houseID && d.gameKey == r.gameKey
            && d.schemaVersion == r.schemaVersion && d.status == r.status && d.endReason == r.endReason
            && d.payload == r.payload && d.payloadHash == Sha256(r.payload) && d.resultEventType == c.resultEventType
            && SameMillisecond(d.startedAt, r.startedAt) && SameMillisecond(d.endedAt, r.endedAt)
            && d.runtimeEpoch == if c.owner.Some? then c.owner.value.generation else c.expectedVersion
    ensures c.owner.Some? ==> CompleteTransaction(s, c).0.owner == Some(s.owner.value.(completed := true))
    ensures c.owner.None? ==> CompleteTransaction(s, c).0.owner == s.owner
  {
    MillisecondIdempotent(c.result.startedAt);
    MillisecondIdempotent(c.result.endedAt);
  }
}
