/** Values shared by the session store, the match repository and the room runtime. */
module GameDomain {
  import opened Wrappers

  /** True when strings.TrimSpace leaves nothing. */
  predicate Blank(s: string) {
    forall i :: 0 <= i < |s| ==> s[i] in {' ', '\t', '\n', '\r', '\U{0B}', '\U{0C}', '\U{85}', '\U{A0}'}
  }

  lemma NotBlank(s: string)
    requires s != "" && 'a' <= s[0] <= 'z'
    ensures !Blank(s)
  {
    assert s[0] !in {' ', '\t', '\n', '\r', '\U{0B}', '\U{0C}', '\U{85}', '\U{A0}'};
  }

  datatype SessionState = Lobby | ReadyWindow | Countdown | Running | Finished | Cancelled

  predicate IsTerminal(state: SessionState) {
    state.Finished? || state.Cancelled?
  }

  /** `body` stands for the fields no repository reads (players, rules, settings, game state);
      `wellFormed` is the domain's verdict on them. Times are nanoseconds and 0 is the zero time. */
  datatype SessionSnapshot = SessionSnapshot(
    sessionID: string,
    houseID: string,
    gameKey: string,
    state: SessionState,
    version: int,
    startedAt: int,
    endedAt: int,
    endReason: string,
    body: string,
    wellFormed: bool)

  /** The verdict of RestoreGameSession. */
  predicate Restorable(s: SessionSnapshot) {
    && s.sessionID != "" && s.houseID != "" && s.gameKey != ""
    && s.version >= 1
    && (s.state.Running? ==> s.startedAt != 0)
    && (IsTerminal(s.state) ==> s.endedAt != 0 && s.endReason != "")
    && s.wellFormed
  }

  datatype SessionEvent = SessionEvent(eventID: string, sessionID: string, kind: string, version: int, occurredAt: int)

  /** An idealised SHA-256: two payloads have one digest only when they are equal. */
  datatype Digest = NoDigest | Sha256(preimage: string)

  const SYSTEM_ACTOR := "gameSessionRuntime"

  datatype Command = Command(commandID: string, actorID: string, commandType: string, payloadHash: Digest)
  {
    predicate IsSystem() { actorID == SYSTEM_ACTOR }

    predicate Described() {
      commandID != "" && actorID != "" && commandType != "" && payloadHash != NoDigest
    }

    function Key(): (string, string) { (actorID, commandID) }
  }

  datatype MatchStatus = MatchCompleted | MatchCancelled | MatchUnknown

  /** `payloadValid` is the verdict of the JSON checks on the payload. */
  datatype MatchResult = MatchResult(
    sessionID: string,
    houseID: string,
    gameKey: string,
    schemaVersion: int,
    status: MatchStatus,
    endReason: string,
    startedAt: int,
    endedAt: int,
    payload: string,
    payloadValid: bool)
  {
    predicate Valid() {
      && !Blank(sessionID) && !Blank(houseID) && !Blank(gameKey) && schemaVersion >= 1
      && !status.MatchUnknown? && !Blank(endReason) && startedAt != 0 && startedAt <= endedAt
      && payload != "" && payloadValid
    }
  }
}
