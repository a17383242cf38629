/** The stored sessions: what a committed write is, and what every history of writes keeps. */
module SessionStore {
  import opened Wrappers
  import opened GameDomain
  import opened RuntimeOwner
  import opened GameMatch

  /** The active key exists only while the session is not terminal. */
  datatype SessionDoc = SessionDoc(snapshot: SessionSnapshot, activeKey: Option<string>)

  function ActiveSessionKey(houseID: string, gameKey: string): string {
    houseID + ":" + gameKey
  }

  function DocumentFrom(s: SessionSnapshot): SessionDoc {
    SessionDoc(s, if IsTerminal(s.state) then None else Some(ActiveSessionKey(s.houseID, s.gameKey)))
  }

  /** One committed write of a session and the commands whose receipts it carries. */
  datatype Write = Write(snapshot: SessionSnapshot, expected: int, events: seq<SessionEvent>, commands: seq<Command>)
  {
    function ID(): string { snapshot.sessionID }
  }

  /** `writes` is the history of committed session writes. */
  datatype Database = Database(
    sessions: map<string, SessionDoc>,
    receipts: Receipts,
    owners: map<string, OwnerDoc>,
    results: map<string, ResultDoc>,
    writes: seq<Write>)

  const EMPTY := Database(map[], map[], map[], map[], [])

  // ----- one write

  /** Another session already has the document's active key. */
  predicate KeyTaken(sessions: map<string, SessionDoc>, doc: SessionDoc) {
    doc.activeKey.Some? &&
    exists id :: id in sessions && id != doc.snapshot.sessionID && sessions[id].activeKey == doc.activeKey
  }

  function InsertReceipts(receipts: Receipts, commands: seq<Command>, sessionID: string): Option<Receipts>
    decreases |commands|
  {
    if commands == [] then Some(receipts)
    else
      var first := InsertReceipt(receipts, commands[0], sessionID);
      if first.None? then None else InsertReceipts(first.value, commands[1..], sessionID)
  }

  /** A new session starts from version 0; an existing one is replaced only at its stored version. */
  predicate VersionMatches(sessions: map<string, SessionDoc>, w: Write) {
    if w.ID() in sessions then sessions[w.ID()].snapshot.version == w.expected else w.expected == 0
  }

  predicate Accepts(db: Database, w: Write) {
    && ValidBatch(w.expected, w.snapshot, w.events)
    && VersionMatches(db.sessions, w)
    && !KeyTaken(db.sessions, DocumentFrom(w.snapshot))
    && InsertReceipts(db.receipts, w.commands, w.ID()).Some?
  }

  function Commit(db: Database, w: Write): Database
    requires Accepts(db, w)
  {
    db.(sessions := db.sessions[w.ID() := DocumentFrom(w.snapshot)],
        receipts := InsertReceipts(db.receipts, w.commands, w.ID()).value,
        writes := db.writes + [w])
  }

  /** The result describes the end of the session that the write leaves. */
  predicate Describes(doc: ResultDoc, w: Write) {
    && doc.sessionID == w.ID() && doc.endReason == w.snapshot.endReason
    && (|| (doc.status.MatchCompleted? && w.snapshot.state.Finished?)
        || (doc.status.MatchCancelled? && w.snapshot.state.Cancelled?))
    && SameMillisecond(doc.startedAt, w.snapshot.startedAt) && SameMillisecond(doc.endedAt, w.snapshot.endedAt)
  }

  /** A write that ends a running session inserts the result of its match; nothing else does. */
  predicate RecordsResult(db: Database, w: Write, db': Database) {
    && w.ID() !in db.results && w.ID() in db'.results
    && w.ID() in db.sessions && db.sessions[w.ID()].snapshot.state.Running?
    && Describes(db'.results[w.ID()], w)
    && db'.results == db.results[w.ID() := db'.results[w.ID()]]
  }

  /** A step commits at most one session write, and perhaps the result of the match it ends; owner
      records are free to change. */
  ghost predicate Step(db: Database, db': Database) {
    || (SameSessions(db, db') && db'.results == db.results)
    || exists w ::
         Accepts(db, w) && SameSessions(Commit(db, w), db') && (db'.results == db.results || RecordsResult(db, w, db'))
  }

  predicate SameSessions(db: Database, db': Database) {
    db'.sessions == db.sessions && db'.receipts == db.receipts && db'.writes == db.writes
  }

  ghost predicate StoreRun(run: seq<Database>) {
    && |run| > 0
    && SameSessions(EMPTY, run[0]) && run[0].results == map[]
    && forall i :: 0 <= i < |run| - 1 ==> Step(run[i], run[i + 1])
  }

  // ----- the event log

  /** The events of every committed write of a session, oldest first. */
  function EventLog(writes: seq<Write>, id: string): seq<SessionEvent> {
    if writes == [] then []
    else
      var earlier := EventLog(writes[..|writes| - 1], id);
      var last := writes[|writes| - 1];
      if last.ID() == id then earlier + last.events else earlier
  }

  ghost predicate GapFree(log: seq<SessionEvent>, id: string, version: int) {
    |log| == version && forall k :: 0 <= k < |log| ==> log[k].version == k + 1 && log[k].sessionID == id
  }

  ghost predicate LogOk(db: Database, id: string) {
    GapFree(EventLog(db.writes, id), id, if id in db.sessions then db.sessions[id].snapshot.version else 0)
  }

  lemma CommitLog(db: Database, w: Write, id: string)
    requires Accepts(db, w) && LogOk(db, id)
    ensures LogOk(Commit(db, w), id)
  {
    var db' := Commit(db, w);
    assert db'.writes[..|db'.writes| - 1] == db.writes;
    assert EventLog(db'.writes, id) == if w.ID() == id then EventLog(db.writes, id) + w.events
        else EventLog(db.writes, id);
    if w.ID() == id {
      var log := EventLog(db.writes, id);
      forall k | 0 <= k < |log + w.events|
        ensures (log + w.events)[k].version == k + 1 && (log + w.events)[k].sessionID == id
      {
        if k >= |log| { assert ValidEvent(w.events[k - |log|], id, w.expected + (k - |log|) + 1); }
      }
    }
  }

  // ----- receipts

  /** Number of committed writes carrying the client command with key `key`. */
  function Effects(writes: seq<Write>, key: (string, string)): nat {
    if writes == [] then 0
    else Effects(writes[..|writes| - 1], key) + Carried(writes[|writes| - 1].commands, key)
  }

  function Carried(commands: seq<Command>, key: (string, string)): nat {
    if commands == [] then 0
    else (if !commands[0].IsSystem() && commands[0].Key() == key then 1 else 0) + Carried(commands[1..], key)
  }

  lemma {:induction false} ReceiptsCount(receipts: Receipts, commands: seq<Command>, id: string, key: (string, string))
    requires InsertReceipts(receipts, commands, id).Some?
    ensures var after := InsertReceipts(receipts, commands, id).value;
            && (if key in receipts then 1 else 0) + Carried(commands, key) == (if key in after then 1 else 0)
            && (key in receipts ==> key in after && after[key] == receipts[key])
            && (key in after && key !in receipts ==> after[key].sessionID == id)
    decreases |commands|
  {
    if commands != [] {
      ReceiptsCount(InsertReceipt(receipts, commands[0], id).value, commands[1..], id, key);
    }
  }

  /** A receipt exists exactly for the commands that took effect, and names their session. */
  ghost predicate ReceiptOk(db: Database, key: (string, string)) {
    && Effects(db.writes, key) == (if key in db.receipts then 1 else 0)
    && (key in db.receipts ==> Wrote(db.writes, key, db.receipts[key].sessionID))
  }

  ghost predicate Wrote(writes: seq<Write>, key: (string, string), id: string) {
    exists n :: 0 <= n < |writes| && writes[n].ID() == id && Carried(writes[n].commands, key) > 0
  }

  lemma CommitReceipts(db: Database, w: Write, key: (string, string))
    requires Accepts(db, w) && ReceiptOk(db, key)
    ensures ReceiptOk(Commit(db, w), key)
  {
    var db' := Commit(db, w);
    assert db'.writes[..|db'.writes| - 1] == db.writes;
    ReceiptsCount(db.receipts, w.commands, w.ID(), key);
    if key in db.receipts {
      var n :| 0 <= n < |db.writes| && db.writes[n].ID() == db.receipts[key].sessionID
          && Carried(db.writes[n].commands, key) > 0;
      assert db'.writes[n] == db.writes[n];
    } else if key in db'.receipts {
      assert db'.writes[|db.writes|] == w;
    }
  }

  // ----- the active-key index

  ghost predicate DocumentsOk(sessions: map<string, SessionDoc>) {
    && (forall id :: id in sessions ==> DocumentOk(sessions[id], id))
    && (forall a, b :: a in sessions && b in sessions && a != b && sessions[a].activeKey.Some? ==>
        sessions[a].activeKey != sessions[b].activeKey)
  }

  predicate DocumentOk(doc: SessionDoc, id: string) {
    doc == DocumentFrom(doc.snapshot) && doc.snapshot.sessionID == id && Restorable(doc.snapshot)
  }

  lemma CommitDocuments(db: Database, w: Write)
    requires Accepts(db, w) && DocumentsOk(db.sessions)
    ensures DocumentsOk(Commit(db, w).sessions)
  {
  }

  // ----- every run

  ghost predicate StoreOk(db: Database) {
    && DocumentsOk(db.sessions)
    && (forall id :: LogOk(db, id))
    && (forall key :: ReceiptOk(db, key))
  }

  lemma StepOk(db: Database, db': Database)
    requires StoreOk(db) && Step(db, db')
    ensures StoreOk(db')
  {
    if SameSessions(db, db') {
      assert forall id :: LogOk(db, id) ==> LogOk(db', id);
      assert forall key :: ReceiptOk(db, key) ==> ReceiptOk(db', key);
    } else {
      var w :| Accepts(db, w) && SameSessions(Commit(db, w), db');
      CommitDocuments(db, w);
      forall id ensures LogOk(db', id) { CommitLog(db, w, id); assert LogOk(Commit(db, w), id); }
      forall key ensures ReceiptOk(db', key) { CommitReceipts(db, w, key); assert ReceiptOk(Commit(db, w), key); }
    }
  }

  lemma {:induction false} RunOk(run: seq<Database>, i: nat)
    requires StoreRun(run) && i < |run|
    ensures StoreOk(run[i])
  {
    if i > 0 {
      RunOk(run, i - 1);
      assert Step(run[i - 1], run[i - 1 + 1]);
      StepOk(run[i - 1], run[i]);
    }
  }

  /** The accepted writes of a session carry exactly the versions 1 to its stored version, each once. */
  lemma EventLogIsGapFree(run: seq<Database>, i: nat, id: string)
    requires StoreRun(run) && i < |run|
    ensures var version := if id in run[i].sessions then run[i].sessions[id].snapshot.version else 0;
            GapFree(EventLog(run[i].writes, id), id, version)
  {
    RunOk(run, i);
    assert LogOk(run[i], id);
  }

  /** However often a client command is delivered, at most one committed write carries it, and its
      receipt names the session that write went to. */
  lemma CommandTakesEffectOnce(run: seq<Database>, i: nat, key: (string, string))
    requires StoreRun(run) && i < |run|
    ensures Effects(run[i].writes, key) <= 1
    ensures key in run[i].receipts <==> Effects(run[i].writes, key) == 1
    ensures key in run[i].receipts ==> Wrote(run[i].writes, key, run[i].receipts[key].sessionID)
  {
    RunOk(run, i);
    assert ReceiptOk(run[i], key);
  }

  lemma {:induction false} EffectsCount(writes: seq<Write>, key: (string, string), n: nat)
    requires n < |writes|
    ensures Carried(writes[n].commands, key) <= Effects(writes, key)
    ensures forall m :: 0 <= m < n ==>
            Carried(writes[m].commands, key) + Carried(writes[n].commands, key) <= Effects(writes, key)
  {
    var init := writes[..|writes| - 1];
    if n == |writes| - 1 {
      forall m | 0 <= m < n
        ensures Carried(writes[m].commands, key) <= Effects(init, key)
      {
        EffectsCount(init, key, m);
        assert init[m] == writes[m];
      }
    } else {
      EffectsCount(init, key, n);
      assert init[n] == writes[n];
      forall m | 0 <= m < n
        ensures Carried(writes[m].commands, key) + Carried(writes[n].commands, key) <= Effects(writes, key)
      {
        assert init[m] == writes[m];
      }
    }
  }

  /** No two committed writes of a run carry the same client command. */
  lemma NoCommandTwice(run: seq<Database>, i: nat, key: (string, string), m: nat, n: nat)
    requires StoreRun(run) && i < |run| && m < n < |run[i].writes|
    ensures Carried(run[i].writes[m].commands, key) == 0 || Carried(run[i].writes[n].commands, key) == 0
  {
    CommandTakesEffectOnce(run, i, key);
    EffectsCount(run[i].writes, key, n);
  }

  /** A receipt is never changed, so a replay at any later time reports the original session. */
  lemma {:induction false} ReceiptStays(run: seq<Database>, i: nat, j: nat, key: (string, string))
    requires StoreRun(run) && i <= j < |run| && key in run[i].receipts
    ensures key in run[j].receipts && run[j].receipts[key] == run[i].receipts[key]
    decreases j
  {
    if i < j {
      ReceiptStays(run, i, j - 1, key);
      assert Step(run[j - 1], run[j - 1 + 1]);
      if !SameSessions(run[j - 1], run[j]) {
        var w :| Accepts(run[j - 1], w) && SameSessions(Commit(run[j - 1], w), run[j]);
        ReceiptsCount(run[j - 1].receipts, w.commands, w.ID(), key);
      }
    }
  }

  /** Inserted receipts record type, payload hash and session of each client command. */
  lemma {:induction false} InsertedReceipt(receipts: Receipts, commands: seq<Command>, id: string, c: Command)
    requires InsertReceipts(receipts, commands, id).Some? && c in commands && !c.IsSystem()
    ensures var after := InsertReceipts(receipts, commands, id).value;
            c.Key() in after && after[c.Key()] == Receipt(c.commandType, c.payloadHash, id)
    decreases |commands|
  {
    var first := InsertReceipt(receipts, commands[0], id).value;
    if c == commands[0] {
      ReceiptsCount(first, commands[1..], id, c.Key());
    } else {
      InsertedReceipt(first, commands[1..], id, c);
    }
  }

  /** Every committed client command has left its receipt. */
  lemma {:induction false} WriteLeavesReceipt(run: seq<Database>, i: nat, n: nat, c: Command)
    requires StoreRun(run) && i < |run| && n < |run[i].writes| && c in run[i].writes[n].commands && !c.IsSystem()
    ensures c.Key() in run[i].receipts
    ensures run[i].receipts[c.Key()] == Receipt(c.commandType, c.payloadHash, run[i].writes[n].ID())
  {
    if i > 0 {
      var db, db' := run[i - 1], run[i];
      assert Step(db, run[i - 1 + 1]);
      if SameSessions(db, db') {
        WriteLeavesReceipt(run, i - 1, n, c);
      } else {
        var w :| Accepts(db, w) && SameSessions(Commit(db, w), db');
        if n < |db.writes| {
          WriteLeavesReceipt(run, i - 1, n, c);
          ReceiptsCount(db.receipts, w.commands, w.ID(), c.Key());
        } else {
          InsertedReceipt(db.receipts, w.commands, w.ID(), c);
        }
      }
    }
  }

  // ----- results

  /** Some committed write ended the session the result describes. */
  ghost predicate Ended(writes: seq<Write>, doc: ResultDoc) {
    exists n :: 0 <= n < |writes| && Describes(doc, writes[n])
  }

  lemma StepKeepsResults(db: Database, db': Database, id: string)
    requires Step(db, db') && (id in db.results ==> db.results[id].sessionID == id && Ended(db.writes, db.results[id]))
    ensures id in db.results ==> id in db'.results && db'.results[id] == db.results[id]
    ensures id in db'.results ==> db'.results[id].sessionID == id && Ended(db'.writes, db'.results[id])
  {
    if w :| Accepts(db, w) && SameSessions(Commit(db, w), db')
            && (db'.results == db.results || RecordsResult(db, w, db')) {
      assert db'.writes == db.writes + [w];
      if id in db.results {
        var n :| 0 <= n < |db.writes| && Describes(db.results[id], db.writes[n]);
        assert db'.writes[n] == db.writes[n];
      } else if id in db'.results {
        assert db'.writes[|db.writes|] == w;
      }
    }
  }

  /** Every stored result describes the end of its session in a committed write. */
  lemma {:induction false} ResultHasWrite(run: seq<Database>, i: nat, id: string)
    requires StoreRun(run) && i < |run| && id in run[i].results
    ensures run[i].results[id].sessionID == id && Ended(run[i].writes, run[i].results[id])
  {
    if i > 0 {
      assert Step(run[i - 1], run[i - 1 + 1]);
      if id in run[i - 1].results { ResultHasWrite(run, i - 1, id); }
      StepKeepsResults(run[i - 1], run[i], id);
    }
  }

  /** So a session has at most one result in a whole run: once stored it is never changed or removed,
      with or without an owner record. */
  lemma {:induction false} StoredResultStays(run: seq<Database>, i: nat, j: nat, id: string)
    requires StoreRun(run) && i <= j < |run| && id in run[i].results
    ensures id in run[j].results && run[j].results[id] == run[i].results[id]
    decreases j
  {
    if i < j {
      StoredResultStays(run, i, j - 1, id);
      assert Step(run[j - 1], run[j - 1 + 1]);
      ResultHasWrite(run, j - 1, id);
      StepKeepsResults(run[j - 1], run[j], id);
    }
  }

  // ----- looking up the active session of a house and a game

  /** The plain scan: some stored session of this pair is not terminal. */
  predicate IsActive(db: Database, id: string, houseID: string, gameKey: string) {
    && id in db.sessions
    && db.sessions[id].snapshot.houseID == houseID && db.sessions[id].snapshot.gameKey == gameKey
    && !IsTerminal(db.sessions[id].snapshot.state)
  }

  /** An active session of another pair that has the same joined key. */
  predicate Collides(db: Database, id: string, houseID: string, gameKey: string) {
    && id in db.sessions
    && db.sessions[id].activeKey == Some(ActiveSessionKey(houseID, gameKey))
    && (db.sessions[id].snapshot.houseID != houseID || db.sessions[id].snapshot.gameKey != gameKey)
  }

  datatype ActiveAnswer = Active(snapshot: SessionSnapshot) | NoActive | BrokenInvariant

  /** FindActive's answer for what the index lookup found. */
  function AnswerActive(found: Option<SessionDoc>, houseID: string, gameKey: string): ActiveAnswer {
    if found.None? then NoActive
    else
      var s := found.value.snapshot;
      if s.houseID != houseID || s.gameKey != gameKey || IsTerminal(s.state) then BrokenInvariant else Active(s)
  }

  ghost predicate Indexed(db: Database, found: Option<SessionDoc>, houseID: string, gameKey: string) {
    if found.Some? then
      exists id :: id in db.sessions && db.sessions[id] == found.value
          && found.value.activeKey == Some(ActiveSessionKey(houseID, gameKey))
    else
      forall id :: id in db.sessions ==> db.sessions[id].activeKey != Some(ActiveSessionKey(houseID, gameKey))
  }

  /** The answer is the scan's: the one active session of the pair, or none when there is none. */
  ghost predicate AgreesWithScan(db: Database, answer: ActiveAnswer, houseID: string, gameKey: string) {
    match answer
    case Active(s) =>
      IsActive(db, s.sessionID, houseID, gameKey) && db.sessions[s.sessionID].snapshot == s
      && forall id :: IsActive(db, id, houseID, gameKey) ==> id == s.sessionID
    case NoActive => forall id :: !IsActive(db, id, houseID, gameKey)
    case BrokenInvariant => false
  }

  /** The index agrees with the scan exactly when no active session of another pair shares the joined key. */
  lemma IndexAgreesIff(db: Database, found: Option<SessionDoc>, houseID: string, gameKey: string)
    requires DocumentsOk(db.sessions) && Indexed(db, found, houseID, gameKey)
    ensures AgreesWithScan(db, AnswerActive(found, houseID, gameKey), houseID, gameKey) <==>
            (forall id :: !Collides(db, id, houseID, gameKey))
  {
    forall id | IsActive(db, id, houseID, gameKey)
      ensures db.sessions[id].activeKey == Some(ActiveSessionKey(houseID, gameKey))
    {
      assert DocumentOk(db.sessions[id], id);
    }
    if found.Some? {
      var id :| id in db.sessions && db.sessions[id] == found.value
          && found.value.activeKey == Some(ActiveSessionKey(houseID, gameKey));
      assert DocumentOk(db.sessions[id], id);
      if Collides(db, id, houseID, gameKey) {
        assert AnswerActive(found, houseID, gameKey).BrokenInvariant?;
      } else {
        forall other
          ensures !Collides(db, other, houseID, gameKey)
          ensures IsActive(db, other, houseID, gameKey) ==> other == id
        {
        }
      }
    }
  }

  predicate NoColon(s: string) {
    ':' !in s
  }

  lemma JoinedKeyInjective(h1: string, g1: string, h2: string, g2: string)
    requires NoColon(h1) && NoColon(h2) && ActiveSessionKey(h1, g1) == ActiveSessionKey(h2, g2)
    ensures h1 == h2 && g1 == g2
  {
    var key := ActiveSessionKey(h1, g1);
    FirstColon(h1, g1);
    FirstColon(h2, g2);
    assert key[..|h1|] == h1 && key[..|h2|] == h2;
    assert key[|h1| + 1..] == g1 && key[|h2| + 1..] == g2;
  }

  /** Two joined keys are equal exactly when the pairs are, or when the longer house ID continues the
      shorter one past a colon that the other game key holds as well. */
  lemma KeysCollideIff(h1: string, g1: string, h2: string, g2: string)
    requires |h1| <= |h2|
    ensures ActiveSessionKey(h1, g1) == ActiveSessionKey(h2, g2) <==>
            (h1 == h2 && g1 == g2) || exists c :: Overlaps(h1, g1, h2, g2, c)
  {
    var k1, k2 := ActiveSessionKey(h1, g1), ActiveSessionKey(h2, g2);
    if k1 == k2 {
      assert h1 == k1[..|h1|] && h2[..|h1|] == k2[..|h1|];
      if |h1| == |h2| {
        assert g1 == k1[|h1| + 1..] && g2 == k2[|h2| + 1..];
      } else {
        var c := h2[|h1| + 1..];
        assert h2[|h1|] == k2[|h1|] == k1[|h1|] == ':';
        assert h2 == h1 + ":" + c;
        assert g1 == k1[|h1| + 1..] && k2[|h1| + 1..] == c + ":" + g2;
        assert Overlaps(h1, g1, h2, g2, c);
      }
    }
    if c :| Overlaps(h1, g1, h2, g2, c) {
      assert k1 == h1 + ":" + c + ":" + g2 == k2;
    }
  }

  predicate Overlaps(h1: string, g1: string, h2: string, g2: string, c: string) {
    h2 == h1 + ":" + c && g1 == c + ":" + g2
  }

  lemma FirstColon(h: string, g: string)
    requires NoColon(h)
    ensures var key := ActiveSessionKey(h, g);
            key[|h|] == ':' && forall k :: 0 <= k < |h| ==> key[k] == h[k] && key[k] != ':'
  {
  }

  /** With house ids free of ':', the lookup is the scan in every state of every run. */
  lemma FindActiveIsScan(run: seq<Database>, i: nat, found: Option<SessionDoc>, houseID: string, gameKey: string)
    requires StoreRun(run) && i < |run| && Indexed(run[i], found, houseID, gameKey)
    requires NoColon(houseID) && forall id :: id in run[i].sessions ==> NoColon(run[i].sessions[id].snapshot.houseID)
    ensures AgreesWithScan(run[i], AnswerActive(found, houseID, gameKey), houseID, gameKey)
  {
    RunOk(run, i);
    var db := run[i];
    forall id ensures !Collides(db, id, houseID, gameKey) {
      if Collides(db, id, houseID, gameKey) {
        assert DocumentOk(db.sessions[id], id);
        JoinedKeyInjective(db.sessions[id].snapshot.houseID, db.sessions[id].snapshot.gameKey, houseID, gameKey);
      }
    }
    IndexAgreesIff(db, found, houseID, gameKey);
  }

  /** Colliding pairs do break the lookup: once a session of one is created, looking up the other reports a
      broken invariant although it has no session. */
  lemma CollisionBreaksLookup(w: Write, houseID: string, gameKey: string)
    requires Accepts(EMPTY, w) && !IsTerminal(w.snapshot.state)
    requires ActiveSessionKey(w.snapshot.houseID, w.snapshot.gameKey) == ActiveSessionKey(houseID, gameKey)
    requires w.snapshot.houseID != houseID || w.snapshot.gameKey != gameKey
    ensures StoreRun([EMPTY, Commit(EMPTY, w)])
    ensures var db, found := Commit(EMPTY, w), Some(DocumentFrom(w.snapshot));
            && Indexed(db, found, houseID, gameKey) && AnswerActive(found, houseID, gameKey).BrokenInvariant?
            && forall id :: !IsActive(db, id, houseID, gameKey)
  {
    var db := Commit(EMPTY, w);
    assert SameSessions(Commit(EMPTY, w), db);
    assert db.sessions[w.ID()] == DocumentFrom(w.snapshot);
  }
}
