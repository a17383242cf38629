/** The checkpoint hash of a room: its scripts act only for the holder of the room's lease. */
module RuntimeCheckpoint {
  import opened Wrappers
  import opened DecimalOrder
  import opened RoomLease

  /** `critical` is the critical key of the runtime state the checkpoint encodes. */
  datatype CheckpointDoc = CheckpointDoc(epoch: int, sequence: int, critical: string)

  predicate Later(a: CheckpointDoc, b: CheckpointDoc) {
    a.epoch > b.epoch || (a.epoch == b.epoch && a.sequence > b.sequence)
  }

  /** What is stored is this very checkpoint, or a later one. */
  predicate Covers(stored: Option<CheckpointDoc>, doc: CheckpointDoc) {
    stored.Some? && (stored.value == doc || Later(stored.value, doc))
  }

  datatype SaveReply = LeaseLost | OutOfOrder | Saved

  function SaveScript(
    lease: LeaseState, now: int, value: LeaseValue, stored: Option<CheckpointDoc>, doc: CheckpointDoc
  ): (r: (Option<CheckpointDoc>, SaveReply)) {
    if !Holds(lease, now, value) then (stored, LeaseLost)
    else if stored.Some? && !Later(doc, stored.value) then (stored, OutOfOrder)
    else (Some(doc), Saved)
  }

  // ----- the script itself, on the text Redis holds

  /** The stored hash: decimal numerals and the encoded checkpoint. */
  datatype CheckpointHash = CheckpointHash(epoch: string, sequence: string, data: string)

  /** -1 for a lost lease, 0 for a checkpoint out of order, 1 when it was stored. */
  function SaveTextScript(
    lease: LeaseState, now: int, value: LeaseValue, stored: Option<CheckpointHash>, doc: CheckpointHash
  ): (Option<CheckpointHash>, int) {
    if !Holds(lease, now, value) then
      (stored, -1)
    else if stored.Some? && (Greater(stored.value.epoch, doc.epoch)
                             || (stored.value.epoch == doc.epoch && !Greater(doc.sequence, stored.value.sequence))) then
      (stored, 0)
    else
      (Some(doc), 1)
  }

  /** How the coordinator writes a checkpoint's numbers. */
  function Text(epoch: nat, sequence: nat, data: string): CheckpointHash {
    CheckpointHash(Numeral(epoch), Numeral(sequence), data)
  }

  /** `hash` is the text of `doc`. */
  predicate Encodes(hash: Option<CheckpointHash>, doc: Option<CheckpointDoc>) {
    match hash
    case None => doc.None?
    case Some(h) => doc.Some? && doc.value.epoch >= 0 && doc.value.sequence >= 0
                    && h == Text(doc.value.epoch, doc.value.sequence, doc.value.critical)
  }

  function Code(reply: SaveReply): int {
    match reply
    case LeaseLost => -1
    case OutOfOrder => 0
    case Saved => 1
  }

  /** On the numerals the coordinator writes, the script decides as if it compared the numbers. */
  lemma TextScriptIsNumeric(
    lease: LeaseState, now: int, value: LeaseValue, hash: Option<CheckpointHash>, stored: Option<CheckpointDoc>,
        doc: CheckpointDoc
  )
    requires Encodes(hash, stored) && doc.epoch >= 0 && doc.sequence >= 0
    ensures var text := SaveTextScript(lease, now, value, hash, Text(doc.epoch, doc.sequence, doc.critical));
            var numeric := SaveScript(lease, now, value, stored, doc);
            text.1 == Code(numeric.1) && Encodes(text.0, numeric.0)
  {
    if stored.Some? {
      GreaterIsNumeric(stored.value.epoch, doc.epoch);
      GreaterIsNumeric(doc.sequence, stored.value.sequence);
    }
  }

  /** One save attempt as Redis meets it: whoever holds the key then, and whoever tries. */
  datatype Attempt = Attempt(lease: LeaseState, now: int, value: LeaseValue, epoch: nat, sequence: nat, data: string)

  function Try(stored: Option<CheckpointHash>, a: Attempt): (Option<CheckpointHash>, int) {
    SaveTextScript(a.lease, a.now, a.value, stored, Text(a.epoch, a.sequence, a.data))
  }

  /** The hash after the first n attempts. */
  function After(stored: Option<CheckpointHash>, attempts: seq<Attempt>, n: nat): Option<CheckpointHash>
    requires n <= |attempts|
  {
    if n == 0 then stored else Try(After(stored, attempts, n - 1), attempts[n - 1]).0
  }

  predicate SaveAccepted(stored: Option<CheckpointHash>, attempts: seq<Attempt>, i: nat)
    requires i < |attempts|
  {
    Try(After(stored, attempts, i), attempts[i]).1 == 1
  }

  predicate LaterAttempt(a: Attempt, b: Attempt) {
    a.epoch > b.epoch || (a.epoch == b.epoch && a.sequence > b.sequence)
  }

  /** After an accepted attempt the hash holds it, or a later accepted one. */
  lemma {:induction false} HashHoldsAccepted(stored: Option<CheckpointHash>, attempts: seq<Attempt>, i: nat, n: nat)
    requires i < n <= |attempts| && SaveAccepted(stored, attempts, i)
    ensures exists k :: i <= k < n && (k == i || LaterAttempt(attempts[k], attempts[i]))
                        && After(stored, attempts, n)
                            == Some(Text(attempts[k].epoch, attempts[k].sequence, attempts[k].data))
    decreases n
  {
    if n == i + 1 {
      assert After(stored, attempts, n) == Some(Text(attempts[i].epoch, attempts[i].sequence, attempts[i].data));
    } else {
      HashHoldsAccepted(stored, attempts, i, n - 1);
      var k :| i <= k < n - 1 && (k == i || LaterAttempt(attempts[k], attempts[i]))
               && After(stored, attempts, n - 1)
                   == Some(Text(attempts[k].epoch, attempts[k].sequence, attempts[k].data));
      GreaterIsNumeric(attempts[k].epoch, attempts[n - 1].epoch);
      GreaterIsNumeric(attempts[n - 1].sequence, attempts[k].sequence);
      if SaveAccepted(stored, attempts, n - 1) {
        assert LaterAttempt(attempts[n - 1], attempts[i]);
        assert After(stored, attempts, n)
            == Some(Text(attempts[n - 1].epoch, attempts[n - 1].sequence, attempts[n - 1].data));
      } else {
        assert After(stored, attempts, n) == After(stored, attempts, n - 1);
      }
    }
  }

  /** Between deletions and expiries the stored pair strictly increases, whoever saves and whoever
      holds the lease, and a rejected save changes nothing. */
  lemma AcceptedSavesIncrease(stored: Option<CheckpointHash>, attempts: seq<Attempt>, i: nat, j: nat)
    requires i < j < |attempts| && SaveAccepted(stored, attempts, i)
    ensures if SaveAccepted(stored, attempts, j) then LaterAttempt(attempts[j], attempts[i])
            else After(stored, attempts, j + 1) == After(stored, attempts, j)
  {
    HashHoldsAccepted(stored, attempts, i, j);
    var k :| i <= k < j && (k == i || LaterAttempt(attempts[k], attempts[i]))
             && After(stored, attempts, j) == Some(Text(attempts[k].epoch, attempts[k].sequence, attempts[k].data));
    GreaterIsNumeric(attempts[k].epoch, attempts[j].epoch);
    GreaterIsNumeric(attempts[j].sequence, attempts[k].sequence);
  }
}
