/** An instance's command stream and its subscription: entries are handed over in order, handed
    over again while nobody acknowledges them, and never after. */
module CommandSubscription {
  import opened Wrappers

  // Stream entry IDs ascend.
  type EntryID = nat

  const READ_COUNT := 16
  const REDELIVERY_INTERVAL := 2_000_000_000

  /** A payload that does not decode is None. */
  datatype Entry = Entry(id: EntryID, envelope: Option<string>)

  ghost predicate AscendingIDs(entries: seq<Entry>) {
    forall i, j :: 0 <= i < j < |entries| ==> entries[i].id < entries[j].id
  }

  /** A batch holds entries past `after` in order, and only later entries are missing from it. */
  ghost predicate IsNext(batch: seq<Entry>, entries: seq<Entry>, after: EntryID) {
    && AscendingIDs(batch)
    && (forall e :: e in batch ==> e in entries && e.id > after)
    && (forall e :: e in entries && e.id > after && e !in batch ==> forall b :: b in batch ==> b.id < e.id)
  }

  /** The entries past `after`, in order. */
  function Unread(entries: seq<Entry>, after: EntryID): seq<Entry> {
    if entries == [] then []
    else
      var last := |entries| - 1;
      Unread(entries[..last], after) + if entries[last].id > after then [entries[last]] else []
  }

  /** The first of them, as many as one read returns. */
  function Batch(entries: seq<Entry>, after: EntryID): seq<Entry> {
    var unread := Unread(entries, after);
    if |unread| <= READ_COUNT then unread else unread[..READ_COUNT]
  }

  /** How many entries of a batch can be decoded. */
  function Decodable(batch: seq<Entry>): nat {
    if batch == [] then 0
    else Decodable(batch[..|batch| - 1]) + if batch[|batch| - 1].envelope.Some? then 1 else 0
  }

  lemma {:induction false} DecodableGrows(batch: seq<Entry>, n: nat)
    requires n <= |batch|
    ensures Decodable(batch[..n]) <= Decodable(batch)
    decreases |batch|
  {
    if n < |batch| {
      var shorter := batch[..|batch| - 1];
      assert shorter[..n] == batch[..n];
      DecodableGrows(shorter, n);
    } else {
      assert batch[..n] == batch;
    }
  }

  lemma DecodableStep(batch: seq<Entry>, n: nat)
    requires n < |batch|
    ensures Decodable(batch[..n + 1]) == Decodable(batch[..n]) + if batch[n].envelope.Some? then 1 else 0
  {
    assert batch[..n + 1][..n] == batch[..n];
  }

  /** Where a reader stands that has passed the entries of `taken`. */
  function End(taken: seq<Entry>, after: EntryID): EntryID {
    if taken == [] then after else taken[|taken| - 1].id
  }

  /** Between two entries of a batch, and before its first, the stream has nothing. */
  lemma NothingBetween(batch: seq<Entry>, entries: seq<Entry>, after: EntryID, i: nat, e: Entry)
    requires IsNext(batch, entries, after) && i < |batch| && e in entries
    requires e.id > (if i == 0 then after else batch[i - 1].id)
    ensures batch[i].id <= e.id
  {
    if i > 0 { assert batch[i - 1] in batch; }
    assert batch[i] in batch;
    if e in batch {
      var k :| 0 <= k < |batch| && batch[k] == e;
      assert i == 0 || k >= i - 1;
    }
  }

  /** Read between two positions, undecodable, and not lost on the way out. */
  predicate Discarded(x: Entry, after: EntryID, upTo: EntryID, lost: set<EntryID>) {
    after < x.id <= upTo && x.envelope.None? && x.id !in lost
  }

  /** What is left of the entries of `before` once the loop has read up to a position. */
  ghost predicate IsLeft(left: seq<Entry>, before: seq<Entry>, after: EntryID, upTo: EntryID, lost: set<EntryID>) {
    forall x :: x in left <==> x in before && !Discarded(x, after, upTo, lost)
  }

  /** So the next entry of a batch is the first unread one of whatever is left of the stream. */
  lemma IsFirst(batch: seq<Entry>, entries: seq<Entry>, after: EntryID, i: nat, left: seq<Entry>, lastID: EntryID,
      lost: set<EntryID>)
    requires IsNext(batch, entries, after) && i < |batch| && AscendingIDs(entries)
    requires lastID == if i == 0 then after else batch[i - 1].id
    requires IsLeft(left, entries, after, lastID, lost)
    ensures batch[i] in entries && lastID < batch[i].id
    ensures forall x :: x in left && x.id > lastID ==> batch[i].id < x.id || x == batch[i]
  {
    assert batch[i] in batch;
    forall x | x in left && x.id > lastID
      ensures batch[i].id < x.id || x == batch[i]
    {
      NothingBetween(batch, entries, after, i, x);
      if x.id == batch[i].id {
        var j :| 0 <= j < |entries| && entries[j] == x;
        var k :| 0 <= k < |entries| && entries[k] == batch[i];
        assert j == k;
      }
    }
  }

  lemma BatchStep(entries: seq<Entry>, i: nat, after: EntryID)
    requires i < |entries|
    ensures var batch := Batch(entries[..i], after);
            Batch(entries[..i + 1], after) ==
            if entries[i].id > after && |batch| < READ_COUNT then batch + [entries[i]] else batch
  {
    assert entries[..i + 1][..i] == entries[..i];
  }

  lemma {:induction false} UnreadIsFilter(entries: seq<Entry>, after: EntryID)
    requires AscendingIDs(entries)
    ensures AscendingIDs(Unread(entries, after))
    ensures forall e :: e in Unread(entries, after) <==> e in entries && e.id > after
  {
    if entries != [] {
      var last := |entries| - 1;
      UnreadIsFilter(entries[..last], after);
      assert entries == entries[..last] + [entries[last]];
      assert forall e :: e in entries[..last] ==> e.id < entries[last].id;
    }
  }

  /** A batch leaves out later entries only, and those only when it is full. */
  lemma BatchIsNext(entries: seq<Entry>, after: EntryID)
    requires AscendingIDs(entries)
    ensures |Batch(entries, after)| <= READ_COUNT && IsNext(Batch(entries, after), entries, after)
    ensures forall e :: e in entries && e.id > after && e !in Batch(entries, after) ==>
              |Batch(entries, after)| == READ_COUNT
  {
    UnreadIsFilter(entries, after);
    var unread, batch := Unread(entries, after), Batch(entries, after);
    forall e | e in unread && e !in batch
      ensures forall b :: b in batch ==> b.id < e.id
    {
      var k :| 0 <= k < |unread| && unread[k] == e;
      assert batch == unread[..|batch|] && unread[k] !in batch;
    }
  }

  class CommandStream {
    var entries: seq<Entry>
    var last: EntryID

    constructor ()
      ensures Valid() && entries == []
    {
      entries, last := [], 0;
    }

    ghost predicate Valid()
      reads this
    {
      AscendingIDs(entries) && forall i :: 0 <= i < |entries| ==> 0 < entries[i].id <= last
    }

    method Add(envelope: Option<string>) returns (id: EntryID)
      requires Valid()
      modifies this
      ensures Valid() && id == old(last) + 1 == last && entries == old(entries) + [Entry(id, envelope)]
    {
      last := last + 1;
      id := last;
      entries := entries + [Entry(id, envelope)];
    }

    /** XDEL: the rest of the stream stays in order. */
    method Delete(id: EntryID)
      requires Valid()
      modifies this`entries
      ensures Valid() && forall e :: e in entries <==> e in old(entries) && e.id != id
    {
      var kept: seq<Entry> := [];
      for i := 0 to |entries|
        invariant forall e :: e in kept <==> e in entries[..i] && e.id != id
        invariant AscendingIDs(kept)
        invariant entries == old(entries)
      {
        assert entries[..i + 1] == entries[..i] + [entries[i]];
        if entries[i].id != id {
          assert forall k :: 0 <= k < |kept| ==> kept[k] in entries[..i];
          kept := kept + [entries[i]];
        }
      }
      assert entries[..|entries|] == entries;
      assert forall k :: 0 <= k < |kept| ==> kept[k] in entries;
      entries := kept;
    }

    /** XREAD: the first entries past `after`, at most READ_COUNT of them. */
    method Read(after: EntryID) returns (batch: seq<Entry>)
      requires Valid()
      ensures batch == Batch(entries, after)
      ensures |batch| <= READ_COUNT && IsNext(batch, entries, after)
      ensures forall e :: e in entries && e.id > after && e !in batch ==> |batch| == READ_COUNT
    {
      batch := [];
      for i := 0 to |entries|
        invariant batch == Batch(entries[..i], after)
      {
        BatchStep(entries, i, after);
        if entries[i].id > after && |batch| < READ_COUNT {
          batch := batch + [entries[i]];
        }
      }
      assert entries[..|entries|] == entries;
      BatchIsNext(entries, after);
    }
  }

  /** Reading on from where an earlier read stopped. */
  lemma LeftStep(before: seq<Entry>, left: seq<Entry>, next: seq<Entry>, after: EntryID, mid: EntryID, upTo: EntryID,
      lost: set<EntryID>)
    requires after <= mid <= upTo && IsLeft(left, before, after, mid, lost) && IsLeft(next, left, mid, upTo, lost)
    ensures IsLeft(next, before, after, upTo, lost)
  {
    forall x
      ensures x in next <==> x in before && !Discarded(x, after, upTo, lost)
    {
      assert x in left <==> x in before && !Discarded(x, after, mid, lost);
    }
  }

  /** The entries passed by a reader that took the first n of its batch are those n. */
  lemma PassedIsTaken(batch: seq<Entry>, entries: seq<Entry>, after: EntryID, n: nat)
    requires IsNext(batch, entries, after) && AscendingIDs(entries) && n <= |batch|
    ensures AscendingIDs(batch[..n]) && forall e :: e in batch[..n] ==> e in entries && e.id > after
    ensures forall e :: e in entries && after < e.id <= End(batch[..n], after) ==> e in batch[..n]
    ensures forall e :: e in batch[..n] ==> e.id <= End(batch[..n], after)
  {
    forall e | e in entries && after < e.id <= End(batch[..n], after)
      ensures e in batch[..n]
    {
      assert n > 0 && batch[n - 1] in batch;
      assert e in batch;
      var k :| 0 <= k < |batch| && batch[k] == e;
      assert k < n;
      assert batch[..n][k] == e;
    }
  }

  datatype Pending = Pending(envelope: string, redeliverAfter: int)

  /** The clock of an entry handed over at `now`. */
  function Fresh(e: Entry, now: int): Pending
    requires e.envelope.Some?
  {
    Pending(e.envelope.value, now + REDELIVERY_INTERVAL)
  }

  /** What is pending, and what has been handed over, once the entries of `taken` were passed. */
  function Pended(pending: map<EntryID, Pending>, taken: seq<Entry>, now: int): map<EntryID, Pending> {
    if taken == [] then pending
    else
      var e := taken[|taken| - 1];
      var before := Pended(pending, taken[..|taken| - 1], now);
      if e.envelope.Some? then before[e.id := Fresh(e, now)] else before
  }

  function HandOvers(taken: seq<Entry>): multiset<EntryID> {
    if taken == [] then multiset{}
    else
      var e := taken[|taken| - 1];
      HandOvers(taken[..|taken| - 1]) + if e.envelope.Some? then multiset{e.id} else multiset{}
  }

  lemma TakenStep(pending: map<EntryID, Pending>, batch: seq<Entry>, n: nat, now: int)
    requires n < |batch|
    ensures Pended(pending, batch[..n + 1], now)
            == if batch[n].envelope.Some? then Pended(pending, batch[..n], now)[batch[n].id := Fresh(batch[n], now)]
               else Pended(pending, batch[..n], now)
    ensures HandOvers(batch[..n + 1])
            == HandOvers(batch[..n]) + if batch[n].envelope.Some? then multiset{batch[n].id} else multiset{}
  {
    assert batch[..n + 1][..n] == batch[..n];
  }

  /** An ID that none of the entries has is left alone. */
  lemma {:induction false} OthersKept(pending: map<EntryID, Pending>, taken: seq<Entry>, now: int, id: EntryID)
    requires forall k :: 0 <= k < |taken| ==> taken[k].id != id
    ensures HandOvers(taken)[id] == 0 && (id in Pended(pending, taken, now) <==> id in pending)
    ensures id in pending ==> Pended(pending, taken, now)[id] == pending[id]
  {
    if taken != [] { OthersKept(pending, taken[..|taken| - 1], now, id); }
  }

  /** A decodable entry is handed over once and pending. */
  lemma {:induction false} TakenOnce(pending: map<EntryID, Pending>, taken: seq<Entry>, now: int, k: nat)
    requires AscendingIDs(taken) && k < |taken| && taken[k].envelope.Some?
    ensures HandOvers(taken)[taken[k].id] == 1 && taken[k].id in Pended(pending, taken, now)
    ensures Pended(pending, taken, now)[taken[k].id] == Fresh(taken[k], now)
  {
    var last := |taken| - 1;
    if k < last {
      TakenOnce(pending, taken[..last], now, k);
    } else {
      OthersKept(pending, taken[..last], now, taken[last].id);
    }
  }

  /** Whatever is new among the pending is a decodable entry that was passed. */
  lemma {:induction false} OnlyTaken(pending: map<EntryID, Pending>, taken: seq<Entry>, now: int, id: EntryID)
    requires id !in pending && (id in Pended(pending, taken, now) || id in HandOvers(taken))
    ensures exists k :: 0 <= k < |taken| && taken[k].id == id && taken[k].envelope.Some?
  {
    var last := |taken| - 1;
    if !(taken[last].id == id && taken[last].envelope.Some?) {
      OnlyTaken(pending, taken[..last], now, id);
      var k :| 0 <= k < last && taken[..last][k].id == id && taken[..last][k].envelope.Some?;
      assert taken[k].id == id;
    }
  }

  /** What a read leaves behind that passed the first n entries of its batch: of the entries up to
      there exactly the decodable ones were handed over, each once, and are pending. */
  lemma ReadIsExact(entries: seq<Entry>, batch: seq<Entry>, after: EntryID, n: nat, now: int,
      waiting: map<EntryID, Pending>, pending: map<EntryID, Pending>, sent: multiset<EntryID>,
      handed: multiset<EntryID>)
    requires AscendingIDs(entries) && IsNext(batch, entries, after) && n <= |batch|
    requires (forall id :: id in waiting ==> id <= after) && (forall id :: id in sent ==> id <= after)
    requires pending == Pended(waiting, batch[..n], now) && handed == sent + HandOvers(batch[..n])
    ensures forall e :: e in entries && after < e.id <= End(batch[..n], after) && e.envelope.Some? ==>
              handed[e.id] == 1 && e.id in pending && pending[e.id] == Fresh(e, now)
    ensures forall id :: id <= after ==>
              handed[id] == sent[id] && (id in pending <==> id in waiting)
              && (id in waiting ==> pending[id] == waiting[id])
    ensures forall id :: id > after && (id in pending || id in handed) ==>
              exists e :: e in entries && e.id == id <= End(batch[..n], after) && e.envelope.Some?
  {
    var taken := batch[..n];
    PassedIsTaken(batch, entries, after, n);
    forall e | e in entries && after < e.id <= End(taken, after) && e.envelope.Some?
      ensures handed[e.id] == 1 && e.id in pending && pending[e.id] == Fresh(e, now)
    {
      var k :| 0 <= k < |taken| && taken[k] == e;
      TakenOnce(waiting, taken, now, k);
    }
    forall id: EntryID | id <= after
      ensures handed[id] == sent[id] && (id in pending <==> id in waiting)
              && (id in waiting ==> pending[id] == waiting[id])
    {
      assert forall k :: 0 <= k < |taken| ==> taken[k] in taken;
      OthersKept(waiting, taken, now, id);
    }
    forall id: EntryID | id > after && (id in pending || id in handed)
      ensures exists e :: e in entries && e.id == id <= End(taken, after) && e.envelope.Some?
    {
      OnlyTaken(waiting, taken, now, id);
      var k :| 0 <= k < |taken| && taken[k].id == id && taken[k].envelope.Some?;
      assert taken[k] in taken;
    }
  }

  class Subscription {
    const stream: CommandStream
    var lastID: EntryID
    var pending: map<EntryID, Pending>
    var acknowledged: set<EntryID>

    ghost var handed: multiset<EntryID> // every hand-over so far

    constructor (stream: CommandStream)
      requires stream.Valid()
      ensures Valid() && this.stream == stream && lastID == 0 && pending == map[] && acknowledged == {}
              && handed == multiset{}
    {
      this.stream, lastID, pending, acknowledged, handed := stream, 0, map[], {}, multiset{};
    }

    /** Nothing is lost: an entry that is still in the stream and can be decoded was handed over and
        is pending, or is still to be read. What is acknowledged has left the stream. */
    ghost predicate Valid()
      reads this, stream
    {
      && stream.Valid()
      && (forall e :: e in stream.entries && e.id <= lastID && e.envelope.Some? ==>
          e.id in pending && e.id !in acknowledged)
      && (forall e :: e in stream.entries ==> e.id !in acknowledged)
      && (forall id :: id in pending ==> id <= lastID && id in handed)
      && (forall id :: id in handed ==> id <= lastID)
      && (forall id :: id in acknowledged ==> id <= lastID)
      && lastID <= stream.last
    }

    /** Any instance appends a command. */
    method Publish(envelope: string)
      requires Valid()
      modifies stream
      ensures Valid() && stream.entries == old(stream.entries) + [Entry(stream.last, Some(envelope))]
              && stream.last > lastID
    {
      var id := stream.Add(Some(envelope));
    }

    /** One entry of a batch: an undecodable one is skipped, and deleted unless it is in
        `lost`; another is handed over and becomes pending. */
    method Take(e: Entry, now: int, lost: set<EntryID>)
      requires Valid() && lastID < e.id <= stream.last
      requires forall x :: x in stream.entries && x.id > lastID ==> e.id < x.id || x == e
      modifies this`lastID, this`pending, this`handed, stream`entries
      ensures Valid() && lastID == e.id
      ensures IsLeft(stream.entries, old(stream.entries), old(lastID), lastID, lost)
      ensures handed == if e.envelope.Some? then old(handed) + multiset{e.id} else old(handed)
      ensures pending == if e.envelope.Some?
              then old(pending)[e.id := Fresh(e, now)] else old(pending)
    {
      if e.envelope.None? {
        if e.id !in lost {
          stream.Delete(e.id);
        }
      } else {
        handed := handed + multiset{e.id};
        pending := pending[e.id := Fresh(e, now)];
      }
      lastID := e.id;
    }

    /** One read of the loop takes the next batch in order, up to the first send that is cancelled,
        the one after `sends`. Exactly the decodable entries passed are handed over, each once, and
        become pending; what was pending stays so. Only undecodable entries leave the stream, those of
        `lost` excepted, whose deletion does not arrive. */
    method ReadOnce(now: int, sends: nat, lost: set<EntryID>) returns (cancelled: bool)
      requires Valid()
      modifies this`lastID, this`pending, this`handed, stream`entries
      ensures Valid() && old(lastID) <= lastID
      ensures !cancelled && (exists e :: e in old(stream.entries) && e.id > old(lastID)) ==> lastID > old(lastID)
      ensures var batch := Batch(old(stream.entries), old(lastID));
              && (cancelled <==> Decodable(batch) > sends)
              && (!cancelled ==> lastID == End(batch, old(lastID)))
              && (cancelled ==>
                  exists n :: && 0 <= n < |batch| && batch[n].envelope.Some? && Decodable(batch[..n]) == sends
                              && lastID == End(batch[..n], old(lastID)))
      ensures forall e :: e in old(stream.entries) && old(lastID) < e.id <= lastID && e.envelope.Some? ==>
                handed[e.id] == 1 && e.id in pending
                && pending[e.id] == Pending(e.envelope.value, now + REDELIVERY_INTERVAL)
      ensures forall id :: id <= old(lastID) ==>
                handed[id] == old(handed)[id] && (id in pending <==> id in old(pending))
                && (id in old(pending) ==> pending[id] == old(pending)[id])
      ensures forall id :: id > old(lastID) && (id in pending || id in handed) ==>
                exists e :: e in old(stream.entries) && e.id == id <= lastID && e.envelope.Some?
      ensures IsLeft(stream.entries, old(stream.entries), old(lastID), lastID, lost)
    {
      var batch := stream.Read(lastID);
      ghost var n;
      cancelled, n := TakeBatch(batch, now, sends, lost);
      assert batch[..|batch|] == batch;
      ReadIsExact(old(stream.entries), batch, old(lastID), n, now, old(pending), pending, old(handed), handed);
    }

    /** The next entry of a batch that was read past `after` when the stream held `before`. */
    method TakeNext(batch: seq<Entry>, i: nat, now: int, lost: set<EntryID>,
        ghost before: seq<Entry>, ghost after: EntryID, ghost waiting: map<EntryID, Pending>,
        ghost sent: multiset<EntryID>)
      requires Valid() && i < |batch| && IsNext(batch, before, after) && AscendingIDs(before) && after <= lastID
      requires lastID == End(batch[..i], after) && stream.last >= End(batch, after)
      requires IsLeft(stream.entries, before, after, lastID, lost)
      requires pending == Pended(waiting, batch[..i], now) && handed == sent + HandOvers(batch[..i])
      modifies this`lastID, this`pending, this`handed, stream`entries
      ensures Valid() && old(lastID) < lastID == End(batch[..i + 1], after)
      ensures IsLeft(stream.entries, before, after, lastID, lost)
      ensures pending == Pended(waiting, batch[..i + 1], now) && handed == sent + HandOvers(batch[..i + 1])
    {
      TakenStep(waiting, batch, i, now);
      ghost var left := stream.entries;
      IsFirst(batch, before, after, i, left, lastID, lost);
      Take(batch[i], now, lost);
      LeftStep(before, left, stream.entries, after, old(lastID), lastID, lost);
    }

    method TakeBatch(batch: seq<Entry>, now: int, sends: nat, lost: set<EntryID>)
      returns (cancelled: bool, ghost n: nat)
      requires Valid() && IsNext(batch, stream.entries, lastID)
      modifies this`lastID, this`pending, this`handed, stream`entries
      ensures Valid() && old(lastID) <= lastID
      ensures n <= |batch| && lastID == End(batch[..n], old(lastID))
      ensures cancelled <==> Decodable(batch) > sends
      ensures if cancelled then n < |batch| && batch[n].envelope.Some? && Decodable(batch[..n]) == sends
              else n == |batch|
      ensures pending == Pended(old(pending), batch[..n], now)
      ensures handed == old(handed) + HandOvers(batch[..n])
      ensures IsLeft(stream.entries, old(stream.entries), old(lastID), lastID, lost)
    {
      ghost var before := stream.entries;
      var sent := 0;
      for i := 0 to |batch|
        invariant Valid()
        invariant old(lastID) <= lastID == End(batch[..i], old(lastID))
        invariant IsLeft(stream.entries, before, old(lastID), lastID, lost)
        invariant pending == Pended(old(pending), batch[..i], now)
        invariant handed == old(handed) + HandOvers(batch[..i])
        invariant sent == Decodable(batch[..i]) <= sends
      {
        DecodableStep(batch, i);
        if batch[i].envelope.Some? {
          if sent == sends {
            DecodableGrows(batch, i + 1);
            return true, i;
          }
          sent := sent + 1;
        }
        TakeNext(batch, i, now, lost, before, old(lastID), old(pending), old(handed));
      }
      assert batch[..|batch|] == batch;
      return false, |batch|;
    }

    /** Acknowledge: the entry leaves the stream, and only a confirmed deletion counts. */
    method Ack(id: EntryID, fault: Fault) returns (ok: bool)
      requires Valid() && id in pending
      modifies this`acknowledged, stream`entries
      ensures Valid() && ok == (id in old(acknowledged) || fault.Replied?)
      ensures acknowledged == if ok then old(acknowledged) + {id} else old(acknowledged)
      ensures var deleted := id !in old(acknowledged) && !fault.LostRequest?;
              forall e :: e in stream.entries <==> e in old(stream.entries) && !(deleted && e.id == id)
      ensures ok ==> forall e :: e in stream.entries ==> e.id != id
    {
      if id in acknowledged {
        return true;
      }
      if !fault.LostRequest? {
        stream.Delete(id);
      }
      if !fault.Replied? {
        return false;
      }
      acknowledged := acknowledged + {id};
      return true;
    }

    /** One pass over the pending deliveries: the acknowledged ones are dropped, and those due again
        are handed over if the channel takes them (`accepts`). */
    method RedeliverPending(now: int, accepts: set<EntryID>)
      requires Valid()
      modifies this`pending, this`handed
      ensures Valid()
      ensures pending == Passed(old(pending), acknowledged, {}, now, accepts)
      ensures handed == old(handed) + multiset(Again(old(pending), acknowledged, {}, now, accepts))
    {
      var left := pending.Keys;
      ghost var before := pending;
      while left != {}
        invariant left <= before.Keys
        invariant pending == Passed(before, acknowledged, left, now, accepts)
        invariant handed == old(handed) + multiset(Again(before, acknowledged, left, now, accepts))
        decreases |left|
      {
        var id :| id in left;
        PassStep(before, acknowledged, left, id, now, accepts);
        left := left - {id};
        if id in acknowledged {
          pending := pending - {id};
        } else if now >= pending[id].redeliverAfter && id in accepts {
          handed := handed + multiset{id};
          pending := pending[id := pending[id].(redeliverAfter := now + REDELIVERY_INTERVAL)];
        }
      }
    }
  }

  /** Looking at one more delivery changes only its own entry. */
  lemma PassStep(
    pending: map<EntryID, Pending>, acknowledged: set<EntryID>, left: set<EntryID>, id: EntryID, now: int,
        accepts: set<EntryID>
  )
    requires id in left && id in pending
    ensures var before, after := Passed(pending, acknowledged, left, now, accepts),
            Passed(pending, acknowledged, left - {id}, now, accepts);
            var sent, resent := Again(pending, acknowledged, left, now, accepts),
                Again(pending, acknowledged, left - {id}, now, accepts);
            && id in before && before[id] == pending[id] && id !in sent
            && if id in acknowledged then after == before - {id} && resent == sent
               else if now >= pending[id].redeliverAfter && id in accepts then
                 after == before[id := pending[id].(redeliverAfter := now + REDELIVERY_INTERVAL)]
                     && resent == sent + {id}
               else after == before && resent == sent
  {
  }

  /** The deliveries handed over again by a pass that still has `left` to look at. */
  ghost function Again(pending: map<EntryID, Pending>, acknowledged: set<EntryID>, left: set<EntryID>, now: int,
      accepts: set<EntryID>): set<EntryID> {
    set id | id in pending && id !in left && id !in acknowledged && now >= pending[id].redeliverAfter && id in accepts
  }

  /** What stays pending: everything not acknowledged, with its clock reset when it was handed over. */
  ghost function Passed(
    pending: map<EntryID, Pending>, acknowledged: set<EntryID>, left: set<EntryID>, now: int, accepts: set<EntryID>
  ): map<EntryID, Pending> {
    map id | id in pending && (id in left || id !in acknowledged) ::
      if id in Again(pending, acknowledged, left, now, accepts)
          then pending[id].(redeliverAfter := now + REDELIVERY_INTERVAL) else pending[id]
  }
}
