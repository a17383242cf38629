/** The recovery scanner: it pages the index of active sessions by key, a page a tick, and starts
    over once a short page was finished. */
module RecoveryScan {
  import opened Wrappers
  import opened DecimalOrder

  // ----- key order

  /** Byte-wise order of keys. */
  predicate Less(a: string, b: string) {
    StringGreater(b, a)
  }

  lemma {:induction false} LessIsStrict(a: string)
    ensures !Less(a, a)
    decreases |a|
  {
    if a != [] { LessIsStrict(a[1..]); }
  }

  lemma {:induction false} LessIsTransitive(a: string, b: string, c: string)
    requires Less(a, b) && Less(b, c)
    ensures Less(a, c)
    decreases |a|
  {
    if a != [] && a[0] == b[0] && b[0] == c[0] { LessIsTransitive(a[1..], b[1..], c[1..]); }
  }

  lemma {:induction false} LessIsTotal(a: string, b: string)
    ensures a == b || Less(a, b) || Less(b, a)
    decreases |a|
  {
    if a != [] && b != [] && a[0] == b[0] {
      LessIsTotal(a[1..], b[1..]);
      if a[1..] == b[1..] { assert a == [a[0]] + a[1..] && b == [b[0]] + b[1..]; }
    }
  }

  /** m comes first among the keys. */
  ghost predicate IsLeast(m: string, keys: set<string>) {
    m in keys && forall k :: k in keys && k != m ==> Less(m, k)
  }

  lemma {:induction false} FindLeast(keys: set<string>) returns (m: string)
    requires keys != {}
    ensures IsLeast(m, keys)
  {
    m :| m in keys;
    var rest := keys - {m};
    assert keys == rest + {m};
    if rest != {} {
      var other := FindLeast(rest);
      LessIsTotal(m, other);
      if Less(m, other) {
        forall k | k in keys && k != m ensures Less(m, k) {
          assert k in rest;
          if k != other { LessIsTransitive(m, other, k); }
        }
      } else {
        m := other;
      }
    }
  }

  lemma LeastExists(keys: set<string>)
    requires keys != {}
    ensures exists m :: IsLeast(m, keys)
  {
    var m := FindLeast(keys);
  }

  lemma LeastIsUnique(keys: set<string>, m: string, n: string)
    requires IsLeast(m, keys) && IsLeast(n, keys)
    ensures m == n
  {
    if m != n {
      LessIsTransitive(m, n, m);
      LessIsStrict(m);
    }
  }

  ghost function Least(keys: set<string>): (m: string)
    requires keys != {}
    ensures IsLeast(m, keys)
  {
    LeastExists(keys);
    var m :| IsLeast(m, keys);
    m
  }

  // ----- one page

  /** The keys past the cursor. */
  function Past(index: set<string>, after: string): set<string> {
    set k | k in index && Less(after, k)
  }

  /** The first `limit` keys of a set, in order. */
  ghost function First(keys: set<string>, limit: nat): seq<string> {
    if keys == {} || limit == 0 then [] else [Least(keys)] + First(keys - {Least(keys)}, limit - 1)
  }

  ghost predicate Ascending(keys: seq<string>) {
    forall i, j :: 0 <= i < j < |keys| ==> Less(keys[i], keys[j])
  }

  /** A page holds keys of the set in order, and leaves out only keys past its last one, and those
      only when it is full. */
  ghost predicate IsPage(page: seq<string>, keys: set<string>, limit: nat) {
    && Ascending(page) && |page| == (if |keys| < limit then |keys| else limit)
    && (forall i :: 0 <= i < |page| ==> page[i] in keys)
    && (forall k :: k in keys && k !in page ==> |page| == limit && forall i :: 0 <= i < |page| ==> Less(page[i], k))
  }

  lemma {:induction false} FirstIsPage(keys: set<string>, limit: nat)
    ensures IsPage(First(keys, limit), keys, limit)
  {
    if keys != {} && limit > 0 {
      var m := Least(keys);
      FirstIsPage(keys - {m}, limit - 1);
      var rest := First(keys - {m}, limit - 1);
      assert First(keys, limit) == [m] + rest;
      assert forall i :: 0 <= i < |rest| ==> rest[i] in keys - {m};
    }
  }

  datatype ScanError = InvalidPageSize | Unreadable

  class ActiveSessionScanner {
    // The unique index of active keys, as other servers leave it.
    var index: set<string>

    /** The cursor over the index, read in key order up to the limit. */
    method ListActiveSessions(after: string, limit: int, readable: bool) returns (r: Result<seq<string>, ScanError>)
      ensures limit < 1 || limit > 1000 ==> r == Err(InvalidPageSize)
      ensures 1 <= limit <= 1000 && !readable ==> r == Err(Unreadable)
      ensures 1 <= limit <= 1000 && readable ==> r == Ok(First(Past(index, after), limit))
    {
      if limit < 1 || limit > 1000 {
        return Err(InvalidPageSize);
      }
      if !readable {
        return Err(Unreadable);
      }
      var left := Past(index, after);
      var page: seq<string> := [];
      while left != {} && |page| < limit
        invariant |page| <= limit
        invariant page + First(left, limit - |page|) == First(Past(index, after), limit)
        decreases |left|
      {
        LeastExists(left);
        var next :| next in left && forall k :: k in left && k != next ==> Less(next, k);
        LeastIsUnique(left, next, Least(left));
        assert page + [next] + First(left - {next}, limit - |page| - 1) == page + First(left, limit - |page|);
        page := page + [next];
        left := left - {next};
      }
      assert page + [] == page;
      return Ok(page);
    }
  }

  // ----- a run of ticks

  /** One tick of the loop: another scanner held the lease or the page could not be read; or a page
      of the index as it was then, of which the first `considered` sessions were reached. */
  datatype Tick = Idle | Page(index: set<string>, considered: nat, complete: bool)

  ghost function Keys(t: Tick, after: string, batch: nat): seq<string> {
    if t.Idle? then [] else First(Past(t.index, after), batch)
  }

  /** A finished page was considered to its end. */
  ghost predicate Possible(t: Tick, after: string, batch: nat) {
    t.Page? ==> t.considered <= |Keys(t, after, batch)| && (t.complete ==> t.considered == |Keys(t, after, batch)|)
  }

  predicate Resets(t: Tick, length: nat, batch: nat) {
    t.Page? && t.complete && length < batch
  }

  ghost function Moved(t: Tick, after: string, batch: nat): string
    requires Possible(t, after, batch)
  {
    if t.Page? && t.considered > 0 then Keys(t, after, batch)[t.considered - 1] else after
  }

  ghost function Onward(cursor: Option<string>, t: Tick, batch: nat): Option<string> {
    match cursor
    case None => None
    case Some(after) =>
      if Possible(t, after, batch) && !Resets(t, |Keys(t, after, batch)|, batch) then Some(Moved(t, after, batch))
          else None
  }

  /** The cursor after the first n ticks of a cycle; None once the cycle has ended. */
  ghost function Cursor(ticks: seq<Tick>, n: nat, batch: nat): Option<string>
    requires n <= |ticks|
  {
    if n == 0 then Some("") else Onward(Cursor(ticks, n - 1, batch), ticks[n - 1], batch)
  }

  /** The cycle ends with tick n: it is under way until then, and that tick resets the cursor. */
  ghost predicate EndsAt(ticks: seq<Tick>, n: nat, batch: nat)
    requires n < |ticks|
  {
    && Cursor(ticks, n, batch).Some?
    && var after := Cursor(ticks, n, batch).value;
       Possible(ticks[n], after, batch) && Resets(ticks[n], |Keys(ticks[n], after, batch)|, batch)
  }

  /** The sessions reached by tick t, in order. */
  ghost function Reached(t: Tick, after: string, batch: nat): seq<string>
    requires Possible(t, after, batch)
  {
    if t.Page? then Keys(t, after, batch)[..t.considered] else []
  }

  /** The sessions reached by the first n ticks of a cycle under way. */
  ghost function Considered(ticks: seq<Tick>, n: nat, batch: nat): seq<string>
    requires n <= |ticks| && Cursor(ticks, n, batch).Some?
  {
    if n == 0 then []
    else Considered(ticks, n - 1, batch) + Reached(ticks[n - 1], Cursor(ticks, n - 1, batch).value, batch)
  }

  /** All sessions of a finished cycle. */
  ghost function Cycle(ticks: seq<Tick>, n: nat, batch: nat): seq<string>
    requires n < |ticks| && EndsAt(ticks, n, batch)
  {
    Considered(ticks, n, batch) + Reached(ticks[n], Cursor(ticks, n, batch).value, batch)
  }

  /** `done` are the keys up to the cursor, in order. */
  ghost predicate UpTo(done: seq<string>, cursor: string) {
    && Ascending(done)
    && (forall i :: 0 <= i < |done| ==> done[i] == cursor || Less(done[i], cursor))
  }

  lemma AscendingAppends(done: seq<string>, cursor: string, more: seq<string>, next: string)
    requires UpTo(done, cursor) && UpTo(more, next)
    requires forall i :: 0 <= i < |more| ==> Less(cursor, more[i])
    requires next == cursor || Less(cursor, next)
    ensures UpTo(done + more, next)
  {
    var all := done + more;
    forall i, j | 0 <= i < j < |all|
      ensures Less(all[i], all[j])
    {
      if i < |done| <= j && done[i] != cursor { LessIsTransitive(done[i], cursor, more[j - |done|]); }
    }
    forall i | 0 <= i < |all|
      ensures all[i] == next || Less(all[i], next)
    {
      if i < |done| && done[i] != cursor && next != cursor { LessIsTransitive(done[i], cursor, next); }
    }
  }

  /** A tick reaches keys past the cursor in order, up to where it leaves the cursor. */
  lemma ReachedIsPast(t: Tick, after: string, batch: nat)
    requires Possible(t, after, batch)
    ensures var reached, next := Reached(t, after, batch), Moved(t, after, batch);
            && UpTo(reached, next) && (next == after || Less(after, next))
            && forall i :: 0 <= i < |reached| ==> Less(after, reached[i])
  {
    if t.Page? { PrefixIsPast(t.index, after, batch, t.considered); }
  }

  lemma PrefixIsPast(index: set<string>, after: string, batch: nat, n: nat)
    requires n <= |First(Past(index, after), batch)|
    ensures var reached := First(Past(index, after), batch)[..n];
            && Ascending(reached) && (forall i :: 0 <= i < n ==> Less(after, reached[i]))
            && forall i :: 0 <= i < n - 1 ==> Less(reached[i], reached[n - 1])
  {
    FirstIsPage(Past(index, after), batch);
  }

  lemma TickAscends(done: seq<string>, t: Tick, after: string, batch: nat)
    requires UpTo(done, after) && Possible(t, after, batch)
    ensures UpTo(done + Reached(t, after, batch), Moved(t, after, batch))
  {
    ReachedIsPast(t, after, batch);
    AscendingAppends(done, after, Reached(t, after, batch), Moved(t, after, batch));
  }

  /** No session is reached twice in a cycle, and sessions are reached in key order. */
  lemma {:induction false} ConsideredAscends(ticks: seq<Tick>, n: nat, batch: nat)
    requires n <= |ticks| && Cursor(ticks, n, batch).Some?
    ensures UpTo(Considered(ticks, n, batch), Cursor(ticks, n, batch).value)
  {
    if n > 0 {
      ConsideredAscends(ticks, n - 1, batch);
      TickAscends(Considered(ticks, n - 1, batch), ticks[n - 1], Cursor(ticks, n - 1, batch).value, batch);
    }
  }

  /** A key that was in the index at every page, and is not past the cursor, was reached. */
  lemma {:induction false} ConsideredCovers(ticks: seq<Tick>, n: nat, batch: nat, key: string)
    requires n <= |ticks| && Cursor(ticks, n, batch).Some? && key != ""
    requires forall i :: 0 <= i < n && ticks[i].Page? ==> key in ticks[i].index
    ensures key in Considered(ticks, n, batch) || Less(Cursor(ticks, n, batch).value, key)
  {
    if n == 0 {
      assert Less("", key);
    } else {
      ConsideredCovers(ticks, n - 1, batch, key);
      var t, after := ticks[n - 1], Cursor(ticks, n - 1, batch).value;
      if t.Page? && Less(after, key) { PageCovers(t, after, batch, key); }
    }
  }

  /** A page reaches every indexed key between the old cursor and the new one. */
  lemma PageCovers(t: Tick, after: string, batch: nat, key: string)
    requires t.Page? && Possible(t, after, batch) && key in t.index && Less(after, key)
    ensures key in Reached(t, after, batch) || Less(Moved(t, after, batch), key)
    ensures Resets(t, |Keys(t, after, batch)|, batch) ==> key in Reached(t, after, batch)
  {
    var keys := Keys(t, after, batch);
    FirstIsPage(Past(t.index, after), batch);
    if key in keys {
      var i :| 0 <= i < |keys| && keys[i] == key;
      if i < t.considered { assert Reached(t, after, batch)[i] == key; }
    }
  }

  /** Coverage: while sessions come and go between pages, a finished cycle reaches every key that
      was active at all of its pages, exactly once. */
  lemma CycleCoversOnce(ticks: seq<Tick>, n: nat, batch: nat, key: string)
    requires n < |ticks| && EndsAt(ticks, n, batch) && key != ""
    requires forall i :: 0 <= i <= n && ticks[i].Page? ==> key in ticks[i].index
    ensures exists i :: 0 <= i < |Cycle(ticks, n, batch)| && Cycle(ticks, n, batch)[i] == key
                        && forall j :: 0 <= j < |Cycle(ticks, n, batch)| && j != i ==> Cycle(ticks, n, batch)[j] != key
  {
    var t, after := ticks[n], Cursor(ticks, n, batch).value;
    var cycle := Cycle(ticks, n, batch);
    ConsideredCovers(ticks, n, batch, key);
    if Less(after, key) { PageCovers(t, after, batch, key); }
    assert key in cycle;
    ConsideredAscends(ticks, n, batch);
    TickAscends(Considered(ticks, n, batch), t, after, batch);
    OnceInAscending(cycle, key);
  }

  lemma OnceInAscending(keys: seq<string>, key: string)
    requires Ascending(keys) && key in keys
    ensures exists i :: 0 <= i < |keys| && keys[i] == key && forall j :: 0 <= j < |keys| && j != i ==> keys[j] != key
  {
    var i :| 0 <= i < |keys| && keys[i] == key;
    LessIsStrict(key);
  }

  // ----- termination

  /** Past a full page there are exactly that many keys fewer. */
  lemma {:induction false} FullPageShrinks(keys: set<string>, limit: nat)
    requires 1 <= limit <= |keys|
    ensures |First(keys, limit)| == limit && |Past(keys, First(keys, limit)[limit - 1])| == |keys| - limit
  {
    FirstIsPage(keys, limit);
    var m := Least(keys);
    var last := First(keys, limit)[limit - 1];
    LessIsStrict(m);
    if limit == 1 {
      assert Past(keys, m) == keys - {m};
    } else {
      FullPageShrinks(keys - {m}, limit - 1);
      assert last == First(keys - {m}, limit - 1)[limit - 2];
      if Less(last, m) { LessIsTransitive(m, last, m); }
      assert Past(keys, last) == Past(keys - {m}, last);
    }
  }

  lemma PastOfPast(index: set<string>, after: string, next: string)
    requires Less(after, next)
    ensures Past(Past(index, after), next) == Past(index, next)
  {
    forall k | k in Past(index, next) ensures k in Past(Past(index, after), next) {
      LessIsTransitive(after, next, k);
    }
  }

  /** A finished short page ends the cycle, a full one does not. */
  lemma PageLength(t: Tick, after: string, batch: nat)
    requires t.Page? && t.complete && Possible(t, after, batch)
    ensures |Keys(t, after, batch)| == (if |Past(t.index, after)| < batch then |Past(t.index, after)| else batch)
    ensures Resets(t, |Keys(t, after, batch)|, batch) <==> |Past(t.index, after)| < batch
  {
    FirstIsPage(Past(t.index, after), batch);
  }

  /** A finished full page advances past exactly that many keys. */
  lemma FullPageAdvances(t: Tick, after: string, batch: nat)
    requires t.Page? && t.complete && Possible(t, after, batch) && 0 < batch <= |Past(t.index, after)|
    ensures |Past(t.index, Moved(t, after, batch))| == |Past(t.index, after)| - batch
  {
    PageLength(t, after, batch);
    FullPageShrinks(Past(t.index, after), batch);
    LastIsPast(t.index, after, batch);
    PastOfPast(t.index, after, First(Past(t.index, after), batch)[batch - 1]);
  }

  lemma LastIsPast(index: set<string>, after: string, batch: nat)
    requires 0 < batch <= |Past(index, after)|
    ensures |First(Past(index, after), batch)| == batch && Less(after, First(Past(index, after), batch)[batch - 1])
  {
    FirstIsPage(Past(index, after), batch);
  }

  /** While the index stays as it is and nothing fails, every tick but the last advances by a full page. */
  lemma {:induction false} KeysAboveShrink(ticks: seq<Tick>, n: nat, batch: nat, index: set<string>)
    requires batch > 0 && n <= |ticks| && n * batch <= |Past(index, "")|
    requires Undisturbed(ticks, n, batch, index)
    ensures Cursor(ticks, n, batch).Some?
            && |Past(index, Cursor(ticks, n, batch).value)| == |Past(index, "")| - n * batch
  {
    if n > 0 {
      assert n * batch == (n - 1) * batch + batch;
      KeysAboveShrink(ticks, n - 1, batch, index);
      PageLength(ticks[n - 1], Cursor(ticks, n - 1, batch).value, batch);
      FullPageAdvances(ticks[n - 1], Cursor(ticks, n - 1, batch).value, batch);
    }
  }

  /** Every page of the run is finished, and all find the same index. */
  ghost predicate Undisturbed(ticks: seq<Tick>, n: nat, batch: nat, index: set<string>)
    requires n <= |ticks|
  {
    && (forall i :: 0 <= i < n ==> ticks[i].Page? && ticks[i].index == index && ticks[i].complete)
    && (forall i :: 0 <= i < n && Cursor(ticks, i, batch).Some? ==>
        Possible(ticks[i], Cursor(ticks, i, batch).value, batch))
  }

  /** So a cycle over n full pages and a short one ends with tick n. */
  lemma CycleEnds(ticks: seq<Tick>, n: nat, batch: nat, index: set<string>)
    requires n < |ticks| && n * batch <= |Past(index, "")| < n * batch + batch
    requires Undisturbed(ticks, |ticks|, batch, index)
    ensures EndsAt(ticks, n, batch)
  {
    KeysAboveShrink(ticks, n, batch, index);
    PageLength(ticks[n], Cursor(ticks, n, batch).value, batch);
  }

  // ----- the loop

  /** What the scanner finds about a session: it need not act, the owner cannot be read, or there is
      no owner and the room may have to be asked. */
  datatype Status = Settled | OwnerUnreadable | Ownerless

  /** The sessions without an owner among those reached, in the same order. */
  function Unowned(reached: seq<string>, status: map<string, Status>): (asked: seq<string>)
    ensures forall k :: k in asked <==> k in reached && Reading(status, k).Ownerless?
  {
    if reached == [] then []
    else
      var last := |reached| - 1;
      Unowned(reached[..last], status) + if Reading(status, reached[last]).Ownerless? then [reached[last]] else []
  }

  class RecoveryLoop {
    const scanner: ActiveSessionScanner
    const batch: nat
    var after: string

    // The ticks since the cycle began.
    ghost var ticks: seq<Tick>

    constructor (scanner: ActiveSessionScanner, batch: nat)
      ensures Valid() && after == "" && ticks == [] && this.scanner == scanner && this.batch == batch
    {
      this.scanner, this.batch, after, ticks := scanner, batch, "", [];
    }

    ghost predicate Valid()
      reads this
    {
      Cursor(ticks, |ticks|, batch) == Some(after)
    }

    /** One tick. `expires` is how many sessions the time budget lets it reach; `status` says what it
        finds about each. It returns the sessions whose rooms it asked to open. */
    method ScanPage(acquired: bool, readable: bool, expires: nat, status: map<string, Status>)
      returns (asked: seq<string>, ghost t: Tick)
      requires Valid()
      modifies this
      ensures Valid() && Possible(t, old(after), batch)
      ensures !(acquired && readable && 1 <= batch <= 1000) ==>
              t.Idle? && after == old(after) && ticks == old(ticks)
              && asked == []
      ensures acquired && readable && 1 <= batch <= 1000 ==>
                && t.Page? && t.index == scanner.index
                && Stops(t.considered, t.complete, Keys(t, old(after), batch), expires, status)
                && asked == Unowned(Reached(t, old(after), batch), status)
                && (if Resets(t, |Keys(t, old(after), batch)|, batch) then after == "" && ticks == []
                    else after == Moved(t, old(after), batch) && ticks == old(ticks) + [t])
    {
      asked, t := [], Idle;
      if !acquired {
        return;
      }
      var listed := scanner.ListActiveSessions(after, batch, readable);
      if listed.Err? {
        return;
      }
      var page := listed.value;
      var considered, complete;
      considered, complete, asked := ReachSessions(page, expires, status);
      t := Page(scanner.index, considered, complete);
      assert Keys(t, old(after), batch) == page;
      if complete && |page| < batch {
        after := "";
        ticks := [];
      } else {
        CursorStep(ticks, t, old(after), batch);
        ticks := ticks + [t];
      }
    }

    /** The loop over one page: the cursor moves to a session before anything is asked about it. */
    method ReachSessions(page: seq<string>, expires: nat, status: map<string, Status>)
      returns (considered: nat, complete: bool, asked: seq<string>)
      modifies this`after
      ensures Stops(considered, complete, page, expires, status)
      ensures after == if considered > 0 then page[considered - 1] else old(after)
      ensures asked == Unowned(page[..considered], status)
    {
      considered, complete, asked := 0, true, [];
      while considered < |page|
        invariant considered <= |page| && complete
        invariant after == if considered > 0 then page[considered - 1] else old(after)
        invariant considered <= expires && forall i :: 0 <= i < considered ==>
                  !Reading(status, page[i]).OwnerUnreadable?
        invariant asked == Unowned(page[..considered], status)
      {
        if considered >= expires {
          return considered, false, asked;
        }
        var key := page[considered];
        assert page[..considered + 1][..considered] == page[..considered];
        after := key;
        considered := considered + 1;
        match Reading(status, key) {
          case OwnerUnreadable =>
            return considered, false, asked;
          case Settled =>
          case Ownerless => asked := asked + [key];
        }
      }
    }
  }

  function Reading(status: map<string, Status>, key: string): Status {
    if key in status then status[key] else Settled
  }

  /** Where a tick stops: at the end, at the first session past its time, or just after the first
      whose owner cannot be read. */
  predicate Stops(considered: nat, complete: bool, page: seq<string>, expires: nat, status: map<string, Status>) {
    && considered <= |page| && considered <= expires
    && (forall i :: 0 <= i < considered - 1 ==> !Reading(status, page[i]).OwnerUnreadable?)
    && (complete <==> considered == |page| && (|page| > 0 ==> !Reading(status, page[|page| - 1]).OwnerUnreadable?))
    && (!complete ==>
        considered == expires
        || (considered > 0 && Reading(status, page[considered - 1]).OwnerUnreadable?))
  }

  lemma {:induction false} CursorGrows(ticks: seq<Tick>, t: Tick, n: nat, batch: nat)
    requires n <= |ticks|
    ensures Cursor(ticks + [t], n, batch) == Cursor(ticks, n, batch)
  {
    if n > 0 {
      CursorGrows(ticks, t, n - 1, batch);
      assert (ticks + [t])[n - 1] == ticks[n - 1];
    }
  }

  lemma CursorStep(ticks: seq<Tick>, t: Tick, after: string, batch: nat)
    requires Cursor(ticks, |ticks|, batch) == Some(after) && Possible(t, after, batch)
    requires !Resets(t, |Keys(t, after, batch)|, batch)
    ensures Cursor(ticks + [t], |ticks| + 1, batch) == Some(Moved(t, after, batch))
  {
    CursorGrows(ticks, t, |ticks|, batch);
  }
}
