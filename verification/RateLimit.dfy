/** Fixed-window rate limits: one per connection, and the HTTP middleware's store of one per key,
    with the janitor that prunes it. */
module RateLimit {
  import opened Wrappers

  /** `strict` limits reset only after their window has passed, the others as soon as it has. */
  datatype Limit = Limit(window: int, maximum: int, strict: bool)

  /** The open window: its first message's time and how many messages it has seen. */
  datatype Window = Window(start: Option<int>, count: int)

  predicate Expired(l: Limit, start: int, now: int) {
    if l.strict then now - start > l.window else now - start >= l.window
  }

  function Count(l: Limit, w: Window, now: int): Window {
    if w.start.None? || Expired(l, w.start.value, now) then Window(Some(now), 1) else w.(count := w.count + 1)
  }

  /** The window after the first n messages of a trace of arrival times. */
  function After(l: Limit, trace: seq<int>, n: nat): Window
    requires n <= |trace|
  {
    if n == 0 then Window(None, 0) else Count(l, After(l, trace, n - 1), trace[n - 1])
  }

  predicate Allowed(l: Limit, trace: seq<int>, i: nat)
    requires i < |trace|
  {
    After(l, trace, i + 1).count <= l.maximum
  }

  /** How many of the first n messages arrived in [from, to) and were allowed. */
  function AllowedWithin(l: Limit, trace: seq<int>, n: nat, from: int, to: int): nat
    requires n <= |trace|
  {
    if n == 0 then 0
    else AllowedWithin(l, trace, n - 1, from, to) + if from <= trace[n - 1] < to && Allowed(l, trace, n - 1) then 1
        else 0
  }

  ghost predicate InOrder(trace: seq<int>) {
    forall i, j :: 0 <= i < j < |trace| ==> trace[i] <= trace[j]
  }

  function Min(a: int, b: int): int { if a < b then a else b }

  function Positive(a: int): nat { if a > 0 then a else 0 }

  /** The window open after n messages splits what the interval allowed: at most one window can
      have started inside it, and the one before started outside it. */
  lemma {:induction false} WindowsSplit(l: Limit, trace: seq<int>, n: nat, from: int, to: int)
    requires InOrder(trace) && 0 < n <= |trace| && to - from <= l.window
    ensures var w, allowed := After(l, trace, n), AllowedWithin(l, trace, n, from, to);
            && w.start.Some? && w.start.value <= trace[n - 1] && w.count >= 1
            && (trace[n - 1] < from ==> allowed == 0)
            && (trace[n - 1] < to ==>
                  allowed <= if w.start.value >= from then Positive(l.maximum - 1) + Min(w.count, Positive(l.maximum))
                             else Positive(Min(w.count, l.maximum) - 1))
            && allowed <= Positive(2 * l.maximum - 1)
  {
    if n > 1 {
      WindowsSplit(l, trace, n - 1, from, to);
      assert trace[n - 2] <= trace[n - 1];
    } else {
      assert After(l, trace, 0) == Window(None, 0);
    }
  }

  /** Whatever the trace, an interval one window long lets fewer than twice the maximum pass. */
  lemma WindowBound(l: Limit, trace: seq<int>, from: int, to: int)
    requires InOrder(trace) && to - from <= l.window
    ensures AllowedWithin(l, trace, |trace|, from, to) <= Positive(2 * l.maximum - 1)
  {
    if trace != [] { WindowsSplit(l, trace, |trace|, from, to); }
  }

  /** The bound is reached. */
  lemma WindowBoundIsSharp()
    ensures var l, trace := Limit(10, 2, false), [0, 9, 10, 10];
            InOrder(trace) && AllowedWithin(l, trace, 4, 9, 19) == 3
  {
    var l, trace := Limit(10, 2, false), [0, 9, 10, 10];
    assert After(l, trace, 1) == Window(Some(0), 1);
    assert After(l, trace, 2) == Window(Some(0), 2);
    assert After(l, trace, 3) == Window(Some(10), 1);
    assert After(l, trace, 4) == Window(Some(10), 2);
    assert AllowedWithin(l, trace, 1, 9, 19) == 0;
    assert AllowedWithin(l, trace, 2, 9, 19) == 1;
    assert AllowedWithin(l, trace, 3, 9, 19) == 2;
  }

  // ----- one connection

  class ConnectionRateLimit {
    const window: int
    const maximum: int
    var windowStart: Option<int>
    var count: int

    ghost var trace: seq<int>

    constructor (window: int, maximum: int)
      ensures Valid() && trace == [] && this.window == window && this.maximum == maximum
    {
      this.window, this.maximum := window, maximum;
      windowStart, count, trace := None, 0, [];
    }

    ghost function Rule(): Limit { Limit(window, maximum, false) }

    ghost predicate Valid()
      reads this
    {
      Window(windowStart, count) == After(Rule(), trace, |trace|)
    }

    method Allow(now: int) returns (ok: bool)
      requires Valid()
      modifies this
      ensures Valid() && trace == old(trace) + [now] && ok == Allowed(Rule(), trace, |trace| - 1)
    {
      AfterPrefix(Rule(), trace, now, |trace|);
      trace := trace + [now];
      if windowStart.None? || now - windowStart.value >= window {
        windowStart := Some(now);
        count := 0;
      }
      count := count + 1;
      return count <= maximum;
    }
  }

  lemma {:induction false} AfterPrefix(l: Limit, trace: seq<int>, now: int, n: nat)
    requires n <= |trace|
    ensures After(l, trace + [now], n) == After(l, trace, n)
  {
    if n > 0 { AfterPrefix(l, trace, now, n - 1); }
  }

  // ----- the middleware's store

  datatype Entry = Entry(count: int, resetAt: int)

  datatype Operation = Request(key: string, now: int) | Cleanup(now: int)

  function Touch(l: Limit, store: map<string, Entry>, key: string, now: int): map<string, Entry> {
    var entry := if key in store then store[key] else Entry(0, now + l.window);
    var current := if now > entry.resetAt then Entry(0, now + l.window) else entry;
    store[key := current.(count := current.count + 1)]
  }

  function Prune(store: map<string, Entry>, now: int): map<string, Entry> {
    map key | key in store && now <= store[key].resetAt :: store[key]
  }

  function StoreAfter(l: Limit, ops: seq<Operation>, n: nat): map<string, Entry>
    requires n <= |ops|
  {
    if n == 0 then map[]
    else
      var store := StoreAfter(l, ops, n - 1);
      match ops[n - 1]
      case Request(key, now) => Touch(l, store, key, now)
      case Cleanup(now) => Prune(store, now)
  }

  /** The request's counter, as the middleware compares it with the maximum. */
  function Counter(l: Limit, ops: seq<Operation>, i: nat): int
    requires i < |ops| && ops[i].Request?
  {
    Touch(l, StoreAfter(l, ops, i), ops[i].key, ops[i].now)[ops[i].key].count
  }

  /** The times of one key's requests among the first n operations. */
  function Times(ops: seq<Operation>, n: nat, key: string): seq<int>
    requires n <= |ops|
  {
    if n == 0 then []
    else if ops[n - 1].Request? && ops[n - 1].key == key then Times(ops, n - 1, key) + [ops[n - 1].now]
    else Times(ops, n - 1, key)
  }

  ghost predicate OpsInOrder(ops: seq<Operation>) {
    forall i, j :: 0 <= i < j < |ops| ==> ops[i].now <= ops[j].now
  }

  // ----- when a janitor pass changes a decision

  /** One pass at time c changes the counter of a request at time t exactly when it removes an entry
      whose window the request still belongs to. */
  lemma PassChangesCounterIff(l: Limit, store: map<string, Entry>, c: int, key: string, t: int)
    requires forall k :: k in store ==> store[k].count >= 1
    ensures Touch(l, Prune(store, c), key, t)[key].count != Touch(l, store, key, t)[key].count
            <==> key in store && t <= store[key].resetAt < c
  {
  }

  /** The pass at m removed the key's entry, and no request of the key came before i. */
  ghost predicate Cut(l: Limit, ops: seq<Operation>, m: nat, i: nat, key: string)
    requires m < i <= |ops|
  {
    && ops[m].Cleanup? && key in StoreAfter(l, ops, m) && StoreAfter(l, ops, m)[key].resetAt < ops[m].now
    && forall k :: m <= k < i ==> !IsRequest(ops[k], key)
  }

  predicate IsRequest(op: Operation, key: string) {
    op.Request? && op.key == key
  }

  /** Request i belongs to a window that an earlier pass removed. */
  ghost predicate Escapes(l: Limit, ops: seq<Operation>, i: nat)
    requires i < |ops| && ops[i].Request?
  {
    exists m :: 0 <= m < i && Cut(l, ops, m, i, ops[i].key) && ops[i].now <= StoreAfter(l, ops, m)[ops[i].key].resetAt
  }

  /** What the counter would be without a janitor: the request's count in its key's own window. */
  function OwnCount(l: Limit, ops: seq<Operation>, i: nat): int
    requires i < |ops| && ops[i].Request?
  {
    After(l, Times(ops, i + 1, ops[i].key), |Times(ops, i + 1, ops[i].key)|).count
  }

  /** The entry stored for a key is its own window, unless a pass removed it since the key's last request. */
  ghost predicate Faithful(l: Limit, ops: seq<Operation>, n: nat, key: string)
    requires n <= |ops|
  {
    var store, times := StoreAfter(l, ops, n), Times(ops, n, key);
    var w := After(l, times, |times|);
    if w.start.None? then key !in store
    else if key in store then store[key] == Entry(w.count, w.start.value + l.window)
    else exists m ::
        0 <= m < n && Cut(l, ops, m, n, key)
        && StoreAfter(l, ops, m)[key] == Entry(w.count, w.start.value + l.window)
  }

  /** While no request of the key has escaped, its entry is faithful. */
  lemma {:induction false} StoreIsFaithful(l: Limit, ops: seq<Operation>, n: nat, key: string)
    requires n <= |ops| && l.strict
    requires forall i :: 0 <= i < n && IsRequest(ops[i], key) ==> !Escapes(l, ops, i)
    ensures Faithful(l, ops, n, key)
  {
    if n > 0 {
      StoreIsFaithful(l, ops, n - 1, key);
      if IsRequest(ops[n - 1], key) {
        RequestFaithful(l, ops, n - 1, key);
      } else {
        QuietFaithful(l, ops, n - 1, key);
      }
    }
  }

  lemma RequestFaithful(l: Limit, ops: seq<Operation>, n: nat, key: string)
    requires n < |ops| && l.strict && IsRequest(ops[n], key) && Faithful(l, ops, n, key) && !Escapes(l, ops, n)
    ensures Faithful(l, ops, n + 1, key)
  {
    var times := Times(ops, n, key);
    AfterPrefix(l, times, ops[n].now, |times|);
    assert Times(ops, n + 1, key) == times + [ops[n].now];
  }

  lemma QuietFaithful(l: Limit, ops: seq<Operation>, n: nat, key: string)
    requires n < |ops| && !IsRequest(ops[n], key) && Faithful(l, ops, n, key)
    ensures Faithful(l, ops, n + 1, key)
  {
    var store, next := StoreAfter(l, ops, n), StoreAfter(l, ops, n + 1);
    assert Times(ops, n + 1, key) == Times(ops, n, key);
    if key in store && key !in next {
      assert Cut(l, ops, n, n + 1, key);
    } else if key !in store && After(l, Times(ops, n, key), |Times(ops, n, key)|).start.Some? {
      var w := After(l, Times(ops, n, key), |Times(ops, n, key)|);
      var m :| 0 <= m < n && Cut(l, ops, m, n, key)
          && StoreAfter(l, ops, m)[key] == Entry(w.count, w.start.value + l.window);
      assert Cut(l, ops, m, n + 1, key);
    }
  }

  /** A removed entry stays away until the next request of its key. */
  lemma {:induction false} CutStays(l: Limit, ops: seq<Operation>, m: nat, n: nat, key: string)
    requires m < n <= |ops| && Cut(l, ops, m, n, key)
    ensures key !in StoreAfter(l, ops, n)
    decreases n
  {
    if n > m + 1 {
      assert Cut(l, ops, m, n - 1, key);
      CutStays(l, ops, m, n - 1, key);
      assert !IsRequest(ops[n - 1], key);
    }
  }

  /** So at most one pass since its key's last request can have removed an entry. */
  lemma CutIsUnique(l: Limit, ops: seq<Operation>, m: nat, k: nat, n: nat, key: string)
    requires m < n <= |ops| && k < n && Cut(l, ops, m, n, key) && Cut(l, ops, k, n, key)
    ensures m == k
  {
    if m < k {
      assert Cut(l, ops, m, k, key);
      CutStays(l, ops, m, k, key);
    } else if k < m {
      assert Cut(l, ops, k, m, key);
      CutStays(l, ops, k, m, key);
    }
  }

  lemma {:induction false} CountsPositive(l: Limit, trace: seq<int>, n: nat)
    requires n <= |trace|
    ensures After(l, trace, n).start.Some? ==> After(l, trace, n).count >= 1
  {
    if n > 0 { CountsPositive(l, trace, n - 1); }
  }

  /** An entry comes from a request, so a key without requests has none. */
  lemma {:induction false} EntryHasRequest(l: Limit, ops: seq<Operation>, n: nat, key: string)
    requires n <= |ops|
    ensures key in StoreAfter(l, ops, n) ==> Times(ops, n, key) != []
  {
    if n > 0 { EntryHasRequest(l, ops, n - 1, key); }
  }

  lemma {:induction false} TimesGrow(ops: seq<Operation>, m: nat, n: nat, key: string)
    requires m <= n <= |ops|
    ensures |Times(ops, m, key)| <= |Times(ops, n, key)|
    decreases n
  {
    if m < n { TimesGrow(ops, m, n - 1, key); }
  }

  /** A stored entry, or a key never requested, was not cut. */
  lemma UncutEntry(l: Limit, ops: seq<Operation>, m: nat, n: nat, key: string)
    requires m < n <= |ops|
    requires key in StoreAfter(l, ops, n) || After(l, Times(ops, n, key), |Times(ops, n, key)|).start.None?
    ensures !Cut(l, ops, m, n, key)
  {
    if Cut(l, ops, m, n, key) {
      CutStays(l, ops, m, n, key);
      EntryHasRequest(l, ops, m, key);
      TimesGrow(ops, m, n, key);
    }
  }

  /** For the first request of a key that could escape: its counter is its own count exactly when it does not. */
  lemma CounterIsOwnIff(l: Limit, ops: seq<Operation>, i: nat)
    requires i < |ops| && ops[i].Request? && l.strict && Faithful(l, ops, i, ops[i].key)
    ensures Counter(l, ops, i) == OwnCount(l, ops, i) <==> !Escapes(l, ops, i)
    ensures Escapes(l, ops, i) ==> Counter(l, ops, i) == 1
  {
    var key, times := ops[i].key, Times(ops, i, ops[i].key);
    AfterPrefix(l, times, ops[i].now, |times|);
    assert Times(ops, i + 1, key) == times + [ops[i].now];
    CountsPositive(l, times, |times|);
    var w := After(l, times, |times|);
    if w.start.Some? && key !in StoreAfter(l, ops, i) {
      var m :| 0 <= m < i && Cut(l, ops, m, i, key)
          && StoreAfter(l, ops, m)[key] == Entry(w.count, w.start.value + l.window);
      forall k | 0 <= k < i && Cut(l, ops, k, i, key) ensures k == m { CutIsUnique(l, ops, m, k, i, key); }
    } else {
      forall k | 0 <= k < i ensures !Cut(l, ops, k, i, key) { UncutEntry(l, ops, k, i, key); }
    }
  }

  /** Exactly when no request of a key escapes, every counter of that key is its own count: times may
      come in any order and passes at any points. */
  lemma JanitorIsInvisibleIff(l: Limit, ops: seq<Operation>, key: string)
    requires l.strict
    ensures (forall i :: 0 <= i < |ops| && IsRequest(ops[i], key) ==> Counter(l, ops, i) == OwnCount(l, ops, i))
            <==> (forall i :: 0 <= i < |ops| && IsRequest(ops[i], key) ==> !Escapes(l, ops, i))
  {
    if forall i :: 0 <= i < |ops| && IsRequest(ops[i], key) ==> !Escapes(l, ops, i) {
      forall i | 0 <= i < |ops| && IsRequest(ops[i], key)
        ensures Counter(l, ops, i) == OwnCount(l, ops, i)
      {
        StoreIsFaithful(l, ops, i, key);
        CounterIsOwnIff(l, ops, i);
      }
    } else {
      var first := FirstEscape(l, ops, key, |ops|);
      StoreIsFaithful(l, ops, first, key);
      CounterIsOwnIff(l, ops, first);
    }
  }

  lemma {:induction false} FirstEscape(l: Limit, ops: seq<Operation>, key: string, n: nat) returns (first: nat)
    requires n <= |ops| && exists i :: 0 <= i < n && IsRequest(ops[i], key) && Escapes(l, ops, i)
    ensures first < n && IsRequest(ops[first], key) && Escapes(l, ops, first)
    ensures forall i :: 0 <= i < first && IsRequest(ops[i], key) ==> !Escapes(l, ops, i)
  {
    if exists i :: 0 <= i < n - 1 && IsRequest(ops[i], key) && Escapes(l, ops, i) {
      first := FirstEscape(l, ops, key, n - 1);
    } else {
      first := n - 1;
    }
  }

  /** When the times never go back nothing escapes, so each key has a fixed window of its own and no
      janitor pass changes a decision. */
  lemma CounterIsPerKey(l: Limit, ops: seq<Operation>, i: nat)
    requires OpsInOrder(ops) && i < |ops| && ops[i].Request? && l.strict
    ensures Counter(l, ops, i) == OwnCount(l, ops, i)
  {
    NothingEscapes(l, ops);
    JanitorIsInvisibleIff(l, ops, ops[i].key);
  }

  lemma NothingEscapes(l: Limit, ops: seq<Operation>)
    requires OpsInOrder(ops)
    ensures forall i :: 0 <= i < |ops| && ops[i].Request? ==> !Escapes(l, ops, i)
  {
    forall i, m | 0 <= m < i < |ops| && ops[i].Request? && Cut(l, ops, m, i, ops[i].key)
      ensures ops[i].now > StoreAfter(l, ops, m)[ops[i].key].resetAt
    {
      assert ops[m].now <= ops[i].now;
    }
  }

  /** Two histories with the same requests for a key decide them alike, whatever their janitors did. */
  lemma CleanupIsInvisible(l: Limit, ops: seq<Operation>, i: nat, others: seq<Operation>, j: nat)
    requires OpsInOrder(ops) && OpsInOrder(others) && l.strict
    requires i < |ops| && ops[i].Request? && j < |others| && others[j] == ops[i]
    requires Times(ops, i, ops[i].key) == Times(others, j, ops[i].key)
    ensures Counter(l, ops, i) == Counter(l, others, j)
  {
    CounterIsPerKey(l, ops, i);
    CounterIsPerKey(l, others, j);
  }

  /** How many requests of one key among the first n operations arrived in [from, to) and passed. */
  function PassedWithin(l: Limit, ops: seq<Operation>, n: nat, key: string, from: int, to: int): nat
    requires n <= |ops|
  {
    if n == 0 then 0
    else
      PassedWithin(l, ops, n - 1, key, from, to)
      + if ops[n - 1].Request? && ops[n - 1].key == key && from <= ops[n - 1].now < to
          && Counter(l, ops, n - 1) <= l.maximum then 1 else 0
  }

  lemma {:induction false} WithinPrefix(l: Limit, trace: seq<int>, now: int, n: nat, from: int, to: int)
    requires n <= |trace|
    ensures AllowedWithin(l, trace + [now], n, from, to) == AllowedWithin(l, trace, n, from, to)
  {
    if n > 0 {
      WithinPrefix(l, trace, now, n - 1, from, to);
      AfterPrefix(l, trace, now, n);
    }
  }

  /** The requests of a key arrive in order, and pass as its own window allows. */
  lemma {:induction false} PassedIsAllowed(l: Limit, ops: seq<Operation>, n: nat, key: string, from: int, to: int)
    requires OpsInOrder(ops) && n <= |ops| && l.strict
    ensures var times := Times(ops, n, key);
            && InOrder(times)
            && (times != [] ==> n > 0 && times[|times| - 1] <= ops[n - 1].now)
            && PassedWithin(l, ops, n, key, from, to) == AllowedWithin(l, times, |times|, from, to)
  {
    if n > 0 {
      PassedIsAllowed(l, ops, n - 1, key, from, to);
      var times, op := Times(ops, n - 1, key), ops[n - 1];
      if n > 1 { assert ops[n - 2].now <= op.now; }
      if op.Request? && op.key == key {
        CounterIsPerKey(l, ops, n - 1);
        WithinPrefix(l, times, op.now, |times|, from, to);
        assert Times(ops, n, key) == times + [op.now];
      }
    }
  }

  /** With any janitor passes in between, a key passes fewer than twice the maximum in any interval
      one window long. */
  lemma MiddlewareBound(l: Limit, ops: seq<Operation>, key: string, from: int, to: int)
    requires OpsInOrder(ops) && l.strict && to - from <= l.window
    ensures PassedWithin(l, ops, |ops|, key, from, to) <= Positive(2 * l.maximum - 1)
  {
    PassedIsAllowed(l, ops, |ops|, key, from, to);
    WindowBound(l, Times(ops, |ops|, key), from, to);
  }

  /** The janitor after a full window, and a request whose time was read before it. */
  function Overtaken(l: Limit, key: string): seq<Operation>
    requires l.maximum >= 1
  {
    seq(l.maximum, i => Request(key, 0)) + [Cleanup(l.window + 1), Request(key, l.window)]
  }

  lemma {:induction false} FullWindow(l: Limit, key: string, n: nat)
    requires l.maximum >= 1 && l.window >= 0 && l.strict && n <= l.maximum
    ensures var ops := Overtaken(l, key);
            && StoreAfter(l, ops, n) == (if n == 0 then map[] else map[key := Entry(n, l.window)])
            && |Times(ops, n, key)| == n
                && After(l, Times(ops, n, key), n) == Window(if n == 0 then None else Some(0), n)
  {
    if n > 0 {
      FullWindow(l, key, n - 1);
      var times := Times(Overtaken(l, key), n - 1, key);
      AfterPrefix(l, times, 0, n - 1);
      assert Times(Overtaken(l, key), n, key) == times + [0];
    }
  }

  /** Whatever the maximum, a request overtaken by a janitor pass escapes a full window and passes. */
  lemma OvertakenRequestEscapes(l: Limit, key: string)
    requires l.maximum >= 1 && l.window >= 0 && l.strict
    ensures var ops, i := Overtaken(l, key), l.maximum + 1;
            Escapes(l, ops, i) && Counter(l, ops, i) <= l.maximum < OwnCount(l, ops, i)
  {
    var ops, i := Overtaken(l, key), l.maximum + 1;
    FullWindow(l, key, l.maximum);
    assert ops[l.maximum] == Cleanup(l.window + 1) && ops[i] == Request(key, l.window);
    assert Cut(l, ops, l.maximum, i, key);
    var times := Times(ops, i, key);
    assert times == Times(ops, l.maximum, key);
    AfterPrefix(l, times, l.window, |times|);
    assert Times(ops, i + 1, key) == times + [l.window];
  }

  class RateLimiter {
    const window: int
    const maximum: int
    var store: map<string, Entry>

    ghost var ops: seq<Operation>

    constructor (window: int, maximum: int)
      ensures Valid() && ops == [] && this.window == window && this.maximum == maximum
    {
      this.window, this.maximum := window, maximum;
      store, ops := map[], [];
    }

    ghost function Rule(): Limit { Limit(window, maximum, true) }

    ghost predicate Valid()
      reads this
    {
      store == StoreAfter(Rule(), ops, |ops|)
    }

    method Handle(key: string, now: int) returns (passes: bool, remaining: int)
      requires Valid()
      modifies this
      ensures Valid() && ops == old(ops) + [Request(key, now)]
      ensures var count := Counter(Rule(), ops, |ops| - 1);
              passes == (count <= maximum) && remaining == Positive(maximum - count)
    {
      StorePrefix(Rule(), ops, Request(key, now), |ops|);
      ops := ops + [Request(key, now)];
      if key !in store {
        store := store[key := Entry(0, now + window)];
      }
      var entry := store[key];
      if now > entry.resetAt {
        entry := Entry(0, now + window);
      }
      entry := entry.(count := entry.count + 1);
      store := store[key := entry];
      remaining := maximum - entry.count;
      if remaining < 0 {
        remaining := 0;
      }
      passes := entry.count <= maximum;
    }

    /** The janitor's pass over the whole store. */
    method Cleanup(now: int)
      requires Valid()
      modifies this
      ensures Valid() && ops == old(ops) + [Operation.Cleanup(now)]
    {
      StorePrefix(Rule(), ops, Operation.Cleanup(now), |ops|);
      ops := ops + [Operation.Cleanup(now)];
      ghost var before := store;
      var keys := store.Keys;
      while keys != {}
        invariant keys <= before.Keys && ops == old(ops) + [Operation.Cleanup(now)]
        invariant store == Swept(before, keys, now)
        decreases |keys|
      {
        var key :| key in keys;
        if now > store[key].resetAt {
          store := store - {key};
        }
        keys := keys - {key};
      }
      assert store == Prune(before, now);
    }
  }

  /** The store once the janitor has looked at every key but those left. */
  ghost function Swept(store: map<string, Entry>, left: set<string>, now: int): map<string, Entry> {
    map key | key in store && (key in left || now <= store[key].resetAt) :: store[key]
  }

  lemma {:induction false} StorePrefix(l: Limit, ops: seq<Operation>, op: Operation, n: nat)
    requires n <= |ops|
    ensures StoreAfter(l, ops + [op], n) == StoreAfter(l, ops, n)
  {
    if n > 0 { StorePrefix(l, ops, op, n - 1); }
  }
}
