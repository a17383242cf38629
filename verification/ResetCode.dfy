/** Password reset codes: six characters drawn and shuffled from a keyed digest of the address and
    a time window, and accepted during that window and the next. */
module ResetCode {

  type Byte = b: int | 0 <= b < 256

  /** An HMAC-SHA256 sum. */
  type Sum = s: seq<Byte> | |s| == 32 witness seq(32, _ => 0)

  const LETTERS := "ABCDEFGHIJKLMNOPQRSTUVWXYZ"
  const DIGITS := "0123456789"

  predicate IsLetter(c: char) { 'A' <= c <= 'Z' }

  predicate IsDigit(c: char) { '0' <= c <= '9' }

  lemma AlphabetsAreApart()
    ensures forall k :: 0 <= k < |LETTERS| ==> IsLetter(LETTERS[k]) && !IsDigit(LETTERS[k])
    ensures forall k :: 0 <= k < |DIGITS| ==> IsDigit(DIGITS[k]) && !IsLetter(DIGITS[k])
  {
  }

  // ----- the shuffle

  function Swapped(s: string, i: nat, j: nat): string
    requires i < |s| && j < |s|
  {
    s[i := s[j]][j := s[i]]
  }

  /** The element position i exchanges with, drawn from the digest. */
  function Pick(sum: Sum, n: nat, i: nat): nat
    requires 0 < i < n <= 6
  {
    sum[6 + (n - 1 - i)] % (i + 1)
  }

  /** The shuffle from position i down. */
  function Shuffled(s: string, sum: Sum, i: nat): (r: string)
    requires |s| <= 6 && (i < |s| || i == 0)
    ensures |r| == |s|
    decreases i
  {
    if i == 0 then s else Shuffled(Swapped(s, i, Pick(sum, |s|, i)), sum, i - 1)
  }

  lemma SwapKeepsElements(s: string, i: nat, j: nat)
    requires i < |s| && j < |s|
    ensures multiset(Swapped(s, i, j)) == multiset(s)
  {
  }

  /** The shuffle only rearranges. */
  lemma {:induction false} ShuffleIsPermutation(s: string, sum: Sum, i: nat)
    requires |s| <= 6 && (i < |s| || i == 0)
    ensures multiset(Shuffled(s, sum, i)) == multiset(s)
    decreases i
  {
    if i > 0 {
      SwapKeepsElements(s, i, Pick(sum, |s|, i));
      ShuffleIsPermutation(Swapped(s, i, Pick(sum, |s|, i)), sum, i - 1);
    }
  }

  /** Positions above i are settled. */
  lemma {:induction false} ShuffleSettles(s: string, sum: Sum, i: nat, k: nat)
    requires |s| <= 6 && (i < |s| || i == 0) && i < k < |s|
    ensures Shuffled(s, sum, i)[k] == s[k]
    decreases i
  {
    if i > 0 { ShuffleSettles(Swapped(s, i, Pick(sum, |s|, i)), sum, i - 1, k); }
  }

  lemma SwapKeepsDistinct(s: string, i: nat, j: nat)
    requires i < |s| && j < |s| && Distinct(s)
    ensures Distinct(Swapped(s, i, j))
  {
  }

  predicate Distinct(s: string) {
    forall x, y :: 0 <= x < y < |s| ==> s[x] != s[y]
  }

  /** No two ways of drawing give the same order: on distinct characters, equal results mean equal picks. */
  lemma {:induction false} ShuffleIsInjective(s: string, a: Sum, b: Sum, i: nat, k: nat)
    requires |s| <= 6 && 0 < k <= i < |s| && Distinct(s)
    requires Shuffled(s, a, i) == Shuffled(s, b, i)
    ensures Pick(a, |s|, k) == Pick(b, |s|, k)
    decreases i
  {
    var x, y := Pick(a, |s|, i), Pick(b, |s|, i);
    LastPickShows(s, a, i);
    LastPickShows(s, b, i);
    SameCharacter(s, x, y);
    if k < i {
      SwapKeepsDistinct(s, i, x);
      ShuffleIsInjective(Swapped(s, i, x), a, b, i - 1, k);
    }
  }

  lemma SameCharacter(s: string, x: nat, y: nat)
    requires Distinct(s) && x < |s| && y < |s| && s[x] == s[y]
    ensures x == y
  {
  }

  /** The first exchange decides what position i ends with. */
  lemma LastPickShows(s: string, sum: Sum, i: nat)
    requires |s| <= 6 && 0 < i < |s|
    ensures Shuffled(s, sum, i)[i] == s[Pick(sum, |s|, i)]
  {
    ShuffleSettles(Swapped(s, i, Pick(sum, |s|, i)), sum, i - 1, i);
  }

  // ----- the code

  function Character(sum: Sum, k: nat): char
    requires k < 6
  {
    if k < 4 then LETTERS[sum[k] % |LETTERS|] else DIGITS[sum[k] % |DIGITS|]
  }

  function Drawn(sum: Sum): string {
    seq(6, k requires 0 <= k < 6 => Character(sum, k))
  }

  function Code(sum: Sum): string {
    Shuffled(Drawn(sum), sum, 5)
  }

  /** How many characters of s satisfy p. */
  function Counting(s: string, p: char -> bool): nat {
    if s == "" then 0 else (if p(s[0]) then 1 else 0) + Counting(s[1..], p)
  }

  lemma {:induction false} CountingAppends(a: string, b: string, p: char -> bool)
    ensures Counting(a + b, p) == Counting(a, p) + Counting(b, p)
  {
    if a == "" {
      assert a + b == b;
    } else {
      CountingAppends(a[1..], b, p);
      assert (a + b)[1..] == a[1..] + b;
    }
  }

  /** Taking one character out removes it from the elements and from the count. */
  lemma Removing(s: string, k: nat, p: char -> bool)
    requires k < |s|
    ensures var rest := s[..k] + s[k + 1..];
            && multiset(s) == multiset(rest) + multiset{s[k]}
            && Counting(s, p) == Counting(rest, p) + if p(s[k]) then 1 else 0
  {
    assert s == s[..k] + ([s[k]] + s[k + 1..]);
    CountingAppends(s[..k], [s[k]] + s[k + 1..], p);
    CountingAppends([s[k]], s[k + 1..], p);
    CountingAppends(s[..k], s[k + 1..], p);
  }

  lemma Cancel(x: multiset<char>, y: multiset<char>, c: char)
    requires x + multiset{c} == y + multiset{c}
    ensures x == y
  {
    forall e ensures x[e] == y[e] { assert (x + multiset{c})[e] == (y + multiset{c})[e]; }
  }

  lemma {:induction false} SameElementsSameCount(a: string, b: string, p: char -> bool)
    requires multiset(a) == multiset(b)
    ensures Counting(a, p) == Counting(b, p)
  {
    if a == "" {
      assert |multiset(b)| == 0;
    } else {
      assert a[0] in multiset(b);
      var k :| 0 <= k < |b| && b[k] == a[0];
      Removing(a, 0, p);
      Removing(b, k, p);
      assert a[..0] + a[0 + 1..] == a[1..];
      Cancel(multiset(a[1..]), multiset(b[..k] + b[k + 1..]), a[0]);
      SameElementsSameCount(a[1..], b[..k] + b[k + 1..], p);
    }
  }

  /** Every code has four letters and two digits. */
  lemma CodeHasFourLettersTwoDigits(sum: Sum)
    ensures |Code(sum)| == 6
    ensures Counting(Code(sum), c => IsLetter(c)) == 4 && Counting(Code(sum), c => IsDigit(c)) == 2
  {
    var drawn := Drawn(sum);
    AlphabetsAreApart();
    ShuffleIsPermutation(drawn, sum, 5);
    SameElementsSameCount(Code(sum), drawn, c => IsLetter(c));
    SameElementsSameCount(Code(sum), drawn, c => IsDigit(c));
    CountDrawn(drawn, c => IsLetter(c));
    CountDrawn(drawn, c => IsDigit(c));
  }

  lemma CountDrawn(s: string, p: char -> bool)
    requires |s| == 6
    ensures Counting(s, p) == (if p(s[0]) then 1 else 0) + (if p(s[1]) then 1 else 0) + (if p(s[2]) then 1 else 0)
                              + (if p(s[3]) then 1 else 0) + (if p(s[4]) then 1 else 0) + (if p(s[5]) then 1 else 0)
  {
    assert s[1..][1..] == s[2..] && s[2..][1..] == s[3..] && s[3..][1..] == s[4..] && s[4..][1..] == s[5..]
        && s[5..][1..] == "";
    assert Counting(s, p) == (if p(s[0]) then 1 else 0) + Counting(s[1..], p);
    assert Counting(s[1..], p) == (if p(s[1]) then 1 else 0) + Counting(s[2..], p);
    assert Counting(s[2..], p) == (if p(s[2]) then 1 else 0) + Counting(s[3..], p);
    assert Counting(s[3..], p) == (if p(s[3]) then 1 else 0) + Counting(s[4..], p);
    assert Counting(s[4..], p) == (if p(s[4]) then 1 else 0) + Counting(s[5..], p);
    assert Counting(s[5..], p) == (if p(s[5]) then 1 else 0) + Counting("", p);
  }

  // ----- every such code occurs

  /** A sum with the given bytes for the draws and for the picks of the shuffle. */
  function SumOf(draws: seq<Byte>, picks: seq<Byte>): Sum
    requires |draws| == 6 && |picks| == 5
  {
    draws + picks + seq(21, _ => 0)
  }

  /** Picks for the positions from |picks| down: each names a position it may exchange with. */
  ghost predicate InRange(picks: seq<nat>) {
    forall m :: 0 <= m < |picks| ==> picks[m] <= |picks| - m
  }

  /** The shuffle by given picks. */
  function ShuffledBy(s: string, picks: seq<nat>): string
    requires InRange(picks) && |picks| < |s|
    decreases |picks|
  {
    if picks == [] then s else ShuffledBy(Swapped(s, |picks|, picks[0]), picks[1..])
  }

  /** The sum draws just these picks. */
  ghost predicate Picked(sum: Sum, n: nat, picks: seq<nat>)
    requires |picks| < n <= 6
  {
    forall m :: 0 <= m < |picks| ==> picks[m] == Pick(sum, n, |picks| - m)
  }

  lemma {:induction false} PickedShuffles(s: string, sum: Sum, picks: seq<nat>)
    requires |picks| < |s| <= 6 && InRange(picks) && Picked(sum, |s|, picks)
    ensures Shuffled(s, sum, |picks|) == ShuffledBy(s, picks)
    decreases |picks|
  {
    if picks != [] {
      assert picks[0] == Pick(sum, |s|, |picks|);
      PickedShuffles(Swapped(s, |picks|, picks[0]), sum, picks[1..]);
    }
  }

  /** Whatever two strings of the same characters are, some picks shuffle the one into the other. */
  lemma {:induction false} SomePicksShuffle(s: string, t: string, i: nat) returns (picks: seq<nat>)
    requires |s| == |t| && i < |s| && s[i + 1..] == t[i + 1..]
    requires multiset(s[..i + 1]) == multiset(t[..i + 1])
    ensures |picks| == i && InRange(picks) && ShuffledBy(s, picks) == t
    decreases i
  {
    if i == 0 {
      picks := [];
      OneLeft(s, t);
    } else {
      var j := Source(s, t, i);
      SwapSettles(s, t, i, j);
      var rest := SomePicksShuffle(Swapped(s, i, j), t, i - 1);
      picks := [j] + rest;
      assert picks[1..] == rest;
    }
  }

  lemma OneLeft(s: string, t: string)
    requires |s| == |t| > 0 && s[1..] == t[1..] && multiset(s[..1]) == multiset(t[..1])
    ensures s == t
  {
    assert s[..1] == [s[0]] && t[..1] == [t[0]];
    assert s[0] in multiset(t[..1]);
    assert s == s[..1] + s[1..] && t == t[..1] + t[1..];
  }

  /** Where the character that belongs at i is now. */
  lemma Source(s: string, t: string, i: nat) returns (j: nat)
    requires |s| == |t| && i < |s| && multiset(s[..i + 1]) == multiset(t[..i + 1])
    ensures j <= i && s[j] == t[i]
  {
    assert t[..i + 1][i] == t[i] && t[i] in multiset(s[..i + 1]);
    j :| 0 <= j < i + 1 && s[..i + 1][j] == t[i];
  }

  lemma SwapSettles(s: string, t: string, i: nat, j: nat)
    requires |s| == |t| && j <= i < |s| && s[i + 1..] == t[i + 1..] && s[j] == t[i]
    requires multiset(s[..i + 1]) == multiset(t[..i + 1])
    ensures var next := Swapped(s, i, j);
            next[i..] == t[i..] && multiset(next[..i]) == multiset(t[..i])
  {
    var next := Swapped(s, i, j);
    SwapKeepsElements(s[..i + 1], i, j);
    assert next[..i + 1] == Swapped(s[..i + 1], i, j);
    assert next[..i + 1] == next[..i] + [t[i]] && t[..i + 1] == t[..i] + [t[i]];
    Cancel(multiset(next[..i]), multiset(t[..i]), t[i]);
    assert next[i..] == [next[i]] + next[i + 1..] && t[i..] == [t[i]] + t[i + 1..];
    assert next[i + 1..] == s[i + 1..];
  }

  /** The characters of s that satisfy p, in order. */
  function Only(s: string, p: char -> bool): (r: string)
    ensures |r| == Counting(s, p) && forall k :: 0 <= k < |r| ==> p(r[k])
  {
    if s == "" then "" else (if p(s[0]) then [s[0]] else "") + Only(s[1..], p)
  }

  lemma {:induction false} LettersAndDigits(s: string)
    ensures Counting(s, c => IsLetter(c)) + Counting(s, c => IsDigit(c)) <= |s|
    ensures Counting(s, c => IsLetter(c)) + Counting(s, c => IsDigit(c)) == |s| ==>
              multiset(Only(s, c => IsLetter(c)) + Only(s, c => IsDigit(c))) == multiset(s)
  {
    if s != "" {
      LettersAndDigits(s[1..]);
      assert s == [s[0]] + s[1..];
      Inserted(Only(s[1..], c => IsLetter(c)), Only(s[1..], c => IsDigit(c)), s[0]);
    }
  }

  lemma Inserted(a: string, b: string, c: char)
    ensures multiset([c] + a + b) == multiset{c} + multiset(a + b)
    ensures multiset(a + ([c] + b)) == multiset{c} + multiset(a + b)
  {
    assert multiset(a + b) == multiset(a) + multiset(b);
    assert multiset([c] + b) == multiset{c} + multiset(b);
  }

  function DrawFor(c: char): Byte {
    if IsLetter(c) then c as int - 'A' as int else if IsDigit(c) then c as int - '0' as int else 0
  }

  lemma DrawIsExact(c: char)
    ensures IsLetter(c) ==> DrawFor(c) < |LETTERS| && LETTERS[DrawFor(c)] == c
    ensures IsDigit(c) ==> DrawFor(c) < |DIGITS| && DIGITS[DrawFor(c)] == c
  {
  }

  /** Every draw and every pick occurs, all of them together. */
  lemma EveryDrawOccurs(s: string, picks: seq<nat>) returns (sum: Sum)
    requires |s| == 6 && (forall k :: 0 <= k < 4 ==> IsLetter(s[k])) && IsDigit(s[4]) && IsDigit(s[5])
    requires |picks| == 5 && InRange(picks)
    ensures Drawn(sum) == s && Picked(sum, 6, picks)
  {
    var draws: seq<Byte> := seq(6, k requires 0 <= k < 6 => DrawFor(s[k]));
    var bytes: seq<Byte> := seq(5, m requires 0 <= m < 5 => AsByte(picks[m]));
    sum := SumOf(draws, bytes);
    forall k | 0 <= k < 6 ensures Character(sum, k) == s[k] { DrawIsExact(s[k]); }
    forall m | 0 <= m < 5 ensures picks[m] == Pick(sum, 6, 5 - m) { SumPicks(draws, bytes, m); }
  }

  function AsByte(n: nat): Byte { if n < 256 then n else 0 }

  lemma SumPicks(draws: seq<Byte>, picks: seq<Byte>, m: nat)
    requires |draws| == 6 && |picks| == 5 && m < 5 && picks[m] <= 5 - m
    ensures Pick(SumOf(draws, picks), 6, 5 - m) == picks[m]
  {
    assert SumOf(draws, picks)[6 + m] == picks[m];
  }

  /** The letters of a code before its digits. */
  lemma LettersFirst(code: string) returns (s: string)
    requires |code| == 6 && Counting(code, c => IsLetter(c)) == 4 && Counting(code, c => IsDigit(c)) == 2
    ensures |s| == 6 && multiset(s) == multiset(code)
    ensures (forall k :: 0 <= k < 4 ==> IsLetter(s[k])) && IsDigit(s[4]) && IsDigit(s[5])
  {
    var letters, digits := Only(code, c => IsLetter(c)), Only(code, c => IsDigit(c));
    LettersAndDigits(code);
    s := letters + digits;
    assert s[4] == digits[0] && s[5] == digits[1];
  }

  lemma SomeSumMakes(s: string, code: string) returns (sum: Sum)
    requires |s| == |code| == 6 && multiset(s) == multiset(code)
    requires (forall k :: 0 <= k < 4 ==> IsLetter(s[k])) && IsDigit(s[4]) && IsDigit(s[5])
    ensures Code(sum) == code
  {
    assert s[..6] == s && code[..6] == code;
    var picks := SomePicksShuffle(s, code, 5);
    sum := EveryDrawOccurs(s, picks);
    PickedShuffles(s, sum, picks);
  }

  /** The codes are exactly the strings of four letters and two digits, in any order. */
  lemma EveryCodeOccurs(code: string)
    ensures (exists sum: Sum :: Code(sum) == code) <==>
            |code| == 6 && Counting(code, c => IsLetter(c)) == 4 && Counting(code, c => IsDigit(c)) == 2
  {
    if sum: Sum :| Code(sum) == code { CodeHasFourLettersTwoDigits(sum); }
    if |code| == 6 && Counting(code, c => IsLetter(c)) == 4 && Counting(code, c => IsDigit(c)) == 2 {
      var s := LettersFirst(code);
      var sum := SomeSumMakes(s, code);
    }
  }

  /** The method's loops: draw into a buffer, then exchange in place from the end. */
  method GenerateResetCode(sum: Sum) returns (code: string)
    ensures code == Code(sum)
  {
    var result := new char[6](_ => 'A');
    for i := 0 to 4
      invariant forall k :: 0 <= k < i ==> result[k] == Character(sum, k)
    {
      result[i] := LETTERS[sum[i] % |LETTERS|];
    }
    for i := 0 to 2
      invariant forall k :: 0 <= k < 4 + i ==> result[k] == Character(sum, k)
    {
      result[4 + i] := DIGITS[sum[4 + i] % |DIGITS|];
    }
    assert result[..] == Drawn(sum);
    var i := result.Length - 1;
    while i > 0
      invariant 0 <= i < result.Length
      invariant Shuffled(result[..], sum, i) == Code(sum)
    {
      var j := sum[6 + (result.Length - 1 - i)] % (i + 1);
      ghost var before := result[..];
      result[i], result[j] := result[j], result[i];
      assert result[..] == Swapped(before, i, j);
      i := i - 1;
    }
    return result[..];
  }

  // ----- the window

  /** Integer division towards zero. */
  function Quotient(a: int, b: int): int
    requires b > 0
  {
    if a >= 0 then a / b else -((-a) / b)
  }

  /** The start of the window holding `now`, in seconds since 1970. */
  function ResetCodeWindow(validityMinutes: int, now: int): int
    requires validityMinutes > 0
  {
    Quotient(now, validityMinutes * 60) * (validityMinutes * 60)
  }

  /** The digest of an address, a secret and a window. */
  type Mac = (string, string, int) -> Sum

  function CodeAt(mac: Mac, email: string, secret: string, validityMinutes: int, now: int): string
    requires validityMinutes > 0
  {
    Code(mac(email, secret, ResetCodeWindow(validityMinutes, now)))
  }

  predicate IsResetCodeValid(mac: Mac, email: string, code: string, secret: string, validityMinutes: int, now: int)
    requires validityMinutes > 0
  {
    var current := ResetCodeWindow(validityMinutes, now);
    var previous := current - validityMinutes * 60;
    code == Code(mac(email, secret, current)) || code == Code(mac(email, secret, previous))
  }

  /** Whether the window a code was made in is one of the two tried at `now`. */
  predicate Tried(validityMinutes: int, made: int, now: int)
    requires validityMinutes > 0
  {
    var window := ResetCodeWindow(validityMinutes, made);
    window == ResetCodeWindow(validityMinutes, now)
        || window == ResetCodeWindow(validityMinutes, now) - validityMinutes * 60
  }

  lemma MultiplesInOrder(x: int, y: int, v: int)
    requires v > 0
    ensures x < y <==> x * v < y * v
    ensures x == y <==> x * v == y * v
  {
    if x < y { assert (y - x) * v > 0; }
    if x > y { assert (x - y) * v > 0; }
  }

  /** The quotient is the number of whole windows. */
  lemma QuotientBounds(a: int, v: int)
    requires v > 0
    ensures a / v * v <= a < (a / v + 1) * v
  {
  }

  lemma QuotientMonotone(a: int, b: int, v: int)
    requires a <= b && v > 0
    ensures a / v <= b / v
  {
    QuotientBounds(a, v);
    QuotientBounds(b, v);
    MultiplesInOrder(a / v, b / v + 1, v);
  }

  lemma QuotientShift(a: int, v: int, k: int)
    requires v > 0
    ensures (a + k * v) / v == a / v + k
  {
    var q := (a + k * v) / v;
    QuotientBounds(a, v);
    QuotientBounds(a + k * v, v);
    assert (a / v + k) * v == a / v * v + k * v && (a / v + k + 1) * v == (a / v + 1) * v + k * v;
    MultiplesInOrder(a / v + k, q + 1, v);
    MultiplesInOrder(q, a / v + k + 1, v);
  }

  /** k windows later, by the time and by the window number. */
  lemma WindowsApart(made: int, now: int, v: int, k: int)
    requires v > 0
    ensures now >= made + k * v ==> now / v >= made / v + k
    ensures now <= made + k * v ==> now / v <= made / v + k
    ensures now / v == made / v + k ==> now == made + k * v + now % v - made % v
  {
    QuotientShift(made, v, k);
    if now >= made + k * v { QuotientMonotone(made + k * v, now, v); }
    if now <= made + k * v { QuotientMonotone(now, made + k * v, v); }
    if now / v == made / v + k { assert now / v * v == made / v * v + k * v; }
  }

  /** Division towards zero rounds a time before 1970 up, unless it starts a window. */
  lemma QuotientRoundsUp(a: int, v: int)
    requires v > 0
    ensures Quotient(a, v) == a / v + if a < 0 && a % v != 0 then 1 else 0
  {
    if a < 0 {
      var k := (-a) / v;
      QuotientShift((-a) % v, v, k);
      QuotientShift(-((-a) % v), v, -k);
      assert a == -((-a) % v) + -k * v;
      SmallQuotient((-a) % v, v);
      assert a % v == a - a / v * v;
    }
  }

  lemma SmallQuotient(r: int, v: int)
    requires 0 <= r < v
    ensures (-r) / v == if r == 0 then 0 else -1
  {
  }

  /** The windows tried are exactly the current one and the one before. */
  lemma TriedIff(validityMinutes: int, made: int, now: int)
    requires validityMinutes > 0 && made <= now
    ensures var v := validityMinutes * 60; Tried(validityMinutes, made, now) <==>
            Quotient(now, v) - Quotient(made, v) <= 1
  {
    var v := validityMinutes * 60;
    WindowsApart(made, now, v, 0);
    QuotientRoundsUp(made, v);
    QuotientRoundsUp(now, v);
    WindowsTried(Quotient(made, v), Quotient(now, v), v);
  }

  lemma WindowsTried(made: int, now: int, v: int)
    requires v > 0 && made <= now
    ensures made * v == now * v || made * v == now * v - v <==> now - made <= 1
  {
    MultiplesInOrder(made, now, v);
    MultiplesInOrder(made, now - 1, v);
    assert (now - 1) * v == now * v - v;
  }

  /** A code made inside one of the two windows before 1970 that division towards zero moves up, and
      tried from 1970 on: two window numbers later it is still one window away. */
  predicate Spans1970(validityMinutes: int, made: int, now: int)
    requires validityMinutes > 0
  {
    var v := validityMinutes * 60;
    made < 0 <= now && made % v != 0 && now / v - made / v == 2
  }

  /** A code lives for its validity at least, and for twice its validity at most unless it spans the
      start of 1970. */
  lemma CodeLifetime(validityMinutes: int, made: int, now: int)
    requires validityMinutes > 0 && made <= now
    ensures now <= made + validityMinutes * 60 ==> Tried(validityMinutes, made, now)
    ensures now >= made + 2 * validityMinutes * 60 ==>
            (Tried(validityMinutes, made, now) <==> Spans1970(validityMinutes, made, now))
  {
    var v := validityMinutes * 60;
    TriedIff(validityMinutes, made, now);
    QuotientRoundsUp(made, v);
    QuotientRoundsUp(now, v);
    WindowsApart(made, now, v, 1);
    WindowsApart(made, now, v, 2);
  }

  /** The exception occurs for every validity. */
  lemma EarlyCodeOutlives(validityMinutes: int)
    requires validityMinutes > 0
    ensures var v := validityMinutes * 60;
            Spans1970(validityMinutes, 1 - v, 1 + v)
            && Tried(validityMinutes, 1 - v, 1 + v)
  {
    var v := validityMinutes * 60;
    SmallQuotient(v - 1, v);
    QuotientShift(1, v, 1);
    assert (1 - v) % v == 1 - v - (1 - v) / v * v;
    CodeLifetime(validityMinutes, 1 - v, 1 + v);
  }

  /** So a code is accepted throughout its validity, for every address, secret and digest. */
  lemma FreshCodeIsValid(mac: Mac, email: string, secret: string, validityMinutes: int, made: int, now: int)
    requires validityMinutes > 0 && made <= now <= made + validityMinutes * 60
    ensures IsResetCodeValid(mac, email, CodeAt(mac, email, secret, validityMinutes, made), secret, validityMinutes,
            now)
  {
    CodeLifetime(validityMinutes, made, now);
    TriedIsValid(mac, email, secret, validityMinutes, made, now);
  }

  lemma TriedIsValid(mac: Mac, email: string, secret: string, validityMinutes: int, made: int, now: int)
    requires validityMinutes > 0 && Tried(validityMinutes, made, now)
    ensures IsResetCodeValid(mac, email, CodeAt(mac, email, secret, validityMinutes, made), secret, validityMinutes,
            now)
  {
  }
}
