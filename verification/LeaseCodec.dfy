/** How keys and lease values are written in Redis: base64url parts (section 5 of RFC 4648, without
    padding) joined by separators outside its alphabet. */
module LeaseCodec {
  import opened Wrappers
  import opened DecimalOrder

  type Byte = b: int | 0 <= b < 256

  const MAX_INT64 := 0x7FFF_FFFF_FFFF_FFFF

  // ----- base64url

  type Sextet = v: int | 0 <= v < 64

  function Letter(v: Sextet): char {
    if v < 26 then 'A' + v as char
    else if v < 52 then 'a' + (v - 26) as char
    else if v < 62 then '0' + (v - 52) as char
    else if v == 62 then '-'
    else '_'
  }

  function Value(c: char): Option<Sextet> {
    if 'A' <= c <= 'Z' then Some((c - 'A') as int)
    else if 'a' <= c <= 'z' then Some((c - 'a') as int + 26)
    else if '0' <= c <= '9' then Some((c - '0') as int + 52)
    else if c == '-' then Some(62)
    else if c == '_' then Some(63)
    else None
  }

  lemma LetterRoundTrip(v: Sextet)
    ensures Value(Letter(v)) == Some(v)
  {
  }

  /** Bytes regrouped as six-bit values. */
  function Pack(b: seq<Byte>): seq<Sextet> {
    if |b| == 0 then []
    else if |b| == 1 then [b[0] / 4, b[0] % 4 * 16]
    else if |b| == 2 then [b[0] / 4, b[0] % 4 * 16 + b[1] / 16, b[1] % 16 * 4]
    else [b[0] / 4, b[0] % 4 * 16 + b[1] / 16, b[1] % 16 * 4 + b[2] / 64, b[2] % 64] + Pack(b[3..])
  }

  /** The bytes of six-bit values; bits left over at the end are ignored, one value alone is an error. */
  function Unpack(v: seq<Sextet>): Option<seq<Byte>> {
    if |v| == 0 then Some([])
    else if |v| == 1 then None
    else
      var first: Byte := v[0] as int * 4 + v[1] / 16;
      if |v| == 2 then Some([first])
      else
        var second: Byte := v[1] as int % 16 * 16 + v[2] / 4;
        if |v| == 3 then Some([first, second])
        else
          var third: Byte := v[2] as int % 4 * 64 + v[3];
          var rest := Unpack(v[4..]);
          if rest.Some? then Some([first, second, third] + rest.value) else None
  }

  lemma ThreeBytes(x: Byte, y: Byte, z: Byte)
    ensures x / 4 * 4 + (x % 4 * 16 + y / 16) / 16 == x
    ensures (x % 4 * 16 + y / 16) % 16 * 16 + (y % 16 * 4 + z / 64) / 4 == y
    ensures (y % 16 * 4 + z / 64) % 4 * 64 + z % 64 == z
  {
  }

  lemma {:induction false} UnpackPack(b: seq<Byte>)
    ensures Unpack(Pack(b)) == Some(b)
  {
    if |b| == 1 {
      assert b == [b[0]];
    } else if |b| == 2 {
      assert b == [b[0], b[1]];
    } else if |b| >= 3 {
      UnpackPack(b[3..]);
      assert Pack(b)[4..] == Pack(b[3..]);
      ThreeBytes(b[0], b[1], b[2]);
      assert b == [b[0], b[1], b[2]] + b[3..];
    }
  }

  function Encode(b: seq<Byte>): string {
    var v := Pack(b);
    seq(|v|, i requires 0 <= i < |v| => Letter(v[i]))
  }

  predicate InAlphabet(s: string) {
    forall i :: 0 <= i < |s| ==> Value(s[i]).Some?
  }

  /** The decoder skips line breaks. */
  function WithoutBreaks(s: string): string {
    if s == "" then "" else (if s[0] == '\n' || s[0] == '\r' then "" else [s[0]]) + WithoutBreaks(s[1..])
  }

  function Decode(text: string): Option<seq<Byte>> {
    var s := WithoutBreaks(text);
    if InAlphabet(s) then Unpack(seq(|s|, i requires 0 <= i < |s| => Value(s[i]).value)) else None
  }

  /** Encoded text stays inside the alphabet, so it holds no separator. */
  lemma EncodeInAlphabet(b: seq<Byte>)
    ensures InAlphabet(Encode(b))
  {
    forall i | 0 <= i < |Encode(b)| ensures Value(Encode(b)[i]).Some? { LetterRoundTrip(Pack(b)[i]); }
  }

  lemma {:induction false} AlphabetHasNoBreaks(s: string)
    requires InAlphabet(s)
    ensures WithoutBreaks(s) == s
  {
    if s != "" {
      AlphabetHasNoBreaks(s[1..]);
      assert s == [s[0]] + s[1..];
    }
  }

  lemma DecodeEncode(b: seq<Byte>)
    ensures Decode(Encode(b)) == Some(b)
  {
    var s, v := Encode(b), Pack(b);
    EncodeInAlphabet(b);
    AlphabetHasNoBreaks(s);
    forall i | 0 <= i < |v| ensures Value(s[i]) == Some(v[i]) { LetterRoundTrip(v[i]); }
    assert seq(|s|, i requires 0 <= i < |s| => Value(s[i]).value) == v;
    UnpackPack(b);
  }

  lemma EncodeInjective(a: seq<Byte>, b: seq<Byte>)
    ensures Encode(a) == Encode(b) <==> a == b
  {
    DecodeEncode(a);
    DecodeEncode(b);
  }

  // ----- separated parts

  /** The parts of a text between separators. */
  function Split(s: string, separator: char): (parts: seq<string>)
    ensures |parts| >= 1
  {
    if s == "" then [""]
    else
      var rest := Split(s[1..], separator);
      if s[0] == separator then [""] + rest else [[s[0]] + rest[0]] + rest[1..]
  }

  lemma {:induction false} SplitAfter(part: string, rest: string, separator: char)
    requires separator !in part
    ensures Split(part + [separator] + rest, separator) == [part] + Split(rest, separator)
  {
    var s := part + [separator] + rest;
    if part == "" {
      assert s[1..] == rest;
    } else {
      SplitAfter(part[1..], rest, separator);
      assert s[1..] == part[1..] + [separator] + rest;
      assert part == [part[0]] + part[1..];
    }
  }

  lemma {:induction false} SplitSingle(part: string, separator: char)
    requires separator !in part
    ensures Split(part, separator) == [part]
  {
    if part != "" {
      SplitSingle(part[1..], separator);
      assert part == [part[0]] + part[1..];
    }
  }

  // ----- integers

  function DigitsValue(s: string): Option<nat> {
    if s == "" then Some(0)
    else
      var last, rest := s[|s| - 1], DigitsValue(s[..|s| - 1]);
      if '0' <= last <= '9' && rest.Some? then Some(rest.value * 10 + (last - '0') as nat) else None
  }

  /** A decimal 64-bit integer with an optional sign. */
  function ParseInt(s: string): Option<int> {
    var negative := s != "" && s[0] == '-';
    var digits := if s != "" && (s[0] == '-' || s[0] == '+') then s[1..] else s;
    var magnitude := DigitsValue(digits);
    if digits == "" || magnitude.None? then None
    else if negative then (var value: int := -(magnitude.value as int); if value >= -MAX_INT64 - 1 then Some(value)
        else None)
    else if magnitude.value <= MAX_INT64 then Some(magnitude.value)
    else None
  }

  lemma {:induction false} NumeralValue(n: nat)
    ensures DigitsValue(Numeral(n)) == Some(n) && Numeral(n) != "" && '0' <= Numeral(n)[0] <= '9'
    ensures forall i :: 0 <= i < |Numeral(n)| ==> '0' <= Numeral(n)[i] <= '9'
  {
    var s := Numeral(n);
    if n < 10 {
      assert s[..|s| - 1] == "";
      assert DigitsValue("") == Some(0);
    } else {
      NumeralValue(n / 10);
      assert s[..|s| - 1] == Numeral(n / 10);
    }
  }

  // ----- lease values and keys

  datatype LeaseText = LeaseText(instance: seq<Byte>, leaseID: string, token: nat)

  function LeaseValueText(v: LeaseText): string {
    Encode(v.instance) + "|" + v.leaseID + "|" + Numeral(v.token)
  }

  function ParseLeaseValue(s: string): Option<(seq<Byte>, string, int)> {
    var parts := Split(s, '|');
    if |parts| != 3 then None
    else
      var instance, token := Decode(parts[0]), ParseInt(parts[2]);
      if instance.Some? && token.Some? then Some((instance.value, parts[1], token.value)) else None
  }

  /** Whatever the instance is called, a stored lease value reads back as the lease that wrote it. */
  lemma LeaseValueRoundTrip(v: LeaseText)
    requires '|' !in v.leaseID && v.token <= MAX_INT64
    ensures ParseLeaseValue(LeaseValueText(v)) == Some((v.instance, v.leaseID, v.token))
  {
    var instance, token := Encode(v.instance), Numeral(v.token);
    EncodeInAlphabet(v.instance);
    NumeralValue(v.token);
    SplitAfter(instance, v.leaseID + "|" + token, '|');
    SplitAfter(v.leaseID, token, '|');
    SplitSingle(token, '|');
    assert LeaseValueText(v) == instance + "|" + (v.leaseID + "|" + token);
    DecodeEncode(v.instance);
  }

  /** So the scripts' comparison of values is comparison of leases. */
  lemma LeaseValuesCompareAsLeases(v: LeaseText, w: LeaseText)
    requires '|' !in v.leaseID && v.token <= MAX_INT64 && '|' !in w.leaseID && w.token <= MAX_INT64
    ensures LeaseValueText(v) == LeaseValueText(w) <==> v == w
  {
    LeaseValueRoundTrip(v);
    LeaseValueRoundTrip(w);
  }

  const NAMESPACE := "houseflow:coordination:v1"

  datatype RoomKey = LeaseKey | FenceKey | EventChannel | CheckpointKey | PresenceData | PresenceExpiry

  function Purpose(k: RoomKey): string {
    match k
    case LeaseKey => "lease"
    case FenceKey => "fence"
    case EventChannel => "events"
    case CheckpointKey => "checkpoint"
    case PresenceData => "presence:data"
    case PresenceExpiry => "presence:expiry"
  }

  function Keyed(prefix: string, part: seq<Byte>, purpose: string): string {
    prefix + (Encode(part) + ":" + purpose)
  }

  function RoomKeyText(roomID: seq<Byte>, k: RoomKey): string {
    Keyed(NAMESPACE + ":room:", roomID, Purpose(k))
  }

  lemma KeyedApart(prefix: string, a: seq<Byte>, x: string, b: seq<Byte>, y: string)
    ensures Keyed(prefix, a, x) == Keyed(prefix, b, y) <==> a == b && x == y
  {
    if Keyed(prefix, a, x) == Keyed(prefix, b, y) {
      SamePrefix(prefix, Encode(a) + ":" + x, Encode(b) + ":" + y);
      EncodeInAlphabet(a);
      EncodeInAlphabet(b);
      JoinedApart(Encode(a), x, Encode(b), y);
      EncodeInjective(a, b);
    }
  }

  /** Two rooms, or two purposes, never share a key, whatever characters a room ID holds. */
  lemma RoomKeysApart(a: seq<Byte>, j: RoomKey, b: seq<Byte>, k: RoomKey)
    ensures RoomKeyText(a, j) == RoomKeyText(b, k) <==> a == b && j == k
  {
    KeyedApart(NAMESPACE + ":room:", a, Purpose(j), b, Purpose(k));
    PurposesApart(j, k);
  }

  lemma SamePrefix(prefix: string, s: string, t: string)
    requires prefix + s == prefix + t
    ensures s == t
  {
    assert s == (prefix + s)[|prefix|..] && t == (prefix + t)[|prefix|..];
  }

  /** A first part without the separator can be told from the rest. */
  lemma {:induction false} JoinedApart(a: string, x: string, b: string, y: string)
    requires ':' !in a && ':' !in b && a + ":" + x == b + ":" + y
    ensures a == b && x == y
  {
    var s, t := a + ":" + x, b + ":" + y;
    assert s[0] == t[0];
    assert a == "" <==> s[0] == ':';
    assert b == "" <==> t[0] == ':';
    if a == "" {
      assert s[1..] == x && t[1..] == y;
    } else {
      assert s[1..] == a[1..] + ":" + x && t[1..] == b[1..] + ":" + y;
      JoinedApart(a[1..], x, b[1..], y);
      assert a == [a[0]] + a[1..] && b == [b[0]] + b[1..];
    }
  }

  lemma PurposesApart(j: RoomKey, k: RoomKey)
    ensures Purpose(j) == Purpose(k) <==> j == k
  {
    if |Purpose(j)| == |Purpose(k)| && j != k { assert Purpose(j)[0] != Purpose(k)[0]; }
  }
}
