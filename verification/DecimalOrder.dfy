/** Order of numbers by their decimal text: a longer numeral is greater, and numerals of one length
    compare as strings. */
module DecimalOrder {
  import opened Wrappers

  function Digit(d: nat): char
    requires d < 10
  {
    '0' + d as char
  }

  /** The canonical numeral of a natural number, as strconv prints it. */
  function Numeral(n: nat): string {
    if n < 10 then [Digit(n)] else Numeral(n / 10) + [Digit(n % 10)]
  }

  /** Byte-wise string order, as Lua compares digits. */
  predicate StringGreater(a: string, b: string)
    decreases |a|
  {
    if a == [] then false
    else if b == [] then true
    else if a[0] != b[0] then a[0] > b[0]
    else StringGreater(a[1..], b[1..])
  }

  /** The script's local function `greater`. */
  predicate Greater(a: string, b: string) {
    |a| > |b| || (|a| == |b| && StringGreater(a, b))
  }

  function Power10(k: nat): nat {
    if k == 0 then 1 else 10 * Power10(k - 1)
  }

  /** A numeral of length k lies in its decade. */
  lemma {:induction false} NumeralLength(n: nat)
    ensures |Numeral(n)| >= 1
    ensures n < Power10(|Numeral(n)|)
    ensures n >= 10 ==> Power10(|Numeral(n)| - 1) <= n
    ensures n < 10 ==> |Numeral(n)| == 1
  {
    if n >= 10 {
      NumeralLength(n / 10);
      if n / 10 < 10 {
        assert Power10(1) == 10 * Power10(0);
      }
    }
  }

  lemma {:induction false} PowerMonotone(j: nat, k: nat)
    requires j <= k
    ensures Power10(j) <= Power10(k)
  {
    if j < k { PowerMonotone(j, k - 1); }
  }

  lemma LongerIsGreater(m: nat, n: nat)
    requires |Numeral(m)| > |Numeral(n)|
    ensures m > n
  {
    NumeralLength(m);
    NumeralLength(n);
    PowerMonotone(|Numeral(n)|, |Numeral(m)| - 1);
  }

  /** A last digit decides only between equal prefixes. */
  lemma {:induction false} AppendedDigit(a: string, b: string, x: char, y: char)
    requires |a| == |b|
    ensures StringGreater(a + [x], b + [y]) <==> StringGreater(a, b) || (a == b && x > y)
    decreases |a|
  {
    if a == [] {
      assert a + [x] == [x] && b + [y] == [y];
      assert [x][1..] == [] && [y][1..] == [];
    } else {
      assert (a + [x])[1..] == a[1..] + [x] && (b + [y])[1..] == b[1..] + [y];
      if a[0] == b[0] {
        AppendedDigit(a[1..], b[1..], x, y);
        assert a == b <==> a[1..] == b[1..];
      }
    }
  }

  lemma {:induction false} SameLengthOrder(m: nat, n: nat)
    requires |Numeral(m)| == |Numeral(n)|
    ensures StringGreater(Numeral(m), Numeral(n)) <==> m > n
    ensures Numeral(m) == Numeral(n) <==> m == n
    decreases m
  {
    NumeralLength(m);
    NumeralLength(n);
    if m < 10 {
      NumeralTwoDigits(n);
      assert [Digit(m)][1..] == [];
    } else {
      NumeralTwoDigits(n);
      SameLengthOrder(m / 10, n / 10);
      AppendedDigit(Numeral(m / 10), Numeral(n / 10), Digit(m % 10), Digit(n % 10));
      assert Numeral(m)[..|Numeral(m)| - 1] == Numeral(m / 10) && Numeral(n)[..|Numeral(n)| - 1] == Numeral(n / 10);
    }
  }

  lemma NumeralTwoDigits(n: nat)
    ensures |Numeral(n)| == 1 <==> n < 10
  {
    NumeralLength(n);
    if n >= 10 { NumeralLength(n / 10); }
  }

  /** On canonical numerals the script's comparison is numeric comparison. */
  lemma GreaterIsNumeric(m: nat, n: nat)
    ensures Greater(Numeral(m), Numeral(n)) <==> m > n
    ensures Numeral(m) == Numeral(n) <==> m == n
  {
    if |Numeral(m)| > |Numeral(n)| {
      LongerIsGreater(m, n);
    } else if |Numeral(m)| < |Numeral(n)| {
      LongerIsGreater(n, m);
    } else {
      SameLengthOrder(m, n);
    }
  }
}
