/** ULID strings: 26 Crockford base-32 digits, 48 bits of milliseconds before 80 random bits. */
module Ulid {
  import opened Wrappers

  const ALPHABET := "0123456789ABCDEFGHJKMNPQRSTVWXYZ"
  const LENGTH := 26
  const STAMP_DIGITS := 10

  function Pow2(n: nat): (p: nat)
    ensures p > 0
  {
    if n == 0 then 1 else 2 * Pow2(n - 1)
  }

  function Pow32(n: nat): (p: nat)
    ensures p > 0
  {
    if n == 0 then 1 else 32 * Pow32(n - 1)
  }

  /** The base-32 digit of a value at a position counted from the right: shift and mask. */
  function DigitAt(value: nat, index: nat): nat
    ensures DigitAt(value, index) < 32
  {
    (value / Pow32(index)) % 32
  }

  /** The n lowest base-32 digits of a value, the highest first. */
  function Digits(value: nat, n: nat): (s: string)
    ensures |s| == n
  {
    if n == 0 then "" else Digits(value / 32, n - 1) + [Letter(value % 32)]
  }

  /** The number that a list of alphabet letters stands for; None at the first letter that is not one. */
  ghost function Number(s: string): Option<nat> {
    if s == "" then Some(0)
    else
      var high := Number(s[..|s| - 1]);
      var digit := LetterValue(Upper(s[|s| - 1]));
      if high == None || digit == None then None else Some(high.value * 32 + digit.value)
  }

  /** Upper case of an ASCII letter. */
  function Upper(c: char): char {
    if 'a' <= c <= 'z' then ((c as int) - 32) as char else c
  }

  /** The d-th letter of the alphabet, which skips I, L, O and U. */
  function Letter(d: nat): char
    requires d < 32
  {
    if d < 10 then '0' + (d as char)
    else if d < 18 then 'A' + ((d - 10) as char)
    else if d < 20 then 'J' + ((d - 18) as char)
    else if d < 22 then 'M' + ((d - 20) as char)
    else if d < 27 then 'P' + ((d - 22) as char)
    else 'V' + ((d - 27) as char)
  }

  lemma LetterOfAlphabet(d: nat)
    requires d < 32
    ensures Letter(d) == ALPHABET[d]
  {
  }

  /** The position of a character in the alphabet. */
  ghost function LetterValue(c: char): Option<nat> {
    if exists d: nat :: d < 32 && Letter(d) == c then
      var d: nat :| d < 32 && Letter(d) == c; Some(d)
    else None
  }

  /** The alphabet is ascending, so letter order is digit order. */
  lemma AlphabetAscends(i: nat, j: nat)
    requires i < j < 32
    ensures Letter(i) < Letter(j)
  {
  }

  lemma LetterIsDigit(d: nat)
    requires d < 32
    ensures Upper(Letter(d)) == Letter(d)
    ensures LetterValue(Letter(d)) == Some(d)
  {
  }

  lemma NumberMore(s: string, c: char)
    ensures Number(s + [c])
      == if Number(s) == None || LetterValue(Upper(c)) == None then None
         else Some(Number(s).value * 32 + LetterValue(Upper(c)).value)
  {
  }

  /** Reading digits back gives the value modulo the range of that many digits. */
  lemma {:induction false} NumberOfDigits(value: nat, n: nat)
    ensures Number(Digits(value, n)) == Some(value % Pow32(n))
  {
    if n > 0 {
      NumberOfDigits(value / 32, n - 1);
      LetterIsDigit(value % 32);
      NumberMore(Digits(value / 32, n - 1), Letter(value % 32));
      SplitMod(value, Pow32(n - 1));
    }
  }

  lemma SplitMod(value: nat, m: nat)
    requires m > 0
    ensures value % (32 * m) == 32 * ((value / 32) % m) + value % 32
  {
    var high, low := value / 32, value % 32;
    var q, r := high / m, high % m;
    assert high == q * m + r;
    assert value == 32 * (q * m + r) + low;
    assert value == q * (32 * m) + (32 * r + low) by { Rearrange(q, m, r, low); }
    assert 0 <= 32 * r + low < 32 * m;
    Remainder(value, 32 * m, q, 32 * r + low);
  }

  lemma Rearrange(q: nat, m: nat, r: nat, low: nat)
    ensures 32 * (q * m + r) + low == q * (32 * m) + (32 * r + low)
  {
  }

  lemma Remainder(value: nat, m: nat, q: nat, r: nat)
    requires m > 0 && r < m && value == q * m + r
    ensures value % m == r && value / m == q
  {
    var q', r' := value / m, value % m;
    assert q' * m + r' == value;
    assert (q' - q) * m == q' * m - q * m == r - r';
    OnlyZero(q' - q, m);
  }

  /** A multiple of m within m of zero is zero. */
  lemma OnlyZero(k: int, m: int)
    requires -m < k * m < m
    ensures k == 0
  {
  }

  lemma TimesAtLeast(k: int, m: int)
    requires m > 0
    ensures k >= 1 ==> k * m >= m
    ensures k <= -1 ==> k * m <= -m
  {
  }

  /** The leading digits of a value are the digits of its leading part. */
  lemma {:induction false} LeadingDigits(value: nat, n: nat, k: nat)
    ensures Digits(value, n + k)[..n] == Digits(value / Pow32(k), n)
  {
    if k > 0 {
      LeadingDigits(value / 32, n, k - 1);
      DivDiv(value, Pow32(k - 1));
      var s := Digits(value, n + k);
      assert s[..n + k - 1] == Digits(value / 32, n + k - 1);
      assert s[..n] == s[..n + k - 1][..n];
    } else {
      assert Digits(value, n)[..n] == Digits(value, n);
    }
  }

  lemma DivDiv(value: nat, m: nat)
    requires m > 0
    ensures (value / 32) / m == value / (32 * m)
  {
    var high, low := value / 32, value % 32;
    var q, r := high / m, high % m;
    assert high == q * m + r;
    Rearrange(q, m, r, low);
    assert 32 * r + low < 32 * m;
    Remainder(value, 32 * m, q, 32 * r + low);
  }

  // ------------------------------------------------------------------ timestamps

  /** The 128-bit layout: milliseconds shifted over 80 random bits. */
  function Value(timestamp: nat, random: nat): nat { timestamp * Pow32(16) + random }

  ghost function TimestampMs(s: string): Option<nat> {
    var bits := Number(if |s| <= STAMP_DIGITS then s else s[..STAMP_DIGITS]);
    if bits == None then None else Some(bits.value % Pow2(48))
  }

  /** Five bits to a digit. */
  lemma {:induction false} BitsPerDigit(n: nat)
    ensures Pow2(5 * n) == Pow32(n)
  {
    if n > 0 {
      BitsPerDigit(n - 1);
      var k := 5 * (n - 1);
      assert Pow2(k + 5) == 2 * Pow2(k + 4) == 4 * Pow2(k + 3) == 8 * Pow2(k + 2) == 16 * Pow2(k + 1) == 32 * Pow2(k);
    }
  }

  lemma {:induction false} Added(a: nat, b: nat)
    ensures Pow2(a + b) == Pow2(a) * Pow2(b)
  {
    if a > 0 { Added(a - 1, b); }
  }

  /**
    Decoding a generated ULID gives the timestamp modulo 2^48, whatever the
    random part: so it gives the timestamp back exactly when that fits 48 bits.
  */
  lemma TimestampRoundTrip(timestamp: nat, random: nat)
    requires random < Pow2(80)
    ensures TimestampMs(Digits(Value(timestamp, random), LENGTH)) == Some(timestamp % Pow2(48))
    ensures TimestampMs(Digits(Value(timestamp, random), LENGTH)) == Some(timestamp) <==> timestamp < Pow2(48)
  {
    var value := Value(timestamp, random);
    TimestampOnTop(timestamp, random);
    LeadingDigits(value, 10, 16);
    NumberOfDigits(timestamp, 10);
    LowBits(timestamp);
    ModIff(timestamp, Pow2(48));
  }

  lemma TimestampOnTop(timestamp: nat, random: nat)
    requires random < Pow2(80)
    ensures Value(timestamp, random) / Pow32(16) == timestamp
  {
    BitsPerDigit(16);
    Remainder(Value(timestamp, random), Pow32(16), timestamp, random);
  }

  /** Ten digits are 50 bits, so cutting them to 48 bits is cutting the number to 48 bits. */
  lemma LowBits(n: nat)
    ensures (n % Pow32(10)) % Pow2(48) == n % Pow2(48)
  {
    BitsPerDigit(10);
    Added(2, 48);
    assert Pow2(2) == 4;
    ModMod(n, 4, Pow2(48));
  }

  lemma ModIff(n: nat, m: nat)
    requires m > 0
    ensures n % m == n <==> n < m
  {
    if n < m { Remainder(n, m, 0, n); }
  }

  lemma ModMod(x: nat, a: nat, m: nat)
    requires a > 0 && m > 0
    ensures a * m > 0 && (x % (a * m)) % m == x % m
  {
    var q, r := x / (a * m), x % (a * m);
    assert x == q * (a * m) + r;
    var s, t := r / m, r % m;
    assert r == s * m + t;
    assert q * (a * m) + (s * m + t) == (q * a + s) * m + t;
    Remainder(x, m, q * a + s, t);
  }

  // ------------------------------------------------------------------------ order

  /** String order: the first differing letter decides; equal lengths only. */
  predicate Before(a: string, b: string)
    requires |a| == |b|
  {
    exists i :: 0 <= i < |a| && a[..i] == b[..i] && a[i] < b[i]
  }

  /** Order is decided by the high digits, or on a tie by the last. */
  lemma BeforeLast(a: string, b: string)
    requires |a| == |b| > 0
    ensures var n := |a| - 1;
      Before(a, b) <==> Before(a[..n], b[..n]) || (a[..n] == b[..n] && a[n] < b[n])
  {
    var n := |a| - 1;
    if Before(a, b) {
      var i :| 0 <= i < |a| && a[..i] == b[..i] && a[i] < b[i];
      if i < n {
        assert a[..n][..i] == a[..i] && b[..n][..i] == b[..i] && a[..n][i] < b[..n][i];
      }
    }
    if Before(a[..n], b[..n]) {
      var i :| 0 <= i < n && a[..n][..i] == b[..n][..i] && a[..n][i] < b[..n][i];
      assert a[..i] == a[..n][..i] && b[..i] == b[..n][..i] && a[i] < b[i];
    }
  }

  /** For values in range, string order of the digits is numeric order, and equal strings are equal values. */
  lemma {:induction false} DigitsOrder(x: nat, y: nat, n: nat)
    requires x < Pow32(n) && y < Pow32(n)
    ensures Before(Digits(x, n), Digits(y, n)) <==> x < y
    ensures Digits(x, n) == Digits(y, n) <==> x == y
  {
    if n > 0 {
      assert x / 32 < Pow32(n - 1) && y / 32 < Pow32(n - 1);
      DigitsOrder(x / 32, y / 32, n - 1);
      var a, b := Digits(x, n), Digits(y, n);
      BeforeLast(a, b);
      assert a[..n - 1] == Digits(x / 32, n - 1) && a[n - 1] == Letter(x % 32);
      assert b[..n - 1] == Digits(y / 32, n - 1) && b[n - 1] == Letter(y % 32);
      if x % 32 < y % 32 { AlphabetAscends(x % 32, y % 32); }
      if y % 32 < x % 32 { AlphabetAscends(y % 32, x % 32); }
    }
  }

  /** ULIDs sort as their 128-bit values do. */
  lemma UlidOrder(x: nat, y: nat)
    requires x < Pow2(128) && y < Pow2(128)
    ensures Before(Digits(x, LENGTH), Digits(y, LENGTH)) <==> x < y
  {
    InRange();
    DigitsOrder(x, y, LENGTH);
  }

  lemma InRange()
    ensures Pow2(128) <= Pow32(LENGTH)
  {
    BitsPerDigit(26);
    Added(2, 128);
    assert Pow2(2) == 4;
  }

  /** Of two ULIDs with timestamps in range, the one of the later millisecond sorts later. */
  lemma LaterSortsLater(t1: nat, r1: nat, t2: nat, r2: nat)
    requires t1 < t2 < Pow2(48) && r1 < Pow2(80) && r2 < Pow2(80)
    ensures Before(Digits(Value(t1, r1), LENGTH), Digits(Value(t2, r2), LENGTH))
  {
    BitsPerDigit(16);
    ValueBelow(t1, t2, Pow32(16), r1);
    ValueBelow(t2, Pow2(48), Pow32(16), r2);
    Added(48, 80);
    assert 0 * Pow32(16) == 0;
    ValueBelow(t1, Pow2(48), Pow32(16), r1);
    UlidOrder(Value(t1, r1), Value(t2, r2));
  }

  lemma ValueBelow(a: nat, b: nat, m: nat, r: nat)
    requires a < b && r < m
    ensures a * m + r < b * m
  {
    TimesAtLeast(b - a, m);
    assert (b - a) * m == b * m - a * m;
  }

  // -------------------------------------------------------------------- generation

  lemma {:induction false} DigitAtShift(value: nat, index: nat)
    requires index > 0
    ensures DigitAt(value, index) == DigitAt(value / 32, index - 1)
  {
    DivDiv(value, Pow32(index - 1));
  }

  /** The digits are the shifted and masked value, from the highest position down. */
  lemma {:induction false} DigitsAt(value: nat, n: nat, i: nat)
    requires i < n
    ensures Digits(value, n)[i] == Letter(DigitAt(value, n - 1 - i))
  {
    if i < n - 1 {
      DigitsAt(value / 32, n - 1, i);
      DigitAtShift(value, n - 1 - i);
    }
  }

  /** Generates the string from a clock reading in milliseconds and 80 random bits. */
  method Generate(timestamp: nat, random: nat) returns (s: string)
    requires random < Pow2(80)
    ensures s == Digits(Value(timestamp, random), LENGTH)
  {
    var value := Value(timestamp, random);
    s := "";
    for i := 0 to LENGTH
      invariant |s| == i
      invariant forall j :: 0 <= j < i ==> s[j] == Letter(DigitAt(value, LENGTH - 1 - j))
    {
      var index := LENGTH - 1 - i;
      LetterOfAlphabet(DigitAt(value, index));
      s := s + [ALPHABET[DigitAt(value, index)]];
    }
    forall j | 0 <= j < LENGTH { DigitsAt(value, LENGTH, j); }
  }

  method FindLetter(c: char) returns (r: Option<nat>)
    ensures r == LetterValue(c)
  {
    var d := 0;
    while d < 32
      invariant 0 <= d <= 32 && forall e :: 0 <= e < d ==> Letter(e) != c
    {
      LetterOfAlphabet(d);
      if ALPHABET[d] == c {
        LetterIsDigit(d);
        return Some(d);
      }
      d := d + 1;
    }
    r := None;
  }

  /** The decoding loop: None at the first character outside the alphabet. */
  method ReadNumber(s: string) returns (r: Option<nat>)
    ensures r == Number(s)
  {
    var bits: nat := 0;
    for i := 0 to |s|
      invariant Number(s[..i]) == Some(bits)
    {
      assert s[..i + 1] == s[..i] + [s[i]];
      NumberMore(s[..i], s[i]);
      var digit := FindLetter(Upper(s[i]));
      if digit == None {
        NumberFails(s, i);
        return None;
      }
      bits := bits * 32 + digit.value;
    }
    assert s[..|s|] == s;
    r := Some(bits);
  }

  /** Best-effort decode of the leading timestamp digits, kept to 48 bits. */
  method DecodeTimestamp(s: string) returns (r: Option<nat>)
    ensures r == TimestampMs(s)
  {
    var head := if |s| <= STAMP_DIGITS then s else s[..STAMP_DIGITS];
    var bits := ReadNumber(head);
    r := if bits == None then None else Some(bits.value % Pow2(48));
  }

  lemma {:induction false} NumberFails(s: string, i: nat)
    requires i < |s| && LetterValue(Upper(s[i])) == None
    ensures Number(s) == None
  {
    if i < |s| - 1 {
      assert s[..|s| - 1][i] == s[i];
      NumberFails(s[..|s| - 1], i);
    }
  }
}
