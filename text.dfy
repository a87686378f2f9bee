/**
 * The Kotlin text primitives the form relies on: `Char.isDigit`,
 * `Char.isWhitespace`, `String.isBlank`, `String.filter`, `String.toIntOrNull`
 * and the decimal `toString` of an integer.
 *
 * A Kotlin `String` is a sequence of UTF-16 code units; here it is a
 * `seq<char>` of Unicode scalar values, so `|s|` is shorter than Kotlin's
 * `length` for a text holding characters outside the Basic Multilingual Plane.
 */
module KotlinText {

  datatype Option<+T> = None | Some(value: T)

  /** Bounds of a Kotlin `Int` (32-bit two's complement). */
  const IntMin: int := -0x8000_0000
  const IntMax: int := 0x7fff_ffff

  /** `Char.isDigit`, on the ASCII decimal digits. */
  predicate IsDigit(c: char) {
    '0' <= c <= '9'
  }

  /** `Char.isWhitespace` on the JVM: `Character.isWhitespace || Character.isSpaceChar`. */
  predicate IsWhitespace(c: char) {
    var n := c as int;
    (0x09 <= n <= 0x0D) || (0x1C <= n <= 0x20) || n == 0xA0 || n == 0x1680
    || (0x2000 <= n <= 0x200A) || n == 0x2028 || n == 0x2029 || n == 0x202F
    || n == 0x205F || n == 0x3000
  }

  /** `CharSequence.isBlank`: empty, or whitespace only. */
  predicate IsBlank(s: string) {
    forall i :: 0 <= i < |s| ==> IsWhitespace(s[i])
  }

  /** `s.any { it.isDigit() }` */
  predicate HasDigit(s: string) {
    exists i :: 0 <= i < |s| && IsDigit(s[i])
  }

  predicate AllDigits(s: string) {
    forall i :: 0 <= i < |s| ==> IsDigit(s[i])
  }

  function DigitValue(c: char): (v: nat)
    requires IsDigit(c)
    ensures v < 10
  {
    c as int - '0' as int
  }

  function DigitChar(v: nat): (c: char)
    requires v < 10
    ensures IsDigit(c) && DigitValue(c) == v
  {
    (v + '0' as int) as char
  }

  function Pow10(k: nat): (p: nat)
    ensures p >= 1
  {
    if k == 0 then 1 else 10 * Pow10(k - 1)
  }

  /** A digit string never contains whitespace, so it is blank only when empty. */
  lemma DigitsBlankOnlyWhenEmpty(s: string)
    requires AllDigits(s)
    ensures IsBlank(s) <==> s == []
  {
    if s != [] {
      assert !IsWhitespace(s[0]);
    }
  }

  // ---------------------------------------------------------------------------
  // filter { it.isDigit() }
  // ---------------------------------------------------------------------------

  /** The characters of `s` that are digits, in their original order. */
  function FilterDigits(s: string): (r: string)
    ensures AllDigits(r) && |r| <= |s|
  {
    if s == [] then [] else (if IsDigit(s[0]) then [s[0]] else []) + FilterDigits(s[1..])
  }

  /** Filtering a string that is all digits gives it back unchanged. */
  lemma {:induction false} FilterDigitsKeepsDigits(s: string)
    requires AllDigits(s)
    ensures FilterDigits(s) == s
  {
    if s != [] {
      FilterDigitsKeepsDigits(s[1..]);
    }
  }

  /** Filtering twice is filtering once. */
  lemma FilterDigitsIdempotent(s: string)
    ensures FilterDigits(FilterDigits(s)) == FilterDigits(s)
  {
    FilterDigitsKeepsDigits(FilterDigits(s));
  }

  /** A string without digits filters to the empty string. */
  lemma {:induction false} FilterDigitsDropsNonDigits(s: string)
    requires !HasDigit(s)
    ensures FilterDigits(s) == []
  {
    if s != [] {
      assert !IsDigit(s[0]);
      assert !HasDigit(s[1..]) by {
        forall i | 0 <= i < |s[1..]| ensures !IsDigit(s[1..][i]) {
          assert s[1..][i] == s[i + 1];
        }
      }
      FilterDigitsDropsNonDigits(s[1..]);
    }
  }

  /** Filtering distributes over concatenation: no digit is moved or lost. */
  lemma {:induction false} FilterDigitsAppend(a: string, b: string)
    ensures FilterDigits(a + b) == FilterDigits(a) + FilterDigits(b)
  {
    if a == [] {
      assert a + b == b;
    } else {
      assert (a + b)[0] == a[0];
      assert (a + b)[1..] == a[1..] + b;
      FilterDigitsAppend(a[1..], b);
    }
  }

  // ---------------------------------------------------------------------------
  // Decimal value of a digit string
  // ---------------------------------------------------------------------------

  /** The value of a digit string read in base ten (leading zeros allowed). */
  function DigitsValue(s: string): (v: nat)
    requires AllDigits(s)
  {
    if s == [] then 0 else DigitsValue(s[..|s| - 1]) * 10 + DigitValue(s[|s| - 1])
  }

  /** k digits hold a value below 10^k. */
  lemma {:induction false} DigitsValueBound(s: string)
    requires AllDigits(s)
    ensures DigitsValue(s) < Pow10(|s|)
  {
    if s != [] {
      DigitsValueBound(s[..|s| - 1]);
    }
  }

  lemma {:induction false} DigitsValueAppend(a: string, b: string)
    requires AllDigits(a) && AllDigits(b)
    ensures AllDigits(a + b)
    ensures DigitsValue(a + b) == DigitsValue(a) * Pow10(|b|) + DigitsValue(b)
  {
    assert AllDigits(a + b) by {
      forall i | 0 <= i < |a + b| ensures IsDigit((a + b)[i]) {
        if i < |a| { assert (a + b)[i] == a[i]; } else { assert (a + b)[i] == b[i - |a|]; }
      }
    }
    if b == [] {
      assert a + b == a;
    } else {
      var b' := b[..|b| - 1];
      var last := b[|b| - 1];
      assert (a + b)[..|a + b| - 1] == a + b';
      assert (a + b)[|a + b| - 1] == last;
      assert AllDigits(b') by {
        forall i | 0 <= i < |b'| ensures IsDigit(b'[i]) { assert b'[i] == b[i]; }
      }
      DigitsValueAppend(a, b');
      var va, vb', p', d := DigitsValue(a), DigitsValue(b'), Pow10(|b'|), DigitValue(last);
      assert Pow10(|b|) == p' * 10;
      assert DigitsValue(b) == vb' * 10 + d;
      assert DigitsValue(a + b) == (va * p' + vb') * 10 + d;
      MulRegroup(va, p', vb', d);
    }
  }

  lemma MulRegroup(x: int, p: int, y: int, d: int)
    ensures (x * p + y) * 10 + d == x * (p * 10) + (y * 10 + d)
  {
  }

  // ---------------------------------------------------------------------------
  // String.toIntOrNull()
  // ---------------------------------------------------------------------------

  /**
   * `toIntOrNull()` in radix 10: an optional leading `-` or `+` followed by at
   * least one digit, and a value that fits in an `Int`; anything else is null.
   */
  function ToIntOrNull(s: string): (r: Option<int>)
    ensures r.Some? ==> IntMin <= r.value <= IntMax
  {
    if s == [] then None
    else if s[0] == '-' || s[0] == '+' then
      if |s| == 1 || !AllDigits(s[1..]) then None
      else
        var m: int := DigitsValue(s[1..]);
        var v := if s[0] == '-' then -m else m;
        if IntMin <= v <= IntMax then Some(v) else None
    else if AllDigits(s) && DigitsValue(s) <= IntMax then Some(DigitsValue(s))
    else None
  }

  /** On a digit string, toIntOrNull fails exactly for the empty string and on overflow. */
  lemma ToIntOrNullOfDigits(s: string)
    requires AllDigits(s)
    ensures ToIntOrNull(s) == if s != [] && DigitsValue(s) <= IntMax then Some(DigitsValue(s)) else None
  {
    if s != [] {
      assert IsDigit(s[0]);
    }
  }

  // ---------------------------------------------------------------------------
  // Int.toString() / Long.toString() and zero padding
  // ---------------------------------------------------------------------------

  /** Decimal digits of a natural number, without leading zeros. */
  function NatToString(n: nat): (r: string)
    ensures r != [] && AllDigits(r)
  {
    if n < 10 then [DigitChar(n)] else NatToString(n / 10) + [DigitChar(n % 10)]
  }

  /** Reading back the decimal digits gives the number. */
  lemma {:induction false} NatToStringValue(n: nat)
    ensures DigitsValue(NatToString(n)) == n
  {
    if n >= 10 {
      var s := NatToString(n);
      assert s[..|s| - 1] == NatToString(n / 10);
      NatToStringValue(n / 10);
    }
  }

  /** A number below 10^k takes at most k digits; one at or above 10^k takes more. */
  lemma {:induction false} NatToStringLength(n: nat, k: nat)
    requires k >= 1
    ensures n < Pow10(k) ==> |NatToString(n)| <= k
    ensures n >= Pow10(k) ==> |NatToString(n)| > k
  {
    if n >= 10 && k >= 2 {
      NatToStringLength(n / 10, k - 1);
    }
  }

  /** `toString()` of a signed integer. */
  function IntToString(n: int): (r: string)
    ensures r != []
  {
    if n < 0 then "-" + NatToString(-n) else NatToString(n)
  }

  /** `toString()` and `toIntOrNull()` are inverse on the `Int` range. */
  lemma IntToStringRoundTrip(n: int)
    requires IntMin <= n <= IntMax
    ensures ToIntOrNull(IntToString(n)) == Some(n)
  {
    if n < 0 {
      var s := IntToString(n);
      assert s[1..] == NatToString(-n);
      NatToStringValue(-n);
    } else {
      NatToStringValue(n);
      ToIntOrNullOfDigits(NatToString(n));
    }
  }

  function Zeros(k: nat): (z: string)
    ensures |z| == k && AllDigits(z) && DigitsValue(z) == 0
  {
    if k == 0 then [] else
      var z := Zeros(k - 1) + "0";
      assert z[..|z| - 1] == Zeros(k - 1);
      z
  }

  /** Left padding with zeros to at least `width` characters, as `%0<width>d` does. */
  function PadZeros(s: string, width: nat): (r: string)
    ensures |r| == if |s| < width then width else |s|
  {
    if |s| < width then Zeros(width - |s|) + s else s
  }

  /** Padding a digit string with zeros keeps it a digit string of the same value. */
  lemma PadZerosValue(s: string, width: nat)
    requires AllDigits(s)
    ensures AllDigits(PadZeros(s, width))
    ensures DigitsValue(PadZeros(s, width)) == DigitsValue(s)
  {
    if |s| < width {
      DigitsValueAppend(Zeros(width - |s|), s);
    }
  }
}
