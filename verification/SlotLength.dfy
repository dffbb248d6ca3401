/** The slot-length printer of the localnet planner (internal/cardano/localnet/invocation.go). */
module SlotLength {
  import opened Text

  const NANOS_PER_SECOND := 1_000_000_000

  function Pow10(n: nat): (p: nat)
    ensures p >= 1
  {
    if n == 0 then 1 else 10 * Pow10(n - 1)
  }

  /** `fmt.Sprintf("%09d", n)`, digit by digit. */
  function Padded(n: nat, width: nat): (s: string)
    ensures |s| == width && AllDigits(s)
    decreases width
  {
    if width == 0 then "" else Padded(n / 10, width - 1) + [DigitChar(n % 10)]
  }

  lemma {:induction false} PaddedKeepsValue(n: nat, width: nat)
    requires n < Pow10(width)
    ensures ParseNat(Padded(n, width)) == n
    decreases width
  {
    if width > 0 {
      PaddedKeepsValue(n / 10, width - 1);
      var s := Padded(n, width);
      assert s[..|s| - 1] == Padded(n / 10, width - 1);
    }
  }

  /** `strings.TrimRight(s, "0")`. */
  function TrimZeros(s: string): (r: string)
    ensures |r| <= |s| && r == s[..|r|]
    ensures r != "" ==> r[|r| - 1] != '0'
  {
    if s != "" && s[|s| - 1] == '0' then TrimZeros(s[..|s| - 1]) else s
  }

  lemma {:induction false} TrimZerosKeepsValue(s: string)
    requires AllDigits(s)
    ensures var r := TrimZeros(s); AllDigits(r) && ParseNat(s) == ParseNat(r) * Pow10(|s| - |r|)
  {
    if s != "" && s[|s| - 1] == '0' {
      var t := s[..|s| - 1];
      TrimZerosKeepsValue(t);
      var r := TrimZeros(t);
      assert Pow10(|s| - |r|) == 10 * Pow10(|t| - |r|);
      assert ParseNat(s) == 10 * ParseNat(t);
    }
  }

  /** `formatSlotLength`: seconds, with a fraction where there is one. */
  function FormatSlotLength(nanos: nat): string {
    var whole, remainder := nanos / NANOS_PER_SECOND, nanos % NANOS_PER_SECOND;
    if remainder == 0 then Itoa(whole) else Itoa(whole) + "." + TrimZeros(Padded(remainder, 9))
  }

  /** The position of the decimal point, or the length. */
  function PointAt(s: string): (i: nat)
    ensures i <= |s| && '.' !in s[..i] && (i < |s| ==> s[i] == '.')
  {
    if s == "" || s[0] == '.' then 0 else 1 + PointAt(s[1..])
  }

  /** A decimal number of seconds with at most nine fractional digits. */
  predicate IsSeconds(s: string) {
    var i := PointAt(s);
    && AllDigits(s[..i]) && i > 0
    && (i < |s| ==> AllDigits(s[i + 1..]) && 1 <= |s[i + 1..]| <= 9)
  }

  /** The nanoseconds a fraction of at most nine digits stands for. */
  function FractionNanos(f: string): nat
    requires AllDigits(f) && |f| <= 9
  {
    ParseNat(f) * Pow10(9 - |f|)
  }

  /** What it stands for, in nanoseconds. */
  function ParseSeconds(s: string): nat
    requires IsSeconds(s)
  {
    var i := PointAt(s);
    var whole := ParseNat(s[..i]) * NANOS_PER_SECOND;
    if i == |s| then whole else whole + FractionNanos(s[i + 1..])
  }

  lemma {:induction false} PointAfter(digits: string, rest: string)
    requires '.' !in digits && (rest != "" ==> rest[0] == '.')
    ensures PointAt(digits + rest) == |digits|
  {
    if digits != "" {
      assert (digits + rest)[1..] == digits[1..] + rest;
      PointAfter(digits[1..], rest);
    } else {
      assert digits + rest == rest;
    }
  }

  lemma Pow10Of9()
    ensures Pow10(9) == NANOS_PER_SECOND
  {
    assert Pow10(3) == 1000;
    assert Pow10(6) == 1000 * Pow10(3);
    assert Pow10(9) == 1000 * Pow10(6);
  }

  /** The fraction that is printed, and its value. */
  lemma Fraction(remainder: nat)
    requires 0 < remainder < NANOS_PER_SECOND
    ensures var f := TrimZeros(Padded(remainder, 9));
            && AllDigits(f) && 1 <= |f| <= 9 && f[|f| - 1] != '0'
            && FractionNanos(f) == remainder
  {
    Pow10Of9();
    var padded := Padded(remainder, 9);
    PaddedKeepsValue(remainder, 9);
    TrimZerosKeepsValue(padded);
  }

  lemma WholeSeconds(w: string)
    requires AllDigits(w) && w != ""
    ensures IsSeconds(w) && ParseSeconds(w) == ParseNat(w) * NANOS_PER_SECOND && PointAt(w) == |w|
  {
    hide ParseNat, PointAt;
    assert w + "" == w;
    PointAfter(w, "");
    assert w[..|w|] == w;
  }

  lemma PartsAtPoint(w: string, f: string)
    requires AllDigits(w)
    ensures var s := w + "." + f; PointAt(s) == |w| && s[..|w|] == w && s[|w| + 1..] == f
  {
    hide PointAt;
    assert w + "." + f == w + ("." + f);
    PointAfter(w, "." + f);
  }

  lemma SecondsAndFraction(w: string, f: string)
    requires AllDigits(w) && w != "" && AllDigits(f) && 1 <= |f| <= 9
    ensures var s := w + "." + f;
            && PointAt(s) == |w| && IsSeconds(s)
            && ParseSeconds(s) == ParseNat(w) * NANOS_PER_SECOND + FractionNanos(f)
  {
    hide ParseNat, FractionNanos, PointAt, AllDigits;
    PartsAtPoint(w, f);
  }

  /** Parsing the printed text gives the duration back, and the text ends in no fractional zero. */
  lemma SlotLengthRoundTrip(nanos: nat)
    ensures var s := FormatSlotLength(nanos);
            && IsSeconds(s) && ParseSeconds(s) == nanos
            && (PointAt(s) < |s| ==> s[|s| - 1] != '0')
  {
    hide Itoa, TrimZeros, Padded, ParseNat, FractionNanos, PointAt, IsSeconds, ParseSeconds;
    var whole, remainder := nanos / NANOS_PER_SECOND, nanos % NANOS_PER_SECOND;
    ItoaIsDecimal(whole);
    if remainder == 0 {
      WholeSeconds(Itoa(whole));
    } else {
      Fraction(remainder);
      SecondsAndFraction(Itoa(whole), TrimZeros(Padded(remainder, 9)));
    }
  }

  /** Different durations are printed differently. */
  lemma FormatSlotLengthInjective(m: nat, n: nat)
    requires FormatSlotLength(m) == FormatSlotLength(n)
    ensures m == n
  {
    SlotLengthRoundTrip(m);
    SlotLengthRoundTrip(n);
  }
}
