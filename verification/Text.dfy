/** The string operations of Go's standard library that the modelled code relies on:
    `strings.TrimSpace`, `strings.ToLower` (ASCII part), byte-wise string order, and the decimal
    printing of `strconv`. */
module Text {

  // -------------------------------------------------------------------------------------------
  // TrimSpace

  /** The White_Space code points of Unicode, the ones `unicode.IsSpace` accepts. */
  predicate IsSpace(c: char) {
    || '\t' <= c <= '\r' || c == ' ' || c == '\U{85}' || c == '\U{A0}' || c == '\U{1680}'
    || '\U{2000}' <= c <= '\U{200A}' || c == '\U{2028}' || c == '\U{2029}' || c == '\U{202F}'
    || c == '\U{205F}' || c == '\U{3000}'
  }

  predicate Blank(s: string) {
    forall i :: 0 <= i < |s| ==> IsSpace(s[i])
  }

  /** No space at either end. */
  predicate Trimmed(s: string) {
    s != "" ==> !IsSpace(s[0]) && !IsSpace(s[|s| - 1])
  }

  function TrimLeft(s: string): string {
    if s != "" && IsSpace(s[0]) then TrimLeft(s[1..]) else s
  }

  function TrimRight(s: string): string {
    if s != "" && IsSpace(s[|s| - 1]) then TrimRight(s[..|s| - 1]) else s
  }

  lemma {:induction false} TrimLeftIsSuffix(s: string)
    ensures var r := TrimLeft(s); |r| <= |s| && r == s[|s| - |r|..] && (r != "" ==> !IsSpace(r[0]))
  {
    if s != "" && IsSpace(s[0]) {
      TrimLeftIsSuffix(s[1..]);
    }
  }

  lemma {:induction false} TrimRightIsPrefix(s: string)
    ensures var r := TrimRight(s); |r| <= |s| && r == s[..|r|] && (r != "" ==> !IsSpace(r[|r| - 1]))
  {
    if s != "" && IsSpace(s[|s| - 1]) {
      TrimRightIsPrefix(s[..|s| - 1]);
    }
  }

  function TrimSpace(s: string): (r: string)
    ensures Trimmed(r)
    ensures Trimmed(s) ==> r == s
    ensures |r| <= |s|
  {
    TrimLeftIsSuffix(s);
    TrimRightIsPrefix(TrimLeft(s));
    TrimRight(TrimLeft(s))
  }

  /** What is cut off is whitespace; with no space left at either end, that makes it the core of the string. */
  lemma TrimSpaceIsTheCore(s: string)
    ensures exists left, right :: Blank(left) && Blank(right) && s == left + TrimSpace(s) + right
  {
    var t, r := TrimLeft(s), TrimSpace(s);
    TrimLeftIsSuffix(s);
    TrimRightIsPrefix(t);
    TrimLeftCutsBlanks(s);
    TrimRightCutsBlanks(t);
    var left, right := s[..|s| - |t|], t[|r|..];
    assert s == left + r + right;
  }

  lemma {:induction false} TrimLeftCutsBlanks(s: string)
    ensures |TrimLeft(s)| <= |s| && Blank(s[..|s| - |TrimLeft(s)|])
  {
    if s != "" && IsSpace(s[0]) {
      TrimLeftCutsBlanks(s[1..]);
      var cut := s[1..][..|s| - 1 - |TrimLeft(s)|];
      assert s[..|s| - |TrimLeft(s)|] == [s[0]] + cut;
    }
  }

  lemma {:induction false} TrimRightCutsBlanks(s: string)
    ensures |TrimRight(s)| <= |s| && Blank(s[|TrimRight(s)|..])
  {
    if s != "" && IsSpace(s[|s| - 1]) {
      var shorter := s[..|s| - 1];
      TrimRightCutsBlanks(shorter);
      assert s[|TrimRight(s)|..] == shorter[|TrimRight(s)|..] + [s[|s| - 1]];
    }
  }

  /** The 25 code points. */
  lemma SpacesAre(c: char)
    ensures IsSpace(c) <==>
              c in {'\t', '\n', '\U{0B}', '\U{0C}', '\r', ' ', '\U{85}', '\U{A0}', '\U{1680}', '\U{2000}', '\U{2001}',
                    '\U{2002}', '\U{2003}', '\U{2004}', '\U{2005}', '\U{2006}', '\U{2007}', '\U{2008}', '\U{2009}',
                    '\U{200A}', '\U{2028}', '\U{2029}', '\U{202F}', '\U{205F}', '\U{3000}'}
  {
  }

  /** Padding a string with spaces on either side does not change its trimmed form: this is what
      "differs only in surrounding whitespace" means everywhere below. */
  lemma TrimAbsorbsPadding(left: string, s: string, right: string)
    requires Blank(left) && Blank(right)
    ensures TrimSpace(left + s + right) == TrimSpace(s)
  {
    assert left + s + right == left + (s + right);
    TrimLeftAbsorbs(left, s + right);
    if Blank(s) {
      TrimLeftOfBlank(s + right);
      TrimLeftOfBlank(s);
    } else {
      TrimLeftOverSuffix(s, right);
      TrimRightAbsorbs(TrimLeft(s), right);
    }
  }

  lemma {:induction false} TrimLeftOfBlank(s: string)
    requires Blank(s)
    ensures TrimLeft(s) == ""
  {
    if s != "" {
      TrimLeftOfBlank(s[1..]);
    }
  }

  lemma {:induction false} TrimLeftAbsorbs(left: string, s: string)
    requires Blank(left)
    ensures TrimLeft(left + s) == TrimLeft(s)
  {
    if left == "" {
      assert left + s == s;
    } else {
      assert (left + s)[1..] == left[1..] + s;
      TrimLeftAbsorbs(left[1..], s);
    }
  }

  lemma {:induction false} TrimLeftOverSuffix(s: string, right: string)
    requires !Blank(s)
    ensures TrimLeft(s + right) == TrimLeft(s) + right
  {
    if IsSpace(s[0]) {
      assert (s + right)[1..] == s[1..] + right;
      TrimLeftOverSuffix(s[1..], right);
    }
  }

  lemma {:induction false} TrimRightAbsorbs(s: string, right: string)
    requires Blank(right)
    ensures TrimRight(s + right) == TrimRight(s)
  {
    if right == "" {
      assert s + right == s;
    } else {
      assert (s + right)[..|s + right| - 1] == s + right[..|right| - 1];
      TrimRightAbsorbs(s, right[..|right| - 1]);
    }
  }

  // -------------------------------------------------------------------------------------------
  // ToLower

  function LowerChar(c: char): char {
    if 'A' <= c <= 'Z' then ((c as int) + 32) as char else c
  }

  /** `strings.ToLower` on ASCII letters; other characters are kept. */
  function ToLower(s: string): (r: string)
    ensures |r| == |s|
    ensures forall i :: 0 <= i < |s| ==> r[i] == LowerChar(s[i])
  {
    seq(|s|, i requires 0 <= i < |s| => LowerChar(s[i]))
  }

  const UPPER_CASE := "ABCDEFGHIJKLMNOPQRSTUVWXYZ"
  const LOWER_CASE := "abcdefghijklmnopqrstuvwxyz"

  /** Each upper-case letter becomes the lower-case one, any other character is kept. */
  lemma LettersAreLowered(s: string, i: nat)
    requires i < |s|
    ensures s[i] !in UPPER_CASE ==> ToLower(s)[i] == s[i]
    ensures forall k :: 0 <= k < 26 && s[i] == UPPER_CASE[k] ==> ToLower(s)[i] == LOWER_CASE[k]
  {
    assert |UPPER_CASE| == 26 && |LOWER_CASE| == 26;
    LettersAreInOrder();
    if 'A' <= s[i] <= 'Z' {
      assert UPPER_CASE[s[i] as int - 65] == s[i];
    }
  }

  lemma LettersAreInOrder()
    ensures forall k :: 0 <= k < 26 ==> UPPER_CASE[k] as int == 65 + k && LOWER_CASE[k] as int == 97 + k
  {
  }

  // -------------------------------------------------------------------------------------------
  // Byte-wise order of strings

  /** Go's `<` on strings. */
  predicate Less(a: string, b: string) {
    b != "" && (a == "" || a[0] < b[0] || (a[0] == b[0] && Less(a[1..], b[1..])))
  }

  lemma {:induction false} LessIsTotal(a: string, b: string)
    ensures Less(a, b) || Less(b, a) || a == b
    ensures !(Less(a, b) && Less(b, a))
    ensures Less(a, b) ==> a != b
  {
    if a != "" && b != "" && a[0] == b[0] {
      LessIsTotal(a[1..], b[1..]);
      assert a == [a[0]] + a[1..] && b == [b[0]] + b[1..];
    }
  }

  lemma {:induction false} LessIsTransitive(a: string, b: string, c: string)
    requires Less(a, b) && Less(b, c)
    ensures Less(a, c)
  {
    if a != "" && a[0] == b[0] == c[0] {
      LessIsTransitive(a[1..], b[1..], c[1..]);
    }
  }

  /** A proper prefix comes first. */
  lemma {:induction false} PrefixIsLess(prefix: string, c: char, rest: string)
    ensures Less(prefix, prefix + [c] + rest) && !Less(prefix + [c] + rest, prefix)
  {
    if prefix != "" {
      assert (prefix + [c] + rest)[1..] == prefix[1..] + [c] + rest;
      PrefixIsLess(prefix[1..], c, rest);
    }
  }

  /** Otherwise the first difference decides. */
  lemma {:induction false} FirstDifferenceDecides(prefix: string, c: char, rest: string, d: char, other: string)
    requires c != d
    ensures Less(prefix + [c] + rest, prefix + [d] + other) <==> c < d
  {
    if prefix != "" {
      assert (prefix + [c] + rest)[1..] == prefix[1..] + [c] + rest;
      assert (prefix + [d] + other)[1..] == prefix[1..] + [d] + other;
      FirstDifferenceDecides(prefix[1..], c, rest, d, other);
    }
  }

  // -------------------------------------------------------------------------------------------
  // Decimal numbers

  predicate IsDigit(c: char) {
    '0' <= c <= '9'
  }

  predicate AllDigits(s: string) {
    forall i :: 0 <= i < |s| ==> IsDigit(s[i])
  }

  function DigitChar(d: nat): (c: char)
    requires d < 10
    ensures IsDigit(c) && DigitValue(c) == d
  {
    ((d + 48) as char)
  }

  lemma DigitsAre(d: nat)
    requires d < 10
    ensures DigitChar(d) == "0123456789"[d]
  {
  }

  function DigitValue(c: char): (d: nat)
    requires IsDigit(c)
    ensures d < 10
  {
    c as int - 48
  }

  /** `strconv.Itoa` on a non-negative number. */
  function Itoa(n: nat): string {
    if n < 10 then [DigitChar(n)] else Itoa(n / 10) + [DigitChar(n % 10)]
  }

  /** It prints the number in decimal digits, without leading zeros. */
  lemma {:induction false} ItoaIsDecimal(n: nat)
    ensures var s := Itoa(n); s != "" && AllDigits(s) && ParseNat(s) == n && (|s| > 1 ==> s[0] != '0')
  {
    var s := Itoa(n);
    if n >= 10 {
      ItoaIsDecimal(n / 10);
      assert s[..|s| - 1] == Itoa(n / 10);
    } else {
      assert s[..0] == "";
    }
  }

  /** The number a digit string denotes; the empty string denotes zero. */
  function ParseNat(s: string): nat
    requires AllDigits(s)
  {
    if s == "" then 0 else ParseNat(s[..|s| - 1]) * 10 + DigitValue(s[|s| - 1])
  }

  /** `strconv.FormatInt(n, 10)`. */
  function FormatInt(n: int): string {
    if n < 0 then "-" + Itoa(-n) else Itoa(n)
  }

  lemma FormatIntCharacters(n: int)
    ensures var s := FormatInt(n);
            && s != "" && (n < 0 <==> s[0] == '-')
            && forall i :: 0 <= i < |s| ==> IsDigit(s[i]) || s[i] == '-'
  {
    ItoaIsDecimal(if n < 0 then -n else n);
  }

  /** It denotes the number, a leading minus sign the negative one. */
  lemma FormatIntDenotes(n: int)
    ensures var s := FormatInt(n);
            && s != ""
            && (s[0] == '-' ==> n < 0 && AllDigits(s[1..]) && ParseNat(s[1..]) == -n)
            && (s[0] != '-' ==> n >= 0 && AllDigits(s) && ParseNat(s) == n)
  {
    ItoaIsDecimal(if n < 0 then -n else n);
  }

  lemma FormatIntInjective(m: int, n: int)
    requires FormatInt(m) == FormatInt(n)
    ensures m == n
  {
    hide FormatInt;
    FormatIntDenotes(m);
    FormatIntDenotes(n);
  }
}
