/**
 * The JavaScript string conversions the components rely on:
 * `Number.prototype.toString(radix)` on non-negative integers, `String.prototype.padStart`
 * with a one-character filler, and digit-by-digit parsing in the manner of `parseInt` on a
 * string made of digits only.
 */
module Text {

  /** The digit character toString(radix) emits for d: `0`-`9`, then lower-case `a`-`f`. */
  function DigitChar(d: nat): (c: char)
    requires d < 16
  {
    if d < 10 then ('0' as int + d) as char else ('a' as int + d - 10) as char
  }

  /** The value parseInt gives one character (either case); -1 for a non-digit. */
  function DigitValue(c: char): (v: int)
    ensures -1 <= v < 16
  {
    if '0' <= c <= '9' then c as int - '0' as int
    else if 'a' <= c <= 'f' then c as int - 'a' as int + 10
    else if 'A' <= c <= 'F' then c as int - 'A' as int + 10
    else -1
  }

  predicate IsRadix(radix: nat) { 2 <= radix <= 16 }

  predicate IsDigit(c: char, radix: nat) { 0 <= DigitValue(c) < radix }

  predicate AllDigits(s: string, radix: nat)
  {
    forall i :: 0 <= i < |s| ==> IsDigit(s[i], radix)
  }

  /** A lower-case digit character: what toString(radix) can emit. */
  predicate IsLowerDigit(c: char)
  {
    '0' <= c <= '9' || 'a' <= c <= 'f'
  }

  /** The number a string of digits denotes, most significant digit first. */
  function DigitsValue(s: string, radix: nat): nat
    requires AllDigits(s, radix)
    decreases |s|
  {
    if s == [] then 0
    else DigitsValue(s[..|s| - 1], radix) * radix + DigitValue(s[|s| - 1])
  }

  /** `n.toString(radix)` for a non-negative integer n. */
  function ToRadix(n: nat, radix: nat): (s: string)
    requires IsRadix(radix)
    ensures 1 <= |s|
    decreases n
  {
    if n < radix then [DigitChar(n)]
    else
      DivMod(n, radix);
      ToRadix(n / radix, radix) + [DigitChar(n % radix)]
  }

  /** Euclidean division by a radix, spelled out for the solver. */
  lemma DivMod(n: nat, radix: nat)
    requires IsRadix(radix)
    ensures n == (n / radix) * radix + n % radix
    ensures 0 <= n % radix < radix
    ensures n >= radix ==> 0 < n / radix < n
  {
  }

  /** `s.padStart(len, [c])`: s preceded by as many copies of c as it lacks to reach len. */
  function PadStart(s: string, len: nat, c: char): (r: string)
    ensures |r| == if |s| >= len then |s| else len
  {
    if |s| >= len then s else seq(len - |s|, _ => c) + s
  }

  /** The index of the first c in s, or |s| when there is none (`indexOf`, with -1 read as |s|). */
  function IndexOf(s: string, c: char): (k: nat)
    ensures k <= |s|
    ensures k < |s| ==> s[k] == c
  {
    if s == [] then 0
    else if s[0] == c then 0
    else 1 + IndexOf(s[1..], c)
  }

  /** Nothing before the index indexOf returns is the searched character. */
  lemma {:induction false} IndexOfFirst(s: string, c: char, i: nat)
    requires i < IndexOf(s, c)
    ensures s[i] != c
  {
    if i > 0 {
      IndexOfFirst(s[1..], c, i - 1);
    }
  }

  /** indexOf finds a character at k when none comes before it. */
  lemma {:induction false} IndexOfAt(s: string, c: char, k: nat)
    requires k < |s| && s[k] == c
    requires forall i :: 0 <= i < k ==> s[i] != c
    ensures IndexOf(s, c) == k
  {
    if k > 0 {
      IndexOfAt(s[1..], c, k - 1);
    }
  }

  lemma DigitCharValue(d: nat)
    requires d < 16
    ensures DigitValue(DigitChar(d)) == d
    ensures IsLowerDigit(DigitChar(d))
  {
  }

  /** toString(radix) prints lower-case digits of the radix, without a leading zero. */
  lemma {:induction false} ToRadixDigits(n: nat, radix: nat)
    requires IsRadix(radix)
    ensures AllDigits(ToRadix(n, radix), radix)
    ensures forall i :: 0 <= i < |ToRadix(n, radix)| ==> IsLowerDigit(ToRadix(n, radix)[i])
    ensures |ToRadix(n, radix)| > 1 ==> ToRadix(n, radix)[0] != '0'
    decreases n
  {
    if n < radix {
      DigitCharValue(n);
    } else {
      DivMod(n, radix);
      ToRadixDigits(n / radix, radix);
      DigitCharValue(n % radix);
    }
  }

  /** padStart keeps the string as its suffix and fills the front with the filler. */
  lemma PadStartShape(s: string, len: nat, c: char)
    ensures var r := PadStart(s, len, c);
      r[|r| - |s|..] == s && forall i :: 0 <= i < |r| - |s| ==> r[i] == c
  {
  }

  /** Parsing what toString(radix) printed gives the number back. */
  lemma {:induction false} ToRadixRoundTrip(n: nat, radix: nat)
    requires IsRadix(radix)
    ensures AllDigits(ToRadix(n, radix), radix)
    ensures DigitsValue(ToRadix(n, radix), radix) == n
    decreases n
  {
    var s := ToRadix(n, radix);
    ToRadixDigits(n, radix);
    if n < radix {
      DigitCharValue(n);
      assert s[..0] == [];
    } else {
      DivMod(n, radix);
      ToRadixRoundTrip(n / radix, radix);
      DigitCharValue(n % radix);
      assert s[..|s| - 1] == ToRadix(n / radix, radix);
    }
  }

  /** A leading zero does not change the value of a digit string. */
  lemma {:induction false} LeadingZero(s: string, radix: nat)
    requires IsRadix(radix) && AllDigits(s, radix)
    ensures AllDigits(['0'] + s, radix)
    ensures DigitsValue(['0'] + s, radix) == DigitsValue(s, radix)
    decreases |s|
  {
    var t := ['0'] + s;
    if s == [] {
      assert t[..0] == [];
    } else {
      assert t[..|t| - 1] == ['0'] + s[..|s| - 1];
      LeadingZero(s[..|s| - 1], radix);
    }
  }

  /** Padding a digit string with zeros keeps its value. */
  lemma {:induction false} ZeroPadKeepsValue(s: string, len: nat, radix: nat)
    requires IsRadix(radix) && AllDigits(s, radix)
    ensures AllDigits(PadStart(s, len, '0'), radix)
    ensures DigitsValue(PadStart(s, len, '0'), radix) == DigitsValue(s, radix)
    decreases len
  {
    if |s| < len {
      var shorter := PadStart(s, len - 1, '0');
      ZeroPadKeepsValue(s, len - 1, radix);
      assert PadStart(s, len, '0') == ['0'] + shorter;
      LeadingZero(shorter, radix);
    }
  }

  /** The two-character form `n.toString(16).padStart(2, '0')` of a byte. */
  lemma HexPair(n: nat)
    requires n < 256
    ensures PadStart(ToRadix(n, 16), 2, '0') == [DigitChar(n / 16), DigitChar(n % 16)]
  {
    if n >= 16 {
      assert ToRadix(n / 16, 16) == [DigitChar(n / 16)];
    }
  }

  /** The two-character form `n.toString().padStart(2, '0')` of a number below 100. */
  lemma DecimalPair(n: nat)
    requires n < 100
    ensures PadStart(ToRadix(n, 10), 2, '0') == [DigitChar(n / 10), DigitChar(n % 10)]
  {
    if n >= 10 {
      assert ToRadix(n / 10, 10) == [DigitChar(n / 10)];
    }
  }
}
