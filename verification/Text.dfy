/** Strings as the repository compares, prints and reads them: by code point, and in decimal. */
module Text {
  import opened Sorting

  /** Python's `<=` on strings: lexicographic by code point. */
  predicate TextLe(a: string, b: string) {
    a == [] || (b != [] && (a[0] < b[0] || (a[0] == b[0] && TextLe(a[1..], b[1..]))))
  }

  lemma {:induction false} TextLeTotal(a: string, b: string)
    ensures TextLe(a, b) || TextLe(b, a)
  {
    if a != [] && b != [] && a[0] == b[0] {
      TextLeTotal(a[1..], b[1..]);
    }
  }

  lemma {:induction false} TextLeTransitive(a: string, b: string, c: string)
    requires TextLe(a, b) && TextLe(b, c)
    ensures TextLe(a, c)
  {
    if a != [] && a[0] == b[0] && b[0] == c[0] {
      TextLeTransitive(a[1..], b[1..], c[1..]);
    }
  }

  lemma {:induction false} TextLeAntisymmetric(a: string, b: string)
    requires TextLe(a, b) && TextLe(b, a)
    ensures a == b
  {
    if a != [] {
      TextLeAntisymmetric(a[1..], b[1..]);
      assert a == [a[0]] + a[1..] && b == [b[0]] + b[1..];
    }
  }

  lemma TextOrder()
    ensures TotalPreorder(TextLe)
    ensures forall a, b :: Equivalent(TextLe, a, b) ==> a == b
  {
    forall a, b ensures TextLe(a, b) || TextLe(b, a) { TextLeTotal(a, b); }
    forall a, b, c | TextLe(a, b) && TextLe(b, c) ensures TextLe(a, c) { TextLeTransitive(a, b, c); }
    forall a, b | Equivalent(TextLe, a, b) ensures a == b { TextLeAntisymmetric(a, b); }
  }

  predicate IsDigit(c: char) { '0' <= c <= '9' }

  /** `str.isdigit` on ASCII text: at least one character, all of them digits. */
  predicate IsNumber(s: string) {
    s != [] && forall i :: 0 <= i < |s| ==> IsDigit(s[i])
  }

  function DigitChar(d: nat): (c: char)
    requires d < 10
    ensures IsDigit(c) && DigitValue(c) == d
  {
    '0' + d as char
  }

  function DigitValue(c: char): (d: nat)
    requires IsDigit(c)
    ensures d < 10
  {
    (c - '0') as int
  }

  /** `int(s)` for a string of ASCII digits. */
  function ReadNumber(s: string): nat
    requires forall i :: 0 <= i < |s| ==> IsDigit(s[i])
  {
    if s == [] then 0 else 10 * ReadNumber(s[..|s| - 1]) + DigitValue(s[|s| - 1])
  }

  /** `str(n)`. */
  function PrintNumber(n: nat): (s: string)
    ensures IsNumber(s)
  {
    if n < 10 then [DigitChar(n)] else PrintNumber(n / 10) + [DigitChar(n % 10)]
  }

  /** The format specification `0{width}d`: the decimal digits, zero-filled on the left. */
  function ZeroFill(s: string, width: nat): (r: string)
    requires IsNumber(s)
    ensures IsNumber(r) && |r| == (if |s| < width then width else |s|)
    decreases width - |s|
  {
    if |s| >= width then s else ZeroFill(['0'] + s, width)
  }

  lemma {:induction false} ReadPrinted(n: nat)
    ensures ReadNumber(PrintNumber(n)) == n
  {
    if n >= 10 {
      var s := PrintNumber(n);
      assert s[..|s| - 1] == PrintNumber(n / 10);
      ReadPrinted(n / 10);
    }
  }

  lemma {:induction false} ReadLeadingZero(s: string)
    requires forall i :: 0 <= i < |s| ==> IsDigit(s[i])
    ensures ReadNumber(['0'] + s) == ReadNumber(s)
  {
    var t := ['0'] + s;
    if s == [] {
      assert t[..|t| - 1] == [];
    } else {
      assert t[..|t| - 1] == ['0'] + s[..|s| - 1];
      ReadLeadingZero(s[..|s| - 1]);
    }
  }

  lemma {:induction false} ReadZeroFilled(s: string, width: nat)
    requires IsNumber(s)
    ensures ReadNumber(ZeroFill(s, width)) == ReadNumber(s)
    decreases width - |s|
  {
    if |s| < width {
      ReadLeadingZero(s);
      ReadZeroFilled(['0'] + s, width);
    }
  }

  /** Printing is injective: a number is recovered from its digits. */
  lemma PrintInjective(m: nat, n: nat)
    requires PrintNumber(m) == PrintNumber(n)
    ensures m == n
  {
    ReadPrinted(m);
    ReadPrinted(n);
  }

  /** `text.startswith(prefix)`. */
  predicate StartsWith(text: string, prefix: string) {
    |prefix| <= |text| && text[..|prefix|] == prefix
  }

  /** `text.removeprefix(prefix)`: the text itself when it does not carry the prefix. */
  function RemovePrefix(text: string, prefix: string): (r: string)
    ensures StartsWith(text, prefix) ==> text == prefix + r
    ensures !StartsWith(text, prefix) ==> r == text
  {
    if StartsWith(text, prefix) then text[|prefix|..] else text
  }
}
