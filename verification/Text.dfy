/** Decimal numerals and the names built from them. */
module Text {

  function Digit(d: nat): char
    requires d < 10
  {
    '0' + d as char
  }

  /** `str(n)` for a natural number. */
  function Decimal(n: nat): (s: string)
    ensures s != []
  {
    if n < 10 then [Digit(n)] else Decimal(n / 10) + [Digit(n % 10)]
  }

  function ZeroFilled(s: string, width: nat): string
    decreases width - |s|
  {
    if |s| >= width then s else ZeroFilled("0" + s, width)
  }

  /** `f"{n:04d}"`. */
  function Padded(n: nat): string {
    ZeroFilled(Decimal(n), 4)
  }

  predicate IsNumeral(s: string) {
    forall i :: 0 <= i < |s| ==> '0' <= s[i] <= '9'
  }

  function Value(s: string): nat
    requires IsNumeral(s)
  {
    if s == [] then 0 else Value(s[..|s| - 1]) * 10 + (s[|s| - 1] - '0') as nat
  }

  lemma {:induction false} DecimalReadsBack(n: nat)
    ensures IsNumeral(Decimal(n)) && Value(Decimal(n)) == n
  {
    if n >= 10 {
      DecimalReadsBack(n / 10);
      assert Decimal(n)[..|Decimal(n)| - 1] == Decimal(n / 10);
    } else {
      assert Decimal(n)[..0] == [];
    }
  }

  lemma {:induction false} LeadingZero(s: string)
    requires IsNumeral(s)
    ensures IsNumeral("0" + s) && Value("0" + s) == Value(s)
  {
    if s == [] {
      assert ("0" + s)[..0] == [];
    } else {
      LeadingZero(s[..|s| - 1]);
      assert ("0" + s)[..|s|] == "0" + s[..|s| - 1];
    }
  }

  lemma {:induction false} ZeroFillingKeepsValue(s: string, width: nat)
    requires IsNumeral(s)
    ensures IsNumeral(ZeroFilled(s, width)) && Value(ZeroFilled(s, width)) == Value(s)
    decreases width - |s|
  {
    if |s| < width {
      LeadingZero(s);
      ZeroFillingKeepsValue("0" + s, width);
    }
  }

  lemma PaddedReadsBack(n: nat)
    ensures IsNumeral(Padded(n)) && Value(Padded(n)) == n
  {
    DecimalReadsBack(n);
    ZeroFillingKeepsValue(Decimal(n), 4);
  }

  /** A stem, a mark that ends in a non-digit, and a numeral: all three can be read off the name. */
  lemma NumberedNameIsInjective(stem1: string, stem2: string, mark: string, n1: string, n2: string)
    requires mark != [] && !('0' <= mark[|mark| - 1] <= '9')
    requires IsNumeral(n1) && IsNumeral(n2)
    requires stem1 + mark + n1 == stem2 + mark + n2
    ensures stem1 == stem2 && n1 == n2
  {
    var s, m := stem1 + mark + n1, stem2 + mark + n2;
    if |n1| < |n2| {
      MarkIsNotDigit(stem1, stem2, mark, n1, n2);
    } else if |n2| < |n1| {
      MarkIsNotDigit(stem2, stem1, mark, n2, n1);
    }
    assert stem1 == s[..|s| - |n1| - |mark|] && stem2 == m[..|m| - |n2| - |mark|];
    assert n1 == s[|s| - |n1|..] && n2 == m[|m| - |n2|..];
  }

  lemma MarkIsNotDigit(stem1: string, stem2: string, mark: string, n1: string, n2: string)
    requires mark != [] && !('0' <= mark[|mark| - 1] <= '9')
    requires IsNumeral(n2) && |n1| < |n2|
    ensures stem1 + mark + n1 != stem2 + mark + n2
  {
    var s, m := stem1 + mark + n1, stem2 + mark + n2;
    var k := |s| - |n1| - 1;
    assert s[k] == mark[|mark| - 1];
    if |s| == |m| {
      assert m[k] == n2[|n2| - |n1| - 1];
    }
  }

  // ----- Whitespace -----

  predicate IsSpace(c: char) {
    c == ' ' || c == '\t' || c == '\n' || c == '\r'
  }

  /** What `strip()` leaves empty. */
  predicate IsBlank(s: string) {
    forall i :: 0 <= i < |s| ==> IsSpace(s[i])
  }
}
