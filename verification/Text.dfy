/** The string functions of the original's language that the models below rely on. */
module Text {
  import opened Sums

  /** str.isspace() for one character. */
  predicate IsSpace(c: char) {
    var x := c as int;
    || 0x09 <= x <= 0x0D || 0x1C <= x <= 0x20 || x == 0x85 || x == 0xA0 || x == 0x1680
    || 0x2000 <= x <= 0x200A || x == 0x2028 || x == 0x2029 || x == 0x202F || x == 0x205F || x == 0x3000
  }

  function StripLeft(s: string): string {
    if s != [] && IsSpace(s[0]) then StripLeft(s[1..]) else s
  }

  function StripRight(s: string): string {
    if s != [] && IsSpace(s[|s| - 1]) then StripRight(s[..|s| - 1]) else s
  }

  /** str.strip() */
  function Strip(s: string): string {
    StripRight(StripLeft(s))
  }

  predicate Trimmed(s: string) {
    s == [] || (!IsSpace(s[0]) && !IsSpace(s[|s| - 1]))
  }

  lemma {:induction false} StripLeftShape(s: string)
    ensures var r := StripLeft(s);
      (r == [] || !IsSpace(r[0])) && |r| <= |s| && r == s[|s| - |r|..]
  {
    if s != [] && IsSpace(s[0]) { StripLeftShape(s[1..]); }
  }

  lemma {:induction false} StripRightShape(s: string)
    ensures var r := StripRight(s);
      (r == [] || !IsSpace(r[|r| - 1])) && |r| <= |s| && r == s[..|r|]
  {
    if s != [] && IsSpace(s[|s| - 1]) { StripRightShape(s[..|s| - 1]); }
  }

  /** Stripping leaves a piece of the text without space at either end, and is done after one pass. */
  lemma StripIsTrimmed(s: string)
    ensures Trimmed(Strip(s)) && Strip(Strip(s)) == Strip(s)
    ensures Trimmed(s) <==> Strip(s) == s
    ensures forall c :: c in Strip(s) ==> c in s
  {
    StripLeftShape(s);
    StripRightShape(StripLeft(s));
  }

  // ------------------------------------------------------------------ decimals

  predicate IsDigit(c: char) {
    '0' <= c <= '9'
  }

  function DigitValue(c: char): (d: nat)
    requires IsDigit(c)
    ensures d < 10
  {
    c as int - '0' as int
  }

  function DigitChar(d: nat): (c: char)
    requires d < 10
    ensures IsDigit(c) && DigitValue(c) == d
  {
    (d + '0' as int) as char
  }

  predicate AllDigits(s: string) {
    forall i :: 0 <= i < |s| ==> IsDigit(s[i])
  }

  function NatValue(s: string): nat
    requires AllDigits(s)
  {
    if s == [] then 0 else 10 * NatValue(s[..|s| - 1]) + DigitValue(s[|s| - 1])
  }

  function NatText(n: nat): (s: string)
    ensures |s| > 0 && AllDigits(s)
  {
    if n < 10 then [DigitChar(n)] else NatText(n / 10) + [DigitChar(n % 10)]
  }

  predicate CanonicalNat(s: string) {
    |s| > 0 && AllDigits(s) && (|s| > 1 ==> s[0] != '0')
  }

  lemma {:induction false} NatTextReads(n: nat)
    ensures CanonicalNat(NatText(n)) && NatValue(NatText(n)) == n
    ensures n > 0 ==> NatText(n)[0] != '0'
  {
    if n < 10 {
      assert NatValue([]) == 0;
    } else {
      NatTextReads(n / 10);
      assert NatText(n)[..|NatText(n)| - 1] == NatText(n / 10);
    }
  }

  lemma {:induction false} NatValuePositive(s: string)
    requires AllDigits(s) && s != [] && s[0] != '0'
    ensures NatValue(s) > 0
  {
    if |s| > 1 { NatValuePositive(s[..|s| - 1]); }
  }

  lemma {:induction false} NatValueWrites(s: string)
    requires CanonicalNat(s)
    ensures NatText(NatValue(s)) == s
  {
    var n := |s| - 1;
    if n == 0 {
      assert NatValue(s[..0]) == 0;
      assert s == [s[0]];
    } else {
      NatValuePositive(s[..n]);
      NatValueWrites(s[..n]);
      assert s == s[..n] + [s[n]];
    }
  }

  /** str(n) */
  function IntText(n: int): string {
    if n < 0 then "-" + NatText(Minus(n)) else NatText(n)
  }

  /** The texts s with str(int(s)) == s. */
  predicate CanonicalInt(s: string) {
    CanonicalNat(s) || (|s| > 1 && s[0] == '-' && CanonicalNat(s[1..]) && s[1] != '0')
  }

  /** int(s) of such a text. */
  function IntValue(s: string): int
    requires CanonicalInt(s)
  {
    if CanonicalNat(s) then NatValue(s) else Minus(NatValue(s[1..]))
  }

  /** Writing and reading integers are inverse to each other. */
  lemma IntTextReads(n: int)
    ensures CanonicalInt(IntText(n)) && IntValue(IntText(n)) == n
  {
    if n < 0 {
      NatTextReads(Minus(n));
      assert IntText(n)[1..] == NatText(Minus(n));
    } else {
      NatTextReads(n);
    }
  }

  lemma IntValueWrites(s: string)
    requires CanonicalInt(s)
    ensures IntText(IntValue(s)) == s
  {
    if CanonicalNat(s) {
      NatValueWrites(s);
    } else {
      NatValueWrites(s[1..]);
      NatValuePositive(s[1..]);
      assert s == "-" + s[1..];
    }
  }
}
