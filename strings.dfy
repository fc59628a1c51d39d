// Text helpers shared by the model: Java's decimal rendering of integers
// (Integer.toString / string concatenation) and String.compareTo.
module Strings {

  /** The decimal digit character for 0 <= d < 10. */
  function Digit(d: nat): char
    requires d < 10
  {
    "0123456789"[d]
  }

  /** Value of a decimal digit character, -1 for any other character. */
  function DigitValue(c: char): int
  {
    if '0' <= c <= '9' then c as int - '0' as int else -1
  }

  /** Decimal rendering of a natural number, most significant digit first. */
  function NatToString(n: nat): (s: string)
    ensures |s| >= 1
    ensures forall i :: 0 <= i < |s| ==> '0' <= s[i] <= '9'
    decreases n
  {
    if n < 10 then [Digit(n)] else NatToString(n / 10) + [Digit(n % 10)]
  }

  /** Decimal rendering of an int, as Java prints it: a leading '-' for negatives. */
  function IntToString(n: int): (s: string)
    ensures |s| >= 1
    ensures (s[0] == '-') == (n < 0)
  {
    if n < 0 then "-" + NatToString(-n) else NatToString(n)
  }

  /** Reads back a non-empty string of decimal digits. */
  function ParseDigits(s: string): int
    decreases |s|
  {
    if s == [] then 0 else ParseDigits(s[..|s| - 1]) * 10 + DigitValue(s[|s| - 1])
  }

  /** Reading back the decimal rendering gives the number: the rendering loses nothing. */
  lemma {:induction false} ParseNatToString(n: nat)
    ensures ParseDigits(NatToString(n)) == n
    decreases n
  {
    var s := NatToString(n);
    if n < 10 {
      assert s == [Digit(n)];
      assert s[..0] == [];
    } else {
      ParseNatToString(n / 10);
      assert s[..|s| - 1] == NatToString(n / 10);
    }
  }

  /**
   * Java's String.compareTo: the difference of the first differing characters,
   * or the difference of the lengths when one string is a prefix of the other.
   */
  function CompareTo(a: string, b: string): int
    decreases |a|
  {
    if a == [] || b == [] then |a| - |b|
    else if a[0] != b[0] then a[0] as int - b[0] as int
    else CompareTo(a[1..], b[1..])
  }

  /** compareTo is zero exactly on equal strings. */
  lemma {:induction false} CompareToZero(a: string, b: string)
    ensures CompareTo(a, b) == 0 <==> a == b
    decreases |a|
  {
    if a != [] && b != [] && a[0] == b[0] {
      CompareToZero(a[1..], b[1..]);
      if a[1..] == b[1..] {
        assert a == [a[0]] + a[1..] && b == [b[0]] + b[1..];
      }
    }
  }

  /** compareTo is antisymmetric in sign. */
  lemma {:induction false} CompareToFlip(a: string, b: string)
    ensures CompareTo(a, b) == -CompareTo(b, a)
    decreases |a|
  {
    if a != [] && b != [] && a[0] == b[0] {
      CompareToFlip(a[1..], b[1..]);
    }
  }

  /** The order that compareTo <= 0 defines is transitive. */
  lemma {:induction false} CompareToTransitive(a: string, b: string, c: string)
    requires CompareTo(a, b) <= 0 && CompareTo(b, c) <= 0
    ensures CompareTo(a, c) <= 0
    decreases |a|
  {
    if a != [] && b != [] && c != [] && a[0] == b[0] && b[0] == c[0] {
      CompareToTransitive(a[1..], b[1..], c[1..]);
    }
  }
}
