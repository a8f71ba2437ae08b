/** String helpers the controller relies on: Go's strconv.Itoa and Go's
    byte-wise ordering of strings (the `<` and `>` operators on `string`). */
module Text {

  /** The ASCII digit for d. */
  function DigitChar(d: nat): (c: char)
    requires d < 10
    ensures '0' <= c <= '9'
    ensures c as int - '0' as int == d
  {
    (48 + d) as char
  }

  /** Decimal rendering of a non-negative integer, as strconv.Itoa writes it
      (no sign, no leading zeros). */
  function Itoa(n: nat): (s: string)
    ensures |s| > 0
    ensures forall i :: 0 <= i < |s| ==> '0' <= s[i] <= '9'
    ensures (|s| == 1) == (n < 10)
    decreases n
  {
    if n < 10 then [DigitChar(n)] else Itoa(n / 10) + [DigitChar(n % 10)]
  }

  /** Distinct integers render to distinct strings, so names built from
      distinct positions never collide. */
  lemma {:induction false} ItoaInjective(a: nat, b: nat)
    requires Itoa(a) == Itoa(b)
    ensures a == b
    decreases a
  {
    var sa, sb := Itoa(a), Itoa(b);
    if a < 10 || b < 10 {
      assert |sa| == 1 && |sb| == 1;
      assert sa[0] == DigitChar(a) && sb[0] == DigitChar(b);
    } else {
      assert sa == Itoa(a / 10) + [DigitChar(a % 10)];
      assert sb == Itoa(b / 10) + [DigitChar(b % 10)];
      assert sa[|sa| - 1] == DigitChar(a % 10) && sb[|sb| - 1] == DigitChar(b % 10);
      assert Itoa(a / 10) == sa[..|sa| - 1] == sb[..|sb| - 1] == Itoa(b / 10);
      ItoaInjective(a / 10, b / 10);
    }
  }

  /** Go's `a < b` on strings: lexicographic on the encoded bytes. For the
      UTF-8 encoding, byte order agrees with code-point order, so comparing
      characters gives the same answer. A proper prefix is smaller. */
  predicate Less(a: string, b: string)
    decreases |a|
  {
    if |a| == 0 then |b| > 0
    else if |b| == 0 then false
    else if a[0] != b[0] then a[0] < b[0]
    else Less(a[1..], b[1..])
  }

  lemma {:induction false} LessIrreflexive(a: string)
    ensures !Less(a, a)
    decreases |a|
  {
    if |a| > 0 {
      LessIrreflexive(a[1..]);
    }
  }

  lemma {:induction false} LessAsymmetric(a: string, b: string)
    requires Less(a, b)
    ensures !Less(b, a)
    decreases |a|
  {
    if |a| > 0 && |b| > 0 && a[0] == b[0] {
      LessAsymmetric(a[1..], b[1..]);
    }
  }

  lemma {:induction false} LessTransitive(a: string, b: string, c: string)
    requires Less(a, b) && Less(b, c)
    ensures Less(a, c)
    decreases |a|
  {
    if |a| > 0 && a[0] == b[0] && b[0] == c[0] {
      LessTransitive(a[1..], b[1..], c[1..]);
    }
  }

  /** Any two different strings are ordered one way or the other. */
  lemma {:induction false} LessTotal(a: string, b: string)
    requires a != b
    ensures Less(a, b) || Less(b, a)
    decreases |a|
  {
    if |a| > 0 && |b| > 0 && a[0] == b[0] {
      assert a == [a[0]] + a[1..] && b == [b[0]] + b[1..];
      LessTotal(a[1..], b[1..]);
    }
  }

  /** The byte order is not the numeric order of decimal strings: "100" is
      smaller than "99". */
  lemma DecimalOrderDisagrees()
    ensures Itoa(100) == "100" && Itoa(99) == "99"
    ensures Less("100", "99")
  {
    assert Itoa(10) == "10";
  }
}
