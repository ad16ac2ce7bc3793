/**
 * The parts of Go's string handling the client relies on: byte slices, the
 * `string([]byte)` conversion, decimal formatting with `%d` and byte-wise
 * string ordering.
 *
 * A Go string is a sequence of bytes. The model writes it as a Dafny `string`
 * holding one char per byte, so a string that came from bytes has every char
 * below 256 (`IsByteString`).
 */
module GoText {
  import opened Wrappers

  newtype byte = b: int | 0 <= b < 256

  type Bytes = seq<byte>

  predicate IsByteString(s: string) {
    forall i :: 0 <= i < |s| ==> s[i] as int < 256
  }

  /** Go's `string(b)`: the same bytes, read as a string. */
  function Text(b: Bytes): (s: string)
    ensures |s| == |b| && IsByteString(s)
    ensures forall i :: 0 <= i < |b| ==> s[i] as int == b[i] as int
  {
    seq(|b|, i requires 0 <= i < |b| => (b[i] as int) as char)
  }

  /** Distinct byte slices give distinct strings, so `string(b)` loses nothing. */
  lemma TextInjective(a: Bytes, b: Bytes)
    requires Text(a) == Text(b)
    ensures a == b
  {
    assert |a| == |Text(a)| == |b|;
    forall i | 0 <= i < |a|
      ensures a[i] == b[i]
    {
      assert a[i] as int == Text(a)[i] as int == Text(b)[i] as int == b[i] as int;
    }
  }

  // ---------------------------------------------------------------------------
  // fmt's %d verb

  predicate IsDigit(c: char) { '0' <= c <= '9' }

  function DigitChar(d: int): (c: char)
    requires 0 <= d < 10
    ensures IsDigit(c)
  {
    ('0' as int + d) as char
  }

  function DigitValue(c: char): (d: int)
    requires IsDigit(c)
    ensures 0 <= d < 10 && DigitChar(d) == c
  {
    c as int - '0' as int
  }

  /** The decimal digits of `n`, most significant first, without leading zeros. */
  function Digits(n: nat): (s: string)
    ensures |s| > 0
    ensures forall i :: 0 <= i < |s| ==> IsDigit(s[i])
    decreases n
  {
    if n < 10 then [DigitChar(n)] else Digits(n / 10) + [DigitChar(n % 10)]
  }

  /** What `fmt.Sprintf("%d", n)` prints. */
  function FormatInt(n: int): (s: string)
    ensures |s| > 0
    ensures forall i :: 0 <= i < |s| ==> IsDigit(s[i]) || (i == 0 && s[i] == '-')
    ensures (s[0] == '-') <==> n < 0
  {
    if n < 0 then "-" + Digits(-n) else Digits(n)
  }

  /** The value of a run of decimal digits, leading zeros allowed. */
  function DigitRunValue(s: string): Option<nat>
    decreases |s|
  {
    if s == [] || !IsDigit(s[|s| - 1]) then None
    else if |s| == 1 then Some(DigitValue(s[0]))
    else match DigitRunValue(s[..|s| - 1])
      case None => None
      case Some(m) => Some(m * 10 + DigitValue(s[|s| - 1]))
  }

  /** Reads back what `Digits` prints: a digit run with no leading zero unless it is "0". */
  function ParseNat(s: string): Option<nat> {
    if |s| > 1 && s[0] == '0' then None else DigitRunValue(s)
  }

  /** Reads back what `FormatInt` prints: "-" only before a non-zero digit run. */
  function ParseInt(s: string): Option<int> {
    if |s| > 0 && s[0] == '-' then
      match ParseNat(s[1..])
      case None => None
      case Some(m) => if m == 0 then None else Some(0 - m as int)
    else
      match ParseNat(s)
      case None => None
      case Some(m) => Some(m)
  }

  /** `Digits` starts with '0' only for zero, and then it is the single digit. */
  lemma {:induction false} DigitsLeading(n: nat)
    ensures Digits(n)[0] == '0' <==> n == 0
    ensures |Digits(n)| == 1 <==> n < 10
    decreases n
  {
    if n >= 10 {
      DigitsLeading(n / 10);
      assert Digits(n)[0] == Digits(n / 10)[0];
    }
  }

  lemma {:induction false} ParseDigits(n: nat)
    ensures DigitRunValue(Digits(n)) == Some(n)
    decreases n
  {
    if n >= 10 {
      var s := Digits(n);
      assert s == Digits(n / 10) + [DigitChar(n % 10)];
      assert s[..|s| - 1] == Digits(n / 10);
      ParseDigits(n / 10);
    }
  }

  /** A digit run without a superfluous leading zero is exactly what `Digits` prints for its value. */
  lemma {:induction false} DigitRunCanonical(s: string, m: nat)
    requires DigitRunValue(s) == Some(m)
    requires |s| > 1 ==> s[0] != '0'
    ensures Digits(m) == s
    decreases |s|
  {
    if |s| > 1 {
      var p := s[..|s| - 1];
      var k :| DigitRunValue(p) == Some(k);
      assert m == k * 10 + DigitValue(s[|s| - 1]);
      DigitRunCanonical(p, k);
      DigitsLeading(k);
      assert p[0] == s[0];
      assert k != 0;
      assert s == p + [s[|s| - 1]];
    }
  }

  /** `%d` output can be read back: formatting an integer loses nothing. */
  lemma ParseFormatInt(n: int)
    ensures ParseInt(FormatInt(n)) == Some(n)
  {
    if n < 0 {
      assert FormatInt(n)[1..] == Digits(-n);
      DigitsLeading(-n);
      ParseDigits(-n);
    } else {
      DigitsLeading(n);
      ParseDigits(n);
    }
  }

  /** `ParseInt` accepts only text `%d` prints: the text it reads is the formatting of its result. */
  lemma FormatParseInt(s: string, n: int)
    requires ParseInt(s) == Some(n)
    ensures FormatInt(n) == s
  {
    if |s| > 0 && s[0] == '-' {
      var m :| ParseNat(s[1..]) == Some(m);
      DigitRunCanonical(s[1..], m);
      assert s == "-" + s[1..];
    } else {
      DigitRunCanonical(s, n);
    }
  }

  // ---------------------------------------------------------------------------
  // Go's string comparison (byte-wise, lexicographic), as used by sort.Strings

  predicate LexLe(a: string, b: string)
    decreases |a|
  {
    a == [] || (b != [] && (a[0] < b[0] || (a[0] == b[0] && LexLe(a[1..], b[1..]))))
  }

  lemma {:induction false} LexLeReflexive(a: string)
    ensures LexLe(a, a)
    decreases |a|
  {
    if a != [] {
      LexLeReflexive(a[1..]);
    }
  }
}
