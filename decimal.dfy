/** Decimal rendering of integers, as C's `%d` conversion (and C++'s
    `operator<<` on an `int`) writes them: an optional leading '-', then the
    digits of the magnitude with no leading zeros. `Parse` is its inverse,
    and the lemmas at the end prove the two undo each other. */
module Decimal {

  datatype Option<T> = None | Some(value: T)

  predicate IsDigit(c: char) {
    '0' <= c <= '9'
  }

  predicate AllDigits(s: string) {
    forall k :: 0 <= k < |s| ==> IsDigit(s[k])
  }

  function DigitValue(c: char): (d: nat)
    requires IsDigit(c)
    ensures d < 10
  {
    c as int - '0' as int
  }

  function Digit(d: nat): (c: char)
    requires d < 10
    ensures IsDigit(c) && DigitValue(c) == d
  {
    ('0' as int + d) as char
  }

  /** A digit string as `%d` writes a magnitude: at least one digit, and no
      leading zero unless the number is zero itself. */
  predicate Canonical(s: string) {
    |s| >= 1 && AllDigits(s) && (|s| > 1 ==> s[0] != '0')
  }

  /** The number a string of digits denotes, most significant digit first. */
  function ValueOf(s: string): nat
    requires AllDigits(s)
  {
    if |s| == 0 then 0 else ValueOf(s[..|s| - 1]) * 10 + DigitValue(s[|s| - 1])
  }

  function NatToString(n: nat): (s: string)
    ensures Canonical(s)
    ensures s[0] == '0' <==> n == 0
    decreases n
  {
    if n < 10 then [Digit(n)] else NatToString(n / 10) + [Digit(n % 10)]
  }

  /** What `%d` prints for `i`. */
  function IntToString(i: int): (s: string)
    ensures |s| >= 1
    ensures s[0] == '-' <==> i < 0
  {
    if i < 0 then "-" + NatToString(-i) else NatToString(i)
  }

  /** Reads back a line written by `IntToString`; any other string
      (empty, a stray sign, "-0", a leading zero, a non-digit) is refused. */
  function Parse(s: string): Option<int> {
    if |s| >= 1 && s[0] == '-' then
      var m := s[1..];
      if Canonical(m) && m[0] != '0' then Some(-(ValueOf(m) as int)) else None
    else if Canonical(s) then Some(ValueOf(s))
    else None
  }

  lemma {:induction false} ValueOfNatToString(n: nat)
    ensures ValueOf(NatToString(n)) == n
    decreases n
  {
    if n >= 10 {
      var p := NatToString(n / 10);
      var s := NatToString(n);
      assert s == p + [Digit(n % 10)];
      assert s[..|s| - 1] == p;
      ValueOfNatToString(n / 10);
    }
  }

  /** A digit string whose first digit is not zero denotes a positive number. */
  lemma {:induction false} ValueOfPositive(s: string)
    requires |s| >= 1 && AllDigits(s) && s[0] != '0'
    ensures ValueOf(s) > 0
    decreases |s|
  {
    if |s| > 1 {
      var p := s[..|s| - 1];
      assert p[0] == s[0];
      ValueOfPositive(p);
    }
  }

  lemma {:induction false} NatToStringValueOf(s: string)
    requires Canonical(s)
    ensures NatToString(ValueOf(s)) == s
    decreases |s|
  {
    if |s| > 1 {
      var p := s[..|s| - 1];
      var d := DigitValue(s[|s| - 1]);
      assert p[0] == s[0];
      ValueOfPositive(p);
      NatToStringValueOf(p);
      var n := ValueOf(s);
      assert n == ValueOf(p) * 10 + d;
      assert n / 10 == ValueOf(p) && n % 10 == d;
      assert Digit(d) == s[|s| - 1];
      assert s == p + [s[|s| - 1]];
    } else {
      assert s[..0] == [];
      assert ValueOf(s) == DigitValue(s[0]);
    }
  }

  /** Every integer printed with `%d` reads back as itself. */
  lemma {:induction false} ParseIntToString(i: int)
    ensures Parse(IntToString(i)) == Some(i)
  {
    var s := IntToString(i);
    if i < 0 {
      assert s[1..] == NatToString(-i);
      ValueOfNatToString(-i);
    } else {
      ValueOfNatToString(i);
    }
  }

  /** Every string `Parse` accepts is exactly what `%d` prints for its value,
      so a printed line determines the integer and nothing else prints it. */
  lemma {:induction false} IntToStringParse(s: string, i: int)
    requires Parse(s) == Some(i)
    ensures IntToString(i) == s
  {
    if |s| >= 1 && s[0] == '-' {
      var m := s[1..];
      ValueOfPositive(m);
      NatToStringValueOf(m);
      assert s == "-" + m;
    } else {
      NatToStringValueOf(s);
    }
  }
}
