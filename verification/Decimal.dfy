// Decimal text of an integer and its reading.
module Decimal {
  import opened Wrappers

  function Digit(d: nat): char
    requires d < 10
  {
    (d + '0' as int) as char
  }

  predicate IsDigit(c: char) {
    '0' <= c <= '9'
  }

  function Digits(n: nat): (s: string)
    ensures s != []
  {
    if n < 10 then [Digit(n)] else Digits(n / 10) + [Digit(n % 10)]
  }

  function ParseDigits(s: string): Option<nat> {
    if s == [] then Some(0)
    else
      var last := s[|s| - 1];
      var high := ParseDigits(s[..|s| - 1]);
      if high.Some? && IsDigit(last) then Some(10 * high.value + (last as int - '0' as int)) else None
  }

  function ToDecimal(n: int): string {
    if n < 0 then "-" + Digits(-n) else Digits(n)
  }

  function Parse(s: string): Option<int> {
    if s != [] && s[0] == '-' then
      var n := ParseDigits(s[1..]);
      if |s| > 1 && n.Some? then var magnitude: int := n.value; Some(-magnitude) else None
    else
      var n := ParseDigits(s);
      if s != [] && n.Some? then Some(n.value) else None
  }

  lemma {:induction false} DigitsReadBack(n: nat)
    ensures ParseDigits(Digits(n)) == Some(n)
    ensures IsDigit(Digits(n)[0])
  {
    var s := Digits(n);
    if n < 10 {
      assert s[..0] == [];
      assert ParseDigits(s[..0]) == Some(0);
    } else {
      DigitsReadBack(n / 10);
      assert s[..|s| - 1] == Digits(n / 10);
    }
  }

  lemma ReadsBack(n: int)
    ensures Parse(ToDecimal(n)) == Some(n)
  {
    var m := Magnitude(n);
    DigitsReadBack(m);
    assert n < 0 ==> ToDecimal(n)[1..] == Digits(m);
  }

  // ---- exactly the numerals parse ----

  function Zeros(k: nat): string {
    seq(k, _ => '0')
  }

  function Magnitude(n: int): nat {
    if n < 0 then -n else n
  }

  // The decimal text of n, with leading zeros and, for zero, perhaps a sign.
  ghost predicate Denotes(s: string, n: int) {
    exists k: nat, negative: bool :: Numeral(s, k, negative, n)
  }

  predicate Numeral(s: string, k: nat, negative: bool, n: int) {
    && (n < 0 ==> negative) && (n > 0 ==> !negative)
    && s == (if negative then "-" else "") + (Zeros(k) + Digits(Magnitude(n)))
  }

  lemma {:induction false} ZerosParse(k: nat)
    ensures ParseDigits(Zeros(k)) == Some(0)
    decreases k
  {
    if k > 0 {
      assert Zeros(k)[..k - 1] == Zeros(k - 1);
      ZerosParse(k - 1);
    }
  }

  lemma {:induction false} PaddedReadBack(k: nat, n: nat)
    ensures ParseDigits(Zeros(k) + Digits(n)) == Some(n)
    ensures (Zeros(k) + Digits(n))[0] != '-'
    decreases n
  {
    var s := Zeros(k) + Digits(n);
    DigitsReadBack(n);
    assert s[0] == if k > 0 then '0' else Digits(n)[0];
    if n < 10 {
      assert s[..|s| - 1] == Zeros(k);
      ZerosParse(k);
    } else {
      assert s[..|s| - 1] == Zeros(k) + Digits(n / 10);
      PaddedReadBack(k, n / 10);
    }
  }

  // Text that parses is padded decimal text.
  lemma {:induction false} ParsedIsPadded(s: string) returns (k: nat)
    requires s != [] && ParseDigits(s).Some?
    ensures s == Zeros(k) + Digits(ParseDigits(s).value)
    decreases |s|
  {
    var front, last := s[..|s| - 1], s[|s| - 1];
    var high, d := ParseDigits(front).value, last as int - '0' as int;
    assert ParseDigits(s).value == 10 * high + d && s == front + [last] && Digit(d) == last;
    if front == [] {
      k := 0;
      assert Zeros(0) + Digits(d) == [last];
    } else {
      k := ParsedIsPadded(front);
      if high == 0 {
        assert Digits(0) == "0" && Zeros(k) + "0" == Zeros(k + 1);
        k := k + 1;
      } else {
        assert Digits(10 * high + d) == Digits(high) + [Digit(d)];
        assert Zeros(k) + (Digits(high) + [last]) == front + [last];
      }
    }
  }

  lemma NumeralParses(s: string, k: nat, negative: bool, n: int)
    requires Numeral(s, k, negative, n)
    ensures Parse(s) == Some(n)
  {
    var padded := Zeros(k) + Digits(Magnitude(n));
    PaddedReadBack(k, Magnitude(n));
    if negative {
      assert s[1..] == padded && |padded| > 0;
    } else {
      assert s == padded;
    }
  }

  lemma ParsedIsNumeral(s: string)
    requires Parse(s).Some?
    ensures Denotes(s, Parse(s).value)
  {
    var n := Parse(s).value;
    if s[0] == '-' {
      var k := ParsedIsPadded(s[1..]);
      assert s == "-" + s[1..] && Magnitude(n) == ParseDigits(s[1..]).value;
      assert Numeral(s, k, true, n);
    } else {
      var k := ParsedIsPadded(s);
      assert "" + s == s;
      assert Numeral(s, k, false, n);
    }
  }

  // A text parses to n exactly when it is the decimal text of n.
  lemma ParsesExactlyNumerals(s: string, n: int)
    ensures Parse(s) == Some(n) <==> Denotes(s, n)
  {
    if k: nat, negative: bool :| Numeral(s, k, negative, n) {
      NumeralParses(s, k, negative, n);
    }
    if Parse(s) == Some(n) {
      ParsedIsNumeral(s);
    }
  }
}
