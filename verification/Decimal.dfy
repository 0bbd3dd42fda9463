/** Printing a count and reading it back: `strconv.Itoa` and `strconv.ParseInt(s, 10, 32)`. */
module Decimal {
  import opened Naming

  const MIN_INT32 := -0x8000_0000
  const MAX_INT32 := 0x7fff_ffff

  type Int32 = n: int | MIN_INT32 <= n <= MAX_INT32

  function DigitChar(d: nat): char
    requires d < 10
  {
    '0' + d as char
  }

  predicate IsDigit(c: char) {
    '0' <= c <= '9'
  }

  function DigitValue(c: char): nat
    requires IsDigit(c)
  {
    (c - '0') as nat
  }

  function Digits(n: nat): string {
    if n < 10 then [DigitChar(n)] else Digits(n / 10) + [DigitChar(n % 10)]
  }

  function Itoa(n: int): string {
    if n < 0 then ['-'] + Digits(-n) else Digits(n)
  }

  /** The value of a non-empty string of digits; None is a syntax error. */
  function ParseDigits(s: string): Option<nat> {
    if s == [] || !IsDigit(s[|s| - 1]) then None
    else if |s| == 1 then Some(DigitValue(s[0]))
    else
      match ParseDigits(s[..|s| - 1])
      case None => None
      case Some(high) => Some(10 * high + DigitValue(s[|s| - 1]))
  }

  /** One optional sign, digits, and a value that fits 32 bits; None is an error. */
  function ParseInt32(s: string): Option<Int32> {
    if s == [] then None else
      var negative := s[0] == '-';
      var magnitude := ParseDigits(if negative || s[0] == '+' then s[1..] else s);
      if magnitude.None? then None else
        var value: int := if negative then 0 - magnitude.value else magnitude.value;
        if MIN_INT32 <= value <= MAX_INT32 then Some(value) else None
  }

  lemma {:induction false} DigitsParse(n: nat)
    ensures ParseDigits(Digits(n)) == Some(n)
    ensures Digits(n) != [] && IsDigit(Digits(n)[0])
  {
    if n >= 10 {
      DigitsParse(n / 10);
      assert Digits(n)[..|Digits(n)| - 1] == Digits(n / 10);
      assert Digits(n)[0] == Digits(n / 10)[0];
    }
  }

  /** A printed number is read back as itself exactly if it fits 32 bits, and is refused otherwise. */
  lemma PrintParse(n: int)
    ensures MIN_INT32 <= n <= MAX_INT32 ==> ParseInt32(Itoa(n)) == Some(n)
    ensures !(MIN_INT32 <= n <= MAX_INT32) ==> ParseInt32(Itoa(n)) == None
  {
    if n < 0 {
      DigitsParse(-n);
      assert Itoa(n)[1..] == Digits(-n);
    } else {
      DigitsParse(n);
    }
  }

  // ---- What is printed and what is read ----

  lemma {:induction false} DigitsAreCanonical(n: nat)
    ensures var s := Digits(n);
      && s != [] && (forall c :: c in s ==> '0' <= c <= '9')
      && (s[0] == '0' ==> n == 0 && s == "0")
  {
    if n >= 10 {
      DigitsAreCanonical(n / 10);
    }
  }

  function Abs(n: int): nat {
    if n < 0 then -n else n
  }

  /** A number is printed with digits only and without a leading zero, behind one minus sign if it is
      negative and behind nothing else if it is not. */
  lemma PrintIsCanonical(n: int)
    ensures var s := Itoa(n); var digits := if n < 0 then s[1..] else s;
      && s != [] && (s[0] == '-' <==> n < 0)
      && digits != [] && (forall c :: c in digits ==> '0' <= c <= '9')
      && (digits[0] == '0' ==> n == 0 && s == "0")
  {
    DigitsAreCanonical(Abs(n));
    assert Digits(Abs(n))[0] in Digits(Abs(n));
    if n < 0 {
      assert Itoa(n)[1..] == Digits(-n);
    }
  }

  function Zeros(k: nat): string {
    seq(k, _ => '0')
  }

  /** The digits of `n`, behind any number of zeros. */
  ghost predicate Reads(s: string, n: nat) {
    exists k: nat :: s == Zeros(k) + Digits(n)
  }

  lemma ReadsOneMore(s: string, n: nat, c: char)
    requires IsDigit(c) && Reads(s, n)
    ensures Reads(s + [c], 10 * n + DigitValue(c))
  {
    var k: nat :| s == Zeros(k) + Digits(n);
    if n == 0 {
      assert s + [c] == Zeros(k + 1) + Digits(DigitValue(c));
    } else {
      assert s + [c] == Zeros(k) + Digits(10 * n + DigitValue(c));
    }
  }

  lemma {:induction false} ParsedIsRead(s: string)
    ensures ParseDigits(s).Some? ==> Reads(s, ParseDigits(s).value)
  {
    if ParseDigits(s).Some? {
      var front, c := s[..|s| - 1], s[|s| - 1];
      if |s| == 1 {
        assert s == Zeros(0) + Digits(DigitValue(c));
      } else {
        ParsedIsRead(front);
        ReadsOneMore(front, ParseDigits(front).value, c);
        assert s == front + [c];
      }
    }
  }

  lemma {:induction false} ZerosParse(k: nat, n: nat)
    ensures ParseDigits(Zeros(k) + Digits(n)) == Some(n)
    decreases n, k
  {
    var s := Zeros(k) + Digits(n);
    if n >= 10 {
      ZerosParse(k, n / 10);
      assert s[..|s| - 1] == Zeros(k) + Digits(n / 10);
    } else if k > 0 {
      ZerosParse(k - 1, 0);
      assert s[..|s| - 1] == Zeros(k - 1) + Digits(0);
    }
  }

  /** A string of digits is read as `n` exactly if it is `n` in print, behind any number of zeros. */
  lemma ParseDigitsIff(s: string, n: nat)
    ensures ParseDigits(s) == Some(n) <==> Reads(s, n)
  {
    ParsedIsRead(s);
    if Reads(s, n) {
      var k: nat :| s == Zeros(k) + Digits(n);
      ZerosParse(k, n);
    }
  }

  /** A string is read as `n` exactly if it is the digits of `n`, behind any number of zeros and one sign,
      which only zero may have wrong and only what is not negative may lack. */
  lemma ParseIff(s: string, n: Int32)
    ensures ParseInt32(s) == Some(n) <==>
      || (n >= 0 && Reads(s, n))
      || (n >= 0 && s != [] && s[0] == '+' && Reads(s[1..], n))
      || (n <= 0 && s != [] && s[0] == '-' && Reads(s[1..], Abs(n)))
  {
    ReadsStartsWithDigit(s, Abs(n));
    ParseDigitsIff(s, Abs(n));
    if s != [] {
      ParseDigitsIff(s[1..], Abs(n));
    }
  }

  lemma ReadsStartsWithDigit(s: string, n: nat)
    ensures Reads(s, n) ==> s != [] && IsDigit(s[0])
  {
    DigitsAreCanonical(n);
    if Reads(s, n) {
      var k: nat :| s == Zeros(k) + Digits(n);
      assert Digits(n)[0] in Digits(n);
    }
  }
}
