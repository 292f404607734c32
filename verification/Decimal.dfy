/** Decimal printing of the numbers that appear in `E1`, `E2`, … and in `[1]`, `[2]`, … */
module Decimal {

  predicate IsDigit(c: char) {
    '0' <= c <= '9'
  }

  predicate AllDigits(s: string) {
    forall i :: 0 <= i < |s| ==> IsDigit(s[i])
  }

  function DigitValue(c: char): (d: nat)
    requires IsDigit(c)
    ensures d < 10 && "0123456789"[d] == c
  {
    c as int - '0' as int
  }

  function Digit(d: nat): (c: char)
    requires d < 10
    ensures c == "0123456789"[d]
  {
    (d + '0' as int) as char
  }

  function Print(n: nat): string {
    if n < 10 then [Digit(n)] else Print(n / 10) + [Digit(n % 10)]
  }

  function Parse(s: string): nat
    requires AllDigits(s)
  {
    if s == "" then 0
    else 10 * Parse(s[..|s| - 1]) + DigitValue(s[|s| - 1])
  }

  /** `int(str(n)) == n`. */
  lemma {:induction false} ParsePrint(n: nat)
    ensures |Print(n)| > 0 && AllDigits(Print(n)) && Parse(Print(n)) == n
  {
    if n >= 10 {
      ParsePrint(n / 10);
      assert Print(n)[..|Print(n)| - 1] == Print(n / 10);
    } else {
      assert Print(n)[..0] == "";
    }
  }

  lemma LastDigit(q: nat, d: nat)
    requires d < 10
    ensures (10 * q + d) / 10 == q && (10 * q + d) % 10 == d
  {
  }

  lemma DigitBack(c: char)
    requires IsDigit(c)
    ensures Digit(DigitValue(c)) == c
  {
  }

  lemma {:induction false} PrintParse(s: string)
    requires s != "" && AllDigits(s) && s[0] != '0'
    ensures Parse(s) > 0 && Print(Parse(s)) == s
  {
    var front, last := s[..|s| - 1], s[|s| - 1];
    assert s == front + [last];
    LastDigit(Parse(front), DigitValue(last));
    DigitBack(last);
    if front == "" {
      assert Parse(front) == 0;
    } else {
      PrintParse(front);
    }
  }

  lemma {:induction false} PrintedWithoutZero(n: nat)
    ensures Print(n) != "" && (Print(n)[0] == '0' ==> n == 0 && Print(n) == "0")
  {
    if n >= 10 { PrintedWithoutZero(n / 10); }
  }

  lemma ZeroPrinted(s: string)
    requires |s| == 1 && s[0] == '0'
    ensures AllDigits(s) && Print(Parse(s)) == s
  {
    assert s == "0" && s[..0] == "";
    assert Parse(s) == 0;
  }

  /** A text of digits is how a number is printed exactly when it has no leading zero. */
  lemma PrintedExactlyWhen(s: string)
    requires s != "" && AllDigits(s)
    ensures Print(Parse(s)) == s <==> (s[0] == '0' ==> |s| == 1)
  {
    if s[0] != '0' {
      PrintParse(s);
    } else if |s| == 1 {
      ZeroPrinted(s);
    } else {
      PrintedWithoutZero(Parse(s));
    }
  }
}
