/** Decimal printing as by "%d" and reading as by atoi. */
module Decimal {
  predicate IsDigit(c: char) {
    '0' <= c <= '9'
  }

  predicate IsSpace(c: char) {
    c == ' ' || '\t' <= c <= '\r'
  }

  function DigitChar(d: nat): char
    requires d < 10
  {
    '0' + d as char
  }

  function Digits(n: nat): (s: string)
    ensures s != []
    ensures forall i :: 0 <= i < |s| ==> IsDigit(s[i])
  {
    if n < 10 then [DigitChar(n)] else Digits(n / 10) + [DigitChar(n % 10)]
  }

  function Print(n: int): string {
    if n < 0 then "-" + Digits(-n) else Digits(n)
  }

  function SkipSpace(s: string): string {
    if s != [] && IsSpace(s[0]) then SkipSpace(s[1..]) else s
  }

  /** Value of the leading digits of `s`, read after `acc`. */
  function ReadDigits(s: string, acc: nat): nat {
    if s == [] || !IsDigit(s[0]) then acc
    else ReadDigits(s[1..], 10 * acc + (s[0] - '0') as nat)
  }

  function Atoi(s: string): int {
    var t := SkipSpace(s);
    if t == [] then 0
    else if t[0] == '-' then 0 - ReadDigits(t[1..], 0)
    else if t[0] == '+' then ReadDigits(t[1..], 0)
    else ReadDigits(t, 0)
  }

  /** strtol in base 10 finds a number. */
  predicate StartsWithNumber(s: string) {
    var t := SkipSpace(s);
    t != [] && (IsDigit(t[0]) || ((t[0] == '-' || t[0] == '+') && |t| > 1 && IsDigit(t[1])))
  }

  lemma {:induction false} ReadAppend(u: string, v: string, acc: nat)
    requires forall i :: 0 <= i < |u| ==> IsDigit(u[i])
    ensures ReadDigits(u + v, acc) == ReadDigits(v, ReadDigits(u, acc))
  {
    if u == [] {
      assert u + v == v;
    } else {
      assert (u + v)[1..] == u[1..] + v;
      ReadAppend(u[1..], v, 10 * acc + (u[0] - '0') as nat);
    }
  }

  lemma {:induction false} ReadDigitsOf(n: nat)
    ensures ReadDigits(Digits(n), 0) == n
  {
    if n < 10 {
      assert Digits(n)[1..] == [];
    } else {
      ReadDigitsOf(n / 10);
      ReadAppend(Digits(n / 10), [DigitChar(n % 10)], 0);
      assert [DigitChar(n % 10)][1..] == [];
    }
  }

  /** Reading a printed number gives it back, whatever non-digit text follows. */
  lemma {:induction false} AtoiPrint(n: int, rest: string)
    requires rest == [] || !IsDigit(rest[0])
    ensures Atoi(Print(n) + rest) == n
  {
    var d := Digits(if n < 0 then -n else n);
    ReadDigitsOf(if n < 0 then -n else n);
    ReadAppend(d, rest, 0);
    var t := Print(n) + rest;
    assert SkipSpace(t) == t;
    if n < 0 {
      assert t[1..] == d + rest;
    }
  }
}
