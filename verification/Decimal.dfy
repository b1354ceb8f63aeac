/** `std::to_string` and `std::stoull` on 64-bit unsigned integers. */
module Decimal {
  import opened Wrappers

  const LIMIT := 0x1_0000_0000_0000_0000

  type uint64 = n: int | 0 <= n < LIMIT

  const DIGITS := "0123456789"

  predicate IsDigit(c: char) { '0' <= c <= '9' }

  predicate IsSpace(c: char) { c == ' ' || '\t' <= c <= '\r' }

  function DigitValue(c: char): nat
    requires IsDigit(c)
  {
    (c - '0') as nat
  }

  function ToString(n: nat): string {
    if n < 10 then [DIGITS[n]] else ToString(n / 10) + [DIGITS[n % 10]]
  }

  function SkipSpace(s: string): string {
    if s != [] && IsSpace(s[0]) then SkipSpace(s[1..]) else s
  }

  /** The longest prefix of digits. */
  function DigitPrefix(s: string): (ds: string)
    ensures forall c | c in ds :: IsDigit(c)
  {
    if s != [] && IsDigit(s[0]) then [s[0]] + DigitPrefix(s[1..]) else []
  }

  function Value(ds: string): nat
    requires forall c | c in ds :: IsDigit(c)
  {
    if ds == [] then 0 else Value(ds[..|ds| - 1]) * 10 + DigitValue(ds[|ds| - 1])
  }

  /** `None` stands for the exceptions: no digits, or a value out of range. A minus sign negates modulo 2^64
      and whatever follows the digits is ignored. */
  function Stoull(s: string): Option<uint64> {
    var t := SkipSpace(s);
    var signed := t != [] && (t[0] == '+' || t[0] == '-');
    var ds := DigitPrefix(if signed then t[1..] else t);
    if ds == [] || Value(ds) >= LIMIT then None
    else if signed && t[0] == '-' then Some((LIMIT - Value(ds)) % LIMIT)
    else Some(Value(ds))
  }

  lemma ValueAppend(ds: string, c: char)
    requires (forall d | d in ds :: IsDigit(d)) && IsDigit(c)
    ensures Value(ds + [c]) == Value(ds) * 10 + DigitValue(c)
  {
    assert (ds + [c])[..|ds + [c]| - 1] == ds;
  }

  lemma OneDigit(k: nat)
    requires k < 10
    ensures IsDigit(DIGITS[k]) && DigitValue(DIGITS[k]) == k && Value([DIGITS[k]]) == k
  {
    assert Value([DIGITS[k]][..0]) == 0;
  }

  lemma {:induction false} PrintedDigits(n: nat)
    ensures ToString(n) != [] && forall c | c in ToString(n) :: IsDigit(c)
    ensures Value(ToString(n)) == n
  {
    OneDigit(n % 10);
    if n >= 10 {
      PrintedDigits(n / 10);
      ValueAppend(ToString(n / 10), DIGITS[n % 10]);
    }
  }

  lemma {:induction false} AllDigits(s: string)
    requires forall c | c in s :: IsDigit(c)
    ensures DigitPrefix(s) == s
  {
    if s != [] {
      AllDigits(s[1..]);
      assert s == [s[0]] + s[1..];
    }
  }

  lemma PrintParse(n: uint64)
    ensures Stoull(ToString(n)) == Some(n)
  {
    PrintedDigits(n);
    var s := ToString(n);
    assert s[0] in s;
    AllDigits(s);
  }

  lemma {:induction false} SpacesAreSkipped(space: string, s: string)
    requires (forall c | c in space :: IsSpace(c)) && s != [] && !IsSpace(s[0])
    ensures SkipSpace(space + s) == s
  {
    if space == [] {
      assert space + s == s;
    } else {
      assert (space + s)[1..] == space[1..] + s;
      SpacesAreSkipped(space[1..], s);
    }
  }

  lemma {:induction false} DigitsStop(ds: string, tail: string)
    requires (forall c | c in ds :: IsDigit(c)) && (tail == [] || !IsDigit(tail[0]))
    ensures DigitPrefix(ds + tail) == ds
  {
    if ds == [] {
      assert ds + tail == tail;
    } else {
      assert (ds + tail)[1..] == ds[1..] + tail;
      DigitsStop(ds[1..], tail);
      assert [ds[0]] + ds[1..] == ds;
    }
  }

  lemma SignedParse(sign: string, n: nat, ds: string, rest: string)
    requires sign in {"", "+", "-"} && rest == sign + ds && (ds == [] || !(ds[0] in {'+', '-'}))
    requires SkipSpace(rest) == rest && DigitPrefix(ds) != [] && Value(DigitPrefix(ds)) == n
    ensures Stoull(rest) ==
              if n >= LIMIT then None
              else if sign == "-" && n > 0 then Some(LIMIT - n)
              else Some(n)
  {
    if sign == "" {
      assert rest == ds;
    } else {
      assert rest[1..] == ds;
    }
  }

  lemma SpacesDoNotMatter(space: string, s: string)
    requires (forall c | c in space :: IsSpace(c)) && s != [] && !IsSpace(s[0])
    ensures SkipSpace(s) == s && Stoull(space + s) == Stoull(s)
  {
    SpacesAreSkipped(space, s);
  }

  /** What a printed number may be wrapped in and still be read: white space and one sign before it, anything
      but a digit after it. A minus sign reads it modulo 2^64; a number out of range is refused. */
  lemma WrappedParse(space: string, sign: string, n: nat, tail: string)
    requires (forall c | c in space :: IsSpace(c)) && sign in {"", "+", "-"}
    requires tail == [] || !IsDigit(tail[0])
    ensures Stoull(space + (sign + (ToString(n) + tail))) ==
              if n >= LIMIT then None
              else if sign == "-" && n > 0 then Some(LIMIT - n)
              else Some(n)
  {
    PrintedDigits(n);
    var ds := ToString(n);
    assert ds[0] in ds;
    DigitsStop(ds, tail);
    assert (ds + tail)[0] == ds[0];
    SpacesDoNotMatter(space, sign + (ds + tail));
    SignedParse(sign, n, ds + tail, sign + (ds + tail));
  }

  /** Without a digit where the number should begin there is nothing to read. */
  lemma NoDigitsNoNumber(space: string, sign: string, tail: string)
    requires (forall c | c in space :: IsSpace(c)) && sign in {"+", "-"}
    requires tail == [] || !IsDigit(tail[0])
    ensures Stoull(space + (sign + tail)).None?
  {
    SpacesAreSkipped(space, sign + tail);
    assert (sign + tail)[1..] == tail;
  }
}
