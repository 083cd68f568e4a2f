/** Shared by the other modules: an optional value, looking a key up, folding a
    letter's case, and decimal text as the Go `strconv` package writes and reads
    it. */
module Base {
  datatype Option<+T> = None | Some(value: T)

  function Find<K, V>(m: map<K, V>, k: K): (r: Option<V>)
    ensures r == None <==> k !in m
    ensures r.Some? ==> k in m && m[k] == r.value
  {
    if k in m then Some(m[k]) else None
  }

  function Lower(c: char): char {
    if 'A' <= c <= 'Z' then (c as int + 32) as char else c
  }
}

module Decimal {
  import opened Base

  const MIN_INT64: int := -0x8000_0000_0000_0000
  const MAX_INT64: int := 0x7FFF_FFFF_FFFF_FFFF

  predicate IsInt64(n: int) {
    MIN_INT64 <= n <= MAX_INT64
  }

  predicate IsDigit(c: char) {
    '0' <= c <= '9'
  }

  function DigitChar(d: nat): (c: char)
    requires d < 10
    ensures IsDigit(c) && c as int == d + '0' as int
  {
    (d + '0' as int) as char
  }

  function NatText(n: nat): (s: string)
    ensures s != [] && forall i :: 0 <= i < |s| ==> IsDigit(s[i])
  {
    if n < 10 then [DigitChar(n)] else NatText(n / 10) + [DigitChar(n % 10)]
  }

  /** `strconv.FormatInt(n, 10)`, also the `%d` verb. */
  function Itoa(n: int): (s: string)
    ensures s != [] && forall i :: 0 <= i < |s| ==> IsDigit(s[i]) || s[i] == '-'
  {
    if n < 0 then "-" + NatText(-n) else NatText(n)
  }

  predicate AllDigits(s: string) {
    forall i :: 0 <= i < |s| ==> IsDigit(s[i])
  }

  function DigitsValue(s: string): nat
    requires AllDigits(s)
  {
    if s == [] then 0
    else 10 * DigitsValue(s[..|s| - 1]) + (s[|s| - 1] as int - '0' as int)
  }

  /** `strconv.Atoi` / `strconv.ParseInt(s, 10, 64)`: an optional sign, then at
      least one digit, and a value that fits 64 bits. */
  function Atoi(s: string): (r: Option<int>)
    ensures r.Some? ==> IsInt64(r.value)
  {
    var signed := s != [] && (s[0] == '-' || s[0] == '+');
    var digits := if signed then s[1..] else s;
    if digits == [] || !AllDigits(digits) then None
    else
      var v: int := if signed && s[0] == '-' then 0 - DigitsValue(digits) else DigitsValue(digits);
      if IsInt64(v) then Some(v) else None
  }

  lemma {:induction false} NatTextValue(n: nat)
    ensures DigitsValue(NatText(n)) == n
  {
    var s := NatText(n);
    if n >= 10 {
      NatTextValue(n / 10);
      assert s[..|s| - 1] == NatText(n / 10);
    } else {
      assert s[..|s| - 1] == [];
    }
  }

  /** Printing and reading back is the identity on every 64-bit integer. */
  lemma AtoiItoa(n: int)
    requires IsInt64(n)
    ensures Atoi(Itoa(n)) == Some(n)
  {
    if n < 0 {
      NatTextValue(-n);
      assert Itoa(n)[1..] == NatText(-n);
    } else {
      NatTextValue(n);
      assert IsDigit(NatText(n)[0]);
    }
  }

  lemma ItoaInjective(m: int, n: int)
    requires IsInt64(m) && IsInt64(n) && Itoa(m) == Itoa(n)
    ensures m == n
  {
    AtoiItoa(m);
    AtoiItoa(n);
  }

  function Pow10(d: nat): nat {
    if d == 0 then 1 else 10 * Pow10(d - 1)
  }

  lemma {:induction false} NatTextLength(n: nat, d: nat)
    requires d >= 1 && n < Pow10(d)
    ensures |NatText(n)| <= d
  {
    if n >= 10 {
      assert Pow10(1) == 10;
      NatTextLength(n / 10, d - 1);
    }
  }

  /** A 64-bit count prints in at most 19 digits. */
  lemma CountTextLength(n: nat)
    requires IsInt64(n)
    ensures |Itoa(n)| <= 19
  {
    assert Pow10(2) == 100 && Pow10(4) == 10_000 && Pow10(6) == 1_000_000 && Pow10(8) == 100_000_000;
    assert Pow10(10) == 10_000_000_000 && Pow10(12) == 1_000_000_000_000 && Pow10(14) == 100_000_000_000_000;
    assert Pow10(16) == 10_000_000_000_000_000 && Pow10(18) == 1_000_000_000_000_000_000;
    NatTextLength(n, 19);
  }
}
