/**
  Decimal numbers as the C library reads them (strtoul with base 10, section 7.22.1.4 of ISO C11)
  for a 64-bit unsigned long, and as they are printed.  A char stands for a byte.
*/
module CNumber {
  const ULONG_MAX: nat := 0xFFFF_FFFF_FFFF_FFFF
  const TWO_TO_32: nat := 0x1_0000_0000

  predicate IsDigit(c: char) { '0' <= c <= '9' }

  predicate IsSpace(c: char) { c == ' ' || '\t' <= c <= '\r' }

  function DigitValue(c: char): (d: nat)
    requires IsDigit(c)
    ensures d < 10
  {
    c as int - '0' as int
  }

  function DigitChar(d: nat): (c: char)
    requires d < 10
    ensures IsDigit(c) && DigitValue(c) == d
  {
    ('0' as int + d) as char
  }

  function SkipSpace(s: string): string {
    if s != [] && IsSpace(s[0]) then SkipSpace(s[1..]) else s
  }

  /** The longest prefix of digits. */
  function Digits(s: string): (ds: string)
    ensures ds <= s
    ensures forall i | 0 <= i < |ds| :: IsDigit(ds[i])
    ensures |ds| < |s| ==> !IsDigit(s[|ds|])
  {
    if s != [] && IsDigit(s[0]) then [s[0]] + Digits(s[1..]) else []
  }

  function Value(ds: string): nat
    requires forall i | 0 <= i < |ds| :: IsDigit(ds[i])
  {
    if ds == [] then 0 else Value(ds[..|ds| - 1]) * 10 + DigitValue(ds[|ds| - 1])
  }

  /** The subject of a conversion: sign and digits. */
  datatype Subject = Subject(negative: bool, digits: string)

  function Scan(s: string): (r: Subject)
    ensures forall i | 0 <= i < |r.digits| :: IsDigit(r.digits[i])
  {
    var t := SkipSpace(s);
    if t != [] && (t[0] == '-' || t[0] == '+') then Subject(t[0] == '-', Digits(t[1..]))
    else Subject(false, Digits(t))
  }

  /** strtoul(s, NULL, 10): zero without digits, ULONG_MAX when out of range, and a minus sign
      negates in unsigned long. */
  function Strtoul(s: string): (r: nat)
    ensures r <= ULONG_MAX
  {
    var t := Scan(s);
    var v := Value(t.digits);
    if v > ULONG_MAX then ULONG_MAX
    else if t.negative then (ULONG_MAX + 1 - v) % (ULONG_MAX + 1)
    else v
  }

  /** std::stoul throws unless there are digits and their value is in range. */
  predicate Convertible(s: string) {
    var t := Scan(s);
    t.digits != [] && Value(t.digits) <= ULONG_MAX
  }

  /** An unsigned long stored in a 32-bit unsigned or signed integer. */
  function ToUint32(n: nat): (r: nat) ensures r < TWO_TO_32 { n % TWO_TO_32 }

  function ToInt32(n: nat): (r: int)
    ensures -0x8000_0000 <= r < 0x8000_0000 && (r - n) % TWO_TO_32 == 0
  {
    var m := n % TWO_TO_32;
    if m < 0x8000_0000 then m else m - TWO_TO_32
  }

  /** The decimal digits of n. */
  function Decimal(n: nat): (s: string)
    ensures |s| > 0 && forall i | 0 <= i < |s| :: IsDigit(s[i])
  {
    if n < 10 then [DigitChar(n)] else Decimal(n / 10) + [DigitChar(n % 10)]
  }

  /** std::to_string */
  function ToString(n: int): string {
    if n < 0 then "-" + Decimal(-n) else Decimal(n)
  }

  lemma {:induction false} DecimalValue(n: nat)
    ensures Value(Decimal(n)) == n
  {
    if n < 10 {
    } else {
      DecimalValue(n / 10);
      assert Decimal(n)[..|Decimal(n)| - 1] == Decimal(n / 10);
    }
  }

  lemma {:induction false} AllDigits(s: string)
    requires forall i | 0 <= i < |s| :: IsDigit(s[i])
    ensures Digits(s) == s
  {
    if s == [] {
    } else {
      AllDigits(s[1..]);
    }
  }

  /** Reading undoes printing, for every unsigned long; beyond it strtoul saturates. */
  lemma {:induction false} ReadsWhatWasPrinted(n: nat)
    ensures Strtoul(Decimal(n)) == (if n <= ULONG_MAX then n else ULONG_MAX)
    ensures Convertible(Decimal(n)) <==> n <= ULONG_MAX
  {
    hide Decimal, Value;
    var s := Decimal(n);
    DecimalValue(n);
    AllDigits(s);
    assert IsDigit(s[0]);
    assert Scan(s) == Subject(false, s);
  }

  // ---------------------------------------------------------------- what a conversion accepts

  predicate AllSpace(s: string) { forall c | c in s :: c in {' ', '\t', '\n', '\U{b}', '\U{c}', '\r'} }

  predicate AllZeros(s: string) { forall c | c in s :: c == '0' }

  /** No digit follows. */
  predicate Stops(s: string) { s == [] || s[0] < '0' || '9' < s[0] }

  lemma {:induction false} SpaceIsSkipped(sp: string, t: string)
    requires AllSpace(sp) && (t == [] || !IsSpace(t[0]))
    ensures SkipSpace(sp + t) == t
  {
    if sp == [] {
      assert sp + t == t;
    } else {
      assert sp[0] in sp && forall c | c in sp[1..] :: c in sp;
      assert (sp + t)[1..] == sp[1..] + t;
      SpaceIsSkipped(sp[1..], t);
    }
  }

  lemma {:induction false} DigitsStop(ds: string, rest: string)
    requires (forall i | 0 <= i < |ds| :: IsDigit(ds[i])) && Stops(rest)
    ensures Digits(ds + rest) == ds
  {
    if ds == [] {
      assert ds + rest == rest;
    } else {
      assert (ds + rest)[1..] == ds[1..] + rest;
      DigitsStop(ds[1..], rest);
    }
  }

  lemma {:induction false} LeadingZeros(zeros: string, ds: string)
    requires AllZeros(zeros) && forall i | 0 <= i < |ds| :: IsDigit(ds[i])
    ensures forall i | 0 <= i < |zeros + ds| :: IsDigit((zeros + ds)[i])
    ensures Value(zeros + ds) == Value(ds)
    decreases |zeros| + |ds|
  {
    assert forall i | 0 <= i < |zeros| :: zeros[i] in zeros;
    var all := zeros + ds;
    if ds != [] {
      assert all[..|all| - 1] == zeros + ds[..|ds| - 1];
      LeadingZeros(zeros, ds[..|ds| - 1]);
    } else if zeros != [] {
      assert all[..|all| - 1] == zeros[..|zeros| - 1] + [];
      LeadingZeros(zeros[..|zeros| - 1], []);
      assert all[|all| - 1] == '0';
    }
  }

  lemma {:induction false} Scanned(sp: string, sign: string, ds: string, rest: string)
    requires AllSpace(sp) && sign in {"", "+", "-"} && Stops(rest)
    requires forall i | 0 <= i < |ds| :: IsDigit(ds[i])
    requires ds == [] && sign == "" ==> rest == [] || (!IsSpace(rest[0]) && rest[0] !in {'+', '-'})
    ensures Scan(sp + (sign + (ds + rest))) == Subject(sign == "-", ds)
  {
    var t := sign + (ds + rest);
    DigitsStop(ds, rest);
    if sign == "" {
      assert t == ds + rest;
    } else {
      assert t[0] == sign[0] && t[1..] == ds + rest;
    }
    SpaceIsSkipped(sp, t);
  }

  /** What strtoul makes of white space, an optional sign, a number with any leading zeros, and any
      text that does not go on with a digit. */
  lemma {:induction false} StrtoulReads(sp: string, sign: string, zeros: string, n: nat, rest: string)
    requires AllSpace(sp) && sign in {"", "+", "-"} && AllZeros(zeros) && Stops(rest)
    ensures var s := sp + (sign + (zeros + Decimal(n) + rest));
      && Strtoul(s) == (
           if n > 0xFFFF_FFFF_FFFF_FFFF then 0xFFFF_FFFF_FFFF_FFFF
           else if sign == "-" && n > 0 then 0x1_0000_0000_0000_0000 - n
           else n)
      && (Convertible(s) <==> n <= 0xFFFF_FFFF_FFFF_FFFF)
  {
    hide Decimal, Value;
    LeadingZeros(zeros, Decimal(n));
    DecimalValue(n);
    Scanned(sp, sign, zeros + Decimal(n), rest);
  }

  /** A text in which no number starts reads as 0, and std::stoul refuses it. */
  lemma {:induction false} StrtoulFindsNone(sp: string, sign: string, rest: string)
    requires AllSpace(sp) && sign in {"", "+", "-"} && Stops(rest)
    requires sign == "" ==> rest == [] || (!IsSpace(rest[0]) && rest[0] !in {'+', '-'})
    ensures Strtoul(sp + (sign + rest)) == 0 && !Convertible(sp + (sign + rest))
  {
    Scanned(sp, sign, [], rest);
    assert [] + rest == rest;
  }
}
