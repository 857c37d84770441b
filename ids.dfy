/**
 * The identifier guards of the game controller: PHP's `ctype_digit` on a
 * caller id (the `X-User-Id` header) or a path segment, PHP's `empty` on the
 * header, and the integer key a digit string selects in the store.
 */
module Ids {
  import opened Wrappers

  predicate IsDigit(c: char) {
    '0' <= c <= '9'
  }

  /** `ctype_digit` on a string: non-empty and made of ASCII digits only. */
  predicate CtypeDigit(s: string) {
    |s| > 0 && forall i :: 0 <= i < |s| ==> IsDigit(s[i])
  }

  function DigitValue(c: char): (d: nat)
    requires IsDigit(c)
  {
    c as nat - '0' as nat
  }

  function DigitChar(d: nat): (c: char)
    requires d < 10
  {
    ('0' as nat + d) as char
  }

  /** The decimal value of a string of digits (leading zeros do not matter). */
  function DigitsValue(s: string): (n: nat)
    requires forall i :: 0 <= i < |s| ==> IsDigit(s[i])
  {
    if |s| == 0 then 0 else DigitsValue(s[..|s| - 1]) * 10 + DigitValue(s[|s| - 1])
  }

  /** The canonical decimal spelling of an id, the inverse of `DigitsValue`. */
  function Decimal(n: nat): (s: string)
  {
    if n < 10 then [DigitChar(n)] else Decimal(n / 10) + [DigitChar(n % 10)]
  }

  /**
   * The key a path segment addresses: `None` exactly when `ctype_digit`
   * rejects the segment.
   */
  function PathId(s: string): (r: Option<nat>)
    ensures r.Some? <==> CtypeDigit(s)
    ensures r.Some? ==> s != [] && r.value == DigitsValue(s)
  {
    if CtypeDigit(s) then Some(DigitsValue(s)) else None
  }

  /**
   * The user id an optional header names. PHP's `ctype_digit(null)` is
   * false, so an absent header names no id, just like a non-numeric one.
   */
  function HeaderId(h: Option<string>): (r: Option<nat>)
    ensures r.Some? <==> h.Some? && CtypeDigit(h.value)
    ensures r.Some? ==> r == PathId(h.value)
  {
    match h
    case None => None
    case Some(s) => PathId(s)
  }

  /** PHP's `empty` on an optional string: null, "" and "0" are empty. */
  predicate PhpEmpty(h: Option<string>) {
    h.None? || h.value == "" || h.value == "0"
  }

  /**
   * `empty` is stricter than `ctype_digit` by exactly one header: "0" is a
   * digit string and names user 0, yet `empty` rejects it.
   */
  lemma EmptyRejectsOnlyZeroAmongIds(h: Option<string>)
    ensures HeaderId(h).Some? && PhpEmpty(h) <==> h == Some("0")
  {
  }

  lemma {:induction false} DecimalIsDigits(n: nat)
    ensures CtypeDigit(Decimal(n))
  {
    if n >= 10 {
      DecimalIsDigits(n / 10);
    }
  }

  /** Every id has a spelling that the guards accept and that selects it. */
  lemma {:induction false} DecimalRoundTrip(n: nat)
    ensures PathId(Decimal(n)) == Some(n)
    ensures HeaderId(Some(Decimal(n))) == Some(n)
  {
    DecimalIsDigits(n);
    var s := Decimal(n);
    if n < 10 {
      assert s == [DigitChar(n)] && s[..0] == [];
      assert DigitsValue(s) == DigitsValue([]) * 10 + DigitValue(DigitChar(n));
    } else {
      DecimalRoundTrip(n / 10);
      assert s[..|s| - 1] == Decimal(n / 10);
      assert DigitValue(s[|s| - 1]) == n % 10;
    }
  }

  /** `z` zero digits. */
  function Zeros(z: nat): (s: string)
  {
    seq(z, _ => '0')
  }

  /** Leading zeros do not change the value of a digit string. */
  lemma {:induction false} ZerosIgnored(z: nat, t: string)
    requires forall i :: 0 <= i < |t| ==> IsDigit(t[i])
    ensures forall i :: 0 <= i < |Zeros(z) + t| ==> IsDigit((Zeros(z) + t)[i])
    ensures DigitsValue(Zeros(z) + t) == DigitsValue(t)
  {
    var s := Zeros(z) + t;
    if t == [] {
      assert s == Zeros(z);
      if z > 0 {
        assert s[..|s| - 1] == Zeros(z - 1);
        ZerosIgnored(z - 1, []);
        assert Zeros(z - 1) + [] == Zeros(z - 1);
      }
    } else {
      var u := t[..|t| - 1];
      ZerosIgnored(z, u);
      assert s[..|s| - 1] == Zeros(z) + u;
    }
  }

  /** A digit string without a leading zero has a positive value. */
  lemma {:induction false} LeadingDigitPositive(t: string)
    requires CtypeDigit(t) && t[0] != '0'
    ensures DigitsValue(t) > 0
  {
    if |t| > 1 {
      LeadingDigitPositive(t[..|t| - 1]);
    }
  }

  /** A digit string without a leading zero is the canonical spelling of its value. */
  lemma {:induction false} CanonicalSpelling(t: string)
    requires CtypeDigit(t) && (t[0] != '0' || |t| == 1)
    ensures Decimal(DigitsValue(t)) == t
  {
    if |t| == 1 {
      assert t[..0] == [];
      assert DigitsValue(t) == DigitValue(t[0]);
    } else {
      var u := t[..|t| - 1];
      CanonicalSpelling(u);
      LeadingDigitPositive(u);
      var n := DigitsValue(t);
      assert n / 10 == DigitsValue(u) && n % 10 == DigitValue(t[|t| - 1]);
      assert t == u + [t[|t| - 1]];
    }
  }

  /** Every digit string is some zeros followed by the canonical spelling of its value. */
  lemma {:induction false} DigitsAreZerosThenDecimal(s: string)
    requires CtypeDigit(s)
    ensures exists z :: s == Zeros(z) + Decimal(DigitsValue(s))
  {
    if s[0] != '0' || |s| == 1 {
      CanonicalSpelling(s);
      assert s == Zeros(0) + Decimal(DigitsValue(s));
    } else {
      var t := s[1..];
      assert s == Zeros(1) + t;
      ZerosIgnored(1, t);
      DigitsAreZerosThenDecimal(t);
      var z: nat :| t == Zeros(z) + Decimal(DigitsValue(t));
      assert Zeros(1) + Zeros(z) == Zeros(z + 1);
      assert s == Zeros(z + 1) + Decimal(DigitsValue(s));
    }
  }

  /**
   * The path segments that select id `n` are exactly the decimal spelling
   * of `n` preceded by any number of zeros ("7", "07", "007", ...).
   */
  lemma PathIdSpellings(s: string, n: nat)
    ensures PathId(s) == Some(n) <==> exists z :: s == Zeros(z) + Decimal(n)
  {
    if PathId(s) == Some(n) {
      DigitsAreZerosThenDecimal(s);
    }
    if exists z :: s == Zeros(z) + Decimal(n) {
      var z: nat :| s == Zeros(z) + Decimal(n);
      DecimalIsDigits(n);
      DecimalRoundTrip(n);
      ZerosIgnored(z, Decimal(n));
    }
  }

  /**
   * The headers that name user `n` are exactly the present ones that spell
   * `n` in decimal, possibly after leading zeros; an absent header names none.
   */
  lemma HeaderIdSpellings(h: Option<string>, n: nat)
    ensures HeaderId(h) == Some(n) <==> h.Some? && exists z :: h.value == Zeros(z) + Decimal(n)
  {
    if h.Some? {
      PathIdSpellings(h.value, n);
    }
  }
}
