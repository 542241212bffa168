/** Small shared vocabulary: an optional value, as Python's `None` or a missing key. */
module Common {
  datatype Option<T> = None | Some(value: T) {
    /** `x or default` / `dict.get(k, default)` */
    function GetOr(default: T): T {
      match this
      case Some(v) => v
      case None => default
    }
  }
}

/**
 * How the backend turns numbers into text: `str()` of a non-negative int, `repr()` of a
 * float that holds a whole number of paise, and `", ".join(...)`.
 * Money is kept in integer paise (1 rupee = 100 paise).
 */
module Text {
  import opened Common

  predicate IsDigit(c: char) {
    '0' <= c <= '9'
  }

  predicate AllDigits(s: string) {
    forall i :: 0 <= i < |s| ==> IsDigit(s[i])
  }

  function DigitChar(d: nat): (c: char)
    requires d < 10
    ensures IsDigit(c) && c as int - '0' as int == d
  {
    ('0' as int + d) as char
  }

  function DigitValue(c: char): nat
    requires IsDigit(c)
  {
    c as int - '0' as int
  }

  /** `str(n)`: decimal digits, most significant first, no leading zero. */
  function NatToString(n: nat): (s: string)
    ensures |s| >= 1 && AllDigits(s)
    ensures s[0] == '0' <==> n == 0
  {
    if n < 10 then [DigitChar(n)] else NatToString(n / 10) + [DigitChar(n % 10)]
  }

  /** Reference reading of a digit string, least significant digit last. */
  function DigitsValue(s: string): nat
    requires AllDigits(s)
  {
    if s == [] then 0 else DigitsValue(s[..|s| - 1]) * 10 + DigitValue(s[|s| - 1])
  }

  lemma {:induction false} NatToStringRoundTrip(n: nat)
    ensures DigitsValue(NatToString(n)) == n
  {
    var s := NatToString(n);
    if n >= 10 {
      assert s[..|s| - 1] == NatToString(n / 10);
      NatToStringRoundTrip(n / 10);
    } else {
      assert s[..|s| - 1] == [];
    }
  }

  /** Decimal writing is injective: two amounts never print the same. */
  lemma NatToStringInjective(m: nat, n: nat)
    requires NatToString(m) == NatToString(n)
    ensures m == n
  {
    NatToStringRoundTrip(m);
    NatToStringRoundTrip(n);
  }

  /** The fractional digits `repr()` prints for `cents` hundredths: at least one, no trailing zero. */
  function CentsText(cents: nat): string
    requires cents < 100
  {
    if cents % 10 == 0 then [DigitChar(cents / 10)]
    else [DigitChar(cents / 10), DigitChar(cents % 10)]
  }

  /** `repr(round(x, 2))` for a float x that is exactly `paise` hundredths: "50.0", "12.5", "7.05". */
  function FloatRepr(paise: nat): (r: string)
    ensures |r| == |NatToString(paise / 100)| + (if paise % 10 == 0 then 2 else 3)
    ensures r[|r| - 1] == '0' ==> paise % 100 == 0
  {
    NatToString(paise / 100) + "." + CentsText(paise % 100)
  }

  /** Reads back a rupee amount with one or two decimals, in paise. */
  function ParseRupees(s: string): Option<nat> {
    if |s| >= 3 && s[|s| - 2] == '.' && AllDigits(s[..|s| - 2]) && IsDigit(s[|s| - 1]) then
      Some(DigitsValue(s[..|s| - 2]) * 100 + DigitValue(s[|s| - 1]) * 10)
    else if |s| >= 4 && s[|s| - 3] == '.' && AllDigits(s[..|s| - 3])
            && IsDigit(s[|s| - 2]) && IsDigit(s[|s| - 1]) then
      Some(DigitsValue(s[..|s| - 3]) * 100 + DigitValue(s[|s| - 2]) * 10 + DigitValue(s[|s| - 1]))
    else
      None
  }

  /** A printed basket total reads back as exactly the amount that was printed. */
  lemma {:induction false} FloatReprRoundTrip(paise: nat)
    ensures ParseRupees(FloatRepr(paise)) == Some(paise)
  {
    var whole := NatToString(paise / 100);
    var cents := paise % 100;
    var s := FloatRepr(paise);
    NatToStringRoundTrip(paise / 100);
    if cents % 10 == 0 {
      assert s == whole + ['.', DigitChar(cents / 10)];
      assert s[..|s| - 2] == whole;
    } else {
      assert s == whole + ['.', DigitChar(cents / 10), DigitChar(cents % 10)];
      assert s[..|s| - 3] == whole;
      assert s[|s| - 2] != '.';
    }
  }

  /** `sep.join(parts)` */
  function Join(parts: seq<string>, sep: string): string {
    if |parts| == 0 then ""
    else if |parts| == 1 then parts[0]
    else Join(parts[..|parts| - 1], sep) + sep + parts[|parts| - 1]
  }
}
