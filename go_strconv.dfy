/**
  The parts of Go's `strconv` package that the agent configuration uses:
  `ParseInt` in base 10 with a bit size, `ParseBool`, and their inverses
  `FormatInt` and `FormatBool`.
*/
module GoStrconv {
  import opened Wrappers

  predicate IsDigit(c: char)
  {
    '0' <= c <= '9'
  }

  /** A non-empty run of ASCII decimal digits. */
  predicate IsDecimal(ds: string)
  {
    ds != [] && forall i :: 0 <= i < |ds| ==> IsDigit(ds[i])
  }

  function DigitValue(c: char): (d: nat)
    requires IsDigit(c)
    ensures d < 10
  {
    c as int - '0' as int
  }

  function DigitChar(d: nat): (c: char)
    requires d < 10
    ensures IsDigit(c) && DigitValue(c) == d
  {
    ('0' as int + d) as char
  }

  /** The value of a digit string read most significant digit first. */
  function DecimalValue(ds: string): nat
    requires forall i :: 0 <= i < |ds| ==> IsDigit(ds[i])
  {
    if ds == [] then 0
    else 10 * DecimalValue(ds[..|ds| - 1]) + DigitValue(ds[|ds| - 1])
  }

  /** The bit sizes the model of `ParseInt` accepts: 8, 16, 32 or 64, the widths of `int8` to `int64`. */
  predicate IsBitSize(bitSize: nat)
  {
    bitSize == 8 || bitSize == 16 || bitSize == 32 || bitSize == 64
  }

  /** One past the largest value of a signed `bitSize`-bit integer, 2 to the power `bitSize - 1`. */
  function MaxIntExcl(bitSize: nat): (m: int)
    requires IsBitSize(bitSize)
    ensures m >= 0x80
  {
    if bitSize == 8 then 0x80
    else if bitSize == 16 then 0x8000
    else if bitSize == 32 then 0x8000_0000
    else 0x8000_0000_0000_0000
  }

  /** The smallest value of a signed `bitSize`-bit integer. */
  function MinInt(bitSize: nat): int
    requires IsBitSize(bitSize)
  {
    0 - MaxIntExcl(bitSize)
  }

  /**
    `strconv.ParseInt(s, 10, bitSize)`: an optional `+` or `-` sign followed
    by at least one decimal digit (base 10 admits no underscores), whose value
    fits a signed `bitSize`-bit integer. Anything else is an error (`None`):
    the empty string, a lone sign, any other character, or a value out of
    range.
  */
  function ParseInt(s: string, bitSize: nat): (r: Option<int>)
    requires IsBitSize(bitSize)
    ensures r.Some? ==> MinInt(bitSize) <= r.value < MaxIntExcl(bitSize)
    ensures r.Some? ==> s != ""
  {
    if s == "" then None
    else
      var negative := s[0] == '-';
      var digits := if s[0] == '+' || s[0] == '-' then s[1..] else s;
      if !IsDecimal(digits) then None
      else
        var v: int := if negative then 0 - DecimalValue(digits) else DecimalValue(digits);
        if MinInt(bitSize) <= v < MaxIntExcl(bitSize) then Some(v) else None
  }

  /** `strconv.FormatUint(n, 10)`: the shortest decimal spelling of `n`. */
  function FormatNat(n: nat): (ds: string)
    ensures IsDecimal(ds)
  {
    if n < 10 then [DigitChar(n)] else FormatNat(n / 10) + [DigitChar(n % 10)]
  }

  /** `strconv.FormatInt(n, 10)`. */
  function FormatInt(n: int): (s: string)
    ensures s != ""
  {
    if n < 0 then "-" + FormatNat(-n) else FormatNat(n)
  }

  /** Reading back the decimal spelling of `n` gives `n`. */
  lemma {:induction false} DecimalValueFormatNat(n: nat)
    ensures DecimalValue(FormatNat(n)) == n
  {
    if n >= 10 {
      DecimalValueFormatNat(n / 10);
      var ds := FormatNat(n);
      assert ds[..|ds| - 1] == FormatNat(n / 10);
    }
  }

  /**
    `ParseInt` inverts `FormatInt` on every value that fits the bit size, and
    rejects the spelling of every value that does not.
  */
  lemma ParseFormatInt(n: int, bitSize: nat)
    requires IsBitSize(bitSize)
    ensures ParseInt(FormatInt(n), bitSize) == if MinInt(bitSize) <= n < MaxIntExcl(bitSize) then Some(n) else None
  {
    var s := FormatInt(n);
    if n < 0 {
      DecimalValueFormatNat(-n);
      assert s[1..] == FormatNat(-n);
    } else {
      DecimalValueFormatNat(n);
    }
  }

  /** A decimal spelling holds digits and at most a leading minus sign. */
  lemma FormatIntChars(n: int)
    ensures forall i :: 0 <= i < |FormatInt(n)| ==> IsDigit(FormatInt(n)[i]) || (i == 0 && FormatInt(n)[i] == '-')
  {
    if n < 0 {
      assert FormatInt(n)[1..] == FormatNat(-n);
    }
  }

  /**
    `strconv.ParseBool`: the six spellings of true and the six of false Go
    accepts; every other string, the empty one included, is an error.
  */
  function ParseBool(s: string): (r: Option<bool>)
  {
    if s in {"1", "t", "T", "TRUE", "true", "True"} then Some(true)
    else if s in {"0", "f", "F", "FALSE", "false", "False"} then Some(false)
    else None
  }

  /** `strconv.FormatBool`. */
  function FormatBool(b: bool): string
  {
    if b then "true" else "false"
  }

  /** `ParseBool` inverts `FormatBool`, and rejects the empty string. */
  lemma ParseFormatBool(b: bool)
    ensures ParseBool(FormatBool(b)) == Some(b)
    ensures ParseBool("") == None
  {
  }
}
