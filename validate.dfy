/**
 * The input guards of the chat handlers: `str.isdigit` and `int(...)` for the salary
 * percent and the misha balance, and the range check of the salary percent
 * (`handle_create_report_salary_percent` in `src/handlers/users/messages.py`).
 * Python's `float(...)` behind `is_float` is not modelled; the handlers that use it
 * take the parser as a parameter.
 */
module Validate {
  import opened Wrappers
  import opened Settings

  predicate IsDigitChar(c: char) {
    '0' <= c <= '9'
  }

  /** `s.isdigit()`: at least one character, and every character a digit. */
  predicate IsDigits(s: string) {
    |s| > 0 && forall i | 0 <= i < |s| :: IsDigitChar(s[i])
  }

  function DigitValue(c: char): nat
    requires IsDigitChar(c)
  {
    (c as int - '0' as int) as nat
  }

  function DigitChar(d: nat): (c: char)
    requires d < 10
    ensures IsDigitChar(c) && DigitValue(c) == d
  {
    ('0' as int + d) as char
  }

  /** `int(s)` for a string of digits, read most significant digit first. */
  function DigitsValue(s: string): nat
    requires forall i | 0 <= i < |s| :: IsDigitChar(s[i])
  {
    if s == [] then 0 else DigitsValue(s[..|s| - 1]) * 10 + DigitValue(s[|s| - 1])
  }

  /** `str(n)`: the decimal digits of `n`, without leading zeros. */
  function Decimal(n: nat): (s: string)
    ensures IsDigits(s)
    ensures n > 0 ==> s[0] != '0'
  {
    if n < 10 then [DigitChar(n)] else Decimal(n / 10) + [DigitChar(n % 10)]
  }

  /** `int(str(n)) == n`: every number is read back from its decimal text. */
  lemma {:induction false} DecimalRoundTrip(n: nat)
    ensures DigitsValue(Decimal(n)) == n
  {
    if n >= 10 {
      var s := Decimal(n);
      assert s[..|s| - 1] == Decimal(n / 10);
      DecimalRoundTrip(n / 10);
    }
  }

  /** Leading zeros do not change the value `int` reads. */
  lemma {:induction false} LeadingZeroIgnored(s: string)
    requires forall i | 0 <= i < |s| :: IsDigitChar(s[i])
    ensures forall i | 0 <= i < |"0" + s| :: IsDigitChar(("0" + s)[i])
    ensures DigitsValue("0" + s) == DigitsValue(s)
  {
    if s != [] {
      var t := "0" + s;
      assert t[..|t| - 1] == "0" + s[..|s| - 1];
      LeadingZeroIgnored(s[..|s| - 1]);
    }
  }

  datatype PercentError = NotAnInteger | OutOfRange

  /**
   * The salary-percent guard: text that is not all digits is refused first, then a
   * number outside `[MIN_SALARY_PERCENT, MAX_SALARY_PERCENT]`; an accepted number is
   * kept as `int(text)`.
   */
  function CheckSalaryPercent(cfg: Config, text: string): (r: Result<int, PercentError>)
    ensures r == Failure(NotAnInteger) <==> !IsDigits(text)
    ensures r.Success? <==>
      IsDigits(text) && cfg.minSalaryPercent <= DigitsValue(text) <= cfg.maxSalaryPercent
    ensures r.Success? ==> r.value == DigitsValue(text) && r.value >= 0
  {
    if !IsDigits(text) then Failure(NotAnInteger)
    else
      var p := DigitsValue(text);
      if cfg.minSalaryPercent <= p <= cfg.maxSalaryPercent then Success(p) else Failure(OutOfRange)
  }

  /** Every number of the allowed range, written in decimal, is accepted as itself. */
  lemma PercentAcceptsEveryInRangeNumber(cfg: Config, n: nat)
    requires cfg.minSalaryPercent <= n <= cfg.maxSalaryPercent
    ensures CheckSalaryPercent(cfg, Decimal(n)) == Success(n)
  {
    DecimalRoundTrip(n);
  }

  /** A leading zero never changes the guard's answer: "050" is read as 50. */
  lemma PercentIgnoresLeadingZero(cfg: Config, text: string)
    requires IsDigits(text)
    ensures CheckSalaryPercent(cfg, "0" + text) == CheckSalaryPercent(cfg, text)
  {
    LeadingZeroIgnored(text);
  }
}
