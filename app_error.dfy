/**
 * utils/AppError.js: an operational error carrying an HTTP status code. Its `status`
 * is "fail" when the decimal text of the code starts with '4', and "error" otherwise.
 */
module AppErrors {
  import opened Text

  datatype AppError = AppError(message: string, statusCode: int, status: string, isOperational: bool)

  function DigitChar(d: nat): char
    requires d < 10
  {
    ['0', '1', '2', '3', '4', '5', '6', '7', '8', '9'][d]
  }

  /** Decimal text of a natural number, as JavaScript writes it. */
  function NatText(n: nat): (s: string)
    ensures |s| >= 1
  {
    if n < 10 then [DigitChar(n)] else NatText(n / 10) + [DigitChar(n % 10)]
  }

  /** `${n}` for an integer: a minus sign before the digits of a negative number. */
  function DecimalText(n: int): (s: string)
    ensures |s| >= 1
  {
    if n < 0 then "-" + NatText(-n) else NatText(n)
  }

  /** The most significant decimal digit. */
  function FirstDigit(n: nat): (d: nat)
    ensures d < 10
  {
    if n < 10 then n else FirstDigit(n / 10)
  }

  /** Number of decimal digits. */
  function Digits(n: nat): (k: nat)
    ensures k >= 1
  {
    if n < 10 then 1 else 1 + Digits(n / 10)
  }

  function Pow10(k: nat): (p: nat)
    ensures p >= 1
  {
    if k == 0 then 1 else 10 * Pow10(k - 1)
  }

  /** The first character of the decimal text is the leading digit. */
  lemma {:induction false} NatTextHead(n: nat)
    ensures NatText(n)[0] == DigitChar(FirstDigit(n))
  {
    if n >= 10 {
      NatTextHead(n / 10);
    }
  }

  /** The leading digit d of n places n in [d * 10^(k-1), (d+1) * 10^(k-1)) for k digits. */
  lemma {:induction false} FirstDigitBounds(n: nat)
    ensures FirstDigit(n) * Pow10(Digits(n) - 1) <= n < (FirstDigit(n) + 1) * Pow10(Digits(n) - 1)
  {
    if n >= 10 {
      var m := n / 10;
      FirstDigitBounds(m);
      var d, p := FirstDigit(m), Pow10(Digits(m) - 1);
      assert FirstDigit(n) == d && Pow10(Digits(n) - 1) == 10 * p;
      ScaleByTen(d, p);
      ScaleByTen(d + 1, p);
      TenfoldBounds(d * p, m, (d + 1) * p, n);
    }
  }

  /** Arithmetic step of `FirstDigitBounds`, kept apart to keep its proof small. */
  lemma ScaleByTen(d: nat, p: nat)
    ensures d * (10 * p) == 10 * (d * p)
  {
  }

  /** Arithmetic step of `FirstDigitBounds`: dropping the last digit keeps the bracket. */
  lemma TenfoldBounds(lo: nat, m: nat, hi: nat, n: nat)
    requires lo <= m < hi && m == n / 10
    ensures 10 * lo <= n < 10 * hi
  {
  }

  /** `new AppError(message, statusCode)`. */
  function NewAppError(message: string, statusCode: int): (e: AppError)
    ensures e.message == message && e.statusCode == statusCode
    ensures e.isOperational
    ensures e.status == "fail" || e.status == "error"
    ensures e.status == "fail" <==> statusCode >= 0 && FirstDigit(statusCode) == 4
  {
    var text := DecimalText(statusCode);
    NatTextHead(if statusCode >= 0 then statusCode else 0);
    AppError(message, statusCode, if StartsWith(text, "4") then "fail" else "error", true)
  }

  /**
   * A non-negative code is "fail" exactly when it lies in [4 * 10^(k-1), 5 * 10^(k-1))
   * for its number of digits k; so 4, 40 and 4000 are "fail" as well as 400..499.
   */
  lemma FailIffFourLeading(message: string, statusCode: nat)
    ensures var p := Pow10(Digits(statusCode) - 1);
      NewAppError(message, statusCode).status == "fail" <==> 4 * p <= statusCode < 5 * p
  {
    FirstDigitBounds(statusCode);
    var d, p := FirstDigit(statusCode), Pow10(Digits(statusCode) - 1);
    if d >= 5 {
      MulMonotonic(5, d, p);
    } else if d <= 3 {
      MulMonotonic(d + 1, 4, p);
    }
  }

  /** Arithmetic step of `FailIffFourLeading`. */
  lemma MulMonotonic(a: nat, b: nat, p: nat)
    requires a <= b
    ensures a * p <= b * p
  {
  }

  /** Every client-error code 400..499 is "fail". */
  lemma ClientErrorsFail(message: string, statusCode: int)
    requires 400 <= statusCode <= 499
    ensures NewAppError(message, statusCode).status == "fail"
  {
    assert FirstDigit(statusCode) == FirstDigit(statusCode / 10) == FirstDigit(statusCode / 10 / 10);
  }

  /** Every server-error code 500..599 is "error". */
  lemma ServerErrorsAreErrors(message: string, statusCode: int)
    requires 500 <= statusCode <= 599
    ensures NewAppError(message, statusCode).status == "error"
  {
    assert FirstDigit(statusCode) == FirstDigit(statusCode / 10) == FirstDigit(statusCode / 10 / 10);
  }

  /** Negative codes start with '-', so they are "error". */
  lemma NegativeCodesAreErrors(message: string, statusCode: int)
    requires statusCode < 0
    ensures NewAppError(message, statusCode).status == "error"
  {
  }
}
