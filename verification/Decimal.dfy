/** Whole numbers written out, for the texts the program composes. */
module Decimal {
  function Digits(n: nat): string {
    if n < 10 then ["0123456789"[n]] else Digits(n / 10) + ["0123456789"[n % 10]]
  }
}
