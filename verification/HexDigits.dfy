/** Hexadecimal digits in either letter case. */
module HexDigits {

  const LOWER_DIGITS := "0123456789abcdef"
  const UPPER_DIGITS := "0123456789ABCDEF"

  /** A character that writes a hexadecimal digit. */
  predicate WritesDigit(c: char, d: nat) {
    d < 16 && (c == LOWER_DIGITS[d] || c == UPPER_DIGITS[d])
  }
}
