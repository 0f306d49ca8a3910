/** Bytes of text files. */
module Bytes {
  type byte = x: int | 0 <= x < 256

  /** ASCII whitespace: tab, newline, form feed, carriage return, space. */
  predicate Space(b: byte) {
    b == 9 || b == 10 || b == 12 || b == 13 || b == 32
  }
}
