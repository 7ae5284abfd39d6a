/** Shared by several modules: an optional value, and decimal digits. */
module Basics {
  datatype Option<+T> = None | Some(value: T)

  predicate Digit(c: char) { '0' <= c <= '9' }

  predicate AllDigits(s: string) { forall i :: 0 <= i < |s| ==> Digit(s[i]) }
}
