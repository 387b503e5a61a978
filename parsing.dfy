/**
 * The browser conversions the forms rely on but that are not modelled:
 * `!isNaN(Number(s))` and the instant of `new Date(s)`. Each form takes them
 * as given functions.
 */
module Parsing {

  datatype Parsers = Parsers(isNumeric: string -> bool, instant: string -> int)

  /** date-fns `isAfter(new Date(a), new Date(b))`: strictly later. */
  predicate IsAfter(p: Parsers, a: string, b: string) {
    p.instant(a) > p.instant(b)
  }
}
