/** The JavaScript value shapes the tools handle explicitly: properties that are
    `undefined`, `null` or hold a value, the `??` operator, `String.startsWith`,
    and JSON numbers as the zod input schemas check them. */
module Js {
  import opened Wrappers

  /** A property read from a parsed JSON object: absent, explicitly null, or present. */
  datatype Maybe<+T> = Undefined | Null | Defined(value: T)

  /** `m ?? d`: the value when present; the default for both `undefined` and `null`. */
  function Coalesce<T>(m: Maybe<T>, d: T): T {
    if m.Defined? then m.value else d
  }

  /** `m ?? null`, with `None` standing for `null`. */
  function OrNull<T>(m: Maybe<T>): Option<T> {
    if m.Defined? then Some(m.value) else None
  }

  /** `s.startsWith(prefix)` */
  predicate StartsWith(s: string, prefix: string) {
    |prefix| <= |s| && s[..|prefix|] == prefix
  }

  /** A JSON number accepted by `z.number().int()`. */
  predicate IsInteger(x: real) {
    x.Floor as real == x
  }

  /** An optional field `z.number().int().min(lo).max(hi).optional()`. */
  predicate OptionalIntIn(x: Option<real>, lo: int, hi: int) {
    x.None? || (IsInteger(x.value) && lo as real <= x.value <= hi as real)
  }

  /** An optional field `z.number().int().min(lo).optional()`. */
  predicate OptionalIntAtLeast(x: Option<real>, lo: int) {
    x.None? || (IsInteger(x.value) && lo as real <= x.value)
  }

  /** The integer `execute` works with after its destructuring default `= d`. */
  function IntOr(x: Option<real>, d: int): int {
    if x.Some? then x.value.Floor else d
  }
}
