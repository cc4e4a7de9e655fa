/** The parts of the `validator` package the core calls. `isEmail` and
    `isMobilePhone(_, "en-IN")` are not modelled: they are supplied as an
    `Oracle`, and every statement holds for every choice of them. */
module Validator {
  import opened Wrappers

  datatype Oracle = Oracle(isEmail: string -> bool, isMobilePhone: string -> bool)

  /** The characters `String.prototype.trim` removes: the ECMAScript
      WhiteSpace and LineTerminator code points. */
  predicate IsWhitespace(c: char) {
    var n := c as int;
    n == 0x09 || n == 0x0A || n == 0x0B || n == 0x0C || n == 0x0D || n == 0x20 ||
    n == 0xA0 || n == 0x1680 || (0x2000 <= n <= 0x200A) || n == 0x2028 ||
    n == 0x2029 || n == 0x202F || n == 0x205F || n == 0x3000 || n == 0xFEFF
  }

  /** `isEmpty(s, { ignore_whitespace: true })`, which is `s.trim().length === 0`;
      also `isEmpty(s.trim())`, which the schemas use. */
  predicate IsEmptyIgnoringWhitespace(s: string) {
    forall i :: 0 <= i < |s| ==> IsWhitespace(s[i])
  }

  /** `isEmpty(s)` without options. */
  predicate IsEmpty(s: string) {
    |s| == 0
  }

  /** `isLength(s, { min })`; a `char` here is a whole code point, which is
      what `isLength` counts. */
  predicate IsLengthAtLeast(s: string, min: nat) {
    |s| >= min
  }

  /** JavaScript truthiness of a request field: set and not the empty string. */
  predicate Truthy(o: Option<string>) {
    o.Some? && o.value != ""
  }
}
