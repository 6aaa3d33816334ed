/** Types shared by every component: optional values, results and ECMAScript numbers. */
module Prelude {

  datatype Option<+T> = None | Some(value: T)

  datatype Result<+T, +E> = Ok(value: T) | Err(error: E)

  /** An ECMAScript number, with exact rationals in place of IEEE doubles. */
  datatype Num = Finite(v: real) | PosInf | NegInf | NaN {

    /** `Number.isInteger`. */
    predicate IsInteger() {
      Finite? && v == v.Floor as real
    }

    /** The operator `<`; every comparison with NaN is false. */
    predicate Less(other: Num) {
      match (this, other)
      case (Finite(a), Finite(b)) => a < b
      case (Finite(_), PosInf) => true
      case (NegInf, Finite(_)) => true
      case (NegInf, PosInf) => true
      case _ => false
    }
  }

  function Int(n: int): Num {
    Finite(n as real)
  }

  /** What `\s` matches and `String.prototype.trim` removes. */
  predicate IsWhitespace(c: char) {
    || c in ['\t', '\n', '\U{B}', '\U{C}', '\r', ' ', '\U{A0}', '\U{1680}',
             '\U{2028}', '\U{2029}', '\U{202F}', '\U{205F}', '\U{3000}', '\U{FEFF}']
    || '\U{2000}' <= c <= '\U{200A}'
  }

  /** By code point: the WhiteSpace and LineTerminator productions of sections 12.2 and 12.3 of ECMA-262. */
  lemma WhitespaceIs(c: char)
    ensures
      var n := c as int;
      IsWhitespace(c) <==>
        || 9 <= n <= 13 || n == 32 || n == 160 || n == 5760 || 8192 <= n <= 8202
        || n == 8232 || n == 8233 || n == 8239 || n == 8287 || n == 12288 || n == 65279
  {
  }
}
