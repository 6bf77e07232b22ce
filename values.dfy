/** The values a feature map can hold, as the preprocessing code sees them. */
module Values {
  import opened Wrappers

  /** A float64: a finite number (a real; rounding is not modelled), NaN or an infinity. */
  datatype Float = Finite(r: real) | NaN | PosInf | NegInf

  /** A value in a feature dictionary: a Python int or float, a string, or None or another
      non-numeric scalar object. */
  datatype Value = Number(f: Float) | Text(s: string) | Other

  /** Python's `float(s)` on a string: the parse either yields a float or raises.
      It is foreign code, so it is supplied by the caller. */
  type Parser = string -> Option<Float>

  /** `float(value)` as applied by the feature validator: ints and floats are taken as they
      are, strings go through the parser, anything else raises a TypeError (`None`). */
  function ToFloat(v: Value, parse: Parser): Option<Float> {
    match v
    case Number(f) => Some(f)
    case Text(s) => parse(s)
    case Other => None
  }

  /** The value converts to a number that is neither NaN nor infinite. */
  predicate IsFiniteNumber(v: Value, parse: Parser) {
    ToFloat(v, parse).Some? && ToFloat(v, parse).value.Finite?
  }
}
