/** What the views render, abstracted from markup: text is a sequence of
    pieces, each a literal string, a number (whose decimal formatting is
    not modelled) or the word a template shows for a missing value. Also
    JavaScript truthiness of optional fields and the zero-guarded averages. */
module Display {
  import opened Optional

  /** One piece of rendered text: a literal, a number as `${x}` would render
      it, or `${undefined}`. */
  datatype Piece = Str(text: string) | Num(x: real) | Undef

  /** `${x}` for an optional number. */
  function Show(x: Option<real>): (p: Piece)
    ensures x.None? <==> p == Undef
    ensures x.Some? ==> p == Num(x.value)
  {
    match x
    case Some(v) => Num(v)
    case None => Undef
  }

  /** An optional number used as a condition: absent and 0 are falsy. */
  predicate NumTruthy(x: Option<real>) {
    x.Some? && x.value != 0.0
  }

  /** An optional string used as a condition: absent and "" are falsy. */
  predicate StrTruthy(s: Option<string>) {
    s.Some? && s.value != ""
  }

  /** `a || b` on optional strings: `a` when truthy, otherwise `b`. */
  function StrOr(a: Option<string>, b: Option<string>): (r: Option<string>)
    ensures StrTruthy(a) ==> r == a
    ensures !StrTruthy(a) ==> r == b
    ensures StrTruthy(r) <==> StrTruthy(a) || StrTruthy(b)
  {
    if StrTruthy(a) then a else b
  }

  /** The colour family of a badge or a value's text class
      (`bg-green-100 text-green-800`, `text-green-600`, ...). */
  datatype Tone = Green | Yellow | Red | Blue | Gray | Purple | Orange | Teal

  /** A guarded average as the views show it: the quotient (shown with two
      decimals) or the literal '0.00' when there is nothing to divide by. */
  datatype Average = Quotient(value: real) | ZeroLiteral

  /** `count > 0 ? (total / count).toFixed(2) : '0.00'`. */
  function GuardedAverage(total: real, count: int): (r: Average)
    ensures r.Quotient? <==> count > 0
    ensures r.Quotient? ==> r.value * (count as real) == total
  {
    if count > 0 then Quotient(total / count as real) else ZeroLiteral
  }
}
