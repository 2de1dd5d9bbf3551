/** Extended reals with the NaN and infinity behaviour of IEEE floating point division and
    addition, used for every derived value that numpy can turn into NaN or +-inf.
    Rounding to float32 and the sign of zero are not modelled. */
module Floats {

  datatype Num = Fin(v: real) | PosInf | NegInf | NaN

  predicate IsInf(a: Num) { a.PosInf? || a.NegInf? }

  /** The sign of a non-NaN value: 1, 0 or -1. */
  function Sign(a: Num): int
    requires !a.NaN?
  {
    match a
    case Fin(x) => if x > 0.0 then 1 else if x < 0.0 then -1 else 0
    case PosInf => 1
    case NegInf => -1
  }

  /** An infinity of the given non-zero sign. */
  function Inf(s: int): Num
    requires s != 0
  {
    if s > 0 then PosInf else NegInf
  }

  function Neg(a: Num): Num {
    match a
    case Fin(x) => Fin(-x)
    case PosInf => NegInf
    case NegInf => PosInf
    case NaN => NaN
  }

  function Abs(a: Num): (r: Num)
    ensures a.Fin? ==> r.Fin? && r.v >= 0.0 && (r.v == a.v || r.v == -a.v)
    ensures IsInf(a) ==> r.PosInf?
    ensures a.NaN? <==> r.NaN?
  {
    match a
    case Fin(x) => Fin(if x < 0.0 then -x else x)
    case PosInf => PosInf
    case NegInf => PosInf
    case NaN => NaN
  }

  /** IEEE addition: infinities of opposite sign give NaN, NaN absorbs everything. */
  function Add(a: Num, b: Num): (r: Num)
    ensures a.Fin? && b.Fin? ==> r == Fin(a.v + b.v)
    ensures a.NaN? || b.NaN? ==> r.NaN?
  {
    match (a, b)
    case (NaN, _) => NaN
    case (_, NaN) => NaN
    case (Fin(x), Fin(y)) => Fin(x + y)
    case (PosInf, NegInf) => NaN
    case (NegInf, PosInf) => NaN
    case (PosInf, _) => PosInf
    case (NegInf, _) => NegInf
    case (_, PosInf) => PosInf
    case (_, NegInf) => NegInf
  }

  function Sub(a: Num, b: Num): Num {
    Add(a, Neg(b))
  }

  /** IEEE division: 0/0, inf/inf and NaN operands give NaN; a non-zero value over zero gives an
      infinity of the numerator's sign; a finite value over an infinity gives zero. */
  function Div(a: Num, b: Num): (r: Num)
    ensures a.Fin? && b.Fin? && b.v != 0.0 ==> r == Fin(a.v / b.v)
    ensures b == Fin(0.0) ==> !r.Fin?
    ensures a == Fin(0.0) && b == Fin(0.0) ==> r.NaN?
  {
    if a.NaN? || b.NaN? || (IsInf(a) && IsInf(b)) then NaN
    else if b == Fin(0.0) then (if Sign(a) == 0 then NaN else Inf(Sign(a)))
    else if IsInf(b) then Fin(0.0)
    else if IsInf(a) then Inf(Sign(a) * Sign(b))
    else Fin(a.v / b.v)
  }

  /** The value numpy's nan-aware sums use in place of a NaN. */
  function NanToZero(a: Num): (r: Num)
    ensures !r.NaN?
    ensures !a.NaN? ==> r == a
  {
    if a.NaN? then Fin(0.0) else a
  }
}
