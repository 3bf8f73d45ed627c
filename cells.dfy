/** Failure-compatible wrappers and the errors the statement pipeline raises. */
module Outcomes {

  datatype Option<+T> = None | Some(value: T)

  datatype Result<+T, +E> = Success(value: T) | Failure(error: E) {
    predicate IsFailure() { Failure? }

    function PropagateFailure<U>(): Result<U, E>
      requires Failure?
    {
      Failure(error)
    }

    function Extract(): T
      requires Success?
    {
      value
    }
  }

  /** The exceptions the enrichment and metric code lets escape. */
  datatype Error =
    | NoColumns              // `columns[0]` on a table without columns (IndexError)
    | MissingRow(row: string)   // `.loc[row]` or `.drop(row)` on an absent row (KeyError)
    | DuplicateColumn        // `pd.to_numeric` handed a DataFrame for a repeated column (TypeError)
    | UnknownScaleUnit       // dividing by the `None` that `get_scaler` falls through to (TypeError)
    | NoPeriodColumns        // `.loc[row] = ...` adding a row to a table without columns (ValueError)

  /** The outcome of a `set_*` call: it returns nothing or raises. */
  datatype Status = Done | Raised(error: Error)
}

/**
 * A numeric table cell: an exact real, a signed infinity or a missing value (NaN).
 * The arithmetic follows IEEE 754 on these three kinds of value, without rounding.
 */
module Cells {

  datatype Cell = Num(v: real) | Inf(negative: bool) | Missing

  /** Whether a cell is negative; infinities carry their sign. */
  predicate IsNegative(c: Cell) {
    match c
    case Num(x) => x < 0.0
    case Inf(n) => n
    case Missing => false
  }

  /** `a - b` */
  function Sub(a: Cell, b: Cell): (r: Cell)
    ensures a.Num? && b.Num? ==> r == Num(a.v - b.v)
    ensures (a.Missing? || b.Missing?) ==> r.Missing?
    ensures r.Inf? ==> a.Inf? || b.Inf?
  {
    match (a, b)
    case (Num(x), Num(y)) => Num(x - y)
    case (Inf(n), Num(_)) => Inf(n)
    case (Num(_), Inf(n)) => Inf(!n)
    case (Inf(n), Inf(m)) => if n == m then Missing else Inf(n)
    case _ => Missing
  }

  /** `a * b`; an infinity times zero is NaN. */
  function Mul(a: Cell, b: Cell): (r: Cell)
    ensures a.Num? && b.Num? ==> r == Num(a.v * b.v)
    ensures (a.Missing? || b.Missing?) ==> r.Missing?
    ensures r.Inf? ==> (a.Inf? || b.Inf?) && IsNegative(r) == (IsNegative(a) != IsNegative(b))
  {
    if a.Missing? || b.Missing? then Missing
    else if a.Num? && b.Num? then Num(a.v * b.v)
    else if a.Inf? && b.Inf? then Inf(a.negative != b.negative)
    else if a.Inf? then (if b.v == 0.0 then Missing else Inf(a.negative != (b.v < 0.0)))
    else if a.v == 0.0 then Missing else Inf(b.negative != (a.v < 0.0))
  }

  /**
   * `a / b`. A non-zero finite value over zero is an infinity with the
   * numerator's sign, zero over zero and infinity over infinity are NaN,
   * and a finite value over an infinity is zero.
   */
  function Div(a: Cell, b: Cell): (r: Cell)
    ensures a.Num? && b.Num? && b.v != 0.0 ==> r == Num(a.v / b.v)
    ensures a.Num? && b.Num? && b.v == 0.0 ==> (r.Missing? <==> a.v == 0.0)
    ensures (a.Missing? || b.Missing?) ==> r.Missing?
    ensures r.Inf? ==> IsNegative(r) == (IsNegative(a) != IsNegative(b))
  {
    match (a, b)
    case (Num(x), Num(y)) =>
      if y != 0.0 then Num(x / y) else if x == 0.0 then Missing else Inf(x < 0.0)
    case (Inf(n), Num(y)) => Inf(n != (y < 0.0))
    case (Num(_), Inf(_)) => Num(0.0)
    case (Inf(_), Inf(_)) => Missing
    case _ => Missing
  }

  /** `fillna(x)`: only a missing value is replaced; an infinity stays. */
  function FillNa(c: Cell, x: real): (r: Cell)
    ensures !r.Missing?
    ensures !c.Missing? ==> r == c
    ensures c.Missing? ==> r == Num(x)
  {
    if c.Missing? then Num(x) else c
  }

  /** Dividing by a non-zero number and multiplying back gives the cell again. */
  lemma DivMulRoundTrip(c: Cell, s: real)
    requires s != 0.0
    ensures Mul(Div(c, Num(s)), Num(s)) == c
  {
    match c
    case Num(x) =>
      assert x / s * s == x;
    case Inf(n) =>
    case Missing =>
  }

  /** Multiplying by a non-zero number and dividing back gives the cell again. */
  lemma MulDivRoundTrip(c: Cell, s: real)
    requires s != 0.0
    ensures Div(Mul(c, Num(s)), Num(s)) == c
  {
    match c
    case Num(x) =>
      assert x * s / s == x;
    case Inf(n) =>
    case Missing =>
  }
}
