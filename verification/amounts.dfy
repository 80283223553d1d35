/** Amounts typed by the user, as Python's `float(amount_str)` yields them, and
    the two guards the roll and withdraw handlers put on them
    (`amount <= 0` rejects, `current_balance < amount` rejects).

    Finite values are exact reals: IEEE rounding is not modelled. The special
    values matter because Python's `float` accepts "inf" and "nan", and every
    comparison with NaN is false. */
module Amounts {
  import opened Wrappers

  datatype Float = Finite(v: real) | PosInf | NegInf | NaN

  /** Python's `f <= 0`. */
  predicate AtMostZero(f: Float) {
    match f
    case Finite(v) => v <= 0.0
    case PosInf => false
    case NegInf => true
    case NaN => false
  }

  /** Python's `f >= 0`. */
  predicate AtLeastZero(f: Float) {
    match f
    case Finite(v) => v >= 0.0
    case PosInf => true
    case NegInf => false
    case NaN => false
  }

  /** Python's `current < f` for a finite `current`. */
  predicate Below(current: real, f: Float) {
    match f
    case Finite(v) => current < v
    case PosInf => true
    case NegInf => false
    case NaN => false
  }

  /** Python's `current - f` for a finite `current`. */
  function Minus(current: real, f: Float): Float {
    match f
    case Finite(v) => Finite(current - v)
    case PosInf => NegInf
    case NegInf => PosInf
    case NaN => NaN
  }

  // ---------------------------------------------------------------------
  // The guards as written

  /** The balance a losing roll or a withdrawal writes back, with the guards
      exactly as written: `None` when a guard rejects. */
  function AsWrittenDebit(current: real, amount: Float): (r: Option<Float>)
    ensures r.Some? <==> !AtMostZero(amount) && !Below(current, amount)
    ensures amount.Finite? && r.Some? ==> AtLeastZero(r.value)
  {
    if AtMostZero(amount) || Below(current, amount) then None
    else Some(Minus(current, amount))
  }

  /** "nan" passes both guards, whatever the balance, and the balance written
      back is NaN, which is not a non-negative number. */
  lemma AsWrittenDebitAcceptsNaN(current: real)
    ensures AsWrittenDebit(current, NaN) == Some(NaN)
    ensures !AtLeastZero(AsWrittenDebit(current, NaN).value)
  {
  }

  // ---------------------------------------------------------------------
  // The guards as intended

  /** An accepted amount: a positive real, or +inf, which no balance covers. */
  datatype Stake = Stake(v: real) | Unbounded

  /** The amount check: a parse failure (`None`, Python's ValueError), a value
      at most zero, and NaN are rejected. */
  function AmountGate(parsed: Option<Float>): (r: Option<Stake>)
    ensures r.None? <==> parsed.None? || parsed.value.NaN? || AtMostZero(parsed.value)
    ensures r.Some? && r.value.Stake? ==> r.value.v > 0.0 && parsed == Some(Finite(r.value.v))
    ensures r == Some(Unbounded) <==> parsed == Some(PosInf)
  {
    match parsed
    case None => None
    case Some(Finite(v)) => if v <= 0.0 then None else Some(Stake(v))
    case Some(PosInf) => Some(Unbounded)
    case Some(NegInf) => None
    case Some(NaN) => None
  }

  /** The funds check: the balance covers the stake. */
  predicate Covers(current: real, s: Stake) {
    s.Stake? && s.v <= current
  }

  /** The intended debit: the gate, then the funds check. */
  function Debit(current: real, parsed: Option<Float>): (r: Option<real>)
    ensures r.Some? ==> 0.0 <= r.value < current
    ensures parsed == Some(NaN) ==> r.None?
  {
    match AmountGate(parsed)
    case None => None
    case Some(s) => if Covers(current, s) then Some(current - s.v) else None
  }

  /** Apart from NaN, the intended guards decide exactly as the written ones,
      and an accepted debit writes the same balance. */
  lemma DebitAgreesOffNaN(current: real, f: Float)
    requires !f.NaN?
    ensures AmountGate(Some(f)).Some? <==> !AtMostZero(f)
    ensures Debit(current, Some(f)).Some? <==> AsWrittenDebit(current, f).Some?
    ensures Debit(current, Some(f)).Some? ==>
              AsWrittenDebit(current, f) == Some(Finite(Debit(current, Some(f)).value))
  {
  }
}
