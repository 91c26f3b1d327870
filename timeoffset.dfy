/**
 * The signed clock-offset type of the time-synchronisation library: a
 * sign-and-magnitude value `Later(d)` or `Earlier(d)` with `d >= 0`, its
 * arithmetic operators and its application to an instant.
 *
 * Instants are integer nanoseconds on one time line and magnitudes are
 * natural numbers of nanoseconds. `Value` reads an offset as a signed
 * integer (how far the sampled instant lies after the base instant), and
 * every operator is proved to agree with signed arithmetic on that value.
 */
module TimeOffsets {

  /** An absolute instant, in nanoseconds. */
  type Instant = int

  /** `Earlier(d)`: the sampled instant follows the base by `d`;
      `Later(d)`: it precedes the base by `d`. */
  datatype TimeOffset = Later(d: nat) | Earlier(d: nat)

  /** The signed reading of an offset. */
  function Value(x: TimeOffset): int
  {
    match x
    case Earlier(d) => d
    case Later(d) => -(d as int)
  }

  function Abs(n: int): nat
  {
    if n < 0 then -n else n
  }

  /** An offset is determined by its value together with its tag; the tag
      only matters for the two zeros. */
  lemma ValueAndTagDetermine(x: TimeOffset, y: TimeOffset)
    ensures x == y <==> Value(x) == Value(y) && x.Earlier? == y.Earlier?
  {
  }

  /** The offset of `sample` relative to `base`; equal instants give `Earlier(0)`. */
  function Diff(base: Instant, sample: Instant): (r: TimeOffset)
    ensures Value(r) == sample - base
    ensures r.Later? <==> sample < base
  {
    if sample < base then Later(base - sample) else Earlier(sample - base)
  }

  /** Applies an offset to an instant: `Earlier` advances it, `Later` retards it. */
  function Correct(x: TimeOffset, time: Instant): (r: Instant)
    ensures r == time + Value(x)
  {
    match x
    case Earlier(d) => time + d
    case Later(d) => time - d
  }

  /** Sum of two offsets. A zero sum takes the tag of the right operand. */
  function Add(a: TimeOffset, b: TimeOffset): (r: TimeOffset)
    ensures Value(r) == Value(a) + Value(b)
    ensures Value(r) == 0 ==> r.Earlier? == b.Earlier?
  {
    match (a, b)
    case (Earlier(t1), Earlier(t2)) => Earlier(t1 + t2)
    case (Earlier(t1), Later(t2)) =>
      if t1 > t2 then Earlier(t1 - t2) else Later(t2 - t1)
    case (Later(t1), Earlier(t2)) =>
      if t1 > t2 then Later(t1 - t2) else Earlier(t2 - t1)
    case (Later(t1), Later(t2)) => Later(t1 + t2)
  }

  /** Negation flips the tag and keeps the magnitude. */
  function Neg(x: TimeOffset): (r: TimeOffset)
    ensures r.d == x.d && r.Earlier? != x.Earlier?
    ensures Value(r) == -Value(x)
  {
    match x
    case Earlier(t) => Later(t)
    case Later(t) => Earlier(t)
  }

  /** Difference of two offsets, defined as adding the negation. */
  function Sub(a: TimeOffset, b: TimeOffset): (r: TimeOffset)
    ensures Value(r) == Value(a) - Value(b)
    ensures Value(r) == 0 ==> r.Earlier? == b.Later?
  {
    Add(a, Neg(b))
  }

  /** The value `a += b` stores in `a`: the sum of the values, a zero sum
      carrying the tag of `b`. */
  function AddAssign(self: TimeOffset, rhs: TimeOffset): (updated: TimeOffset)
    ensures Value(updated) == Value(self) + Value(rhs)
    ensures Value(updated) == 0 ==> updated.Earlier? == rhs.Earlier?
  {
    Add(self, rhs)
  }

  /** The value `a -= b` stores in `a`: the difference of the values, a
      zero difference carrying the tag opposite to that of `b`. */
  function SubAssign(self: TimeOffset, rhs: TimeOffset): (updated: TimeOffset)
    ensures Value(updated) == Value(self) - Value(rhs)
    ensures Value(updated) == 0 ==> updated.Earlier? == rhs.Later?
  {
    Sub(self, rhs)
  }

  /** Division by a nonzero integer: the magnitude is divided by `|n|`
      (rounding down) and the result is negated when `n < 0`.
      `DivTruncatesTowardZero` reads it on values. */
  function Div(x: TimeOffset, n: int): (r: TimeOffset)
    requires n != 0
    ensures r.d == x.d / Abs(n)
    ensures r.Earlier? <==> (x.Earlier? <==> n > 0)
  {
    var m: nat := x.d / Abs(n);
    var q := match x
      case Earlier(_) => Earlier(m)
      case Later(_) => Later(m);
    if n < 0 then Neg(q) else q
  }

  /** On values, `Div` is integer division truncated toward zero: the
      magnitude of the quotient is the magnitude of the dividend divided by
      that of the divisor, and a nonzero quotient has the sign of their
      product. */
  lemma DivTruncatesTowardZero(x: TimeOffset, n: int)
    requires n != 0
    ensures Abs(Value(Div(x, n))) == Abs(Value(x)) / Abs(n)
    ensures (Value(x) >= 0 <==> n > 0) ==> Value(Div(x, n)) >= 0
    ensures (Value(x) >= 0 <==> n < 0) ==> Value(Div(x, n)) <= 0
  {
    var r := Div(x, n);
    assert Abs(Value(r)) == r.d && Abs(Value(x)) == x.d;
  }

  /** The default offset, `Later(0)`. */
  function Default(): (r: TimeOffset)
    ensures Value(r) == 0 && r.Later?
  {
    Later(0)
  }

  // ---------------------------------------------------------------------
  // Algebraic laws
  // ---------------------------------------------------------------------

  /** Equal instants give `Earlier(0)`, not the default `Later(0)`. */
  lemma DiffOfEqualInstants(t: Instant)
    ensures Diff(t, t) == Earlier(0)
    ensures Diff(t, t) != Default()
  {
  }

  /** Applying the offset between two instants to the base yields the sample. */
  lemma CorrectAfterDiff(base: Instant, sample: Instant)
    ensures Correct(Diff(base, sample), base) == sample
  {
  }

  /** Measuring a corrected instant against its base gives back the offset,
      except that `Later(0)` comes back as `Earlier(0)`. */
  lemma DiffAfterCorrect(x: TimeOffset, base: Instant)
    ensures Diff(base, Correct(x, base)) == if x == Later(0) then Earlier(0) else x
  {
    ValueAndTagDetermine(Diff(base, Correct(x, base)), x);
  }

  /** Addition commutes on values; it commutes structurally exactly when the
      sum is nonzero or both operands carry the same tag. */
  lemma AddCommutes(a: TimeOffset, b: TimeOffset)
    ensures Value(Add(a, b)) == Value(Add(b, a))
    ensures Add(a, b) == Add(b, a) <==> Value(a) + Value(b) != 0 || a.Earlier? == b.Earlier?
  {
    ValueAndTagDetermine(Add(a, b), Add(b, a));
  }

  /** `Earlier(a) + Later(a)` and `Later(a) + Earlier(a)` are the two different zeros. */
  lemma OppositeEqualMagnitudes(t: nat)
    ensures Add(Earlier(t), Later(t)) == Later(0)
    ensures Add(Later(t), Earlier(t)) == Earlier(0)
  {
  }

  /** Addition is associative on values. */
  lemma AddAssociatesInValue(a: TimeOffset, b: TimeOffset, c: TimeOffset)
    ensures Value(Add(Add(a, b), c)) == Value(Add(a, Add(b, c)))
  {
  }

  /** `Later(0)` is a left identity for every offset. */
  lemma DefaultIsLeftIdentity(x: TimeOffset)
    ensures Add(Default(), x) == x
  {
    ValueAndTagDetermine(Add(Default(), x), x);
  }

  /** `Later(0)` is a right identity for every offset but `Earlier(0)`. */
  lemma DefaultIsRightIdentityExceptEarlierZero(x: TimeOffset)
    ensures Add(x, Default()) == if x == Earlier(0) then Later(0) else x
  {
    ValueAndTagDetermine(Add(x, Default()), x);
  }

  /** Negation is an involution. */
  lemma NegInvolutive(x: TimeOffset)
    ensures Neg(Neg(x)) == x
  {
  }

  /** An offset plus its negation is zero in value; structurally it is the
      zero carrying the negation's tag. */
  lemma AddNegIsZero(x: TimeOffset)
    ensures Value(Add(x, Neg(x))) == 0
    ensures Add(x, Neg(x)) == if x.Earlier? then Later(0) else Earlier(0)
  {
  }

  /** Subtraction is addition of the negation. */
  lemma SubIsAddNeg(a: TimeOffset, b: TimeOffset)
    ensures Sub(a, b) == Add(a, Neg(b))
    ensures SubAssign(a, b) == Sub(a, b) && AddAssign(a, b) == Add(a, b)
  {
  }

  /** Dividing by 1 is the identity and dividing by -1 is negation. */
  lemma DivByUnit(x: TimeOffset)
    ensures Div(x, 1) == x
    ensures Div(x, -1) == Neg(x)
  {
  }
}
