/** Rounding policies of mppq/utils/round.py, over exact rationals.

    A Python float is a dyadic rational and `Decimal(value)` is its exact
    value, so the decimal-context rounding of the scalar version is modelled
    on `real` exactly. The tensor version (one element of
    `PPQTensorRoundImpl.forward`) is modelled on the same exact values:
    the float rounding of `value + 0.5` and `value - 0.5` is not modelled. */
module Rounding {
  import opened Wrappers

  /** The policies the two rounding functions test for, plus any other value
      a caller could pass (`mppq.quant.RoundingPolicy` is not part of this model). */
  datatype RoundingPolicy =
    | RoundHalfEven
    | RoundHalfUp
    | RoundHalfDown
    | RoundHalfTowardsZero
    | RoundHalfFarFormZero
    | RoundToNearInt
    | RoundUp
    | OtherPolicy

  /** The ValueError both functions raise for a policy they do not handle. */
  datatype RoundError = UnexpectedRounding

  function Floor(x: real): int { x.Floor }

  function Ceil(x: real): int { -((-x).Floor) }

  function Abs(x: real): real { if x < 0.0 then -x else x }

  function Sign(x: real): int { if x > 0.0 then 1 else if x < 0.0 then -1 else 0 }

  /** The integer nearest to v when it is unique; for a tie (v exactly halfway
      between two integers) the even one. This is `quantize(Decimal(1),
      rounding=ROUND_HALF_EVEN)` and, per the comment at round.py:21,
      torch's `round()`. */
  function HalfEven(v: real): int {
    var f := Floor(v);
    var d := v - f as real;
    if d < 0.5 then f
    else if d > 0.5 then f + 1
    else if f % 2 == 0 then f else f + 1
  }

  /** Python decimal's ROUND_HALF_UP: to nearest, ties away from zero. */
  function DecimalHalfUp(v: real): int {
    var f := Floor(v);
    var d := v - f as real;
    if d < 0.5 then f
    else if d > 0.5 then f + 1
    else if v > 0.0 then f + 1 else f
  }

  /** Python decimal's ROUND_HALF_DOWN: to nearest, ties towards zero. */
  function DecimalHalfDown(v: real): int {
    var f := Floor(v);
    var d := v - f as real;
    if d < 0.5 then f
    else if d > 0.5 then f + 1
    else if v > 0.0 then f else f + 1
  }

  /** v lies exactly halfway between two integers. */
  predicate IsTie(v: real) {
    v - Floor(v) as real == 0.5
  }

  function PolicyRank(p: RoundingPolicy): nat {
    if p == RoundHalfTowardsZero || p == RoundHalfFarFormZero then 1 else 0
  }

  /** ppq_numerical_round (round.py:43-90): the scalar version. The two
      delegating policies call the function again with another policy. */
  function NumericalRound(v: real, p: RoundingPolicy): Result<int, RoundError>
    decreases PolicyRank(p)
  {
    match p
    case RoundHalfEven => Ok(HalfEven(v))
    case RoundHalfUp => if v > 0.0 then Ok(DecimalHalfUp(v)) else Ok(DecimalHalfDown(v))
    case RoundHalfDown => if v > 0.0 then Ok(DecimalHalfDown(v)) else Ok(DecimalHalfUp(v))
    case RoundHalfTowardsZero => NumericalRound(v, RoundHalfDown)
    case RoundHalfFarFormZero => NumericalRound(v, RoundHalfUp)
    case RoundToNearInt => if v > 0.0 then Ok(Floor(v + 0.5)) else Ok(Ceil(v - 0.5))
    case RoundUp => Ok(Ceil(v))
    case OtherPolicy => Err(UnexpectedRounding)
  }

  /** PPQTensorRoundImpl.forward (round.py:14-36) on one element. */
  function TensorRound(v: real, p: RoundingPolicy): Result<int, RoundError> {
    match p
    case RoundHalfEven => Ok(HalfEven(v))
    case RoundUp => Ok(Ceil(v))
    case RoundHalfTowardsZero => Ok(Sign(v) * Ceil(Abs(v) - 0.5))
    case RoundHalfFarFormZero => Ok(Sign(v) * Floor(Abs(v) + 0.5))
    case RoundHalfDown => Ok(Ceil(v - 0.5))
    case RoundHalfUp => Ok(Floor(v + 0.5))
    case RoundToNearInt => Err(UnexpectedRounding)
    case OtherPolicy => Err(UnexpectedRounding)
  }

  // ---------------------------------------------------------------------
  // Basic facts about floor and ceiling.

  lemma FloorBounds(x: real)
    ensures Floor(x) as real <= x < Floor(x) as real + 1.0
  {
  }

  lemma FloorUnique(x: real, n: int)
    requires n as real <= x < n as real + 1.0
    ensures Floor(x) == n
  {
  }

  lemma CeilBounds(x: real)
    ensures Ceil(x) as real - 1.0 < x <= Ceil(x) as real
  {
    FloorBounds(-x);
  }

  // ---------------------------------------------------------------------
  // Properties of the scalar policies.

  /** ROUND_HALF_EVEN yields an integer at distance at most 1/2, and an even
      one when the distance is exactly 1/2. */
  lemma HalfEvenIsNearestEven(v: real)
    ensures NumericalRound(v, RoundHalfEven).Ok?
    ensures var r := NumericalRound(v, RoundHalfEven).value;
      Abs(v - r as real) <= 0.5 && (Abs(v - r as real) == 0.5 ==> r % 2 == 0)
  {
    FloorBounds(v);
  }

  /** The two properties above determine the half-even result: any integer
      within 1/2 of v that is even when exactly 1/2 away is that result. */
  lemma HalfEvenUnique(v: real, r: int)
    requires Abs(v - r as real) <= 0.5
    requires Abs(v - r as real) == 0.5 ==> r % 2 == 0
    ensures HalfEven(v) == r
  {
    FloorBounds(v);
  }

  /** Scalar ROUND_HALF_UP is floor(v + 1/2) for every v, on both sides of
      zero, and agrees with the tensor rule. */
  lemma HalfUpIsFloorOfHalfAbove(v: real)
    ensures NumericalRound(v, RoundHalfUp) == Ok(Floor(v + 0.5))
    ensures TensorRound(v, RoundHalfUp) == NumericalRound(v, RoundHalfUp)
  {
    var f := Floor(v);
    FloorBounds(v);
    var d := v - f as real;
    if d < 0.5 {
      FloorUnique(v + 0.5, f);
    } else {
      FloorUnique(v + 0.5, f + 1);
    }
  }

  /** Scalar ROUND_HALF_DOWN is ceil(v - 1/2) for every v, and agrees with
      the tensor rule. */
  lemma HalfDownIsCeilOfHalfBelow(v: real)
    ensures NumericalRound(v, RoundHalfDown) == Ok(Ceil(v - 0.5))
    ensures TensorRound(v, RoundHalfDown) == NumericalRound(v, RoundHalfDown)
  {
    var f := Floor(v);
    FloorBounds(v);
    var d := v - f as real;
    if d <= 0.5 {
      FloorUnique(-(v - 0.5), -f);
    } else {
      FloorUnique(-(v - 0.5), -f - 1);
    }
  }

  /** Ties under scalar ROUND_HALF_UP go up (away from zero for v > 0,
      towards zero otherwise); under ROUND_HALF_DOWN they go down. */
  lemma HalfUpDownTies(v: real)
    requires IsTie(v)
    ensures NumericalRound(v, RoundHalfUp) == Ok(Floor(v) + 1)
    ensures NumericalRound(v, RoundHalfDown) == Ok(Floor(v))
  {
  }

  /** The delegating scalar policies return exactly what the policy they
      delegate to returns: ROUND_HALF_TOWARDS_ZERO is ceil(v - 1/2) and
      ROUND_HALF_FAR_FORM_ZERO is floor(v + 1/2). */
  lemma DelegatingPolicies(v: real)
    ensures NumericalRound(v, RoundHalfTowardsZero) == NumericalRound(v, RoundHalfDown) == Ok(Ceil(v - 0.5))
    ensures NumericalRound(v, RoundHalfFarFormZero) == NumericalRound(v, RoundHalfUp) == Ok(Floor(v + 0.5))
  {
    HalfDownIsCeilOfHalfBelow(v);
    HalfUpIsFloorOfHalfAbove(v);
  }

  /** ROUND_UP is the ceiling in both versions: the least integer >= v. */
  lemma RoundUpIsCeiling(v: real)
    ensures NumericalRound(v, RoundUp) == TensorRound(v, RoundUp)
    ensures var r := NumericalRound(v, RoundUp).value; r as real >= v && r as real - v < 1.0
  {
    CeilBounds(v);
  }

  /** Scalar ROUND_TO_NEAR_INT: to nearest, ties away from zero. */
  lemma NearIntTiesAwayFromZero(v: real)
    ensures NumericalRound(v, RoundToNearInt).Ok?
    ensures var r := NumericalRound(v, RoundToNearInt).value;
      Abs(v - r as real) <= 0.5 && (Abs(v - r as real) == 0.5 ==> Abs(r as real) > Abs(v))
  {
    FloorBounds(v + 0.5);
    CeilBounds(v - 0.5);
  }

  // ---------------------------------------------------------------------
  // Properties of the tensor rules and the differences between versions.

  /** Tensor ROUND_HALF_TOWARDS_ZERO: to nearest, ties towards zero. */
  lemma TensorTowardsZeroTies(v: real)
    ensures TensorRound(v, RoundHalfTowardsZero).Ok?
    ensures var r := TensorRound(v, RoundHalfTowardsZero).value;
      Abs(v - r as real) <= 0.5 && (Abs(v - r as real) == 0.5 ==> Abs(r as real) < Abs(v))
  {
    CeilBounds(Abs(v) - 0.5);
  }

  /** Tensor ROUND_HALF_FAR_FORM_ZERO equals scalar ROUND_TO_NEAR_INT. */
  lemma TensorFarFromZeroIsNearInt(v: real)
    ensures TensorRound(v, RoundHalfFarFormZero) == NumericalRound(v, RoundToNearInt)
  {
    if v < 0.0 {
      FloorBounds(-v + 0.5);
      CeilBounds(v - 0.5);
      var n := Floor(-v + 0.5);
      FloorUnique(-(v - 0.5), n);
    }
  }

  /** A negative tie shows the two versions of ROUND_HALF_TOWARDS_ZERO and of
      ROUND_HALF_FAR_FORM_ZERO disagree: -2.5 goes to -3 and -2 in the scalar
      version, to -2 and -3 in the tensor version. */
  lemma ScalarAndTensorDisagreeAtNegativeTie()
    ensures NumericalRound(-2.5, RoundHalfTowardsZero) == Ok(-3)
    ensures TensorRound(-2.5, RoundHalfTowardsZero) == Ok(-2)
    ensures NumericalRound(-2.5, RoundHalfFarFormZero) == Ok(-2)
    ensures TensorRound(-2.5, RoundHalfFarFormZero) == Ok(-3)
  {
    FloorUnique(-2.5, -3);
    FloorUnique(2.5, 2);
    FloorUnique(3.0, 3);
    FloorUnique(2.0, 2);
  }

  /** The error cases: the scalar version rejects only a policy it does not
      know; the tensor version also rejects ROUND_TO_NEAR_INT. */
  lemma ErrorCases(v: real, p: RoundingPolicy)
    ensures NumericalRound(v, p).Err? <==> p == OtherPolicy
    ensures TensorRound(v, p).Err? <==> p == OtherPolicy || p == RoundToNearInt
  {
  }

  // ---------------------------------------------------------------------
  // The evidently intended scalar delegation.

  /** ppq_numerical_round with ROUND_HALF_TOWARDS_ZERO and
      ROUND_HALF_FAR_FORM_ZERO rounding ties towards and away from zero as
      their names say, that is, with decimal's ROUND_HALF_DOWN and
      ROUND_HALF_UP on both sides of zero. */
  function NumericalRoundIntended(v: real, p: RoundingPolicy): Result<int, RoundError> {
    match p
    case RoundHalfTowardsZero => Ok(DecimalHalfDown(v))
    case RoundHalfFarFormZero => Ok(DecimalHalfUp(v))
    case _ => NumericalRound(v, p)
  }

  /** With the intended delegation the scalar and tensor versions agree on
      both tie-directed policies, for every v. */
  lemma IntendedAgreesWithTensor(v: real)
    ensures NumericalRoundIntended(v, RoundHalfTowardsZero) == TensorRound(v, RoundHalfTowardsZero)
    ensures NumericalRoundIntended(v, RoundHalfFarFormZero) == TensorRound(v, RoundHalfFarFormZero)
  {
    var f := Floor(v);
    FloorBounds(v);
    var d := v - f as real;
    if v > 0.0 {
      FloorBounds(v + 0.5);
      CeilBounds(v - 0.5);
      if d <= 0.5 { FloorUnique(-(v - 0.5), -f); } else { FloorUnique(-(v - 0.5), -f - 1); }
      if d < 0.5 { FloorUnique(v + 0.5, f); } else { FloorUnique(v + 0.5, f + 1); }
    } else if v < 0.0 {
      // |v| - 1/2 and |v| + 1/2 expressed through the floor of v
      if d == 0.0 {
        FloorUnique(-v + 0.5, -f);
        FloorUnique(-(-v - 0.5), f);
      } else if d < 0.5 {
        FloorUnique(-v + 0.5, -f);
        FloorUnique(-(-v - 0.5), f);
      } else if d == 0.5 {
        FloorUnique(-v + 0.5, -f);
        FloorUnique(-(-v - 0.5), f + 1);
      } else {
        FloorUnique(-v + 0.5, -f - 1);
        FloorUnique(-(-v - 0.5), f + 1);
      }
    } else {
      FloorUnique(0.5, 0);
      FloorUnique(0.5, 0);
    }
  }

  /** The intended delegation rounds to nearest, and a tie goes towards zero
      under ROUND_HALF_TOWARDS_ZERO and away from zero under
      ROUND_HALF_FAR_FORM_ZERO, on both sides of zero. */
  lemma IntendedTiesFollowNames(v: real)
    ensures NumericalRoundIntended(v, RoundHalfTowardsZero).Ok?
    ensures var r := NumericalRoundIntended(v, RoundHalfTowardsZero).value;
      Abs(v - r as real) <= 0.5 && (Abs(v - r as real) == 0.5 ==> Abs(r as real) < Abs(v))
    ensures NumericalRoundIntended(v, RoundHalfFarFormZero).Ok?
    ensures var r := NumericalRoundIntended(v, RoundHalfFarFormZero).value;
      Abs(v - r as real) <= 0.5 && (Abs(v - r as real) == 0.5 ==> Abs(r as real) > Abs(v))
  {
    IntendedAgreesWithTensor(v);
    TensorTowardsZeroTies(v);
    TensorFarFromZeroIsNearInt(v);
    NearIntTiesAwayFromZero(v);
  }

  /** The scalar version as written differs from the intended one exactly at
      negative ties, for both delegating policies. */
  lemma DelegationDiffersExactlyAtNegativeTies(v: real)
    ensures NumericalRound(v, RoundHalfTowardsZero) != NumericalRoundIntended(v, RoundHalfTowardsZero) <==> (IsTie(v) && v < 0.0)
    ensures NumericalRound(v, RoundHalfFarFormZero) != NumericalRoundIntended(v, RoundHalfFarFormZero) <==> (IsTie(v) && v < 0.0)
  {
  }
}
