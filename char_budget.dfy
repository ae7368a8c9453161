/**
 * The remaining-character counter of the comments field and its three
 * mutually exclusive display tiers.
 */
module CharBudget {

  datatype Tier = Normal | Warning | Error

  /** The number shown by the counter: the configured maximum minus the current length. */
  function Remaining(maxLength: int, length: nat): (r: int)
    ensures r + length == maxLength
  {
    maxLength - length
  }

  /**
   * The tier for a remaining budget. The source compares against
   * `maxLength * 0.1`; here the comparison is exact (`10 * remaining < maxLength`),
   * and the contract states it against the real-number product.
   */
  function TierOf(maxLength: int, remaining: int): (t: Tier)
    ensures t == Error <==> remaining < 0
    ensures t == Warning <==> 0 <= remaining && (remaining as real) < (maxLength as real) * 0.1
    ensures t == Normal <==> 0 <= remaining && (maxLength as real) * 0.1 <= (remaining as real)
  {
    if remaining < 0 then Error
    else if 10 * remaining < maxLength then Warning
    else Normal
  }

  function Severity(t: Tier): nat {
    match t
    case Normal => 0
    case Warning => 1
    case Error => 2
  }

  /** Typing more never moves the counter to a milder tier. */
  lemma TierMonotone(maxLength: int, shorter: nat, longer: nat)
    requires shorter <= longer
    ensures Severity(TierOf(maxLength, Remaining(maxLength, shorter)))
         <= Severity(TierOf(maxLength, Remaining(maxLength, longer)))
  {
  }

  /** Boundary values: full length, one over, and 90% of a multiple of ten. */
  lemma TierBoundaries(maxLength: nat)
    ensures maxLength > 0 ==> TierOf(maxLength, Remaining(maxLength, maxLength)) == Warning
    ensures maxLength == 0 ==> TierOf(maxLength, Remaining(maxLength, maxLength)) == Normal
    ensures TierOf(maxLength, Remaining(maxLength, maxLength + 1)) == Error
    ensures maxLength % 10 == 0 ==> TierOf(maxLength, Remaining(maxLength, maxLength - maxLength / 10)) == Normal
    ensures TierOf(maxLength, Remaining(maxLength, 0)) == Normal
  {
  }
}
