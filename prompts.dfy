/**
 * The two small decision rules of the data-entry session: reading a yes/no
 * answer, and deciding whether an (average, standard deviation) pair falls
 * outside the declared rating range.
 */
module Prompts {
  import opened Wrappers

  /**
   * `y_or_n`: "y" is yes, "n" is no, anything else is refused with `None`
   * (the script also prints a reminder, which is not modelled).
   */
  function YOrN(yn: string): (r: Option<bool>)
    ensures r == Some(true) <==> yn == "y"
    ensures r == Some(false) <==> yn == "n"
    ensures r == None <==> yn != "y" && yn != "n"
  {
    if yn == "y" then Some(true)
    else if yn == "n" then Some(false)
    else None
  }

  /** Only the exact one-letter answers are accepted: case and spaces matter. */
  lemma OnlyExactAnswersAccepted(yn: string)
    requires YOrN(yn).Some?
    ensures |yn| == 1 && (yn[0] == 'y' || yn[0] == 'n')
  {
  }

  /**
   * The warning test of the value-entry loop: `minimum` and `maximum` are the
   * declared rating limits, and a pair is flagged when either value lies
   * above the maximum or below the minimum.
   */
  predicate OutOfRange(avg: real, stdDev: real, minimum: real, maximum: real)
    ensures OutOfRange(avg, stdDev, minimum, maximum)
        <==> !(minimum <= avg <= maximum) || !(minimum <= stdDev <= maximum)
  {
    avg > maximum || avg < minimum || stdDev > maximum || stdDev < minimum
  }

  /** A pair is accepted without a warning exactly when both values lie in the closed range. */
  lemma InRangeIffBothWithin(avg: real, stdDev: real, minimum: real, maximum: real)
    ensures !OutOfRange(avg, stdDev, minimum, maximum)
        <==> minimum <= avg <= maximum && minimum <= stdDev <= maximum
  {
  }

  /** Limits entered the wrong way round (minimum above maximum) flag every pair. */
  lemma InvertedLimitsFlagEverything(avg: real, stdDev: real, minimum: real, maximum: real)
    requires maximum < minimum
    ensures OutOfRange(avg, stdDev, minimum, maximum)
  {
  }

  /** When the limits coincide, only a pair equal to that single value passes. */
  lemma PointRangeAcceptsOnlyThePoint(avg: real, stdDev: real, limit: real)
    ensures !OutOfRange(avg, stdDev, limit, limit) <==> avg == limit && stdDev == limit
  {
  }
}
