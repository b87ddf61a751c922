/** The `IntegerRange` value record: an inclusive interval of Java ints. */
module IntegerRanges {
  import opened Int32

  /** Both bounds are fixed at construction; a datatype value never changes afterwards. */
  datatype IntegerRange = IntegerRange(low: int32, high: int32) {

    /** The lower bound, itself in range when the range is not empty. */
    function GetLowerBound(): (bound: int32)
      ensures low <= high ==> IsInRange(bound)
    {
      low
    }

    /** The upper bound, itself in range when the range is not empty. */
    function GetUpperBound(): (bound: int32)
      ensures low <= high ==> IsInRange(bound)
    {
      high
    }

    /** Whether `i` lies between the lower bound and the upper bound, both inclusive. */
    predicate IsInRange(i: int32): (inRange: bool)
      ensures low > high ==> !inRange
      ensures low <= high && (i == low || i == high) ==> inRange
    {
      i >= low && i <= high
    }
  }

  /** The accessors hand back exactly what the constructor was given. */
  lemma BoundsAreConstructorArguments(low: int32, high: int32)
    ensures IntegerRange(low, high).GetLowerBound() == low
    ensures IntegerRange(low, high).GetUpperBound() == high
  {
  }

  /** Membership is the closed interval [low, high] of mathematical integers. */
  lemma InRangeIffBetween(range: IntegerRange, i: int32)
    ensures range.IsInRange(i) <==> range.low as int <= i as int <= range.high as int
  {
  }

  /** A non-empty range contains both its endpoints. */
  lemma EndpointsIncluded(range: IntegerRange)
    requires range.low <= range.high
    ensures range.IsInRange(range.low)
    ensures range.IsInRange(range.high)
  {
  }

  /** The ints just outside the range, where representable, are not in it. */
  lemma NeighboursExcluded(range: IntegerRange)
    ensures range.low as int > MIN_VALUE ==> !range.IsInRange(range.low - 1)
    ensures range.high as int < MAX_VALUE ==> !range.IsInRange(range.high + 1)
  {
  }

  /** An inverted range contains no int at all. */
  lemma InvertedRangeIsEmpty(range: IntegerRange, i: int32)
    requires range.low > range.high
    ensures !range.IsInRange(i)
  {
  }
}
