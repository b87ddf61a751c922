/** `getIntRange` of the 1.16.1 adapter: a host range with optional bounds becomes an `IntegerRange`. */
module NmsIntRange {
  import opened Int32
  import opened Wrappers
  import opened IntegerRanges

  /** The host's parsed `CriterionConditionValue.IntegerRange`; `a()` and `b()` may be `null`. */
  datatype HostIntRange = HostIntRange(min: Option<int32>, max: Option<int32>) {

    /** What the host range means: an absent bound does not constrain. */
    predicate Admits(i: int32) {
      (min.None? || min.value <= i) && (max.None? || i <= max.value)
    }
  }

  /** An absent lower bound becomes `Integer.MIN_VALUE`, an absent upper bound `Integer.MAX_VALUE`. */
  function GetIntRange(host: HostIntRange): (range: IntegerRange)
    ensures host.min.Some? ==> range.GetLowerBound() == host.min.value
    ensures host.max.Some? ==> range.GetUpperBound() == host.max.value
    ensures host.min.None? ==> range.GetLowerBound() as int == MIN_VALUE
    ensures host.max.None? ==> range.GetUpperBound() as int == MAX_VALUE
    ensures forall i: int32 :: range.IsInRange(i) <==> host.Admits(i)
  {
    var low: int32 := if host.min.None? then MIN_VALUE as int32 else host.min.value;
    var high: int32 := if host.max.None? then MAX_VALUE as int32 else host.max.value;
    IntegerRange(low, high)
  }

  /** A range open at both ends contains every 32-bit int. */
  lemma FullyOpenRangeContainsEveryInt(i: int32)
    ensures GetIntRange(HostIntRange(None, None)).IsInRange(i)
  {
  }
}
