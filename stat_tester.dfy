/**
 * What the two kinds of tester share: the minimum message interval and the
 * recency guard built on it, which gates every alert except entering danger
 * and "getting high".
 */
module StatTesting {
  import opened Optional

  /**
   * The recency guard, `now - lastMessaged < minMessageInterval`. With no
   * stamp the difference is not a number and the comparison is false.
   */
  function Recent(lastMessaged: Option<int>, now: int, minMessageInterval: int): (r: bool)
    // a tester that has never stamped an alert is never recent
    ensures lastMessaged.None? ==> !r
    // otherwise: the interval has not yet run out since the stamp
    ensures lastMessaged.Some? ==> (r <==> now < lastMessaged.value + minMessageInterval)
  {
    lastMessaged.Some? && now - lastMessaged.value < minMessageInterval
  }
}
