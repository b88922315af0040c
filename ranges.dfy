/**
  Python's `range(start, stop, step)` for a positive step: every index loop of the
  generator (`for i in range(24, 28)`, `for i in range(0, 7, 2)`, ...) walks one.
 */
module PyRanges {

  /** The integers `start, start + step, start + 2 * step, ...` that lie below `stop`, in order. */
  function Range(start: int, stop: int, step: int): (r: seq<int>)
    requires step > 0
    ensures forall k :: 0 <= k < |r| ==> start <= r[k] < stop
    decreases stop - start
  {
    if start >= stop then [] else [start] + Range(start + step, stop, step)
  }

  /** A range is strictly increasing, so its loop visits no index twice. */
  lemma {:induction false} RangeIncreasing(start: int, stop: int, step: int)
    requires step > 0
    ensures forall k, l :: 0 <= k < l < |Range(start, stop, step)| ==> Range(start, stop, step)[k] < Range(start, stop, step)[l]
    decreases stop - start
  {
    if start < stop {
      RangeIncreasing(start + step, stop, step);
    }
  }

  /** The set of the values a range yields. */
  function Members(r: seq<int>): set<int> {
    set i | i in r
  }

  /** With step 1, `range(start, stop)` yields exactly the integers of the half-open interval. */
  lemma {:induction false} UnitRangeMembers(start: int, stop: int, x: int)
    ensures x in Range(start, stop, 1) <==> start <= x < stop
    decreases stop - start
  {
    if start < stop {
      UnitRangeMembers(start + 1, stop, x);
    }
  }

  /** The set form of `UnitRangeMembers`. */
  lemma UnitRangeSet(start: int, stop: int)
    ensures forall x :: x in Members(Range(start, stop, 1)) <==> start <= x < stop
  {
    forall x ensures x in Members(Range(start, stop, 1)) <==> start <= x < stop {
      UnitRangeMembers(start, stop, x);
    }
  }

  /** `range(0, 7, 2)` yields 0, 2, 4 and 6, and nothing else. */
  lemma EvenRangeToSeven()
    ensures Range(0, 7, 2) == [0, 2, 4, 6]
  {
  }
}
