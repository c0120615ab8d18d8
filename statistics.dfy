/// src/core/main/Statistics/Statistics.tsx: two carousels, one over the tables
/// and one over the charts, whose arrow buttons move the selected index by one
/// and wrap around at either end.
module Statistics {

  /** `Object.keys(tables).length` and `Object.keys(charts).length`. */
  const TableCount: int := 2
  const ChartCount: int := 2

  /** `handleChange`: the one index passed to the callback for a requested index. */
  function HandleChange(newNumber: int, maxItems: int): (index: int)
    ensures newNumber > maxItems - 1 ==> index == 0
    ensures newNumber <= maxItems - 1 && newNumber < 0 ==> index == maxItems - 1
    ensures 0 <= newNumber <= maxItems - 1 ==> index == newNumber
  {
    if newNumber > maxItems - 1 then 0
    else if newNumber < 0 then maxItems - 1
    else newNumber
  }

  /** The right arrow. */
  function Next(current: int, maxItems: int): int
  {
    HandleChange(current + 1, maxItems)
  }

  /** The left arrow. */
  function Previous(current: int, maxItems: int): int
  {
    HandleChange(current - 1, maxItems)
  }

  /** From a valid index both arrows lead to a valid index: one step forward or back, modulo the
      number of items, so the last wraps to the first and the first to the last. */
  lemma ArrowsWrapAround(current: int, maxItems: int)
    requires 1 <= maxItems && 0 <= current < maxItems
    ensures 0 <= Next(current, maxItems) < maxItems && 0 <= Previous(current, maxItems) < maxItems
    ensures Next(current, maxItems) == (current + 1) % maxItems
    ensures Previous(current, maxItems) == (current - 1) % maxItems
    ensures current == maxItems - 1 ==> Next(current, maxItems) == 0
    ensures current == 0 ==> Previous(current, maxItems) == maxItems - 1
  {
    if current + 1 == maxItems {
      RemainderOf(current + 1, maxItems, 1, 0);
    } else {
      RemainderOf(current + 1, maxItems, 0, current + 1);
    }
    if current == 0 {
      RemainderOf(current - 1, maxItems, -1, maxItems - 1);
    } else {
      RemainderOf(current - 1, maxItems, 0, current - 1);
    }
  }

  /** `x % m` is the `r` of a division `x == q * m + r` with `0 <= r < m` and a quotient of -1, 0 or 1. */
  lemma RemainderOf(x: int, m: int, q: int, r: int)
    requires 0 < m && 0 <= r < m && -1 <= q <= 1 && x == q * m + r
    ensures x % m == r
  {
    var q', r' := x / m, x % m;
    assert x == q' * m + r' && 0 <= r' < m;
  }

  /** The arrows undo each other. */
  lemma ArrowsAreInverse(current: int, maxItems: int)
    requires 1 <= maxItems && 0 <= current < maxItems
    ensures Previous(Next(current, maxItems), maxItems) == current
    ensures Next(Previous(current, maxItems), maxItems) == current
  {
  }

  /** With the two tables (or the two charts), either arrow shows the other one. */
  lemma TwoItemsToggle(current: int)
    requires 0 <= current < TableCount
    ensures Next(current, TableCount) == Previous(current, TableCount) == 1 - current
  {
  }
}
