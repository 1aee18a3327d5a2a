/** Day arithmetic and the overlap test of the timeline, over day ordinals. */
module DateUtil {
  import opened Items

  /** Signed number of calendar days from `start` to `end`. */
  function DaysBetween(start: Day, end: Day): int
  {
    end - start
  }

  /** Horizontal offset of `date` on a timeline whose left edge is `offset`, at `zoom` units per day. */
  function DateToX(date: Day, offset: Day, zoom: int): int
  {
    DaysBetween(offset, date) * zoom
  }

  /** The date `days` calendar days after `d` (before it when `days` is negative). */
  function AddDays(d: Day, days: int): (r: Day)
    ensures DaysBetween(d, r) == days
  {
    d + days
  }

  /** The end date an item is drawn and compared with: its end date as given. */
  function EffectiveEnd(d: Day): (r: Day)
    ensures DaysBetween(d, r) == 0
  {
    d
  }

  /** Half-open overlap: each item starts before the other one ends. */
  predicate IsOverlapping(a: Item, b: Item)
  {
    a.start < EffectiveEnd(b.end) && b.start < EffectiveEnd(a.end)
  }

  /** No two items of the same lane overlap. */
  predicate NoOverlapWithin(lanes: seq<seq<Item>>)
  {
    forall i, j1, j2 :: 0 <= i < |lanes| && 0 <= j1 < |lanes[i]| && 0 <= j2 < |lanes[i]| && j1 != j2 ==>
      !IsOverlapping(lanes[i][j1], lanes[i][j2])
  }

  lemma OverlapSymmetric(a: Item, b: Item)
    ensures IsOverlapping(a, b) == IsOverlapping(b, a)
  {
  }

  lemma TouchingDoNotOverlap(a: Item, b: Item)
    requires a.end == b.start
    ensures !IsOverlapping(a, b) && !IsOverlapping(b, a)
  {
  }

  lemma NonEmptyOverlapsItself(a: Item)
    requires a.start < a.end
    ensures IsOverlapping(a, a)
  {
  }

  /** Overlap reads only the two date ranges. */
  lemma OverlapReadsDatesOnly(a: Item, a': Item, b: Item, b': Item)
    requires a.start == a'.start && a.end == a'.end
    requires b.start == b'.start && b.end == b'.end
    ensures IsOverlapping(a, b) == IsOverlapping(a', b')
  {
  }

  lemma AddDaysZero(d: Day)
    ensures AddDays(d, 0) == d
  {
  }

  lemma AddDaysCompose(d: Day, a: int, b: int)
    ensures AddDays(AddDays(d, a), b) == AddDays(d, a + b)
  {
  }

  lemma AddDaysInverse(d: Day, k: int)
    ensures AddDays(AddDays(d, k), -k) == d
  {
    AddDaysCompose(d, k, -k);
    AddDaysZero(d);
  }

  lemma DaysBetweenSelf(a: Day)
    ensures DaysBetween(a, a) == 0
  {
  }

  lemma DaysBetweenAntisymmetric(a: Day, b: Day)
    ensures DaysBetween(a, b) == -DaysBetween(b, a)
  {
  }

  lemma DateToXAtOffset(offset: Day, zoom: int)
    ensures DateToX(offset, offset, zoom) == 0
  {
  }

  /** At a non-negative zoom, later dates are never drawn to the left of earlier ones. */
  lemma DateToXMonotone(d1: Day, d2: Day, offset: Day, zoom: int)
    requires d1 <= d2 && 0 <= zoom
    ensures DateToX(d1, offset, zoom) <= DateToX(d2, offset, zoom)
  {
    assert DateToX(d2, offset, zoom) - DateToX(d1, offset, zoom) == (d2 - d1) * zoom;
  }

  /** Shifting both items by the same number of days does not change whether they overlap. */
  lemma OverlapShiftInvariant(a: Item, b: Item, k: int)
    ensures IsOverlapping(a, b) ==
      IsOverlapping(a.(start := AddDays(a.start, k), end := AddDays(a.end, k)),
                    b.(start := AddDays(b.start, k), end := AddDays(b.end, k)))
  {
  }
}
