/**
 * Initial lane assignment: items sorted by start are placed one by one into
 * the first lane whose last item ends strictly before the new item starts,
 * or into a new lane when no lane qualifies; every placed copy is stamped
 * with the index of its lane.
 */
module AssignLanes {
  import opened Items
  import opened DateUtil
  import opened StartOrder

  /**
   * The lane the scan of `assignItemToLane` stops at, looking from `from`:
   * the first lane whose last item ends strictly before `x` starts, or
   * `|lanes|` when there is none.
   */
  function TailFit(lanes: seq<seq<Item>>, x: Item, from: nat): (k: nat)
    requires NonEmptyLanes(lanes) && from <= |lanes|
    ensures from <= k <= |lanes|
    ensures forall j :: from <= j < k ==> x.start <= Last(lanes[j]).end
    ensures k < |lanes| ==> Last(lanes[k]).end < x.start
    decreases |lanes| - from
  {
    if from == |lanes| || Last(lanes[from]).end < x.start then from else TailFit(lanes, x, from + 1)
  }

  /** The lanes after `assignItemToLane(x)`. */
  function PlaceByTail(lanes: seq<seq<Item>>, x: Item): (r: seq<seq<Item>>)
    requires NonEmptyLanes(lanes)
    ensures NonEmptyLanes(r)
  {
    var k := TailFit(lanes, x, 0);
    PushKeepsNonEmpty(lanes, k, x.(lane := Some(k)));
    Push(lanes, k, x.(lane := Some(k)))
  }

  /** The lanes after placing every item of `items`, in order, starting from `lanes`. */
  function TailPack(lanes: seq<seq<Item>>, items: seq<Item>): seq<seq<Item>>
    requires NonEmptyLanes(lanes)
    decreases |items|
  {
    if items == [] then lanes else TailPack(PlaceByTail(lanes, items[0]), items[1..])
  }

  /** Within a lane each item starts strictly after the previous one ends. */
  predicate Chained(lanes: seq<seq<Item>>)
  {
    forall i, j :: 0 <= i < |lanes| && 0 < j < |lanes[i]| ==> lanes[i][j - 1].end < lanes[i][j].start
  }

  predicate TailPacked(lanes: seq<seq<Item>>)
  {
    NonEmptyLanes(lanes) && Stamped(lanes) && Chained(lanes)
  }

  lemma PushKeepsStamped(lanes: seq<seq<Item>>, k: nat, y: Item)
    requires k <= |lanes| && Stamped(lanes) && y.lane == Some(k)
    ensures Stamped(Push(lanes, k, y))
  {
    var r: seq<seq<Item>> := Push(lanes, k, y);
    forall i, j | 0 <= i < |r| && 0 <= j < |r[i]| ensures r[i][j].lane == Some(i) {
      if i == k && j == |r[k]| - 1 {
        assert r[i][j] == y;
      } else {
        assert r[i][j] == lanes[i][j];
      }
    }
  }

  lemma PushKeepsChained(lanes: seq<seq<Item>>, k: nat, y: Item)
    requires k <= |lanes| && NonEmptyLanes(lanes) && Chained(lanes)
    requires k < |lanes| ==> Last(lanes[k]).end < y.start
    ensures Chained(Push(lanes, k, y))
  {
    var r: seq<seq<Item>> := Push(lanes, k, y);
    forall i, j | 0 <= i < |r| && 0 < j < |r[i]| ensures r[i][j - 1].end < r[i][j].start {
      if i == k && j == |r[k]| - 1 {
        assert r[i][j] == y && r[i][j - 1] == Last(lanes[k]);
      } else {
        assert r[i][j] == lanes[i][j] && r[i][j - 1] == lanes[i][j - 1];
      }
    }
  }

  lemma PlaceByTailKeeps(lanes: seq<seq<Item>>, x: Item)
    requires TailPacked(lanes)
    ensures TailPacked(PlaceByTail(lanes, x))
    ensures |PlaceByTail(lanes, x)| >= |lanes| && |PlaceByTail(lanes, x)| > 0
    ensures Bag(Flatten(PlaceByTail(lanes, x))) == Bag(Flatten(lanes)) + multiset{Strip(x)}
  {
    var k := TailFit(lanes, x, 0);
    var y := x.(lane := Some(k));
    PushKeepsStamped(lanes, k, y);
    PushKeepsChained(lanes, k, y);
    FlattenPushBag(lanes, k, y);
    assert Strip(y) == Strip(x);
  }

  /** Packing keeps lanes non-empty, stamped and chained, and adds exactly the packed items. */
  lemma {:induction false} TailPackKeeps(lanes: seq<seq<Item>>, items: seq<Item>)
    requires TailPacked(lanes)
    ensures TailPacked(TailPack(lanes, items))
    ensures |TailPack(lanes, items)| >= |lanes|
    ensures items != [] ==> |TailPack(lanes, items)| > 0
    ensures Bag(Flatten(TailPack(lanes, items))) == Bag(Flatten(lanes)) + Bag(items)
    decreases |items|
  {
    if items != [] {
      var next := PlaceByTail(lanes, items[0]);
      PlaceByTailKeeps(lanes, items[0]);
      TailPackKeeps(next, items[1..]);
      assert items == [items[0]] + items[1..];
      BagAppend([items[0]], items[1..]);
    }
  }

  /** Items placed in ascending start order leave every lane in ascending start order. */
  lemma {:induction false} TailPackSorted(lanes: seq<seq<Item>>, items: seq<Item>)
    requires NonEmptyLanes(lanes) && LanesSortedByStart(lanes)
    requires SortedByStart(items)
    requires forall i, j, n :: 0 <= i < |lanes| && 0 <= j < |lanes[i]| && 0 <= n < |items| ==> lanes[i][j].start <= items[n].start
    ensures LanesSortedByStart(TailPack(lanes, items))
    decreases |items|
  {
    if items != [] {
      var x := items[0];
      var k := TailFit(lanes, x, 0);
      var next: seq<seq<Item>> := PlaceByTail(lanes, x);
      assert next == Push(lanes, k, x.(lane := Some(k)));
      forall i, j, n | 0 <= i < |next| && 0 <= j < |next[i]| && 0 <= n < |items[1..]|
        ensures next[i][j].start <= items[1..][n].start
      {
        assert items[1..][n] == items[n + 1];
        if i == k && j == |next[k]| - 1 {
          assert next[i][j].start == items[0].start;
        } else {
          assert next[i][j] == lanes[i][j];
        }
      }
      TailPackSorted(next, items[1..]);
    }
  }

  /**
   * In a chained lane whose items are in start order, an earlier item ends
   * before any later one starts: it ends before its successor starts, and
   * that successor starts no later than any item after it.
   */
  lemma ChainSeparates(lane: seq<Item>, j1: nat, j2: nat)
    requires forall j :: 0 < j < |lane| ==> lane[j - 1].end < lane[j].start
    requires forall k1, k2 :: 0 <= k1 < k2 < |lane| ==> lane[k1].start <= lane[k2].start
    requires j1 < j2 < |lane|
    ensures lane[j1].end < lane[j2].start
  {
    assert lane[j1].end < lane[j1 + 1].start;
    if j1 + 1 < j2 {
      assert lane[j1 + 1].start <= lane[j2].start;
    }
  }

  /** No two items of a chained lane in start order overlap, in either order. */
  lemma ChainedNoOverlap(lanes: seq<seq<Item>>)
    requires Chained(lanes) && LanesSortedByStart(lanes)
    ensures NoOverlapWithin(lanes)
  {
    forall i, j1, j2 | 0 <= i < |lanes| && 0 <= j1 < |lanes[i]| && 0 <= j2 < |lanes[i]| && j1 != j2
      ensures !IsOverlapping(lanes[i][j1], lanes[i][j2])
    {
      var lane := lanes[i];
      forall j | 0 < j < |lane| ensures lane[j - 1].end < lane[j].start {
        assert lanes[i][j - 1].end < lanes[i][j].start;
      }
      forall k1, k2 | 0 <= k1 < k2 < |lane| ensures lane[k1].start <= lane[k2].start {
        assert lanes[i][k1].start <= lanes[i][k2].start;
      }
      if j1 < j2 {
        ChainSeparates(lane, j1, j2);
      } else {
        ChainSeparates(lane, j2, j1);
      }
    }
  }

  /** No two items of an output lane overlap, whatever the items' dates. */
  lemma AssignLanesNoOverlap(items: seq<Item>)
    ensures NoOverlapWithin(TailPack([], SortByStart(items)))
  {
    var sorted := SortByStart(items);
    TailPackKeeps([], sorted);
    TailPackSorted([], sorted);
    ChainedNoOverlap(TailPack([], sorted));
  }

  lemma LoadExamplePack(a: Item, b: Item, c: Item)
    requires a.start == 1 && a.end == 10 && b.start == 2 && b.end == 5 && c.start == 11
    ensures TailPack([], [a, b, c]) ==
      [[a.(lane := Some(0)), c.(lane := Some(0))], [b.(lane := Some(1))]]
  {
    var a0, b1, c0 := a.(lane := Some(0)), b.(lane := Some(1)), c.(lane := Some(0));
    var l1 := PlaceByTail([], a);
    assert l1 == [[a0]];
    var l2 := PlaceByTail(l1, b);
    assert TailFit(l1, b, 0) == 1;
    assert l2 == [[a0], [b1]];
    var l3 := PlaceByTail(l2, c);
    assert TailFit(l2, c, 0) == 0;
    assert l3 == Push(l2, 0, c0) == l2[0 := l2[0] + [c0]];
    assert l2[0] + [c0] == [a0, c0];
    assert l3 == [[a0, c0], [b1]];
    assert [a, b, c][1..] == [b, c] && [b, c][1..] == [c] && [c][1..] == [];
    assert TailPack([], [a, b, c]) == TailPack(l1, [b, c]);
    assert TailPack(l1, [b, c]) == TailPack(l2, [c]);
    assert TailPack(l2, [c]) == TailPack(l3, []);
  }

  /**
   * Three items starting on days 1, 2 and 11: the second overlaps the first
   * and opens lane 1, the third follows the first in lane 0.
   */
  lemma LoadExample()
    ensures var a := Item(1, 1, 10, "a", None);
      var b := Item(2, 2, 5, "b", None);
      var c := Item(3, 11, 15, "c", None);
      TailPack([], SortByStart([a, b, c])) ==
        [[a.(lane := Some(0)), c.(lane := Some(0))], [b.(lane := Some(1))]]
  {
    var a := Item(1, 1, 10, "a", None);
    var b := Item(2, 2, 5, "b", None);
    var c := Item(3, 11, 15, "c", None);
    SortSortedUnchanged([a, b, c]);
    LoadExamplePack(a, b, c);
  }

  /**
   * An item that starts on the day another ends does not join its lane at
   * load: the tail test is strict, unlike the half-open overlap test.
   */
  lemma TouchingItemsSeparatedAtLoad()
    ensures var a := Item(1, 1, 5, "a", None);
      var b := Item(2, 5, 10, "b", None);
      !IsOverlapping(a, b) &&
      TailPack([], SortByStart([a, b])) == [[a.(lane := Some(0))], [b.(lane := Some(1))]]
  {
    var a := Item(1, 1, 5, "a", None);
    var b := Item(2, 5, 10, "b", None);
    assert [a, b][1..] == [b] && [b][1..] == [];
    assert SortByStart([b]) == [b];
    assert SortByStart([a, b]) == Insert(a, [b]) == [a, b];
    var l1 := PlaceByTail([], a);
    assert l1 == [[a.(lane := Some(0))]];
    assert TailFit(l1, b, 0) == 1;
    var l2 := PlaceByTail(l1, b);
    assert l2 == [[a.(lane := Some(0))], [b.(lane := Some(1))]];
    assert TailPack([], [a, b]) == TailPack(l1, [b]) == TailPack(l2, []);
  }

  /** `assignItemToLane`: the scan over the lanes with an early return. */
  method AssignItemToLane(lanes: seq<seq<Item>>, item: Item) returns (r: seq<seq<Item>>)
    requires NonEmptyLanes(lanes)
    ensures r == PlaceByTail(lanes, item)
  {
    for k := 0 to |lanes|
      invariant forall j :: 0 <= j < k ==> item.start <= Last(lanes[j]).end
    {
      if Last(lanes[k]).end < item.start {
        r := lanes[k := lanes[k] + [item.(lane := Some(k))]];
        assert TailFit(lanes, item, 0) == k;
        return;
      }
    }
    r := lanes + [[item.(lane := Some(|lanes|))]];
  }

  /** The loop of `assignLanes` over the sorted items. */
  method PackByTail(sorted: seq<Item>) returns (lanes: seq<seq<Item>>)
    ensures lanes == TailPack([], sorted)
  {
    lanes := [];
    for i := 0 to |sorted|
      invariant NonEmptyLanes(lanes)
      invariant TailPack(lanes, sorted[i..]) == TailPack([], sorted)
    {
      assert sorted[i..][1..] == sorted[i + 1..];
      lanes := AssignItemToLane(lanes, sorted[i]);
    }
    assert sorted[|sorted|..] == [];
  }

  /**
   * `assignLanes(items)`: sorts the caller's array in place by start, then
   * packs it.
   */
  method AssignLanes(items: array<Item>) returns (lanes: seq<seq<Item>>)
    modifies items
    ensures items[..] == SortByStart(old(items[..]))
    ensures lanes == TailPack([], items[..])
    ensures Bag(Flatten(lanes)) == Bag(old(items[..]))
    ensures |lanes| == 0 <==> items.Length == 0
    ensures NonEmptyLanes(lanes) && Stamped(lanes) && Chained(lanes)
    ensures LanesSortedByStart(lanes)
    ensures NoOverlapWithin(lanes)
  {
    SortInPlace(items);
    lanes := PackByTail(items[..]);
    TailPackKeeps([], items[..]);
    TailPackSorted([], items[..]);
    ChainedNoOverlap(lanes);
    BagOfPerm(items[..], old(items[..]));
  }
}
