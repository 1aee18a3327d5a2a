/**
 * The two lane edits of the timeline's state container: moving an item by a
 * number of days, which re-packs every lane, and renaming an item, which
 * leaves the lanes as they are. Both are modelled as "new lanes = f(old
 * lanes)"; the state container that stores the result is not modelled.
 */
module TimelineContext {
  import opened Items
  import opened DateUtil
  import opened StartOrder
  import AssignLanes

  /** Index of the first item of `flat` with the given id, or `|flat|` when none has it. */
  function FindIndex(flat: seq<Item>, id: int): (n: nat)
    ensures n <= |flat|
    ensures forall m :: 0 <= m < n ==> flat[m].id != id
    ensures n < |flat| ==> flat[n].id == id
  {
    if flat == [] then 0
    else if flat[0].id == id then 0
    else 1 + FindIndex(flat[1..], id)
  }

  /** `flat.find(item => item.id === id)`. */
  function FindById(flat: seq<Item>, id: int): (r: Option<Item>)
    ensures r.None? <==> forall x :: x in flat ==> x.id != id
    ensures r.Some? ==> r.value in flat && r.value.id == id
    ensures r.Some? ==> exists n :: 0 <= n < |flat| && flat[n] == r.value && forall m :: 0 <= m < n ==> flat[m].id != id
  {
    var n := FindIndex(flat, id);
    if n < |flat| then Some(flat[n]) else None
  }

  /** `flat.filter(item => item.id !== id)`. */
  function Without(flat: seq<Item>, id: int): (r: seq<Item>)
    ensures forall x :: x in r <==> x in flat && x.id != id
  {
    if flat == [] then []
    else (if flat[0].id == id then [] else [flat[0]]) + Without(flat[1..], id)
  }

  /**
   * Filtering keeps every occurrence of each item with another id and no
   * occurrence of an item with the id.
   */
  lemma {:induction false} WithoutCounts(flat: seq<Item>, id: int)
    ensures forall x :: multiset(Without(flat, id))[x] == if x.id == id then 0 else multiset(flat)[x]
    decreases |flat|
  {
    if flat != [] {
      WithoutCounts(flat[1..], id);
      assert flat == [flat[0]] + flat[1..];
    }
  }

  /** The item moved by `days` days: both ends shift, everything else is kept. */
  function Shift(x: Item, days: int): (r: Item)
    ensures r.id == x.id && r.name == x.name && r.lane == x.lane
    ensures DaysBetween(x.start, r.start) == days && DaysBetween(x.end, r.end) == days
    ensures DaysBetween(r.start, r.end) == DaysBetween(x.start, x.end)
  {
    x.(start := AddDays(x.start, days), end := AddDays(x.end, days))
  }

  /** `lane?.some(laneItem => isOverlapping(laneItem, x))`. */
  predicate Conflicts(lane: seq<Item>, x: Item)
  {
    exists m :: m in lane && IsOverlapping(m, x)
  }

  /**
   * The lane the `while` scan stops at, looking from `from`: the first lane
   * none of whose members overlaps `x`, or `|lanes|` when every lane has one.
   */
  function FirstFree(lanes: seq<seq<Item>>, x: Item, from: nat): (k: nat)
    requires from <= |lanes|
    ensures from <= k <= |lanes|
    ensures forall j :: from <= j < k ==> Conflicts(lanes[j], x)
    ensures k < |lanes| ==> !Conflicts(lanes[k], x)
    decreases |lanes| - from
  {
    if from == |lanes| || !Conflicts(lanes[from], x) then from else FirstFree(lanes, x, from + 1)
  }

  /** The lanes after placing each of `items`, in order, first-fit by full scan. */
  function PackFirstFit(lanes: seq<seq<Item>>, items: seq<Item>): seq<seq<Item>>
    decreases |items|
  {
    if items == [] then lanes
    else PackFirstFit(Push(lanes, FirstFree(lanes, items[0], 0), items[0]), items[1..])
  }

  /** `lane.map(item => ({ ...item, lane: i }))`. */
  function Restamp(lane: seq<Item>, i: int): seq<Item>
  {
    Map(lane, (x: Item) => x.(lane := Some(i)))
  }

  /** Every item's lane cache set to the index of its lane. */
  function Reindex(lanes: seq<seq<Item>>): seq<seq<Item>>
  {
    seq(|lanes|, i requires 0 <= i < |lanes| => Restamp(lanes[i], i))
  }

  /** The lanes `handleItemUpdate(id, deltaDays)` produces from `prev`. */
  function ItemUpdate(prev: seq<seq<Item>>, id: int, deltaDays: int): seq<seq<Item>>
  {
    var flat := Flatten(prev);
    match FindById(flat, id)
    case None => prev
    case Some(target) =>
      var moved := Shift(target, deltaDays);
      var packed := PackFirstFit([], SortByStart(Without(flat, id)));
      var k := FirstFree(packed, moved, 0);
      Reindex(Push(packed, k, moved.(lane := Some(k))))
  }

  /** `handleItemNameUpdate(id, newName)`. */
  function ItemNameUpdate(prev: seq<seq<Item>>, id: int, newName: string): (r: seq<seq<Item>>)
    ensures |r| == |prev|
    ensures forall i :: 0 <= i < |prev| ==> |r[i]| == |prev[i]|
    ensures forall i, j :: 0 <= i < |prev| && 0 <= j < |prev[i]| ==>
      r[i][j].(name := prev[i][j].name) == prev[i][j] &&
      r[i][j].name == (if prev[i][j].id == id then newName else prev[i][j].name)
  {
    Map(prev, (lane: seq<Item>) => Map(lane, (x: Item) => if x.id == id then x.(name := newName) else x))
  }

  // ---------------------------------------------------------------------------
  // Invariants of full-scan first-fit packing
  // ---------------------------------------------------------------------------

  /** Every lane below an item's lane holds a member that overlaps it. */
  predicate LowerLanesBlock(lanes: seq<seq<Item>>)
  {
    forall i, i', j :: 0 <= i' < i < |lanes| && 0 <= j < |lanes[i]| ==> Conflicts(lanes[i'], lanes[i][j])
  }

  predicate Packed(lanes: seq<seq<Item>>)
  {
    NonEmptyLanes(lanes) && NoOverlapWithin(lanes) && LowerLanesBlock(lanes)
  }

  lemma ConflictsDatesOnly(lane: seq<Item>, x: Item, y: Item)
    requires x.start == y.start && x.end == y.end
    ensures Conflicts(lane, x) == Conflicts(lane, y)
  {
    if Conflicts(lane, x) {
      var m :| m in lane && IsOverlapping(m, x);
      assert IsOverlapping(m, y);
    }
    if Conflicts(lane, y) {
      var m :| m in lane && IsOverlapping(m, y);
      assert IsOverlapping(m, x);
    }
  }

  /** Pushing `y` into the first lane where nothing overlaps it keeps the lanes packed. */
  lemma PushFirstFreeKeeps(lanes: seq<seq<Item>>, k: nat, y: Item)
    requires Packed(lanes) && k <= |lanes|
    requires forall j :: 0 <= j < k ==> Conflicts(lanes[j], y)
    requires k < |lanes| ==> !Conflicts(lanes[k], y)
    ensures Packed(Push(lanes, k, y))
  {
    var r := Push(lanes, k, y);
    forall i, j1, j2 | 0 <= i < |r| && 0 <= j1 < |r[i]| && 0 <= j2 < |r[i]| && j1 != j2
      ensures !IsOverlapping(r[i][j1], r[i][j2])
    {
      if i == k && j1 == |r[k]| - 1 {
        assert r[i][j2] in lanes[k];
      } else if i == k && j2 == |r[k]| - 1 {
        assert r[i][j1] in lanes[k];
      } else {
        assert r[i][j1] == lanes[i][j1] && r[i][j2] == lanes[i][j2];
      }
    }
    forall i, i', j | 0 <= i' < i < |r| && 0 <= j < |r[i]| ensures Conflicts(r[i'], r[i][j]) {
      if i == k && j == |r[k]| - 1 {
        assert r[i'] == lanes[i'];
      } else {
        assert r[i][j] == lanes[i][j];
        assert Conflicts(lanes[i'], lanes[i][j]);
        var m :| m in lanes[i'] && IsOverlapping(m, lanes[i][j]);
        assert m in r[i'];
      }
    }
  }

  lemma {:induction false} PackFirstFitKeeps(lanes: seq<seq<Item>>, items: seq<Item>)
    requires Packed(lanes)
    ensures Packed(PackFirstFit(lanes, items))
    ensures multiset(Flatten(PackFirstFit(lanes, items))) == multiset(Flatten(lanes)) + multiset(items)
    decreases |items|
  {
    if items != [] {
      var k := FirstFree(lanes, items[0], 0);
      var next := Push(lanes, k, items[0]);
      PushFirstFreeKeeps(lanes, k, items[0]);
      FlattenPush(lanes, k, items[0]);
      PackFirstFitKeeps(next, items[1..]);
      assert PackFirstFit(lanes, items) == PackFirstFit(next, items[1..]);
      assert items == [items[0]] + items[1..];
      assert multiset(items) == multiset{items[0]} + multiset(items[1..]);
    }
  }

  lemma {:induction false} PackFirstFitAll(lanes: seq<seq<Item>>, items: seq<Item>, p: Item -> bool)
    requires AllItems(lanes, p)
    requires forall n :: 0 <= n < |items| ==> p(items[n])
    ensures AllItems(PackFirstFit(lanes, items), p)
    decreases |items|
  {
    if items != [] {
      var k := FirstFree(lanes, items[0], 0);
      forall n | 0 <= n < |items[1..]| ensures p(items[1..][n]) {
        assert items[1..][n] == items[n + 1];
      }
      PackFirstFitAll(Push(lanes, k, items[0]), items[1..], p);
    }
  }

  lemma {:induction false} PackFirstFitSorted(lanes: seq<seq<Item>>, items: seq<Item>)
    requires LanesSortedByStart(lanes) && SortedByStart(items)
    requires forall i, j, n :: 0 <= i < |lanes| && 0 <= j < |lanes[i]| && 0 <= n < |items| ==> lanes[i][j].start <= items[n].start
    ensures LanesSortedByStart(PackFirstFit(lanes, items))
    decreases |items|
  {
    if items != [] {
      var k := FirstFree(lanes, items[0], 0);
      var next: seq<seq<Item>> := Push(lanes, k, items[0]);
      forall i, j, n | 0 <= i < |next| && 0 <= j < |next[i]| && 0 <= n < |items[1..]|
        ensures next[i][j].start <= items[1..][n].start
      {
        assert items[1..][n] == items[n + 1];
        if !(i == k && j == |next[k]| - 1) {
          assert next[i][j] == lanes[i][j];
        }
      }
      PackFirstFitSorted(next, items[1..]);
    }
  }

  // ---------------------------------------------------------------------------
  // Reindexing
  // ---------------------------------------------------------------------------

  /** A lane whose items have, position by position, the same dates conflicts with the same items. */
  lemma ConflictsSameDates(a: seq<Item>, b: seq<Item>, y: Item)
    requires |a| == |b|
    requires forall t :: 0 <= t < |a| ==> a[t].start == b[t].start && a[t].end == b[t].end
    requires Conflicts(a, y)
    ensures Conflicts(b, y)
  {
    var m :| m in a && IsOverlapping(m, y);
    var t :| 0 <= t < |a| && a[t] == m;
    assert b[t] in b && IsOverlapping(b[t], y);
  }

  /** Reindexing keeps the shape and, position by position, every item apart from its lane cache. */
  lemma ReindexAt(lanes: seq<seq<Item>>)
    ensures |Reindex(lanes)| == |lanes|
    ensures forall i :: 0 <= i < |lanes| ==> |Reindex(lanes)[i]| == |lanes[i]|
    ensures forall i, j :: 0 <= i < |lanes| && 0 <= j < |lanes[i]| ==>
      Reindex(lanes)[i][j] == lanes[i][j].(lane := Some(i))
  {
  }

  lemma ReindexPacked(lanes: seq<seq<Item>>)
    requires Packed(lanes)
    ensures Packed(Reindex(lanes))
  {
    var r := Reindex(lanes);
    ReindexAt(lanes);
    forall i, j1, j2 | 0 <= i < |r| && 0 <= j1 < |r[i]| && 0 <= j2 < |r[i]| && j1 != j2
      ensures !IsOverlapping(r[i][j1], r[i][j2])
    {
      assert !IsOverlapping(lanes[i][j1], lanes[i][j2]);
    }
    forall i, i', j | 0 <= i' < i < |r| && 0 <= j < |r[i]| ensures Conflicts(r[i'], r[i][j]) {
      assert Conflicts(lanes[i'], lanes[i][j]);
      ConflictsSameDates(lanes[i'], r[i'], lanes[i][j]);
      ConflictsDatesOnly(r[i'], lanes[i][j], r[i][j]);
    }
  }

  /** Reindexing stamps every item with its lane and changes nothing that packing depends on. */
  lemma ReindexKeeps(lanes: seq<seq<Item>>)
    ensures Stamped(Reindex(lanes))
    ensures SameButLanes(Reindex(lanes), lanes)
    ensures Packed(lanes) ==> Packed(Reindex(lanes))
    ensures LanesSortedByStart(lanes) ==> LanesSortedByStart(Reindex(lanes))
  {
    var r := Reindex(lanes);
    ReindexAt(lanes);
    forall i | 0 <= i < |lanes| ensures Unlaned(r[i]) == Unlaned(lanes[i]) {
      assert |Unlaned(r[i])| == |Unlaned(lanes[i])|;
    }
    if Packed(lanes) {
      ReindexPacked(lanes);
    }
  }

  // ---------------------------------------------------------------------------
  // Properties of a move
  // ---------------------------------------------------------------------------

  /** The other items, sorted by start and packed first-fit. */
  function PackOthers(flat: seq<Item>, id: int): seq<seq<Item>>
  {
    PackFirstFit([], SortByStart(Without(flat, id)))
  }

  /** Names the parts `ItemUpdate` is built from when the id is found. */
  lemma UnfoldItemUpdate(prev: seq<seq<Item>>, id: int, deltaDays: int)
    returns (target: Item, packed: seq<seq<Item>>, k: nat)
    requires FindById(Flatten(prev), id).Some?
    ensures target == FindById(Flatten(prev), id).value && target.id == id
    ensures packed == PackOthers(Flatten(prev), id)
    ensures k == FirstFree(packed, Shift(target, deltaDays), 0)
    ensures ItemUpdate(prev, id, deltaDays) == Reindex(Push(packed, k, Shift(target, deltaDays).(lane := Some(k))))
  {
    target := FindById(Flatten(prev), id).value;
    packed := PackOthers(Flatten(prev), id);
    k := FirstFree(packed, Shift(target, deltaDays), 0);
  }

  lemma PackOthersPacked(flat: seq<Item>, id: int)
    ensures Packed(PackOthers(flat, id))
    ensures multiset(Flatten(PackOthers(flat, id))) == multiset(Without(flat, id))
  {
    PackFirstFitKeeps([], SortByStart(Without(flat, id)));
  }

  lemma PackOthersSorted(flat: seq<Item>, id: int)
    ensures LanesSortedByStart(PackOthers(flat, id))
  {
    PackFirstFitSorted([], SortByStart(Without(flat, id)));
  }

  lemma PackOthersIds(flat: seq<Item>, id: int)
    ensures AllItems(PackOthers(flat, id), (x: Item) => x.id != id)
  {
    var sorted := SortByStart(Without(flat, id));
    forall n | 0 <= n < |sorted| ensures sorted[n].id != id {
      assert sorted[n] in multiset(Without(flat, id));
    }
    PackFirstFitAll([], sorted, (x: Item) => x.id != id);
  }

  /** Reindexing after pushing `m` last into lane `k` leaves it last there, with that lane's index. */
  lemma ReindexPushLast(packed: seq<seq<Item>>, k: nat, m: Item)
    requires k <= |packed|
    requires AllItems(packed, (x: Item) => x.id != m.id)
    ensures var r := Reindex(Push(packed, k, m));
      k < |r| && r[k] != [] && Last(r[k]) == m.(lane := Some(k)) &&
      forall i, j :: 0 <= i < |r| && 0 <= j < |r[i]| && r[i][j].id == m.id ==> i == k && j == |r[k]| - 1
  {
    var pushed := Push(packed, k, m);
    var r: seq<seq<Item>> := Reindex(pushed);
    forall i, j | 0 <= i < |r| && 0 <= j < |r[i]| && !(i == k && j == |r[k]| - 1) ensures r[i][j].id != m.id {
      assert pushed[i][j] == packed[i][j];
    }
  }

  lemma ReindexPushSorted(packed: seq<seq<Item>>, k: nat, m: Item)
    requires k <= |packed| && LanesSortedByStart(packed)
    ensures var r := Reindex(Push(packed, k, m));
      forall i, j1, j2 :: 0 <= i < |r| && 0 <= j1 < j2 < |r[i]| && r[i][j2].id != m.id ==> r[i][j1].start <= r[i][j2].start
  {
    var pushed := Push(packed, k, m);
    var r: seq<seq<Item>> := Reindex(pushed);
    forall i, j1, j2 | 0 <= i < |r| && 0 <= j1 < j2 < |r[i]| && r[i][j2].id != m.id
      ensures r[i][j1].start <= r[i][j2].start
    {
      assert pushed[i][j1] == packed[i][j1] && pushed[i][j2] == packed[i][j2];
    }
  }

  /**
   * After a move of a known item the lanes are non-empty, each item's lane
   * cache is its lane's index, no two items of a lane overlap, and every
   * lane below an item's lane holds a member that overlaps it.
   */
  lemma ItemUpdateLayout(prev: seq<seq<Item>>, id: int, deltaDays: int)
    requires FindById(Flatten(prev), id).Some?
    ensures var r := ItemUpdate(prev, id, deltaDays);
      NonEmptyLanes(r) && Stamped(r) && NoOverlapWithin(r) && LowerLanesBlock(r)
  {
    var target, packed, k := UnfoldItemUpdate(prev, id, deltaDays);
    PackOthersPacked(Flatten(prev), id);
    var moved := Shift(target, deltaDays);
    var stamped := moved.(lane := Some(k));
    forall j | 0 <= j <= k && j < |packed| ensures Conflicts(packed[j], stamped) == Conflicts(packed[j], moved) {
      ConflictsDatesOnly(packed[j], stamped, moved);
    }
    PushFirstFreeKeeps(packed, k, stamped);
    ReindexKeeps(Push(packed, k, stamped));
  }

  /** A move keeps every other item and replaces the moved one by its shifted copy. */
  lemma ItemUpdatePartition(prev: seq<seq<Item>>, id: int, deltaDays: int)
    requires FindById(Flatten(prev), id).Some?
    ensures var target := FindById(Flatten(prev), id).value;
      Bag(Flatten(ItemUpdate(prev, id, deltaDays))) ==
        Bag(Without(Flatten(prev), id)) + multiset{Strip(Shift(target, deltaDays))}
  {
    var target, packed, k := UnfoldItemUpdate(prev, id, deltaDays);
    var pushed := Push(packed, k, Shift(target, deltaDays).(lane := Some(k)));
    ReindexKeeps(pushed);
    FlattenSameButLanes(Reindex(pushed), pushed);
    FlattenPushBag(packed, k, Shift(target, deltaDays).(lane := Some(k)));
    PackOthersPacked(Flatten(prev), id);
    BagOfPerm(Flatten(packed), Without(Flatten(prev), id));
  }

  /**
   * The moved item is the last item of its lane, carries that lane's index,
   * and is the only item with its id.
   */
  lemma ItemUpdateMovedItem(prev: seq<seq<Item>>, id: int, deltaDays: int)
    requires FindById(Flatten(prev), id).Some?
    ensures var r := ItemUpdate(prev, id, deltaDays);
      var target := FindById(Flatten(prev), id).value;
      exists k :: 0 <= k < |r| && r[k] != [] && Last(r[k]) == Shift(target, deltaDays).(lane := Some(k)) &&
        forall i, j :: 0 <= i < |r| && 0 <= j < |r[i]| && r[i][j].id == id ==> i == k && j == |r[k]| - 1
  {
    var target, packed, k := UnfoldItemUpdate(prev, id, deltaDays);
    PackOthersIds(Flatten(prev), id);
    ReindexPushLast(packed, k, Shift(target, deltaDays).(lane := Some(k)));
  }

  /** In every lane the items other than the moved one are in ascending start order. */
  lemma ItemUpdateOrder(prev: seq<seq<Item>>, id: int, deltaDays: int)
    requires FindById(Flatten(prev), id).Some?
    ensures var r := ItemUpdate(prev, id, deltaDays);
      forall i, j1, j2 :: 0 <= i < |r| && 0 <= j1 < j2 < |r[i]| && r[i][j2].id != id ==> r[i][j1].start <= r[i][j2].start
  {
    var target, packed, k := UnfoldItemUpdate(prev, id, deltaDays);
    PackOthersSorted(Flatten(prev), id);
    ReindexPushSorted(packed, k, Shift(target, deltaDays).(lane := Some(k)));
  }

  predicate UniqueIds(s: seq<Item>)
  {
    forall i, j :: 0 <= i < j < |s| ==> s[i].id != s[j].id
  }

  lemma IdsCons(x: Item, s: seq<Item>)
    ensures multiset(Ids([x] + s)) == multiset{x.id} + multiset(Ids(s))
  {
    MapAppend([x], s, IdOf);
  }

  lemma ClearAfterAdd(v: int, m: multiset<int>, id: int)
    ensures (multiset{v} + m)[id := 0] == if v == id then m[id := 0] else multiset{v} + m[id := 0]
  {
  }

  lemma {:induction false} WithoutIds(s: seq<Item>, id: int)
    ensures multiset(Ids(Without(s, id))) == multiset(Ids(s))[id := 0]
    decreases |s|
  {
    if s != [] {
      var t := s[1..];
      WithoutIds(t, id);
      assert s == [s[0]] + t;
      IdsCons(s[0], t);
      if s[0].id == id {
        assert Without(s, id) == Without(t, id);
      } else {
        assert Without(s, id) == [s[0]] + Without(t, id);
        IdsCons(s[0], Without(t, id));
      }
      ClearAfterAdd(s[0].id, multiset(Ids(t)), id);
    }
  }

  lemma {:induction false} UniqueIdsOnce(s: seq<Item>, v: int)
    requires UniqueIds(s)
    ensures multiset(Ids(s))[v] <= 1
    decreases |s|
  {
    if s != [] {
      assert UniqueIds(s[1..]) by {
        forall i, j | 0 <= i < j < |s| - 1 ensures s[1..][i].id != s[1..][j].id {
          assert s[1..][i] == s[i + 1] && s[1..][j] == s[j + 1];
        }
      }
      UniqueIdsOnce(s[1..], v);
      assert s == [s[0]] + s[1..];
      MapAppend([s[0]], s[1..], IdOf);
      if s[0].id == v {
        forall n | 0 <= n < |s| - 1 ensures Ids(s[1..])[n] != v {
          assert s[1..][n] == s[n + 1];
        }
        assert v !in Ids(s[1..]);
      }
    }
  }

  lemma IdsOfUnlaned(s: seq<Item>)
    ensures Map(Unlaned(s), IdOf) == Ids(s)
  {
  }

  /** Two sequences holding the same items, lane caches ignored, hold the same ids. */
  lemma BagIds(a: seq<Item>, b: seq<Item>)
    requires Bag(a) == Bag(b)
    ensures multiset(Ids(a)) == multiset(Ids(b))
  {
    MapPerm(Unlaned(a), Unlaned(b), IdOf);
    IdsOfUnlaned(a);
    IdsOfUnlaned(b);
  }

  lemma ItemUpdateIdsBag(prev: seq<seq<Item>>, id: int, deltaDays: int)
    requires FindById(Flatten(prev), id).Some?
    ensures multiset(Ids(Flatten(ItemUpdate(prev, id, deltaDays)))) ==
      multiset(Ids(Without(Flatten(prev), id))) + multiset{id}
  {
    var flat := Flatten(prev);
    var shifted := Shift(FindById(flat, id).value, deltaDays);
    var out := Flatten(ItemUpdate(prev, id, deltaDays));
    var w := Without(flat, id);
    ItemUpdatePartition(prev, id, deltaDays);
    BagAppend(w, [shifted]);
    assert Bag([shifted]) == multiset{Strip(shifted)};
    BagIds(out, w + [shifted]);
    MapAppend(w, [shifted], IdOf);
    assert Ids([shifted]) == [id];
  }

  lemma FoundIdOnce(flat: seq<Item>, id: int)
    requires FindById(flat, id).Some? && UniqueIds(flat)
    ensures multiset(Ids(flat))[id] == 1
  {
    UniqueIdsOnce(flat, id);
    var n :| 0 <= n < |flat| && flat[n] == FindById(flat, id).value;
    assert Ids(flat)[n] == id;
  }

  lemma RestoreOne(m: multiset<int>, v: int)
    requires m[v] == 1
    ensures m[v := 0] + multiset{v} == m
  {
  }

  lemma SameIdsSameLength(a: seq<Item>, b: seq<Item>)
    requires multiset(Ids(a)) == multiset(Ids(b))
    ensures |a| == |b|
  {
    assert |a| == |Ids(a)| == |multiset(Ids(a))|;
    assert |b| == |Ids(b)| == |multiset(Ids(b))|;
  }

  /**
   * With unique ids, a move of a known item keeps every id exactly as often
   * as before (so each exactly once) and keeps the number of items.
   */
  lemma ItemUpdateKeepsIds(prev: seq<seq<Item>>, id: int, deltaDays: int)
    requires FindById(Flatten(prev), id).Some?
    requires UniqueIds(Flatten(prev))
    ensures multiset(Ids(Flatten(ItemUpdate(prev, id, deltaDays)))) == multiset(Ids(Flatten(prev)))
    ensures |Flatten(ItemUpdate(prev, id, deltaDays))| == |Flatten(prev)|
  {
    var flat := Flatten(prev);
    var out := Flatten(ItemUpdate(prev, id, deltaDays));
    ItemUpdateIdsBag(prev, id, deltaDays);
    WithoutIds(flat, id);
    FoundIdOnce(flat, id);
    RestoreOne(multiset(Ids(flat)), id);
    SameIdsSameLength(out, flat);
  }

  /**
   * An item that starts on the day another ends joins that item's lane when
   * lanes are rebuilt after a move (the overlap test is half-open), whereas
   * the tail test used at load sends it to a new lane.
   */
  lemma TouchingItemsShareLaneOnMove(a: Item, b: Item)
    requires a.end == b.start
    ensures FirstFree([[a]], b, 0) == 0
    ensures AssignLanes.TailFit([[a]], b, 0) == 1
  {
    TouchingDoNotOverlap(a, b);
    assert !Conflicts([a], b) by {
      forall m | m in [a] ensures !IsOverlapping(m, b) {
        assert m == a;
      }
    }
    assert Last([a]) == a;
  }

  // ---------------------------------------------------------------------------
  // Properties of a rename
  // ---------------------------------------------------------------------------

  lemma NameUpdateNoOverlap(prev: seq<seq<Item>>, id: int, newName: string)
    requires NoOverlapWithin(prev)
    ensures NoOverlapWithin(ItemNameUpdate(prev, id, newName))
  {
    var r := ItemNameUpdate(prev, id, newName);
    forall i, j1, j2 | 0 <= i < |r| && 0 <= j1 < |r[i]| && 0 <= j2 < |r[i]| && j1 != j2
      ensures !IsOverlapping(r[i][j1], r[i][j2])
    {
      assert !IsOverlapping(prev[i][j1], prev[i][j2]);
      OverlapReadsDatesOnly(prev[i][j1], r[i][j1], prev[i][j2], r[i][j2]);
    }
  }

  lemma NameUpdateSameDates(prev: seq<seq<Item>>, id: int, newName: string, i: nat)
    requires i < |prev|
    ensures var r := ItemNameUpdate(prev, id, newName);
      |r[i]| == |prev[i]| &&
      forall t :: 0 <= t < |prev[i]| ==> prev[i][t].start == r[i][t].start && prev[i][t].end == r[i][t].end
  {
    var r: seq<seq<Item>> := ItemNameUpdate(prev, id, newName);
    forall t | 0 <= t < |prev[i]| ensures prev[i][t].start == r[i][t].start && prev[i][t].end == r[i][t].end {
      assert r[i][t].(name := prev[i][t].name) == prev[i][t];
    }
  }

  lemma NameUpdateBlocks(prev: seq<seq<Item>>, id: int, newName: string)
    requires LowerLanesBlock(prev)
    ensures LowerLanesBlock(ItemNameUpdate(prev, id, newName))
  {
    var r := ItemNameUpdate(prev, id, newName);
    forall i, i', j | 0 <= i' < i < |r| && 0 <= j < |r[i]| ensures Conflicts(r[i'], r[i][j]) {
      assert Conflicts(prev[i'], prev[i][j]);
      NameUpdateSameDates(prev, id, newName, i');
      NameUpdateSameDates(prev, id, newName, i);
      ConflictsSameDates(prev[i'], r[i'], prev[i][j]);
      ConflictsDatesOnly(r[i'], prev[i][j], r[i][j]);
    }
  }

  /** Renaming keeps every lane packed and stamped as it was. */
  lemma NameUpdateKeepsLayout(prev: seq<seq<Item>>, id: int, newName: string)
    ensures var r := ItemNameUpdate(prev, id, newName);
      (Packed(prev) ==> Packed(r)) && (Stamped(prev) ==> Stamped(r)) && Ids(Flatten(r)) == Ids(Flatten(prev))
  {
    var r := ItemNameUpdate(prev, id, newName);
    if Packed(prev) {
      NameUpdateNoOverlap(prev, id, newName);
      NameUpdateBlocks(prev, id, newName);
    }
    RenameKeepsIds(prev, r);
  }

  lemma {:induction false} RenameKeepsIds(a: seq<seq<Item>>, b: seq<seq<Item>>)
    requires |a| == |b|
    requires forall i :: 0 <= i < |a| ==> Ids(a[i]) == Ids(b[i])
    ensures Ids(Flatten(a)) == Ids(Flatten(b))
    decreases |a|
  {
    if a != [] {
      assert forall i :: 0 <= i < |a| - 1 ==> a[1..][i] == a[i + 1] && b[1..][i] == b[i + 1];
      RenameKeepsIds(a[1..], b[1..]);
      MapAppend(a[0], Flatten(a[1..]), IdOf);
      MapAppend(b[0], Flatten(b[1..]), IdOf);
    }
  }

  /** Renaming an id no item has changes nothing. */
  lemma NameUpdateUnknownId(prev: seq<seq<Item>>, id: int, newName: string)
    requires forall x :: x in Flatten(prev) ==> x.id != id
    ensures ItemNameUpdate(prev, id, newName) == prev
  {
    var r := ItemNameUpdate(prev, id, newName);
    forall i | 0 <= i < |prev| ensures r[i] == prev[i] {
      forall j | 0 <= j < |prev[i]| ensures r[i][j] == prev[i][j] {
        InFlatten(prev, prev[i][j]);
      }
    }
  }

  /** Renaming twice to the same name is renaming once. */
  lemma NameUpdateIdempotent(prev: seq<seq<Item>>, id: int, newName: string)
    ensures ItemNameUpdate(ItemNameUpdate(prev, id, newName), id, newName) == ItemNameUpdate(prev, id, newName)
  {
    var r := ItemNameUpdate(prev, id, newName);
    var rr := ItemNameUpdate(r, id, newName);
    forall i | 0 <= i < |r| ensures rr[i] == r[i] {
      forall j | 0 <= j < |r[i]| ensures rr[i][j] == r[i][j] {
        assert r[i][j].id == prev[i][j].id;
      }
    }
  }

  // ---------------------------------------------------------------------------
  // handleItemUpdate
  // ---------------------------------------------------------------------------

  /**
   * The `while` scan of `handleItemUpdate`: advances past every lane that
   * holds a member overlapping `item`, and stops at the first lane that does
   * not, or at the end.
   */
  method ScanForFreeLane(lanes: seq<seq<Item>>, item: Item) returns (lane: nat)
    ensures lane == FirstFree(lanes, item, 0)
  {
    lane := 0;
    while lane < |lanes| && Conflicts(lanes[lane], item)
      invariant lane <= |lanes|
      invariant forall j :: 0 <= j < lane ==> Conflicts(lanes[j], item)
    {
      lane := lane + 1;
    }
  }

  /** The packing loop of `handleItemUpdate`: each item goes to the lane the scan finds. */
  method PackSorted(others: seq<Item>) returns (lanes: seq<seq<Item>>)
    ensures lanes == PackFirstFit([], others)
  {
    lanes := [];
    for n := 0 to |others|
      invariant PackFirstFit(lanes, others[n..]) == PackFirstFit([], others)
    {
      var item := others[n];
      var lane := ScanForFreeLane(lanes, item);
      ghost var before := lanes;
      if lane == |lanes| {
        lanes := lanes + [[]];
      }
      lanes := lanes[lane := lanes[lane] + [item]];
      assert lanes == Push(before, lane, item);
      assert others[n..][1..] == others[n + 1..];
    }
    assert others[|others|..] == [];
  }

  /** The final pass of `handleItemUpdate`: each item's lane cache set to its lane's index. */
  method ReindexLanes(placed: seq<seq<Item>>) returns (lanes: seq<seq<Item>>)
    ensures lanes == Reindex(placed)
  {
    lanes := placed;
    for i := 0 to |lanes|
      invariant |lanes| == |placed|
      invariant forall t :: 0 <= t < i ==> lanes[t] == Restamp(placed[t], t)
      invariant forall t :: i <= t < |lanes| ==> lanes[t] == placed[t]
    {
      lanes := lanes[i := Restamp(lanes[i], i)];
    }
  }

  /**
   * `handleItemUpdate(id, deltaDays)` applied to the previous lanes: finds the
   * item, shifts it, re-packs the others in start order by full scan, places
   * the moved item first-fit, and reindexes every lane.
   */
  method HandleItemUpdate(prevLanes: seq<seq<Item>>, id: int, deltaDays: int) returns (lanes: seq<seq<Item>>)
    ensures lanes == ItemUpdate(prevLanes, id, deltaDays)
    ensures (forall x :: x in Flatten(prevLanes) ==> x.id != id) ==> lanes == prevLanes
  {
    var flatItems := Flatten(prevLanes);
    var target := FindById(flatItems, id);
    if target.None? {
      return prevLanes;
    }
    var movedItem := Shift(target.value, deltaDays);
    var others := Without(flatItems, id);
    others := SortByStart(others);

    lanes := PackSorted(others);

    var newLane := ScanForFreeLane(lanes, movedItem);
    ghost var before := lanes;
    if newLane == |lanes| {
      lanes := lanes + [[]];
    }
    lanes := lanes[newLane := lanes[newLane] + [movedItem.(lane := Some(newLane))]];
    assert lanes == Push(before, newLane, movedItem.(lane := Some(newLane)));

    lanes := ReindexLanes(lanes);
  }
}
