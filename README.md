# Timeline lane packing, modelled in Dafny

A timeline viewer draws date-ranged items in horizontal rows called
*lanes*, so that items in the same lane do not collide. This project models
the viewer's lane-packing logic and proves its properties:

- **Initial assignment** (`assignLanes` in `src/assignLanes.ts`). The items
  are sorted by start date in place. Each item is then appended to the first
  lane whose *last* item ends strictly before the new item starts; when no
  lane qualifies, a new lane is opened. Every placed copy is stamped with the
  index of its lane.
- **Re-packing after a move** (`handleItemUpdate` in
  `src/context/timeline-context.tsx`). The item with the given id is shifted
  by a number of days. All other items are re-sorted by start and re-packed
  first-fit: each goes to the lowest lane where no member overlaps it. The
  moved item is then placed the same way, and finally every item's lane
  field is rewritten to its lane's index. An unknown id leaves the lanes
  unchanged.
- **Renaming** (`handleItemNameUpdate`), which changes the name of the items
  with the given id and nothing else.
- **Date helpers** (`src/utils/date.ts`): `daysBetween`, `dateToX`,
  `addDays`, `getEffectiveEndDate` and the half-open overlap test
  `isOverlapping`.

Dates are whole-day ordinals (`type Day = int`), so the date helpers become
integer arithmetic. An item is the record of `src/types/timeline.ts`, with
`start`/`end` as day numbers and the optional `lane` as `Option<int>`.

Layout:

| file | module | contents |
|---|---|---|
| `items.dfy` | `Items` | the item record, lanes as `seq<seq<Item>>`, `Push` (append to a lane, opening one if needed), flattening, the multiset of items with lane fields cleared (`Bag`) |
| `date.dfy` | `DateUtil` | the date helpers and the overlap test |
| `start_order.dfy` | `StartOrder` | sorting by start (a stable insertion sort), stability, the in-place sort |
| `assign_lanes.dfy` | `AssignLanes` | the initial assignment |
| `timeline_context.dfy` | `TimelineContext` | the move and the rename |

Each loop of the source is a `method` with loop invariants. Each method is
proved equal to a function that states the same computation as a fold:

- `TailPack` for the initial assignment;
- `PackFirstFit` for the re-packing;
- `ItemUpdate` for a whole move.

The properties are lemmas about those functions. `AssignLanes` takes the
input as an `array` and sorts it in place, as the source does.

"Partition" is stated as an equation between multisets. The output's items
with their lane field cleared, taken as a multiset, equal the input's. Each
input item therefore appears exactly once, and no field other than `lane`
changes.

### Where the description of the system and the code differ

The system's description says that an item ending on the day another starts
may share its lane, because the overlap test is half-open. That holds after
a move, where packing uses `isOverlapping`. It does not hold at load:
`assignItemToLane` compares the lane's last end with the new start using a
strict `<` (`src/assignLanes.ts:15`). So touching items go to different
lanes at load and may share one after any later move. The model follows the
code. `AssignLanes.TouchingItemsSeparatedAtLoad` and
`TimelineContext.TouchingItemsShareLaneOnMove` prove both behaviours.

## Model

| member | source | states |
|---|---|---|
| `DateUtil.DaysBetween` | src/utils/date.ts:4-6 | the signed number of calendar days from the first date to the second; its properties are `DaysBetweenSelf` and `DaysBetweenAntisymmetric` |
| `DateUtil.DateToX` | src/utils/date.ts:8-14 | the day count from the offset date, times the zoom; its properties are `DateToXAtOffset` and `DateToXMonotone` |
| `Items.Flatten` | src/context/timeline-context.tsx:28 | `prevLanes.flat()`: the lanes' items concatenated in lane order; `FlattenPush` states that pushing an item adds exactly that item to it |
| `Items.Push` | src/assignLanes.ts:16-20 | `lanes[k].push(x)`, or `lanes.push([x])` when `k` is the lane count: lane `k` gains `x` at its end, every other lane is unchanged, and a new lane is opened exactly when `k` is the lane count |
| `DateUtil.AddDays` | src/utils/date.ts:16-20 | the result lies exactly `days` calendar days after the input date |
| `DateUtil.EffectiveEnd` | src/utils/date.ts:22-24 | the effective end date is zero days from the end date, i.e. the end date itself |
| `DateUtil.IsOverlapping` | src/utils/date.ts:26-34 | the half-open test: each item starts strictly before the other's effective end; its properties are `OverlapSymmetric`, `TouchingDoNotOverlap`, `NonEmptyOverlapsItself`, `OverlapReadsDatesOnly` and `OverlapShiftInvariant` |
| `DateUtil.OverlapSymmetric` | src/utils/date.ts:26-34 | overlap is symmetric |
| `DateUtil.TouchingDoNotOverlap` | src/utils/date.ts:26-34 | an item ending on the day another starts overlaps it in neither order |
| `DateUtil.NonEmptyOverlapsItself` | src/utils/date.ts:26-34 | an item with start before end overlaps itself |
| `DateUtil.OverlapReadsDatesOnly` | src/utils/date.ts:26-34 | overlap depends only on the two items' start and end dates |
| `DateUtil.OverlapShiftInvariant` | src/utils/date.ts:16-34 | shifting two items by the same number of days does not change whether they overlap |
| `DateUtil.AddDaysZero` | src/utils/date.ts:16-20 | adding zero days gives the same date |
| `DateUtil.AddDaysCompose` | src/utils/date.ts:16-20 | adding `a` then `b` days equals adding `a + b` days |
| `DateUtil.AddDaysInverse` | src/utils/date.ts:16-20 | adding `k` then `-k` days gives back the date |
| `DateUtil.DaysBetweenSelf` | src/utils/date.ts:4-6 | a date is zero days from itself |
| `DateUtil.DaysBetweenAntisymmetric` | src/utils/date.ts:4-6 | swapping the arguments negates the day count |
| `DateUtil.DateToXAtOffset` | src/utils/date.ts:8-14 | the offset date is drawn at position 0, whatever the zoom |
| `DateUtil.DateToXMonotone` | src/utils/date.ts:8-14 | at a non-negative zoom a later date is never drawn left of an earlier one |
| `StartOrder.InsertSorted` | src/assignLanes.ts:8-10 | inserting into a start-sorted sequence keeps it sorted |
| `StartOrder.InsertPerm` | src/assignLanes.ts:8-10 | inserting adds exactly the inserted item and loses none |
| `StartOrder.SortByStart` | src/assignLanes.ts:8-10 | the result is sorted by start and is a permutation of the input |
| `StartOrder.SortStable` | src/context/timeline-context.tsx:41 | the sort is stable: items with the same start day keep their relative order |
| `StartOrder.StableSortUnique` | src/context/timeline-context.tsx:41 | two start-sorted sequences with the same items per start day, in the same order, are equal; so any stable sort by start gives this model's result |
| `StartOrder.SortSortedUnchanged` | src/assignLanes.ts:8-10 | sorting items already in start order leaves them unchanged |
| `StartOrder.SortInPlace` | src/assignLanes.ts:8-10 | the array is sorted in place; its new contents are the sorted old contents |
| `AssignLanes.TailFit` | src/assignLanes.ts:14-20 | the chosen lane is the first whose last item ends strictly before the item starts; every lane before it ends on or after that start; none qualifying gives the lane count (a new lane) |
| `AssignLanes.AssignItemToLane` | src/assignLanes.ts:13-21 | the scan with early return appends the item, stamped with the lane index, to the lane `TailFit` picks, or opens a new lane |
| `AssignLanes.PlaceByTail` | src/assignLanes.ts:13-21 | the lanes after `assignItemToLane(x)`: `x`, stamped with the index, pushed into the lane `TailFit` picks; its properties are `PlaceByTailKeeps` |
| `AssignLanes.TailPack` | src/assignLanes.ts:23-25 | the lanes after placing each item in order with `PlaceByTail`; its properties are `TailPackKeeps`, `TailPackSorted` and `AssignLanesNoOverlap` |
| `AssignLanes.PlaceByTailKeeps` | src/assignLanes.ts:13-21 | one placement keeps lanes non-empty, stamped and chained, never removes a lane, and adds exactly the placed item |
| `AssignLanes.TailPackKeeps` | src/assignLanes.ts:11-26 | packing keeps lanes non-empty, stamped with their index, and chained (each item starts strictly after the previous ends); the packed items are exactly the old items plus the input, lane fields aside; non-empty input gives at least one lane |
| `AssignLanes.TailPackSorted` | src/assignLanes.ts:8-25 | packing items in ascending start order leaves every lane in ascending start order |
| `AssignLanes.ChainedNoOverlap` | src/assignLanes.ts:15-16 | in lanes that are chained and in start order, no two items of a lane overlap, in either order |
| `AssignLanes.AssignLanesNoOverlap` | src/assignLanes.ts:7-27 | for any input, including items that end before they start, no two items of an output lane overlap |
| `AssignLanes.PackByTail` | src/assignLanes.ts:23-25 | the loop over the sorted items builds exactly the lanes of the fold `TailPack` |
| `AssignLanes.AssignLanes` | src/assignLanes.ts:7-27 | sorts the caller's array in place; the lanes are a partition of the input (same items, lane fields aside); no input gives no lanes; no lane is empty; each item carries its lane's index; items of a lane are chained and in ascending start order; no two items of a lane overlap |
| `AssignLanes.LoadExample` | src/assignLanes.ts:7-27 | three items starting on days 1, 2 and 11: the second opens lane 1, the third follows the first in lane 0 |
| `AssignLanes.TouchingItemsSeparatedAtLoad` | src/assignLanes.ts:15 | two items that only touch do not overlap, yet are put in different lanes at load |
| `TimelineContext.FindIndex` | src/context/timeline-context.tsx:30 | the index of the first item with the id, or the length when none has it |
| `TimelineContext.FindById` | src/context/timeline-context.tsx:30-31 | no result exactly when no item has the id; otherwise the result is the first item of the list with that id (no earlier item has it) |
| `TimelineContext.Shift` | src/context/timeline-context.tsx:33-37 | the moved item keeps its id, name and lane field; start and end each move by `deltaDays`; the duration is unchanged |
| `TimelineContext.Without` | src/context/timeline-context.tsx:39 | an item is kept exactly when it is in the list and its id differs from the given one; `WithoutCounts` adds that every occurrence of such an item is kept, so multiplicities are those of the list |
| `TimelineContext.WithoutCounts` | src/context/timeline-context.tsx:39 | `filter` keeps multiplicity: an item with the id occurs zero times in the result, and any other item as often as in the list |
| `TimelineContext.Conflicts` | src/context/timeline-context.tsx:48 | `lane?.some(laneItem => isOverlapping(laneItem, x))`: some member of the lane overlaps `x`; `ConflictsDatesOnly` states that it reads only `x`'s dates |
| `TimelineContext.FirstFree` | src/context/timeline-context.tsx:46-52 | the chosen lane is the first with no member overlapping the item; every lower lane has one; none free gives the lane count (a new lane) |
| `TimelineContext.ScanForFreeLane` | src/context/timeline-context.tsx:46-51 | the `while` scan stops at the lane `FirstFree` picks |
| `TimelineContext.PackFirstFit` | src/context/timeline-context.tsx:45-54 | the lanes after pushing each item in order into the lane `FirstFree` picks; its properties are `PackFirstFitKeeps` and `PackFirstFitSorted` |
| `TimelineContext.PushFirstFreeKeeps` | src/context/timeline-context.tsx:52-53 | appending an item to the first free lane keeps lanes non-empty, free of overlaps within a lane, and first-fit |
| `TimelineContext.PackFirstFitKeeps` | src/context/timeline-context.tsx:45-54 | re-packing keeps the lanes packed and holds exactly the old items plus the packed ones |
| `TimelineContext.PackFirstFitSorted` | src/context/timeline-context.tsx:41-54 | packing items in ascending start order leaves every lane in ascending start order |
| `TimelineContext.PackSorted` | src/context/timeline-context.tsx:43-54 | the packing loop builds exactly the lanes of the fold `PackFirstFit` |
| `TimelineContext.Reindex` | src/context/timeline-context.tsx:65-67 | every lane with each item's lane field set to that lane's index; its properties are `ReindexKeeps` |
| `TimelineContext.ReindexKeeps` | src/context/timeline-context.tsx:65-67 | after reindexing every item's lane field is its lane's index; nothing else changes, so packing and start order are kept |
| `TimelineContext.ReindexLanes` | src/context/timeline-context.tsx:65-67 | the index loop rewrites every lane as `Reindex` states |
| `TimelineContext.ItemUpdate` | src/context/timeline-context.tsx:27-69 | the lanes a move returns: the previous lanes for an unknown id; otherwise the others, sorted by start and packed with `PackFirstFit`, then the shifted target pushed into the lane `FirstFree` picks, then `Reindex`; its properties are `ItemUpdateLayout`, `ItemUpdatePartition`, `ItemUpdateMovedItem`, `ItemUpdateOrder` and `ItemUpdateKeepsIds` |
| `TimelineContext.ItemUpdateLayout` | src/context/timeline-context.tsx:45-67 | after a move no lane is empty, every item carries its lane's index, no two items of a lane overlap, and every lane below an item's lane holds a member that overlaps it (first-fit) |
| `TimelineContext.ItemUpdatePartition` | src/context/timeline-context.tsx:28-63 | after a move the lanes hold the filtered items (each item with another id as often as before, by `WithoutCounts`) and the shifted copy of the first item with the id, lane fields aside |
| `TimelineContext.ItemUpdateMovedItem` | src/context/timeline-context.tsx:56-67 | the moved item is the last item of its lane, carries that lane's index, and no other item has its id |
| `TimelineContext.ItemUpdateOrder` | src/context/timeline-context.tsx:41-63 | in every lane the items other than the moved one are in ascending start order |
| `TimelineContext.WithoutIds` | src/context/timeline-context.tsx:39 | filtering removes every occurrence of the id and keeps all other ids |
| `TimelineContext.ItemUpdateKeepsIds` | src/context/timeline-context.tsx:28-63 | with unique ids, a move keeps the multiset of ids (each id exactly once) and the item count |
| `TimelineContext.HandleItemUpdate` | src/context/timeline-context.tsx:26-71 | the method computes exactly `ItemUpdate`; an unknown id returns the previous lanes unchanged |
| `TimelineContext.TouchingItemsShareLaneOnMove` | src/context/timeline-context.tsx:47-51 | for an item that starts on the day a lane's only item ends, the full-scan lane choice used by a move picks that lane, while the load-time tail test picks a new lane |
| `TimelineContext.ItemNameUpdate` | src/context/timeline-context.tsx:77-85 | same number of lanes and lane lengths; every field but the name unchanged; the name becomes the new name exactly for items with the id |
| `TimelineContext.NameUpdateKeepsLayout` | src/context/timeline-context.tsx:77-85 | renaming keeps lanes packed and stamped and keeps the sequence of ids |
| `TimelineContext.NameUpdateUnknownId` | src/context/timeline-context.tsx:77-85 | renaming an id no item has leaves the lanes unchanged |
| `TimelineContext.NameUpdateIdempotent` | src/context/timeline-context.tsx:77-85 | renaming twice to the same name equals renaming once |

## Left out

- The React state container (`setLanesWithItems`, `useCallback`, the context value) is not modelled. Each handler is modelled as "new lanes = f(previous lanes)".
- Zoom persistence through `localStorage` and the `editingTask` toggle are host I/O and trivial UI state. They are not modelled.
- The rendering components, pointer handling and the pixel-to-day rounding are not part of this model.
- Date parsing and formatting (`parseISO`, `new Date`, `toISOString`) are not modelled; dates are day ordinals. So are local-timezone and daylight-saving effects in `addDays`, and invalid date strings (NaN times).
- `dateToX`'s zoom is a floating-point number in the source. The model takes an integer zoom.
- `Array.prototype.sort`'s algorithm is not modelled, only its effect. The model sorts with a stable insertion sort, and `StartOrder.StableSortUnique` shows every stable sort by start gives the same result.
- `lanes.indexOf(lane)` finds a lane by reference. The lanes are distinct arrays, so it is modelled as the index of the lane being scanned.
- In-place growth of the `lanes` array through `push` is modelled as reassigning a `seq<seq<Item>>`. Aliasing between lanes is not modelled; the source never shares a lane array.
- Neither packer is claimed to use the fewest possible lanes; no lemma states a lane count. The load packer is the interval-partitioning greedy over start-sorted items, but its strict tail test (`src/assignLanes.ts:15`) treats an item that starts on the day another ends as conflicting, so it can open more lanes than the half-open overlap test needs (`AssignLanes.TouchingItemsSeparatedAtLoad`). The move packer places the moved item after all the others, and no bound on its lane count is stated.
