/**
 * Ordering items by start date. Both lane packers sort with the comparator
 * `a.start - b.start` and rely on the sort being stable; the sort is modelled
 * by a stable insertion sort, and `StableSortUnique` shows that any stable
 * sort by start gives the same sequence.
 */
module StartOrder {
  import opened Items

  predicate SortedByStart(s: seq<Item>)
  {
    forall i, j :: 0 <= i < j < |s| ==> s[i].start <= s[j].start
  }

  /** Each lane lists its items in ascending start order. */
  predicate LanesSortedByStart(lanes: seq<seq<Item>>)
  {
    forall i, j1, j2 :: 0 <= i < |lanes| && 0 <= j1 < j2 < |lanes[i]| ==> lanes[i][j1].start <= lanes[i][j2].start
  }

  /** The items of `s` that start on day `d`, in their order in `s`. */
  function WithStart(s: seq<Item>, d: Day): seq<Item>
  {
    if s == [] then [] else (if s[0].start == d then [s[0]] else []) + WithStart(s[1..], d)
  }

  /** Inserts `x` before the first item that starts no earlier than it. */
  function Insert(x: Item, s: seq<Item>): (r: seq<Item>)
    ensures |r| == |s| + 1
    ensures r[0] == x || (s != [] && r[0] == s[0])
  {
    if s == [] || x.start <= s[0].start then [x] + s
    else [s[0]] + Insert(x, s[1..])
  }

  lemma SortedTail(s: seq<Item>)
    requires SortedByStart(s) && s != []
    ensures SortedByStart(s[1..])
  {
    var t := s[1..];
    forall i, j | 0 <= i < j < |t| ensures t[i].start <= t[j].start {
      assert t[i] == s[i + 1] && t[j] == s[j + 1];
    }
  }

  lemma ConsSorted(y: Item, r: seq<Item>)
    requires SortedByStart(r) && (r != [] ==> y.start <= r[0].start)
    ensures SortedByStart([y] + r)
  {
    var q := [y] + r;
    forall i, j | 0 <= i < j < |q| ensures q[i].start <= q[j].start {
      if i == 0 {
        assert q[j] == r[j - 1];
        if j > 1 {
          assert r[0].start <= r[j - 1].start;
        }
      } else {
        assert q[i] == r[i - 1] && q[j] == r[j - 1];
      }
    }
  }

  /** Inserting into a start-sorted sequence keeps it sorted. */
  lemma {:induction false} InsertSorted(x: Item, s: seq<Item>)
    requires SortedByStart(s)
    ensures SortedByStart(Insert(x, s))
    decreases |s|
  {
    if s == [] || x.start <= s[0].start {
      ConsSorted(x, s);
    } else {
      var t := s[1..];
      SortedTail(s);
      InsertSorted(x, t);
      var rest := Insert(x, t);
      assert t != [] ==> s[0].start <= t[0].start;
      ConsSorted(s[0], rest);
    }
  }

  /** Inserting adds exactly the inserted item. */
  lemma {:induction false} InsertPerm(x: Item, s: seq<Item>)
    ensures multiset(Insert(x, s)) == multiset(s) + multiset{x}
    decreases |s|
  {
    if s != [] && s[0].start < x.start {
      var t := s[1..];
      var rest := Insert(x, t);
      InsertPerm(x, t);
      assert Insert(x, s) == [s[0]] + rest;
      assert multiset([s[0]] + rest) == multiset{s[0]} + multiset(rest);
      assert s == [s[0]] + t;
      assert multiset(s) == multiset{s[0]} + multiset(t);
    }
  }

  function SortByStart(s: seq<Item>): (r: seq<Item>)
    ensures |r| == |s|
    ensures SortedByStart(r)
    ensures multiset(r) == multiset(s)
  {
    if s == [] then []
    else
      assert s == [s[0]] + s[1..];
      var rest := SortByStart(s[1..]);
      InsertSorted(s[0], rest);
      InsertPerm(s[0], rest);
      Insert(s[0], rest)
  }

  /** Sorting a sequence that is already in start order leaves it as it is. */
  lemma {:induction false} SortSortedUnchanged(s: seq<Item>)
    requires SortedByStart(s)
    ensures SortByStart(s) == s
    decreases |s|
  {
    if s != [] {
      var t := s[1..];
      assert SortedByStart(t) by {
        forall i, j | 0 <= i < j < |t| ensures t[i].start <= t[j].start {
          assert t[i] == s[i + 1] && t[j] == s[j + 1];
        }
      }
      SortSortedUnchanged(t);
      assert s == [s[0]] + t;
      if t != [] {
        assert s[0].start <= t[0].start;
      }
    }
  }

  lemma WithStartCons(x: Item, s: seq<Item>, d: Day)
    ensures WithStart([x] + s, d) == (if x.start == d then [x] else []) + WithStart(s, d)
  {
    assert ([x] + s)[1..] == s;
  }

  lemma {:induction false} InsertStable(x: Item, s: seq<Item>, d: Day)
    requires SortedByStart(s)
    ensures WithStart(Insert(x, s), d) == (if x.start == d then [x] else []) + WithStart(s, d)
    decreases |s|
  {
    if s == [] || x.start <= s[0].start {
      WithStartCons(x, s, d);
    } else {
      var t := s[1..];
      InsertStable(x, t, d);
      WithStartCons(s[0], Insert(x, t), d);
      WithStartCons(s[0], t, d);
      assert s == [s[0]] + t;
      assert s[0].start < x.start;
    }
  }

  /** The sort is stable: items that start on the same day keep their relative order. */
  lemma {:induction false} SortStable(s: seq<Item>, d: Day)
    ensures WithStart(SortByStart(s), d) == WithStart(s, d)
    decreases |s|
  {
    if s != [] {
      SortStable(s[1..], d);
      InsertStable(s[0], SortByStart(s[1..]), d);
    }
  }

  lemma {:induction false} WithStartAbsent(s: seq<Item>, d: Day)
    requires forall i :: 0 <= i < |s| ==> s[i].start != d
    ensures WithStart(s, d) == []
    decreases |s|
  {
    if s != [] {
      WithStartAbsent(s[1..], d);
    }
  }

  lemma HeadHasItsDay(s: seq<Item>)
    requires s != []
    ensures WithStart(s, s[0].start) != []
  {
  }

  lemma {:induction false} NoneBeforeHead(s: seq<Item>, d: Day)
    requires SortedByStart(s) && s != [] && d < s[0].start
    ensures WithStart(s, d) == []
  {
    WithStartAbsent(s, d);
  }

  /** Two sequences sorted by start that agree on every day's items in order are equal. */
  lemma {:induction false} StableSortUnique(a: seq<Item>, b: seq<Item>)
    requires SortedByStart(a) && SortedByStart(b)
    requires forall d :: WithStart(a, d) == WithStart(b, d)
    ensures a == b
    decreases |a| + |b|
  {
    if a == [] && b != [] {
      HeadHasItsDay(b);
      assert false;
    } else if b == [] && a != [] {
      HeadHasItsDay(a);
      assert false;
    } else if a != [] && b != [] {
      if a[0].start < b[0].start {
        HeadHasItsDay(a);
        NoneBeforeHead(b, a[0].start);
        assert false;
      } else if b[0].start < a[0].start {
        HeadHasItsDay(b);
        NoneBeforeHead(a, b[0].start);
        assert false;
      } else {
        forall d ensures WithStart(a[1..], d) == WithStart(b[1..], d) {
          var head := if a[0].start == d then [a[0]] else [];
          assert WithStart(a, a[0].start)[0] == a[0];
          assert WithStart(b, a[0].start)[0] == b[0];
          assert WithStart(a, d) == head + WithStart(a[1..], d);
          assert WithStart(b, d) == head + WithStart(b[1..], d);
          assert WithStart(a[1..], d) == WithStart(a, d)[|head|..];
        }
        StableSortUnique(a[1..], b[1..]);
        assert a == [a[0]] + a[1..] && b == [b[0]] + b[1..];
      }
    }
  }

  /** `items.sort((a, b) => a.start - b.start)`: sorts the array in place. */
  method SortInPlace(a: array<Item>)
    modifies a
    ensures a[..] == SortByStart(old(a[..]))
  {
    var sorted := SortByStart(a[..]);
    for i := 0 to a.Length
      invariant a[..i] == sorted[..i]
    {
      a[i] := sorted[i];
    }
    assert a[..] == a[..a.Length];
  }
}
