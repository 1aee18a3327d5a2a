/** Timeline items and lanes, with calendar dates modelled as whole-day ordinals. */
module Items {

  datatype Option<T> = None | Some(value: T)

  /** A calendar date, counted in whole days from a fixed epoch. */
  type Day = int

  /** A timeline item. `lane` is the optional cache of the index of the lane that holds it. */
  datatype Item = Item(id: int, start: Day, end: Day, name: string, lane: Option<int>)

  /** An item with its lane cache cleared: what the item is, apart from where it is drawn. */
  function Strip(x: Item): Item { x.(lane := None) }

  function IdOf(x: Item): int { x.id }

  function Map<A, B>(s: seq<A>, f: A -> B): (r: seq<B>)
    ensures |r| == |s|
    ensures forall i :: 0 <= i < |s| ==> r[i] == f(s[i])
  {
    if s == [] then [] else [f(s[0])] + Map(s[1..], f)
  }

  function Unlaned(s: seq<Item>): seq<Item> { Map(s, Strip) }

  function Ids(s: seq<Item>): seq<int> { Map(s, IdOf) }

  /** The items of `s`, lane caches ignored, as a multiset. */
  function Bag(s: seq<Item>): multiset<Item> { multiset(Unlaned(s)) }

  /** `lanes.flat()`: the lanes concatenated in order. */
  function Flatten(lanes: seq<seq<Item>>): seq<Item>
  {
    if lanes == [] then [] else lanes[0] + Flatten(lanes[1..])
  }

  function Last(lane: seq<Item>): Item
    requires lane != []
  {
    lane[|lane| - 1]
  }

  predicate NonEmptyLanes(lanes: seq<seq<Item>>)
  {
    forall i :: 0 <= i < |lanes| ==> lanes[i] != []
  }

  /** Lane `i` holds only items whose lane cache is `i`. */
  predicate Stamped(lanes: seq<seq<Item>>)
  {
    forall i, j :: 0 <= i < |lanes| && 0 <= j < |lanes[i]| ==> lanes[i][j].lane == Some(i)
  }

  /** `lanes[k].push(x)`; when `k == |lanes|` a new lane is opened first. */
  function Push(lanes: seq<seq<Item>>, k: nat, x: Item): (r: seq<seq<Item>>)
    requires k <= |lanes|
    ensures |r| == if k < |lanes| then |lanes| else |lanes| + 1
    ensures r[k] == (if k < |lanes| then lanes[k] else []) + [x]
    ensures forall i :: 0 <= i < |lanes| && i != k ==> r[i] == lanes[i]
  {
    if k < |lanes| then lanes[k := lanes[k] + [x]] else lanes + [[x]]
  }

  lemma PushKeepsNonEmpty(lanes: seq<seq<Item>>, k: nat, x: Item)
    requires k <= |lanes| && NonEmptyLanes(lanes)
    ensures NonEmptyLanes(Push(lanes, k, x))
  {
  }

  lemma MapAppend<A, B>(a: seq<A>, b: seq<A>, f: A -> B)
    ensures Map(a + b, f) == Map(a, f) + Map(b, f)
  {
  }

  lemma MultisetRemove<A>(b: seq<A>, k: nat)
    requires k < |b|
    ensures multiset(b) == multiset(b[..k] + b[k + 1..]) + multiset{b[k]}
  {
    assert b == b[..k] + [b[k]] + b[k + 1..];
  }

  /** How removing position `k` of `b` relates to removing position `k - 1` of its tail. */
  lemma RemoveShift<A>(b: seq<A>, k: nat)
    requires k < |b|
    ensures k == 0 ==> b[..k] + b[k + 1..] == b[1..]
    ensures 0 < k ==> var rest := b[..k] + b[k + 1..];
      rest != [] && rest[0] == b[0] && rest[1..] == b[1..][..k - 1] + b[1..][k..] && b[1..][k - 1] == b[k]
  {
    if 0 < k {
      var rest := b[..k] + b[k + 1..];
      assert rest[1..] == b[1..][..k - 1] + b[1..][k..];
    }
  }

  lemma MapCons<A, B>(s: seq<A>, f: A -> B)
    requires s != []
    ensures multiset(Map(s, f)) == multiset{f(s[0])} + multiset(Map(s[1..], f))
  {
    assert Map(s, f) == [f(s[0])] + Map(s[1..], f);
  }

  lemma {:induction false} MapRemove<A, B>(b: seq<A>, k: nat, f: A -> B)
    requires k < |b|
    ensures multiset(Map(b, f)) == multiset(Map(b[..k] + b[k + 1..], f)) + multiset{f(b[k])}
    decreases k
  {
    var rest := b[..k] + b[k + 1..];
    MapCons(b, f);
    RemoveShift(b, k);
    if k > 0 {
      var t := b[1..];
      MapRemove(t, k - 1, f);
      MapCons(rest, f);
    }
  }

  lemma CancelOne<A>(m1: multiset<A>, m2: multiset<A>, x: A)
    requires m1 + multiset{x} == m2 + multiset{x}
    ensures m1 == m2
  {
    assert forall y :: m1[y] == (m1 + multiset{x})[y] - multiset{x}[y];
    assert forall y :: m2[y] == (m2 + multiset{x})[y] - multiset{x}[y];
  }

  /** Mapping a function over two permutations of each other gives permutations of each other. */
  lemma {:induction false} MapPerm<A, B>(a: seq<A>, b: seq<A>, f: A -> B)
    requires multiset(a) == multiset(b)
    ensures multiset(Map(a, f)) == multiset(Map(b, f))
    decreases |a|
  {
    if a == [] {
      assert |b| == |multiset(b)| == 0;
    } else {
      var x := a[0];
      assert x in multiset(b);
      var k :| 0 <= k < |b| && b[k] == x;
      var rest := b[..k] + b[k + 1..];
      MultisetRemove(b, k);
      assert a == [x] + a[1..];
      CancelOne(multiset(a[1..]), multiset(rest), x);
      MapPerm(a[1..], rest, f);
      MapCons(a, f);
      MapRemove(b, k, f);
    }
  }

  lemma BagAppend(a: seq<Item>, b: seq<Item>)
    ensures Bag(a + b) == Bag(a) + Bag(b)
  {
    MapAppend(a, b, Strip);
  }

  lemma BagOfPerm(a: seq<Item>, b: seq<Item>)
    requires multiset(a) == multiset(b)
    ensures Bag(a) == Bag(b)
  {
    MapPerm(a, b, Strip);
  }

  /** Pushing an item adds exactly that item to the flattened lanes. */
  lemma {:induction false} FlattenPush(lanes: seq<seq<Item>>, k: nat, x: Item)
    requires k <= |lanes|
    ensures multiset(Flatten(Push(lanes, k, x))) == multiset(Flatten(lanes)) + multiset{x}
    decreases |lanes|
  {
    var r := Push(lanes, k, x);
    if lanes == [] {
      assert r == [[x]];
      assert r[1..] == [];
    } else if k == 0 {
      assert r[1..] == lanes[1..];
    } else {
      assert r[1..] == Push(lanes[1..], k - 1, x);
      FlattenPush(lanes[1..], k - 1, x);
    }
  }

  lemma FlattenPushBag(lanes: seq<seq<Item>>, k: nat, x: Item)
    requires k <= |lanes|
    ensures Bag(Flatten(Push(lanes, k, x))) == Bag(Flatten(lanes)) + multiset{Strip(x)}
  {
    var flat := Flatten(lanes);
    FlattenPush(lanes, k, x);
    assert multiset(flat + [x]) == multiset(flat) + multiset{x};
    BagOfPerm(Flatten(Push(lanes, k, x)), flat + [x]);
    BagAppend(flat, [x]);
    assert Bag([x]) == multiset{Strip(x)};
  }

  /** Two lane lists of the same shape whose items differ at most in their lane caches. */
  predicate SameButLanes(a: seq<seq<Item>>, b: seq<seq<Item>>)
  {
    |a| == |b| && forall i :: 0 <= i < |a| ==> Unlaned(a[i]) == Unlaned(b[i])
  }

  lemma {:induction false} FlattenSameButLanes(a: seq<seq<Item>>, b: seq<seq<Item>>)
    requires SameButLanes(a, b)
    ensures Unlaned(Flatten(a)) == Unlaned(Flatten(b))
    decreases |a|
  {
    if a != [] {
      assert SameButLanes(a[1..], b[1..]) by {
        forall i | 0 <= i < |a| - 1 ensures Unlaned(a[1..][i]) == Unlaned(b[1..][i]) {
          assert a[1..][i] == a[i + 1] && b[1..][i] == b[i + 1];
        }
      }
      FlattenSameButLanes(a[1..], b[1..]);
      MapAppend(a[0], Flatten(a[1..]), Strip);
      MapAppend(b[0], Flatten(b[1..]), Strip);
    }
  }

  lemma {:induction false} InFlatten(lanes: seq<seq<Item>>, x: Item)
    ensures x in Flatten(lanes) <==> exists i, j :: 0 <= i < |lanes| && 0 <= j < |lanes[i]| && lanes[i][j] == x
    decreases |lanes|
  {
    if lanes != [] {
      InFlatten(lanes[1..], x);
      if x in Flatten(lanes[1..]) {
        var i, j :| 0 <= i < |lanes[1..]| && 0 <= j < |lanes[1..][i]| && lanes[1..][i][j] == x;
        assert lanes[i + 1][j] == x;
      }
      if exists i, j :: 0 <= i < |lanes| && 0 <= j < |lanes[i]| && lanes[i][j] == x {
        var i, j :| 0 <= i < |lanes| && 0 <= j < |lanes[i]| && lanes[i][j] == x;
        if i > 0 {
          assert lanes[1..][i - 1][j] == x;
        }
      }
    }
  }

  /** Every item of the lanes satisfies `p`. */
  predicate AllItems(lanes: seq<seq<Item>>, p: Item -> bool)
  {
    forall i, j :: 0 <= i < |lanes| && 0 <= j < |lanes[i]| ==> p(lanes[i][j])
  }
}
