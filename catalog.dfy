/**
 * The catalog side of the Walmart-style form's random receipt: the parsed
 * catalog document, its flattening into one pool of items, and the choice
 * of the first items of a shuffled pool. The shuffle and the count are
 * supplied by the caller (they come from `Math.random`).
 */
module Catalog {
  import opened Basics

  /** One entry of a category's `items`: its name, and its price in cents (None when not a number). */
  datatype CatalogItem = CatalogItem(name: string, price: Option<int>)

  datatype Category = Category(category: string, items: seq<CatalogItem>)

  /** The parsed document; `targetItems` is None when it has no `target_items` member. */
  datatype CatalogDoc = CatalogDoc(targetItems: Option<seq<Category>>)

  /** An item of the flattened pool, tagged with the name of its category. */
  datatype PoolItem = PoolItem(name: string, price: Option<int>, category: string)

  /** `Math.floor(Math.random() * 8) + 5` lies in this range. */
  const MinItems: nat := 5
  const MaxItems: nat := 12

  function Tag(c: Category, item: CatalogItem): PoolItem {
    PoolItem(item.name, item.price, c.category)
  }

  /** The first `j` items of category `c`, tagged with its name. */
  function Tagged(c: Category, j: nat): (p: seq<PoolItem>)
    requires j <= |c.items|
    ensures |p| == j
  {
    if j == 0 then [] else Tagged(c, j - 1) + [Tag(c, c.items[j - 1])]
  }

  /** Every item of every category, category by category, in document order. */
  function Flatten(cats: seq<Category>): seq<PoolItem> {
    if cats == [] then []
    else
      var last := cats[|cats| - 1];
      Flatten(cats[..|cats| - 1]) + Tagged(last, |last.items|)
  }

  /** The number of items over all categories. */
  function ItemTotal(cats: seq<Category>): nat {
    if cats == [] then 0 else ItemTotal(cats[..|cats| - 1]) + |cats[|cats| - 1].items|
  }

  /** The nested forEach that pushes every item of every category onto the pool. */
  method FlattenCatalog(cats: seq<Category>) returns (pool: seq<PoolItem>)
    ensures pool == Flatten(cats)
  {
    pool := [];
    var c := 0;
    while c < |cats|
      invariant 0 <= c <= |cats|
      invariant pool == Flatten(cats[..c])
    {
      var category := cats[c];
      var j := 0;
      while j < |category.items|
        invariant 0 <= j <= |category.items|
        invariant pool == Flatten(cats[..c]) + Tagged(category, j)
      {
        var item := category.items[j];
        pool := pool + [PoolItem(item.name, item.price, category.category)];
        j := j + 1;
      }
      assert cats[..c + 1][..c] == cats[..c];
      c := c + 1;
    }
    assert cats[..|cats|] == cats;
  }

  /** The pool holds as many items as all the categories together. */
  lemma {:induction false} FlattenLength(cats: seq<Category>)
    ensures |Flatten(cats)| == ItemTotal(cats)
    decreases |cats|
  {
    if cats != [] {
      FlattenLength(cats[..|cats| - 1]);
    }
  }

  lemma {:induction false} TaggedAt(c: Category, n: nat, j: nat)
    requires j < n <= |c.items|
    ensures Tagged(c, n)[j] == Tag(c, c.items[j])
    decreases n
  {
    if j < n - 1 {
      TaggedAt(c, n - 1, j);
    }
  }

  /**
   * Item `j` of category `c` sits in the pool after all the items of the
   * categories before `c`: the pool keeps category order and item order.
   */
  lemma {:induction false} FlattenAt(cats: seq<Category>, c: nat, j: nat)
    requires c < |cats| && j < |cats[c].items|
    ensures ItemTotal(cats[..c]) + j < |Flatten(cats)|
    ensures Flatten(cats)[ItemTotal(cats[..c]) + j] == Tag(cats[c], cats[c].items[j])
    decreases |cats|
  {
    var init, last := cats[..|cats| - 1], cats[|cats| - 1];
    FlattenLength(init);
    if c == |cats| - 1 {
      assert init == cats[..c];
      TaggedAt(last, |last.items|, j);
    } else {
      assert init[..c] == cats[..c];
      FlattenAt(init, c, j);
    }
  }

  /** `idx` names distinct positions of a sequence of length `n`. */
  ghost predicate DistinctIndices(idx: seq<nat>, n: nat) {
    (forall k :: 0 <= k < |idx| ==> idx[k] < n) &&
    (forall k, l :: 0 <= k < l < |idx| ==> idx[k] != idx[l])
  }

  /** `perm` is an ordering of the positions `0 .. n - 1`. */
  ghost predicate IsPermutation(perm: seq<nat>, n: nat) {
    |perm| == n && DistinctIndices(perm, n)
  }

  /** The elements of `pool` at the positions `idx`, in that order. */
  function Pick<T>(pool: seq<T>, idx: seq<nat>): (r: seq<T>)
    requires forall k :: 0 <= k < |idx| ==> idx[k] < |pool|
    ensures |r| == |idx|
  {
    seq(|idx|, k requires 0 <= k < |idx| => pool[idx[k]])
  }

  /** The pool after the shuffle: the item at position `perm[k]` comes `k`-th. */
  function Shuffle<T>(pool: seq<T>, perm: seq<nat>): (shuffled: seq<T>)
    requires IsPermutation(perm, |pool|)
    ensures |shuffled| == |pool|
  {
    Pick(pool, perm)
  }

  /** `shuffled.slice(0, n)`: the first `n` items of the shuffled pool, or all of them if fewer. */
  function Select<T>(pool: seq<T>, perm: seq<nat>, n: nat): (selected: seq<T>)
    requires IsPermutation(perm, |pool|)
    ensures |selected| == Min(n, |pool|)
  {
    Shuffle(pool, perm)[..Min(n, |pool|)]
  }

  /** `pool` without its element at position `j`. */
  function RemoveAt<T>(pool: seq<T>, j: nat): (r: seq<T>)
    requires j < |pool|
    ensures |r| == |pool| - 1
  {
    pool[..j] + pool[j + 1..]
  }

  /** The positions `idx` renumbered for the pool without position `j`. */
  function Shifted(idx: seq<nat>, j: nat): (r: seq<nat>)
    ensures |r| == |idx|
  {
    seq(|idx|, k requires 0 <= k < |idx| => if idx[k] > j then idx[k] - 1 else idx[k])
  }

  lemma ShiftedDistinct(idx: seq<nat>, j: nat, n: nat)
    requires DistinctIndices(idx, n) && j < n
    requires forall k :: 0 <= k < |idx| ==> idx[k] != j
    ensures DistinctIndices(Shifted(idx, j), n - 1)
  {
    var r := Shifted(idx, j);
    forall k, l | 0 <= k < l < |r| ensures r[k] != r[l] {
      assert idx[k] != idx[l];
    }
  }

  lemma PickShifted<T>(pool: seq<T>, idx: seq<nat>, j: nat)
    requires j < |pool|
    requires forall k :: 0 <= k < |idx| ==> idx[k] < |pool| && idx[k] != j
    ensures forall k :: 0 <= k < |idx| ==> Shifted(idx, j)[k] < |RemoveAt(pool, j)|
    ensures Pick(RemoveAt(pool, j), Shifted(idx, j)) == Pick(pool, idx)
  {
    var rest, r := RemoveAt(pool, j), Shifted(idx, j);
    forall k | 0 <= k < |idx| ensures r[k] < |rest| && rest[r[k]] == pool[idx[k]] {
    }
  }

  lemma MultisetRemoveAt<T>(pool: seq<T>, j: nat)
    requires j < |pool|
    ensures multiset(pool) == multiset(RemoveAt(pool, j)) + multiset{pool[j]}
  {
    assert pool == pool[..j] + [pool[j]] + pool[j + 1..];
  }

  /** Picking distinct positions never uses an element of the pool more often than it occurs there. */
  lemma {:induction false} PickSubMultiset<T>(pool: seq<T>, idx: seq<nat>)
    requires DistinctIndices(idx, |pool|)
    ensures multiset(Pick(pool, idx)) <= multiset(pool)
    decreases |idx|
  {
    if idx != [] {
      var j, tail := idx[0], idx[1..];
      assert Pick(pool, idx) == [pool[j]] + Pick(pool, tail);
      assert forall k :: 0 <= k < |tail| ==> tail[k] != j by {
        forall k | 0 <= k < |tail| ensures tail[k] != j {
          assert idx[k + 1] != idx[0];
        }
      }
      ShiftedDistinct(tail, j, |pool|);
      PickShifted(pool, tail, j);
      PickSubMultiset(RemoveAt(pool, j), Shifted(tail, j));
      MultisetRemoveAt(pool, j);
    }
  }

  /**
   * The random selection: its size is the drawn count capped by the pool size
   * (so at most twelve, and at least five when the pool has five items), and it
   * uses each pool entry at most as often as the pool holds it.
   */
  lemma SelectFromPool<T>(pool: seq<T>, perm: seq<nat>, n: nat)
    requires IsPermutation(perm, |pool|) && MinItems <= n <= MaxItems
    ensures |Select(pool, perm, n)| == Min(n, |pool|) <= MaxItems
    ensures |pool| >= MinItems ==> |Select(pool, perm, n)| >= MinItems
    ensures multiset(Select(pool, perm, n)) <= multiset(pool)
    ensures forall x :: x in Select(pool, perm, n) ==> x in pool
  {
    var k := Min(n, |pool|);
    var prefix := perm[..k];
    assert Select(pool, perm, n) == Pick(pool, prefix);
    PickSubMultiset(pool, prefix);
    forall x | x in Select(pool, perm, n) ensures x in pool {
      assert x in multiset(Select(pool, perm, n));
    }
  }
}
