/** The capacity-constrained assignment sampler: a capacity table is
    expanded into a pool in which every slot appears as often as its
    capacity, the pool is shuffled, and a prefix of the requested length is
    handed out. */
module Sampler {
  import opened Results

  /** A capacity table as the items of a dictionary, in iteration order:
      pairs of slot identity and remaining capacity. */
  type Items<S> = seq<(S, nat)>

  /** A dictionary's items never repeat a key. */
  predicate IsDict<S(==)>(items: Items<S>) {
    forall i, j :: 0 <= i < j < |items| ==> items[i].0 != items[j].0
  }

  /** Total capacity of the table, `sum(capacity.values())`. */
  function CapSum<S>(items: Items<S>): nat {
    if |items| == 0 then 0 else items[0].1 + CapSum(items[1..])
  }

  /** Capacity of one slot: the sum over the entries for that slot (for a
      dictionary, its value, or zero when it is not a key). */
  function CapacityOf<S(==)>(items: Items<S>, s: S): nat {
    if |items| == 0 then 0
    else (if items[0].0 == s then items[0].1 else 0) + CapacityOf(items[1..], s)
  }

  /** `itertools.repeat(x, n)` as a sequence. */
  function Repeat<T>(x: T, n: nat): (r: seq<T>)
    ensures |r| == n
    ensures forall k :: 0 <= k < n ==> r[k] == x
  {
    if n == 0 then [] else [x] + Repeat(x, n - 1)
  }

  /** The pool before shuffling: every slot repeated `capacity` times, in
      the table's iteration order. */
  function Expand<S>(items: Items<S>): seq<S> {
    if |items| == 0 then [] else Repeat(items[0].0, items[0].1) + Expand(items[1..])
  }

  lemma RepeatCount<T>(x: T, n: nat)
    ensures multiset(Repeat(x, n))[x] == n
    ensures forall y :: y != x ==> multiset(Repeat(x, n))[y] == 0
  {
    if n > 0 {
      RepeatCount(x, n - 1);
    }
  }

  /** Expanding a capacity table puts every slot into the pool exactly as
      often as its capacity, so the pool is as long as the total capacity. */
  lemma {:induction false} ExpandCounts<S>(items: Items<S>)
    ensures |Expand(items)| == CapSum(items)
    ensures forall s :: multiset(Expand(items))[s] == CapacityOf(items, s)
  {
    if |items| > 0 {
      ExpandCounts(items[1..]);
      RepeatCount(items[0].0, items[0].1);
      assert multiset(Expand(items)) ==
        multiset(Repeat(items[0].0, items[0].1)) + multiset(Expand(items[1..]));
    }
  }

  /** For a dictionary, the capacity of a key is its value and the capacity
      of anything else is zero. */
  lemma {:induction false} DictCapacity<S>(items: Items<S>, s: S)
    requires IsDict(items)
    ensures forall k :: 0 <= k < |items| && items[k].0 == s ==> CapacityOf(items, s) == items[k].1
    ensures (forall k :: 0 <= k < |items| ==> items[k].0 != s) ==> CapacityOf(items, s) == 0
  {
    if |items| > 0 {
      assert IsDict(items[1..]) by {
        forall i, j | 0 <= i < j < |items[1..]|
          ensures items[1..][i].0 != items[1..][j].0
        {
          assert items[1..][i] == items[i + 1] && items[1..][j] == items[j + 1];
        }
      }
      DictCapacity(items[1..], s);
      if items[0].0 == s {
        assert forall k :: 0 < k < |items| ==> items[k].0 != s;
        assert forall k :: 0 <= k < |items[1..]| ==> items[1..][k] == items[k + 1];
      } else {
        assert forall k :: 0 <= k < |items[1..]| ==> items[1..][k] == items[k + 1];
      }
    }
  }

  /** Exchange of two positions, `x[i], x[j] = x[j], x[i]`. */
  function Swap<T>(xs: seq<T>, i: nat, j: nat): (r: seq<T>)
    requires i < |xs| && j < |xs|
    ensures |r| == |xs|
    ensures r[i] == xs[j] && r[j] == xs[i]
    ensures forall k :: 0 <= k < |xs| && k != i && k != j ==> r[k] == xs[k]
    ensures multiset(r) == multiset(xs)
  {
    xs[i := xs[j]][j := xs[i]]
  }

  /** `random.shuffle` (Fisher-Yates): for i = n-1 down to 1, swap position
      i with a drawn position j in [0, i]. The random source is the oracle
      `pick`, whose draw for position i is reduced into [0, i]; every
      in-range draw is a value of this form, so every run of the shuffle is
      one choice of `pick`. */
  function ShuffleDown<T>(xs: seq<T>, n: nat, pick: nat -> nat): (r: seq<T>)
    requires n <= |xs|
    ensures |r| == |xs|
    ensures multiset(r) == multiset(xs)
    ensures r[n..] == xs[n..]
    decreases n
  {
    if n <= 1 then xs
    else
      var i := n - 1;
      var j := pick(i) % (i + 1);
      var ys := Swap(xs, i, j);
      ShuffleDown(ys, i, pick)
  }

  /** The shuffled pool is a rearrangement of the unshuffled one. */
  function Shuffle<T>(xs: seq<T>, pick: nat -> nat): (r: seq<T>)
    ensures |r| == |xs|
    ensures multiset(r) == multiset(xs)
  {
    ShuffleDown(xs, |xs|, pick)
  }

  /** `_rand_assignment`: the shuffled pool. Each slot occurs exactly as
      often as its capacity. */
  function RandAssignment<S(==,!new)>(items: Items<S>, pick: nat -> nat): (r: seq<S>)
    ensures |r| == CapSum(items)
    ensures forall s :: multiset(r)[s] == CapacityOf(items, s)
  {
    ExpandCounts(items);
    Shuffle(Expand(items), pick)
  }

  lemma PrefixMultiset<T>(xs: seq<T>, n: nat)
    requires n <= |xs|
    ensures multiset(xs[..n]) <= multiset(xs)
  {
    assert xs == xs[..n] + xs[n..];
  }

  /** `_get_assignments`: fails when the total capacity is below `total`,
      and otherwise hands out the first `total` entries of the shuffled
      pool. */
  function GetAssignments<S(==,!new)>(items: Items<S>, total: nat, pick: nat -> nat): (r: Result<seq<S>>)
    ensures r.Err? <==> CapSum(items) < total
    ensures r.Err? ==> r.error == Shortfall(CapSum(items), total)
    ensures r.Ok? ==> |r.value| == total
    ensures r.Ok? ==> forall s :: multiset(r.value)[s] <= CapacityOf(items, s)
    ensures r.Ok? ==> multiset(r.value) <= multiset(Expand(items))
  {
    var capsum := CapSum(items);
    if capsum < total then Err(Shortfall(capsum, total))
    else
      var pool := RandAssignment(items, pick);
      PrefixMultiset(pool, total);
      ExpandCounts(items);
      Ok(pool[0..total])
  }
}
