/** The constructor sorts the size and fleet frequency tables, pairs of
    (category, frequency), so that the rows and columns of the joint table
    come in category order. Python compares the pairs lexicographically. */
module Sorting {

  /** A frequency table: (category, frequency) pairs. */
  type FreqTable = seq<(nat, nat)>

  /** Python's tuple order on (category, frequency) pairs. */
  predicate PairLe(a: (nat, nat), b: (nat, nat)) {
    a.0 < b.0 || (a.0 == b.0 && a.1 <= b.1)
  }

  predicate Sorted(s: FreqTable) {
    forall i, j :: 0 <= i < j < |s| ==> PairLe(s[i], s[j])
  }

  /** Places one pair in front of the first pair it does not exceed. */
  function Insert(x: (nat, nat), s: FreqTable): (r: FreqTable)
    requires Sorted(s)
    ensures Sorted(r)
    ensures multiset(r) == multiset(s) + multiset{x}
    ensures forall k :: 0 <= k < |r| ==> r[k] == x || r[k] in s
  {
    if |s| == 0 || PairLe(x, s[0]) then
      [x] + s
    else
      var rest := Insert(x, s[1..]);
      LowerBound(x, s, rest);
      assert s == [s[0]] + s[1..];
      [s[0]] + rest
  }

  /** The head of a sorted table bounds every pair inserted behind it. */
  lemma LowerBound(x: (nat, nat), s: FreqTable, rest: FreqTable)
    requires Sorted(s) && |s| > 0 && !PairLe(x, s[0])
    requires forall k :: 0 <= k < |rest| ==> rest[k] == x || rest[k] in s[1..]
    ensures forall k :: 0 <= k < |rest| ==> PairLe(s[0], rest[k])
  {
    forall k | 0 <= k < |rest|
      ensures PairLe(s[0], rest[k])
    {
      if rest[k] != x {
        var m :| 0 <= m < |s[1..]| && s[1..][m] == rest[k];
        assert s[m + 1] == rest[k];
      }
    }
  }

  /** `sorted(freq)`: a sorted rearrangement of the table. */
  function Sort(s: FreqTable): (r: FreqTable)
    ensures Sorted(r)
    ensures multiset(r) == multiset(s)
    ensures |r| == |s|
  {
    if |s| == 0 then []
    else
      assert s == [s[0]] + s[1..];
      Insert(s[0], Sort(s[1..]))
  }
}
