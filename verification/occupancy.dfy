/** The fixed occupancy rule that splits a household of a given size into
    workers (adults) and students (children), applied per household and, in
    aggregate, to the whole size-frequency table. */
module Occupancy {
  import opened Sorting

  datatype Role = Worker | Student

  /** Workers in a household: two when the size exceeds three, otherwise
      the size itself. */
  function Workers(size: nat): nat {
    if size > 3 then 2 else size
  }

  /** Students in a household: none below size three, otherwise the size
      less two. */
  function Students(size: nat): nat {
    if size < 3 then 0 else size - 2
  }

  function Occupants(role: Role, size: nat): nat {
    match role
    case Worker => Workers(size)
    case Student => Students(size)
  }

  /** Members created for a household of the given size. As written the
      rule gives a size-three household three workers and one student, so
      that household has four members; every other size gets exactly its
      size. */
  lemma MembersOfSize(size: nat)
    ensures Workers(size) + Students(size) == if size == 3 then 4 else size
    ensures Workers(size) <= 3
    ensures Students(size) == 0 <==> size < 3
  {
  }

  /** The aggregate count over a (size, frequency) table:
      the sum of frequency times the per-household count. */
  function Total(role: Role, sizeFreq: FreqTable): nat {
    if |sizeFreq| == 0 then 0
    else sizeFreq[0].1 * Occupants(role, sizeFreq[0].0) + Total(role, sizeFreq[1..])
  }

  /** The aggregate over a table made of two parts is the sum over the
      parts, so it does not depend on how the table is split. */
  lemma {:induction false} TotalAppend(role: Role, a: FreqTable, b: FreqTable)
    ensures Total(role, a + b) == Total(role, a) + Total(role, b)
  {
    if |a| > 0 {
      assert (a + b)[1..] == a[1..] + b;
      TotalAppend(role, a[1..], b);
    } else {
      assert a + b == b;
    }
  }

  /** Taking one row out of a table takes its share out of the aggregate. */
  lemma TotalRemove(role: Role, b: FreqTable, k: nat)
    requires k < |b|
    ensures Total(role, b) == b[k].1 * Occupants(role, b[k].0) + Total(role, b[..k] + b[k + 1..])
  {
    var tail := [b[k]] + b[k + 1..];
    assert tail[1..] == b[k + 1..];
    assert b == b[..k] + tail;
    TotalAppend(role, b[..k], tail);
    TotalAppend(role, b[..k], b[k + 1..]);
  }

  /** Removing the same element from two equal multisets of rows leaves
      equal multisets. */
  lemma RemoveFirst(a: FreqTable, b: FreqTable, k: nat)
    requires |a| > 0 && k < |b| && b[k] == a[0]
    requires multiset(a) == multiset(b)
    ensures multiset(a[1..]) == multiset(b[..k] + b[k + 1..])
  {
    assert b == b[..k] + [b[k]] + b[k + 1..];
    assert a == [a[0]] + a[1..];
    var rest := b[..k] + b[k + 1..];
    assert multiset(rest) == multiset(b[..k]) + multiset(b[k + 1..]);
    assert multiset(a[1..]) == multiset(a) - multiset{a[0]};
    assert multiset(rest) == multiset(b) - multiset{b[k]};
  }

  /** The aggregate does not depend on the order of the table's rows, so
      sorting the table in the constructor leaves it unchanged. */
  lemma {:induction false} TotalPermutation(role: Role, a: FreqTable, b: FreqTable)
    requires multiset(a) == multiset(b)
    ensures Total(role, a) == Total(role, b)
    decreases |a|
  {
    if |a| > 0 {
      assert a[0] in multiset(b);
      var k :| 0 <= k < |b| && b[k] == a[0];
      RemoveFirst(a, b, k);
      TotalPermutation(role, a[1..], b[..k] + b[k + 1..]);
      TotalRemove(role, b, k);
    } else {
      assert |b| == |multiset(b)| == 0;
    }
  }
}
