/** The aggregate worker and student totals that `create_households`
    requests from the sampler, and how they relate to what the walk over
    the joint table actually draws: the two agree whenever every column of
    the table adds up to the frequency of its size. */
module Aggregate {
  import opened Sampler
  import opened Sorting
  import opened Occupancy
  import opened TableWalk

  /** The categories of a frequency table, in table order. */
  function Labels(t: FreqTable): (r: seq<nat>)
    ensures |r| == |t|
  {
    seq(|t|, k requires 0 <= k < |t| => t[k].0)
  }

  /** The frequencies of a frequency table, in table order. */
  function Freqs(t: FreqTable): (r: seq<nat>)
    ensures |r| == |t|
  {
    seq(|t|, k requires 0 <= k < |t| => t[k].1)
  }

  /** The per-household count of a role for each size. */
  function Weights(role: Role, sizes: seq<nat>): (r: seq<nat>)
    ensures |r| == |sizes|
  {
    seq(|sizes|, j requires 0 <= j < |sizes| => Occupants(role, sizes[j]))
  }

  function Dot(a: seq<nat>, w: seq<nat>): nat
    requires |a| == |w|
  {
    if |a| == 0 then 0 else a[0] * w[0] + Dot(a[1..], w[1..])
  }

  function Zeros(n: nat): (r: seq<nat>)
    ensures |r| == n
  {
    seq(n, _ => 0)
  }

  function Add(a: seq<nat>, b: seq<nat>): (r: seq<nat>)
    requires |a| == |b|
    ensures |r| == |a|
  {
    seq(|a|, k requires 0 <= k < |a| => a[k] + b[k])
  }

  /** The column sums of a table with `columns` columns. */
  function ColumnSums(table: Table, columns: nat): (r: seq<nat>)
    requires Shaped(table, |table|, columns)
    ensures |r| == columns
  {
    if |table| == 0 then Zeros(columns) else Add(table[0], ColumnSums(table[1..], columns))
  }

  lemma {:induction false} NeedRepeat(role: Role, x: (nat, nat), n: nat)
    ensures Need(role, Repeat(x, n)) == n * Occupants(role, x.0)
  {
    if n > 0 {
      NeedRepeat(role, x, n - 1);
      assert Repeat(x, n)[1..] == Repeat(x, n - 1);
    }
  }

  lemma {:induction false} NeedPlanRow(role: Role, row: seq<nat>, sizes: seq<nat>, fleet: nat)
    requires |row| == |sizes|
    ensures Need(role, PlanRow(row, sizes, fleet)) == Dot(row, Weights(role, sizes))
  {
    if |row| > 0 {
      NeedAppend(role, Repeat((sizes[0], fleet), row[0]), PlanRow(row[1..], sizes[1..], fleet));
      NeedRepeat(role, (sizes[0], fleet), row[0]);
      NeedPlanRow(role, row[1..], sizes[1..], fleet);
      assert Weights(role, sizes)[1..] == Weights(role, sizes[1..]);
    }
  }

  lemma {:induction false} DotAdd(a: seq<nat>, b: seq<nat>, w: seq<nat>)
    requires |a| == |b| == |w|
    ensures Dot(Add(a, b), w) == Dot(a, w) + Dot(b, w)
  {
    if |a| > 0 {
      assert Add(a, b)[1..] == Add(a[1..], b[1..]);
      DotAdd(a[1..], b[1..], w[1..]);
      assert (a[0] + b[0]) * w[0] == a[0] * w[0] + b[0] * w[0];
    }
  }

  lemma {:induction false} DotZeros(w: seq<nat>)
    ensures Dot(Zeros(|w|), w) == 0
  {
    if |w| > 0 {
      assert Zeros(|w|)[1..] == Zeros(|w| - 1);
      DotZeros(w[1..]);
    }
  }

  lemma {:induction false} SumAdd(a: seq<nat>, b: seq<nat>)
    requires |a| == |b|
    ensures Sum(Add(a, b)) == Sum(a) + Sum(b)
  {
    if |a| > 0 {
      assert Add(a, b)[1..] == Add(a[1..], b[1..]);
      SumAdd(a[1..], b[1..]);
    }
  }

  lemma {:induction false} SumZeros(n: nat)
    ensures Sum(Zeros(n)) == 0
  {
    if n > 0 {
      assert Zeros(n)[1..] == Zeros(n - 1);
      SumZeros(n - 1);
    }
  }

  /** Adding up the column sums counts every cell once: the result is the
      number of households the table asks for. */
  lemma {:induction false} SumColumnSums(table: Table, columns: nat)
    requires Shaped(table, |table|, columns)
    ensures Sum(ColumnSums(table, columns)) == TableSum(table)
  {
    if |table| == 0 {
      SumZeros(columns);
    } else {
      assert Shaped(table[1..], |table[1..]|, columns);
      SumColumnSums(table[1..], columns);
      SumAdd(table[0], ColumnSums(table[1..], columns));
    }
  }

  /** The members of a role the walk needs: the column sums of the table
      weighted by the per-household count of each column's size. */
  lemma {:induction false} NeedPlan(role: Role, table: Table, sizes: seq<nat>, fleets: seq<nat>)
    requires Shaped(table, |fleets|, |sizes|)
    ensures Need(role, Plan(table, sizes, fleets)) == Dot(ColumnSums(table, |sizes|), Weights(role, sizes))
  {
    if |table| == 0 {
      DotZeros(Weights(role, sizes));
    } else {
      assert Shaped(table[1..], |fleets[1..]|, |sizes|);
      NeedAppend(role, PlanRow(table[0], sizes, fleets[0]), Plan(table[1..], sizes, fleets[1..]));
      NeedPlanRow(role, table[0], sizes, fleets[0]);
      NeedPlan(role, table[1..], sizes, fleets[1..]);
      DotAdd(table[0], ColumnSums(table[1..], |sizes|), Weights(role, sizes));
    }
  }

  /** The aggregate of a (size, frequency) table is the frequency column
      weighted by the per-household count of each size. */
  lemma {:induction false} TotalAsDot(role: Role, sizeFreq: FreqTable)
    ensures Total(role, sizeFreq) == Dot(Freqs(sizeFreq), Weights(role, Labels(sizeFreq)))
  {
    if |sizeFreq| > 0 {
      TotalAsDot(role, sizeFreq[1..]);
      assert Freqs(sizeFreq)[1..] == Freqs(sizeFreq[1..]);
      assert Labels(sizeFreq)[1..] == Labels(sizeFreq[1..]);
      assert Weights(role, Labels(sizeFreq))[1..] == Weights(role, Labels(sizeFreq[1..]));
    }
  }

  /** When every column of the table adds up to the frequency of its size,
      the walk needs exactly the aggregate number of workers and of
      students that `create_households` requests. */
  lemma AggregateMatchesWalk(role: Role, table: Table, sizeFreq: FreqTable, fleets: seq<nat>)
    requires Shaped(table, |fleets|, |sizeFreq|)
    requires ColumnSums(table, |sizeFreq|) == Freqs(sizeFreq)
    ensures Need(role, Plan(table, Labels(sizeFreq), fleets)) == Total(role, sizeFreq)
  {
    NeedPlan(role, table, Labels(sizeFreq), fleets);
    TotalAsDot(role, sizeFreq);
  }
}
