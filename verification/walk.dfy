/** The walk over the joint (fleet x size) table in `create_households`:
    cells are visited row by row, and each cell creates as many households
    of its size and fleet as the cell holds. */
module TableWalk {
  import opened Results
  import opened Sampler
  import opened Occupancy
  import opened Entities
  import opened Streams
  import opened HouseholdStep
  import opened PopulationInvariant

  /** The rounded joint table: one row per fleet category, one column per
      size category. */
  type Table = seq<seq<nat>>

  predicate Shaped(table: Table, rows: nat, columns: nat) {
    |table| == rows && forall i :: 0 <= i < |table| ==> |table[i]| == columns
  }

  function Sum(s: seq<nat>): nat {
    if |s| == 0 then 0 else s[0] + Sum(s[1..])
  }

  /** The number of households the table asks for: the sum of its cells. */
  function TableSum(table: Table): nat {
    if |table| == 0 then 0 else Sum(table[0]) + TableSum(table[1..])
  }

  /** The households one row asks for, as (size, fleet) pairs in column
      order. */
  function PlanRow(row: seq<nat>, sizes: seq<nat>, fleet: nat): seq<(nat, nat)>
    requires |row| == |sizes|
  {
    if |row| == 0 then [] else Repeat((sizes[0], fleet), row[0]) + PlanRow(row[1..], sizes[1..], fleet)
  }

  /** The households the whole table asks for, in the order the nested loop
      over rows and columns visits the cells. */
  function Plan(table: Table, sizes: seq<nat>, fleets: seq<nat>): seq<(nat, nat)>
    requires Shaped(table, |fleets|, |sizes|)
  {
    if |table| == 0 then [] else PlanRow(table[0], sizes, fleets[0]) + Plan(table[1..], sizes, fleets[1..])
  }

  /** Where the households of cell (i, j) start in the plan: after every
      cell of the earlier rows and the earlier cells of row i. */
  function Offset(table: Table, i: nat, j: nat): nat
    requires i < |table| && j <= |table[i]|
  {
    TableSum(table[..i]) + Sum(table[i][..j])
  }

  lemma SumCons(s: seq<nat>, j: nat)
    requires 0 < j <= |s|
    ensures Sum(s[..j]) == s[0] + Sum(s[1..][..j - 1])
  {
    assert s[..j][1..] == s[1..][..j - 1];
  }

  /** A slice inside the left part of a concatenation. */
  lemma SliceLeft<T>(a: seq<T>, b: seq<T>, o: nat, n: nat)
    requires o + n <= |a|
    ensures (a + b)[o..o + n] == a[o..o + n]
  {
  }

  /** A slice inside the right part of a concatenation. */
  lemma SliceRight<T>(a: seq<T>, b: seq<T>, o: nat, n: nat)
    requires o + n <= |b|
    ensures (a + b)[|a| + o..|a| + o + n] == b[o..o + n]
  {
  }

  /** The block of column j in a row's plan. */
  lemma {:induction false} RowBlock(row: seq<nat>, sizes: seq<nat>, fleet: nat, j: nat)
    requires |row| == |sizes| && j < |row|
    ensures Sum(row[..j]) + row[j] <= |PlanRow(row, sizes, fleet)|
    ensures PlanRow(row, sizes, fleet)[Sum(row[..j])..Sum(row[..j]) + row[j]] == Repeat((sizes[j], fleet), row[j])
    decreases j
  {
    var head := Repeat((sizes[0], fleet), row[0]);
    var rest := PlanRow(row[1..], sizes[1..], fleet);
    if j == 0 {
      assert row[..0] == [];
      SliceLeft(head, rest, 0, row[0]);
    } else {
      RowBlock(row[1..], sizes[1..], fleet, j - 1);
      SumCons(row, j);
      assert row[1..][j - 1] == row[j] && sizes[1..][j - 1] == sizes[j];
      SliceRight(head, rest, Sum(row[1..][..j - 1]), row[j]);
    }
  }

  /** Within a row's plan, the block of column j is exactly `row[j]` copies
      of (sizes[j], fleet), and the plan is as long as the row's sum. */
  lemma PlanRowBlocks(row: seq<nat>, sizes: seq<nat>, fleet: nat)
    requires |row| == |sizes|
    ensures |PlanRow(row, sizes, fleet)| == Sum(row)
    ensures forall j :: 0 <= j < |row| ==>
      Sum(row[..j]) + row[j] <= Sum(row)
      && PlanRow(row, sizes, fleet)[Sum(row[..j])..Sum(row[..j]) + row[j]] == Repeat((sizes[j], fleet), row[j])
  {
    PlanRowLength(row, sizes, fleet);
    forall j | 0 <= j < |row| {
      RowBlock(row, sizes, fleet, j);
    }
  }

  lemma {:induction false} PlanRowLength(row: seq<nat>, sizes: seq<nat>, fleet: nat)
    requires |row| == |sizes|
    ensures |PlanRow(row, sizes, fleet)| == Sum(row)
  {
    if |row| > 0 {
      PlanRowLength(row[1..], sizes[1..], fleet);
    }
  }

  lemma TableSumPrefix(table: Table, i: nat)
    requires 0 < i <= |table|
    ensures TableSum(table[..i]) == Sum(table[0]) + TableSum(table[1..][..i - 1])
  {
    assert table[..i][1..] == table[1..][..i - 1];
  }

  lemma {:induction false} PlanLength(table: Table, sizes: seq<nat>, fleets: seq<nat>)
    requires Shaped(table, |fleets|, |sizes|)
    ensures |Plan(table, sizes, fleets)| == TableSum(table)
  {
    if |table| > 0 {
      PlanRowLength(table[0], sizes, fleets[0]);
      PlanLength(table[1..], sizes, fleets[1..]);
    }
  }

  /** The block of one cell (i, j) in the table's plan. */
  lemma {:induction false} CellBlock(table: Table, sizes: seq<nat>, fleets: seq<nat>, i: nat, j: nat)
    requires Shaped(table, |fleets|, |sizes|)
    requires i < |table| && j < |sizes|
    ensures Offset(table, i, j) + table[i][j] <= |Plan(table, sizes, fleets)|
    ensures Plan(table, sizes, fleets)[Offset(table, i, j)..Offset(table, i, j) + table[i][j]]
         == Repeat((sizes[j], fleets[i]), table[i][j])
    decreases i
  {
    var head := PlanRow(table[0], sizes, fleets[0]);
    var rest := Plan(table[1..], sizes, fleets[1..]);
    if i == 0 {
      RowBlock(table[0], sizes, fleets[0], j);
      assert table[..0] == [];
      SliceLeft(head, rest, Sum(table[0][..j]), table[0][j]);
    } else {
      PlanRowLength(table[0], sizes, fleets[0]);
      TableSumPrefix(table, i);
      CellBlock(table[1..], sizes, fleets[1..], i - 1, j);
      assert table[1..][i - 1] == table[i] && fleets[1..][i - 1] == fleets[i];
      var o := Offset(table[1..], i - 1, j);
      assert Offset(table, i, j) == Sum(table[0]) + o;
      SliceRight(head, rest, o, table[i][j]);
    }
  }

  /** Within the table's plan, the block of cell (i, j) starts at its
      offset and is exactly `table[i][j]` copies of (size j, fleet i); the
      plan is as long as the table's sum. */
  lemma PlanBlocks(table: Table, sizes: seq<nat>, fleets: seq<nat>)
    requires Shaped(table, |fleets|, |sizes|)
    ensures |Plan(table, sizes, fleets)| == TableSum(table)
    ensures forall i, j :: 0 <= i < |table| && 0 <= j < |sizes| ==>
      Offset(table, i, j) + table[i][j] <= TableSum(table)
      && Plan(table, sizes, fleets)[Offset(table, i, j)..Offset(table, i, j) + table[i][j]]
         == Repeat((sizes[j], fleets[i]), table[i][j])
  {
    PlanLength(table, sizes, fleets);
    forall i, j | 0 <= i < |table| && 0 <= j < |sizes| {
      CellBlock(table, sizes, fleets, i, j);
    }
  }

  /** The members of a role that the households of a plan need. */
  function Need(role: Role, plan: seq<(nat, nat)>): nat {
    if |plan| == 0 then 0 else Occupants(role, plan[0].0) + Need(role, plan[1..])
  }

  /** Whether the streams hold everything the plan draws. */
  predicate Fits(d: Draws, plan: seq<(nat, nat)>) {
    && Holds(d.programs, |plan|)
    && Holds(d.residences, |plan|)
    && Holds(d.offices, Need(Worker, plan))
    && Holds(d.schools, Need(Student, plan))
  }

  /** The streams after the whole plan. */
  function Advance(d: Draws, plan: seq<(nat, nat)>): Draws {
    Draws(Skip(d.programs, |plan|), Skip(d.residences, |plan|),
          Skip(d.offices, Need(Worker, plan)), Skip(d.schools, Need(Student, plan)))
  }

  /** The (size, fleet) pair of each household. */
  function Shapes(hs: seq<Household>): (r: seq<(nat, nat)>)
    ensures |r| == |hs|
  {
    seq(|hs|, k requires 0 <= k < |hs| => (hs[k].size, hs[k].fleet))
  }

  /** `q` is `p` with the plan's households appended, one per entry, of that
      entry's size and fleet and in plan order, together with exactly the
      members those sizes call for; the earlier entries of every list and the
      frequency tables are untouched. */
  predicate Extends(p: Population, q: Population, plan: seq<(nat, nat)>) {
    && |q.households| == |p.households| + |plan|
    && q.households[..|p.households|] == p.households
    && Shapes(q.households[|p.households|..]) == plan
    && |q.adults| == |p.adults| + Need(Worker, plan)
    && q.adults[..|p.adults|] == p.adults
    && |q.children| == |p.children| + Need(Student, plan)
    && q.children[..|p.children|] == p.children
    && |q.individuals| == |p.individuals| + Need(Worker, plan) + Need(Student, plan)
    && q.individuals[..|p.individuals|] == p.individuals
    && q.sizeFreq == p.sizeFreq && q.fleetFreq == p.fleetFreq && q.progFreq == p.progFreq
  }

  /** Creates the plan's households one after the other through
      `add_household`. It succeeds exactly when the streams hold everything
      the plan draws; then the population is extended by exactly the plan's
      households and their members, and each stream advanced by exactly what
      was drawn from it. */
  function Walk(st: State, plan: seq<(nat, nat)>, acts: Activities): (r: Result<State>)
    requires WellFormed(st.draws)
    ensures r.Ok? <==> Fits(st.draws, plan)
    ensures r.Err? ==> r.error == StopIteration
    ensures r.Ok? ==> r.value.draws == Advance(st.draws, plan)
    ensures r.Ok? ==> Extends(st.pop, r.value.pop, plan)
    decreases |plan|
  {
    if |plan| == 0 then
      NoPlan(st.pop);
      Ok(st)
    else
      match AddHousehold(st, plan[0].0, plan[0].1, acts)
      case Err(e) =>
        FitsStep(st.draws, plan);
        Err(e)
      case Ok(next) =>
        FitsStep(st.draws, plan);
        var r := Walk(next, plan[1..], acts);
        if r.Ok? then
          SettleExtends(st, plan[0].0, plan[0].1, acts);
          ExtendsTrans(st.pop, next.pop, r.value.pop, [plan[0]], plan[1..]);
          assert [plan[0]] + plan[1..] == plan;
          r
        else r
  }

  lemma NoPlan(p: Population)
    ensures Extends(p, p, [])
  {
    assert p.households[|p.households|..] == [];
  }

  /** The first household of a plan decides whether the plan fits: the rest
      fits the streams it leaves behind exactly when the whole plan fits. */
  lemma FitsStep(d: Draws, plan: seq<(nat, nat)>)
    requires |plan| > 0
    ensures !Ready(d, plan[0].0) ==> !Fits(d, plan)
    ensures Ready(d, plan[0].0) ==> (Fits(Consume(d, plan[0].0), plan[1..]) <==> Fits(d, plan))
    ensures Ready(d, plan[0].0) ==> Advance(Consume(d, plan[0].0), plan[1..]) == Advance(d, plan)
  {
  }

  lemma SettleExtends(st: State, size: nat, fleet: nat, acts: Activities)
    requires Ready(st.draws, size)
    ensures Extends(st.pop, Settle(st.pop, ExpectedHousehold(st, size, fleet, acts)), [(size, fleet)])
  {
    var p := st.pop;
    var h := ExpectedHousehold(st, size, fleet, acts);
    var q := Settle(p, h);
    assert q.households[|p.households|..] == [h];
    assert Need(Worker, [(size, fleet)]) == Workers(size);
    assert Need(Student, [(size, fleet)]) == Students(size);
    assert q.adults[..|p.adults|] == p.adults;
    assert q.children[..|p.children|] == p.children;
    assert q.individuals == p.individuals + (h.adults + h.children);
    assert q.individuals[..|p.individuals|] == p.individuals;
  }

  lemma {:induction false} NeedAppend(role: Role, a: seq<(nat, nat)>, b: seq<(nat, nat)>)
    ensures Need(role, a + b) == Need(role, a) + Need(role, b)
  {
    if |a| == 0 {
      assert a + b == b;
    } else {
      assert (a + b)[1..] == a[1..] + b;
      NeedAppend(role, a[1..], b);
    }
  }

  lemma ShapesAppend(a: seq<Household>, b: seq<Household>)
    ensures Shapes(a + b) == Shapes(a) + Shapes(b)
  {
  }

  lemma ExtendsTrans(p: Population, m: Population, q: Population, a: seq<(nat, nat)>, b: seq<(nat, nat)>)
    requires Extends(p, m, a) && Extends(m, q, b)
    ensures Extends(p, q, a + b)
  {
    NeedAppend(Worker, a, b);
    NeedAppend(Student, a, b);
    var n := |p.households|;
    assert q.households[n..] == m.households[n..] + q.households[|m.households|..];
    ShapesAppend(m.households[n..], q.households[|m.households|..]);
    assert q.households[..n] == m.households[..n];
    assert q.adults[..|p.adults|] == m.adults[..|p.adults|];
    assert q.children[..|p.children|] == m.children[..|p.children|];
    assert q.individuals[..|p.individuals|] == m.individuals[..|p.individuals|];
  }

  /** Walking a plan keeps the population's shape. */
  lemma {:induction false} WalkKeepsConsistent(st: State, plan: seq<(nat, nat)>, acts: Activities)
    requires WellFormed(st.draws)
    requires Consistent(st.pop, acts)
    requires Walk(st, plan, acts).Ok?
    ensures Consistent(Walk(st, plan, acts).value.pop, acts)
    decreases |plan|
  {
    if |plan| > 0 {
      var next := AddHousehold(st, plan[0].0, plan[0].1, acts).value;
      AddHouseholdKeepsConsistent(st, plan[0].0, plan[0].1, acts);
      WalkKeepsConsistent(next, plan[1..], acts);
    }
  }
}
