/** The population builder: the constructor and `create_households`, which
    derives the totals, requests the four assignment streams from the
    sampler and walks the joint table, creating households and members. */
module Builder {
  import opened Results
  import opened Sampler
  import opened Sorting
  import opened Occupancy
  import opened Entities
  import opened Streams
  import opened HouseholdStep
  import opened PopulationInvariant
  import opened TableWalk
  import opened Aggregate
  import opened ProgramTable

  /** The capacity tables of homes, workplaces and schools. */
  datatype Land = Land(home: Items<LocationId>, work: Items<LocationId>, school: Items<LocationId>)

  /** The activity identities and the program table of the demand side. */
  datatype Demand = Demand(activities: Activities, programs: map<string, Program>)

  /** The random draws of the four shuffles: programs, residences, offices,
      schools, in the order they are requested. */
  datatype Rng = Rng(programs: nat -> nat, residences: nat -> nat, offices: nat -> nat, schools: nat -> nat)

  /** The constructor: sorted size and fleet tables, the program table as
      given, and empty output lists. */
  function NewPopulation(sizeFreq: FreqTable, fleetFreq: FreqTable, progFreq: seq<(string, nat)>): (r: Population)
    ensures Sorted(r.sizeFreq) && multiset(r.sizeFreq) == multiset(sizeFreq)
    ensures Sorted(r.fleetFreq) && multiset(r.fleetFreq) == multiset(fleetFreq)
    ensures r.progFreq == progFreq
    ensures r.households == [] && r.adults == [] && r.children == [] && r.individuals == []
    ensures forall acts :: Consistent(r, acts)
  {
    Population(Sort(sizeFreq), Sort(fleetFreq), progFreq, [], [], [], [])
  }

  /** Sum of a table's frequencies, the `sum()` of its array. */
  function Marginal(t: FreqTable): nat {
    Sum(Freqs(t))
  }

  /** The households the walk creates, in creation order. */
  function HouseholdPlan(pop: Population, table: Table): seq<(nat, nat)>
    requires Shaped(table, |pop.fleetFreq|, |pop.sizeFreq|)
  {
    Plan(table, Labels(pop.sizeFreq), Labels(pop.fleetFreq))
  }

  /** Everything `create_households` needs to run to the end: equal
      marginal totals, known program labels, enough capacity for each of the
      four requests, and streams long enough for every household and member
      the walk creates. */
  predicate Feasible(pop: Population, table: Table, land: Land, demand: Demand)
    requires Shaped(table, |pop.fleetFreq|, |pop.sizeFreq|)
  {
    && Marginal(pop.fleetFreq) == Marginal(pop.sizeFreq)
    && Servable(pop, Marginal(pop.sizeFreq), land, demand)
    && TableSum(table) <= Marginal(pop.sizeFreq)
    && Need(Worker, HouseholdPlan(pop, table)) <= Total(Worker, pop.sizeFreq)
    && Need(Student, HouseholdPlan(pop, table)) <= Total(Student, pop.sizeFreq)
  }

  /** Whether the sampler can serve all four requests: the program labels
      resolve and each capacity table covers its request. */
  predicate Servable(pop: Population, hhnum: nat, land: Land, demand: Demand) {
    var programFreq := ProgramCapacities(pop.progFreq, demand.programs);
    && programFreq.Ok?
    && hhnum <= CapSum(programFreq.value)
    && hhnum <= CapSum(land.home)
    && Total(Worker, pop.sizeFreq) <= CapSum(land.work)
    && Total(Student, pop.sizeFreq) <= CapSum(land.school)
  }

  /** The four requests of `create_households`, in source order: `hhnum`
      programs, `hhnum` residences, the aggregate number of workers' offices
      and of students' schools, each as a fresh stream. */
  function Requests(pop: Population, hhnum: nat, land: Land, demand: Demand, rng: Rng): (r: Result<Draws>)
    ensures r.Ok? <==> Servable(pop, hhnum, land, demand)
    ensures r.Err? ==> r.error.UnknownProgram? || r.error.Shortfall?
    ensures !AllKnown(pop.progFreq, demand.programs) ==>
      r.Err? && r.error.UnknownProgram?
    ensures AllKnown(pop.progFreq, demand.programs) && r.Err? ==> r.error.Shortfall?
    ensures AllKnown(pop.progFreq, demand.programs) && r.Err? ==>
      var programFreq := ProgramCapacities(pop.progFreq, demand.programs).value;
      r.error ==
        if CapSum(programFreq) < hhnum then Shortfall(CapSum(programFreq), hhnum)
        else if CapSum(land.home) < hhnum then Shortfall(CapSum(land.home), hhnum)
        else if CapSum(land.work) < Total(Worker, pop.sizeFreq) then Shortfall(CapSum(land.work), Total(Worker, pop.sizeFreq))
        else Shortfall(CapSum(land.school), Total(Student, pop.sizeFreq))
    ensures r.Ok? ==> WellFormed(r.value)
    ensures r.Ok? ==>
      && r.value.programs.cursor == 0 && |r.value.programs.items| == hhnum
      && r.value.residences.cursor == 0 && |r.value.residences.items| == hhnum
      && r.value.offices.cursor == 0 && |r.value.offices.items| == Total(Worker, pop.sizeFreq)
      && r.value.schools.cursor == 0 && |r.value.schools.items| == Total(Student, pop.sizeFreq)
  {
    var programFreq :- ProgramCapacities(pop.progFreq, demand.programs);
    var programs :- GetAssignments(programFreq, hhnum, rng.programs);
    var residences :- GetAssignments(land.home, hhnum, rng.residences);
    var offices :- GetAssignments(land.work, Total(Worker, pop.sizeFreq), rng.offices);
    var schools :- GetAssignments(land.school, Total(Student, pop.sizeFreq), rng.schools);
    Ok(Draws(Start(programs), Start(residences), Start(offices), Start(schools)))
  }

  /** `create_households` over the rounded joint table (rows are fleet
      categories, columns size categories). It fails when the marginal
      totals differ, and otherwise is `Populate`. */
  function CreateHouseholds(pop: Population, table: Table, land: Land, demand: Demand, rng: Rng): (r: Result<Population>)
    requires Shaped(table, |pop.fleetFreq|, |pop.sizeFreq|)
    ensures Marginal(pop.fleetFreq) != Marginal(pop.sizeFreq) ==>
      r == Err(UnequalMarginals(Marginal(pop.fleetFreq), Marginal(pop.sizeFreq)))
    ensures (&& Marginal(pop.fleetFreq) == Marginal(pop.sizeFreq)
             && !AllKnown(pop.progFreq, demand.programs)) ==>
      r.Err? && r.error.UnknownProgram?
    ensures (&& Marginal(pop.fleetFreq) == Marginal(pop.sizeFreq)
             && AllKnown(pop.progFreq, demand.programs)
             && !Servable(pop, Marginal(pop.sizeFreq), land, demand)) ==>
      r.Err? && r.error.Shortfall?
    ensures (&& Marginal(pop.fleetFreq) == Marginal(pop.sizeFreq)
             && Servable(pop, Marginal(pop.sizeFreq), land, demand)
             && !Feasible(pop, table, land, demand)) ==>
      r == Err(StopIteration)
    ensures r.Ok? <==> Feasible(pop, table, land, demand)
    ensures r.Ok? ==> Extends(pop, r.value, HouseholdPlan(pop, table))
    ensures r.Ok? ==> |r.value.households| == |pop.households| + TableSum(table)
  {
    var fleetTotal := Marginal(pop.fleetFreq);
    var sizeTotal := Marginal(pop.sizeFreq);
    if fleetTotal != sizeTotal then Err(UnequalMarginals(fleetTotal, sizeTotal))
    else Populate(pop, table, land, demand, rng)
  }

  /** The part of `create_households` after the marginal check. The number
      of households it requests, `round(table.sum())` of the fitted table,
      is the size marginal total, since the fit ends with the column step.
      It fails when a program label is unknown, when a capacity table is too
      small for its request, or when a stream runs dry during the walk; it
      succeeds exactly when none of these happens, and then the population
      is extended by the walk's households and members. */
  function Populate(pop: Population, table: Table, land: Land, demand: Demand, rng: Rng): (r: Result<Population>)
    requires Shaped(table, |pop.fleetFreq|, |pop.sizeFreq|)
    requires Marginal(pop.fleetFreq) == Marginal(pop.sizeFreq)
    ensures !AllKnown(pop.progFreq, demand.programs) ==> r.Err? && r.error.UnknownProgram?
    ensures (&& AllKnown(pop.progFreq, demand.programs)
             && !Servable(pop, Marginal(pop.sizeFreq), land, demand)) ==>
      r.Err? && r.error.Shortfall?
    ensures (&& Servable(pop, Marginal(pop.sizeFreq), land, demand)
             && !Feasible(pop, table, land, demand)) ==>
      r == Err(StopIteration)
    ensures r.Ok? <==> Feasible(pop, table, land, demand)
    ensures r.Ok? ==> Extends(pop, r.value, HouseholdPlan(pop, table))
    ensures r.Ok? ==> |r.value.households| == |pop.households| + TableSum(table)
  {
    var hhnum := Marginal(pop.sizeFreq);
    match Requests(pop, hhnum, land, demand, rng)
    case Err(e) => Err(e)
    case Ok(draws) =>
      FreshFits(pop, table, hhnum, draws);
      match Walk(State(pop, draws), HouseholdPlan(pop, table), demand.activities)
      case Err(e) => Err(e)
      case Ok(done) => Ok(done.pop)
  }

  /** Fresh streams of `hhnum` programs and residences and of the aggregate
      numbers of offices and schools cover the walk exactly when the table
      asks for at most `hhnum` households and the walk needs at most the
      aggregate numbers of workers and students. */
  lemma FreshFits(pop: Population, table: Table, hhnum: nat, draws: Draws)
    requires Shaped(table, |pop.fleetFreq|, |pop.sizeFreq|)
    requires draws.programs.cursor == 0 && |draws.programs.items| == hhnum
    requires draws.residences.cursor == 0 && |draws.residences.items| == hhnum
    requires draws.offices.cursor == 0 && |draws.offices.items| == Total(Worker, pop.sizeFreq)
    requires draws.schools.cursor == 0 && |draws.schools.items| == Total(Student, pop.sizeFreq)
    ensures Fits(draws, HouseholdPlan(pop, table)) <==>
      && TableSum(table) <= hhnum
      && Need(Worker, HouseholdPlan(pop, table)) <= Total(Worker, pop.sizeFreq)
      && Need(Student, HouseholdPlan(pop, table)) <= Total(Student, pop.sizeFreq)
    ensures |HouseholdPlan(pop, table)| == TableSum(table)
  {
    PlanLength(table, Labels(pop.sizeFreq), Labels(pop.fleetFreq));
  }

  /** `create_households` keeps the population's shape: identities are list
      positions, the flat lists are the households' member lists end to
      end, and every member shares its household's residence. */
  lemma CreateKeepsConsistent(pop: Population, table: Table, land: Land, demand: Demand, rng: Rng)
    requires Shaped(table, |pop.fleetFreq|, |pop.sizeFreq|)
    requires Consistent(pop, demand.activities)
    requires CreateHouseholds(pop, table, land, demand, rng).Ok?
    ensures Consistent(CreateHouseholds(pop, table, land, demand, rng).value, demand.activities)
  {
    var draws := Requests(pop, Marginal(pop.sizeFreq), land, demand, rng).value;
    WalkKeepsConsistent(State(pop, draws), HouseholdPlan(pop, table), demand.activities);
  }

  /** When every column of the joint table adds up to the frequency of its
      size (as the fitted table does), the walk draws exactly the aggregate
      numbers of workers and students, so `create_households` succeeds as
      soon as the marginals agree, every program label is known and every
      capacity table covers its request; it then creates exactly the table's
      number of households, the aggregate number of adults and the aggregate
      number of children. */
  lemma ExactCounts(pop: Population, table: Table, land: Land, demand: Demand, rng: Rng)
    requires Shaped(table, |pop.fleetFreq|, |pop.sizeFreq|)
    requires ColumnSums(table, |pop.sizeFreq|) == Freqs(pop.sizeFreq)
    requires Marginal(pop.fleetFreq) == Marginal(pop.sizeFreq)
    requires AllKnown(pop.progFreq, demand.programs)
    requires Marginal(pop.sizeFreq) <= CapSum(ProgramCapacities(pop.progFreq, demand.programs).value)
    requires Marginal(pop.sizeFreq) <= CapSum(land.home)
    requires Total(Worker, pop.sizeFreq) <= CapSum(land.work)
    requires Total(Student, pop.sizeFreq) <= CapSum(land.school)
    ensures CreateHouseholds(pop, table, land, demand, rng).Ok?
    ensures
      var q := CreateHouseholds(pop, table, land, demand, rng).value;
      && |q.households| == |pop.households| + Marginal(pop.sizeFreq)
      && |q.adults| == |pop.adults| + Total(Worker, pop.sizeFreq)
      && |q.children| == |pop.children| + Total(Student, pop.sizeFreq)
  {
    ExactFeasible(pop, table, land, demand);
    var q := CreateHouseholds(pop, table, land, demand, rng).value;
    assert Extends(pop, q, HouseholdPlan(pop, table));
  }

  /** Under the hypotheses of `ExactCounts`, the call is feasible and the
      walk asks for exactly `hhnum` households and the aggregate numbers of
      workers and students. */
  lemma ExactFeasible(pop: Population, table: Table, land: Land, demand: Demand)
    requires Shaped(table, |pop.fleetFreq|, |pop.sizeFreq|)
    requires ColumnSums(table, |pop.sizeFreq|) == Freqs(pop.sizeFreq)
    requires Marginal(pop.fleetFreq) == Marginal(pop.sizeFreq)
    requires AllKnown(pop.progFreq, demand.programs)
    requires Marginal(pop.sizeFreq) <= CapSum(ProgramCapacities(pop.progFreq, demand.programs).value)
    requires Marginal(pop.sizeFreq) <= CapSum(land.home)
    requires Total(Worker, pop.sizeFreq) <= CapSum(land.work)
    requires Total(Student, pop.sizeFreq) <= CapSum(land.school)
    ensures Feasible(pop, table, land, demand)
    ensures TableSum(table) == Marginal(pop.sizeFreq)
    ensures Need(Worker, HouseholdPlan(pop, table)) == Total(Worker, pop.sizeFreq)
    ensures Need(Student, HouseholdPlan(pop, table)) == Total(Student, pop.sizeFreq)
  {
    SumColumnSums(table, |pop.sizeFreq|);
    assert TableSum(table) == Marginal(pop.sizeFreq);
    AggregateMatchesWalk(Worker, table, pop.sizeFreq, Labels(pop.fleetFreq));
    AggregateMatchesWalk(Student, table, pop.sizeFreq, Labels(pop.fleetFreq));
    assert Servable(pop, Marginal(pop.sizeFreq), land, demand);
  }

  /** The households `create_households` appends come cell by cell in
      row-major order: those of cell (i, j) start at the cell's offset and
      are exactly `table[i][j]` households of size `sizeFreq[j]` and fleet
      `fleetFreq[i]`. */
  lemma HouseholdsByCell(pop: Population, table: Table, land: Land, demand: Demand, rng: Rng)
    requires Shaped(table, |pop.fleetFreq|, |pop.sizeFreq|)
    requires CreateHouseholds(pop, table, land, demand, rng).Ok?
    ensures
      var added := CreateHouseholds(pop, table, land, demand, rng).value.households[|pop.households|..];
      && |added| == TableSum(table)
      && forall i, j :: 0 <= i < |table| && 0 <= j < |pop.sizeFreq| ==>
           Offset(table, i, j) + table[i][j] <= |added|
           && Shapes(added)[Offset(table, i, j)..Offset(table, i, j) + table[i][j]]
              == Repeat((pop.sizeFreq[j].0, pop.fleetFreq[i].0), table[i][j])
  {
    PlanBlocks(table, Labels(pop.sizeFreq), Labels(pop.fleetFreq));
  }
}
