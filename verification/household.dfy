/** One household construction step (`add_household`): it draws a residence
    and a program, then one office per worker and one school per student,
    and appends the household and its members to the population's lists. */
module HouseholdStep {
  import opened Results
  import opened Sorting
  import opened Occupancy
  import opened Entities
  import opened Streams

  /** The population: its (sorted) frequency tables and the four output
      lists, filled in creation order. */
  datatype Population = Population(
    sizeFreq: FreqTable,
    fleetFreq: FreqTable,
    progFreq: seq<(string, nat)>,
    households: seq<Household>,
    adults: seq<Individual>,
    children: seq<Individual>,
    individuals: seq<Individual>)

  /** The activity identities of home, work and school. */
  datatype Activities = Activities(home: ActivityId, work: ActivityId, school: ActivityId)

  /** The four assignment streams, each a list with its iterator's cursor. */
  datatype Draws = Draws(
    programs: Stream<Program>,
    residences: Stream<LocationId>,
    offices: Stream<LocationId>,
    schools: Stream<LocationId>)

  datatype State = State(pop: Population, draws: Draws)

  /** The activity program of a member: home, then work or school, then the
      household's program. */
  function MemberProgram(acts: Activities, role: Role, program: Program): Program {
    match role
    case Worker => [acts.home, acts.work] + program
    case Student => [acts.home, acts.school] + program
  }

  /** The population with new members of a role appended to the list for
      that role and to the list of all individuals. */
  function Grow(pop: Population, role: Role, ms: seq<Individual>): Population {
    match role
    case Worker => pop.(adults := pop.adults + ms, individuals := pop.individuals + ms)
    case Student => pop.(children := pop.children + ms, individuals := pop.individuals + ms)
  }

  /** The household with its member list for a role replaced. */
  function WithMembers(h: Household, role: Role, ms: seq<Individual>): Household {
    match role
    case Worker => h.(adults := ms)
    case Student => h.(children := ms)
  }

  /** The members that drawing `places` in order produces: consecutive
      identities from `firstId`, the household's residence, the drawn place
      and the role's program. */
  function Drawn(role: Role, firstId: nat, residence: LocationId, places: seq<LocationId>, program: Program): (r: seq<Individual>)
    ensures |r| == |places|
  {
    seq(|places|, k requires 0 <= k < |places| => Member(role, firstId + k, residence, places[k], program))
  }

  lemma DrawnCons(role: Role, firstId: nat, residence: LocationId, places: seq<LocationId>, program: Program)
    requires |places| > 0
    ensures Drawn(role, firstId, residence, places, program)
         == [Member(role, firstId, residence, places[0], program)] + Drawn(role, firstId + 1, residence, places[1..], program)
  {
  }

  /** What `n` turns of the member loop amount to, stated without the loop:
      when the stream holds `n` more places, the household and the
      population gain the members drawn from those places in order and the
      stream moves on by `n`; otherwise the loop stops with
      `StopIteration`. */
  function MembersAfter(h: Household, pop: Population, places: Stream<LocationId>, role: Role, program: Program, n: nat)
    : Result<(Household, Population, Stream<LocationId>)>
  {
    if Holds(places, n) then
      var ms := Drawn(role, |pop.individuals|, h.residence, places.items[places.cursor..places.cursor + n], program);
      Ok((WithMembers(h, role, Members(h, role) + ms), Grow(pop, role, ms), Skip(places, n)))
    else
      Err(StopIteration)
  }

  /** The member loop is `n` draws from the iterator followed by `n` member
      creations: it fails exactly when the draws do, and otherwise the new
      members come from the drawn places and the stream is where the draws
      leave it. */
  lemma MembersFromDraw(h: Household, pop: Population, places: Stream<LocationId>, role: Role, program: Program, n: nat)
    requires Valid(places)
    ensures MembersAfter(h, pop, places, role, program, n).Ok? <==> Draw(places, n).Ok?
    ensures Draw(places, n).Ok? ==>
      var ms := Drawn(role, |pop.individuals|, h.residence, Draw(places, n).value.0, program);
      MembersAfter(h, pop, places, role, program, n)
        == Ok((WithMembers(h, role, Members(h, role) + ms), Grow(pop, role, ms), Draw(places, n).value.1))
  {
    DrawInOrder(places, n);
  }

  /** The member loop of `add_household` for one role: `n` times, draw the
      next place, create the member through the household and append it to
      the population's lists. */
  function AddMembers(h: Household, pop: Population, places: Stream<LocationId>, role: Role, program: Program, n: nat)
    : (r: Result<(Household, Population, Stream<LocationId>)>)
    requires Valid(places)
    ensures r == MembersAfter(h, pop, places, role, program, n)
    decreases n
  {
    if n == 0 then
      NoMembers(h, pop, role);
      Ok((h, pop, places))
    else
      match Next(places)
      case Err(e) => Err(e)
      case Ok(next) =>
        var added := AddMember(h, role, |pop.individuals|, h.residence, next.0, program);
        match AddMembers(added.0, Grow(pop, role, [added.1]), next.1, role, program, n - 1)
        case Err(e) =>
          assert next.1 == Skip(places, 1);
          Err(e)
        case Ok(rest) =>
          StepResult(h, pop, places, role, program, n, next, added, rest);
          Ok(rest)
  }

  lemma NoMembers(h: Household, pop: Population, role: Role)
    ensures WithMembers(h, role, Members(h, role) + []) == h
    ensures Grow(pop, role, []) == pop
  {
    assert Members(h, role) + [] == Members(h, role);
    match role
    case Worker =>
      assert pop.adults + [] == pop.adults && pop.individuals + [] == pop.individuals;
    case Student =>
      assert pop.children + [] == pop.children && pop.individuals + [] == pop.individuals;
  }

  lemma GrowTwice(pop: Population, role: Role, a: seq<Individual>, b: seq<Individual>)
    ensures Grow(Grow(pop, role, a), role, b) == Grow(pop, role, a + b)
  {
    match role
    case Worker =>
      assert pop.adults + a + b == pop.adults + (a + b);
      assert pop.individuals + a + b == pop.individuals + (a + b);
    case Student =>
      assert pop.children + a + b == pop.children + (a + b);
      assert pop.individuals + a + b == pop.individuals + (a + b);
  }

  /** The closed form after the remaining turns of the member loop is the
      closed form of the whole loop. */
  lemma StepResult(h: Household, pop: Population, places: Stream<LocationId>, role: Role, program: Program, n: nat,
                   next: (LocationId, Stream<LocationId>), added: (Household, Individual),
                   r: (Household, Population, Stream<LocationId>))
    requires Valid(places) && 0 < n
    requires Next(places) == Ok(next)
    requires added == AddMember(h, role, |pop.individuals|, h.residence, next.0, program)
    requires Holds(next.1, n - 1)
    requires
      var pop1 := Grow(pop, role, [added.1]);
      var ms1 := Drawn(role, |pop1.individuals|, added.0.residence, next.1.items[next.1.cursor..next.1.cursor + (n - 1)], program);
      && r.0 == WithMembers(added.0, role, Members(added.0, role) + ms1)
      && r.1 == Grow(pop1, role, ms1)
      && r.2 == Skip(next.1, n - 1)
    ensures Holds(places, n)
    ensures
      var ms := Drawn(role, |pop.individuals|, h.residence, places.items[places.cursor..places.cursor + n], program);
      && r.0 == WithMembers(h, role, Members(h, role) + ms)
      && r.1 == Grow(pop, role, ms)
      && r.2 == Skip(places, n)
  {
    var m := added.1;
    var h1 := added.0;
    var rest := next.1;
    assert next.0 == places.items[places.cursor] && rest == Skip(places, 1);
    assert h1 == WithMembers(h, role, Members(h, role) + [m]) && h1.residence == h.residence;
    var pop1 := Grow(pop, role, [m]);
    assert |pop1.individuals| == |pop.individuals| + 1;
    var window1 := rest.items[rest.cursor..rest.cursor + (n - 1)];
    assert Drawn(role, |pop1.individuals|, h1.residence, window1, program)
        == Drawn(role, |pop.individuals| + 1, h.residence, window1, program);
    StepMembers(h, pop, places, role, program, n, m, h1, rest);
  }

  /** One turn of the member loop followed by the remaining turns adds the
      same members as the closed form. */
  lemma StepMembers(h: Household, pop: Population, places: Stream<LocationId>, role: Role, program: Program, n: nat,
                    m: Individual, h1: Household, rest: Stream<LocationId>)
    requires Valid(places) && 0 < n && Holds(places, n)
    requires rest == Skip(places, 1)
    requires m == Member(role, |pop.individuals|, h.residence, places.items[places.cursor], program)
    requires h1 == WithMembers(h, role, Members(h, role) + [m])
    ensures
      var ms := Drawn(role, |pop.individuals|, h.residence, places.items[places.cursor..places.cursor + n], program);
      var ms1 := Drawn(role, |pop.individuals| + 1, h.residence, rest.items[rest.cursor..rest.cursor + (n - 1)], program);
      && ms == [m] + ms1
      && WithMembers(h1, role, Members(h1, role) + ms1) == WithMembers(h, role, Members(h, role) + ms)
      && Grow(Grow(pop, role, [m]), role, ms1) == Grow(pop, role, ms)
  {
    var window := places.items[places.cursor..places.cursor + n];
    var ms1 := Drawn(role, |pop.individuals| + 1, h.residence, rest.items[rest.cursor..rest.cursor + (n - 1)], program);
    DrawnCons(role, |pop.individuals|, h.residence, window, program);
    assert window[1..] == rest.items[rest.cursor..rest.cursor + (n - 1)];
    GrowTwice(pop, role, [m], ms1);
    assert Members(h, role) + [m] + ms1 == Members(h, role) + ([m] + ms1);
  }

  /** Every stream's cursor is within its list. */
  predicate WellFormed(d: Draws) {
    Valid(d.programs) && Valid(d.residences) && Valid(d.offices) && Valid(d.schools)
  }

  /** Whether the streams still hold everything one household of this size
      draws. */
  predicate Ready(d: Draws, size: nat) {
    && Holds(d.residences, 1)
    && Holds(d.programs, 1)
    && Holds(d.offices, Workers(size))
    && Holds(d.schools, Students(size))
  }

  /** The streams after one household of this size. */
  function Consume(d: Draws, size: nat): Draws {
    Draws(Skip(d.programs, 1), Skip(d.residences, 1), Skip(d.offices, Workers(size)), Skip(d.schools, Students(size)))
  }

  /** The household one step builds: the next residence and program, one
      adult per drawn office, one child per drawn school, with identities
      continuing the population's lists. */
  function ExpectedHousehold(st: State, size: nat, fleet: nat, acts: Activities): Household
    requires Ready(st.draws, size)
  {
    var d := st.draws;
    var residence := d.residences.items[d.residences.cursor];
    var program := d.programs.items[d.programs.cursor];
    var base := |st.pop.individuals|;
    var offices := d.offices.items[d.offices.cursor..d.offices.cursor + Workers(size)];
    var schools := d.schools.items[d.schools.cursor..d.schools.cursor + Students(size)];
    Household(|st.pop.households|, size, fleet, residence, program,
      Drawn(Worker, base, residence, offices, MemberProgram(acts, Worker, program)),
      Drawn(Student, base + Workers(size), residence, schools, MemberProgram(acts, Student, program)))
  }

  /** The population with a finished household and its members appended. */
  function Settle(pop: Population, h: Household): Population {
    pop.(households := pop.households + [h],
         adults := pop.adults + h.adults,
         children := pop.children + h.children,
         individuals := pop.individuals + h.adults + h.children)
  }

  /** `add_household`: draws the residence and then the program (the order
      in which the call's arguments are evaluated), then the workers'
      offices, then the students' schools. It succeeds exactly when every
      stream holds enough, consumes exactly one residence, one program and
      one office or school per member, appends exactly the expected
      household and members, and leaves everything else unchanged. */
  function AddHousehold(st: State, size: nat, fleet: nat, acts: Activities): (r: Result<State>)
    requires WellFormed(st.draws)
    ensures r.Ok? <==> Ready(st.draws, size)
    ensures r.Err? ==> r.error == StopIteration
    ensures r.Ok? ==> r.value == State(Settle(st.pop, ExpectedHousehold(st, size, fleet, acts)), Consume(st.draws, size))
  {
    match Next(st.draws.residences)
    case Err(e) => Err(e)
    case Ok(residence) =>
      match Next(st.draws.programs)
      case Err(e) => Err(e)
      case Ok(program) =>
        var h := Household(|st.pop.households|, size, fleet, residence.0, program.0, [], []);
        match AddMembers(h, st.pop, st.draws.offices, Worker, MemberProgram(acts, Worker, program.0), Workers(size))
        case Err(e) => Err(e)
        case Ok(a) =>
          match AddMembers(a.0, a.1, st.draws.schools, Student, MemberProgram(acts, Student, program.0), Students(size))
          case Err(e) => Err(e)
          case Ok(c) =>
            Built(st, size, fleet, acts, h, a, c);
            Ok(State(c.1.(households := c.1.households + [c.0]), Draws(program.1, residence.1, a.2, c.2)))
  }

  /** The household and population that the two member loops leave behind
      are the expected household, settled into the population. */
  lemma Built(st: State, size: nat, fleet: nat, acts: Activities, h: Household,
              a: (Household, Population, Stream<LocationId>), c: (Household, Population, Stream<LocationId>))
    requires Ready(st.draws, size)
    requires h == Household(|st.pop.households|, size, fleet, st.draws.residences.items[st.draws.residences.cursor],
                            st.draws.programs.items[st.draws.programs.cursor], [], [])
    requires
      var d := st.draws;
      var ms := Drawn(Worker, |st.pop.individuals|, h.residence, d.offices.items[d.offices.cursor..d.offices.cursor + Workers(size)], MemberProgram(acts, Worker, h.program));
      a.0 == WithMembers(h, Worker, Members(h, Worker) + ms) && a.1 == Grow(st.pop, Worker, ms)
    requires
      var d := st.draws;
      var ms := Drawn(Student, |a.1.individuals|, a.0.residence, d.schools.items[d.schools.cursor..d.schools.cursor + Students(size)], MemberProgram(acts, Student, h.program));
      c.0 == WithMembers(a.0, Student, Members(a.0, Student) + ms) && c.1 == Grow(a.1, Student, ms)
    ensures c.0 == ExpectedHousehold(st, size, fleet, acts)
    ensures c.1.(households := c.1.households + [c.0]) == Settle(st.pop, c.0)
  {
    var d := st.draws;
    var e := ExpectedHousehold(st, size, fleet, acts);
    BuiltAdults(st, size, fleet, acts, h, a);
    var schools := d.schools.items[d.schools.cursor..d.schools.cursor + Students(size)];
    assert Drawn(Student, |a.1.individuals|, a.0.residence, schools, MemberProgram(acts, Student, h.program)) == e.children;
    BuiltChildren(st.pop, a.0, a.1, c, e);
  }

  /** The worker loop leaves the expected household without its children,
      and the population grown by the expected adults. */
  lemma BuiltAdults(st: State, size: nat, fleet: nat, acts: Activities, h: Household,
                    a: (Household, Population, Stream<LocationId>))
    requires Ready(st.draws, size)
    requires h == Household(|st.pop.households|, size, fleet, st.draws.residences.items[st.draws.residences.cursor],
                            st.draws.programs.items[st.draws.programs.cursor], [], [])
    requires
      var d := st.draws;
      var ms := Drawn(Worker, |st.pop.individuals|, h.residence, d.offices.items[d.offices.cursor..d.offices.cursor + Workers(size)], MemberProgram(acts, Worker, h.program));
      a.0 == WithMembers(h, Worker, Members(h, Worker) + ms) && a.1 == Grow(st.pop, Worker, ms)
    ensures a.0 == ExpectedHousehold(st, size, fleet, acts).(children := [])
    ensures a.1 == Grow(st.pop, Worker, ExpectedHousehold(st, size, fleet, acts).adults)
    ensures |a.1.individuals| == |st.pop.individuals| + Workers(size) && a.0.residence == h.residence
  {
    var d := st.draws;
    var e := ExpectedHousehold(st, size, fleet, acts);
    var offices := d.offices.items[d.offices.cursor..d.offices.cursor + Workers(size)];
    var workers := Drawn(Worker, |st.pop.individuals|, h.residence, offices, MemberProgram(acts, Worker, h.program));
    assert e.adults == workers;
    assert Members(h, Worker) + workers == workers;
  }

  lemma BuiltChildren(pop: Population, h1: Household, pop1: Population, c: (Household, Population, Stream<LocationId>), e: Household)
    requires h1 == e.(children := [])
    requires pop1 == Grow(pop, Worker, e.adults)
    requires c.0 == WithMembers(h1, Student, Members(h1, Student) + e.children)
    requires c.1 == Grow(pop1, Student, e.children)
    ensures c.0 == e
    ensures c.1.(households := c.1.households + [c.0]) == Settle(pop, e)
  {
    assert [] + e.children == e.children;
    assert pop.individuals + e.adults + e.children == pop1.individuals + e.children;
  }
}
