/** The shape every population built by `add_household` keeps: identities
    equal list positions, the flat lists are the households' own member
    lists laid end to end, and every member lives at its household's
    residence and follows its household's program. */
module PopulationInvariant {
  import opened Occupancy
  import opened Entities
  import opened Streams
  import opened HouseholdStep

  /** A household as one step builds it: one adult per worker and one child
      per student of its size, each at the household's residence with the
      program of its role. */
  predicate WellBuilt(h: Household, acts: Activities) {
    && |h.adults| == Workers(h.size)
    && |h.children| == Students(h.size)
    && (forall i :: 0 <= i < |h.adults| ==>
          h.adults[i].Adult? && h.adults[i].residence == h.residence
          && h.adults[i].program == MemberProgram(acts, Worker, h.program))
    && (forall i :: 0 <= i < |h.children| ==>
          h.children[i].Child? && h.children[i].residence == h.residence
          && h.children[i].program == MemberProgram(acts, Student, h.program))
  }

  /** The member lists of a role of all households, in household order. */
  function AllOf(hs: seq<Household>, role: Role): seq<Individual> {
    if |hs| == 0 then [] else AllOf(hs[..|hs| - 1], role) + Members(hs[|hs| - 1], role)
  }

  /** Every household's adults followed by its children, in household
      order. */
  function Everyone(hs: seq<Household>): seq<Individual> {
    if |hs| == 0 then [] else Everyone(hs[..|hs| - 1]) + hs[|hs| - 1].adults + hs[|hs| - 1].children
  }

  predicate Consistent(pop: Population, acts: Activities) {
    && (forall k :: 0 <= k < |pop.households| ==> pop.households[k].id == k && WellBuilt(pop.households[k], acts))
    && (forall k :: 0 <= k < |pop.individuals| ==> pop.individuals[k].id == k)
    && pop.adults == AllOf(pop.households, Worker)
    && pop.children == AllOf(pop.households, Student)
    && pop.individuals == Everyone(pop.households)
  }

  /** The members of the household one step builds: consecutive identities
      after the existing individuals, adults before children, each adult's
      workplace the next office and each child's the next school, all at
      the household's residence with the household's program behind home
      and work or school. */
  lemma ExpectedMembers(st: State, size: nat, fleet: nat, acts: Activities)
    requires Ready(st.draws, size)
    ensures
      var h := ExpectedHousehold(st, size, fleet, acts);
      var d := st.draws;
      var base := |st.pop.individuals|;
      && h.id == |st.pop.households| && h.size == size && h.fleet == fleet
      && h.residence == d.residences.items[d.residences.cursor]
      && h.program == d.programs.items[d.programs.cursor]
      && |h.adults| == Workers(size) && |h.children| == Students(size)
      && (forall i :: 0 <= i < |h.adults| ==>
            && h.adults[i] == Adult(base + i, h.residence, d.offices.items[d.offices.cursor + i], [acts.home, acts.work] + h.program)
            && Workplace(h.adults[i]) == d.offices.items[d.offices.cursor + i])
      && (forall i :: 0 <= i < |h.children| ==>
            && h.children[i] == Child(base + Workers(size) + i, h.residence, d.schools.items[d.schools.cursor + i], [acts.home, acts.school] + h.program)
            && Workplace(h.children[i]) == d.schools.items[d.schools.cursor + i])
  {
  }

  lemma AppendHousehold(hs: seq<Household>, h: Household)
    ensures AllOf(hs + [h], Worker) == AllOf(hs, Worker) + h.adults
    ensures AllOf(hs + [h], Student) == AllOf(hs, Student) + h.children
    ensures Everyone(hs + [h]) == Everyone(hs) + h.adults + h.children
  {
    assert (hs + [h])[..|hs|] == hs;
  }

  /** Appending a well-built household whose identity and members'
      identities continue the population's lists keeps its shape. */
  lemma SettleKeepsConsistent(pop: Population, h: Household, acts: Activities)
    requires Consistent(pop, acts)
    requires h.id == |pop.households| && WellBuilt(h, acts)
    requires forall i :: 0 <= i < |h.adults| ==> h.adults[i].id == |pop.individuals| + i
    requires forall i :: 0 <= i < |h.children| ==> h.children[i].id == |pop.individuals| + |h.adults| + i
    ensures Consistent(Settle(pop, h), acts)
  {
    var pop' := Settle(pop, h);
    AppendHousehold(pop.households, h);
    forall k | 0 <= k < |pop'.households|
      ensures pop'.households[k].id == k && WellBuilt(pop'.households[k], acts)
    {
      if k < |pop.households| {
        assert pop'.households[k] == pop.households[k];
      }
    }
    var base := |pop.individuals|;
    forall k | 0 <= k < |pop'.individuals|
      ensures pop'.individuals[k].id == k
    {
      if k < base {
        assert pop'.individuals[k] == pop.individuals[k];
      } else if k < base + |h.adults| {
        assert pop'.individuals[k] == h.adults[k - base];
      } else {
        assert pop'.individuals[k] == h.children[k - base - |h.adults|];
      }
    }
  }

  /** One `add_household` step keeps the population's shape. */
  lemma AddHouseholdKeepsConsistent(st: State, size: nat, fleet: nat, acts: Activities)
    requires WellFormed(st.draws)
    requires Consistent(st.pop, acts)
    requires AddHousehold(st, size, fleet, acts).Ok?
    ensures Consistent(AddHousehold(st, size, fleet, acts).value.pop, acts)
  {
    var h := ExpectedHousehold(st, size, fleet, acts);
    ExpectedMembers(st, size, fleet, acts);
    assert WellBuilt(h, acts);
    SettleKeepsConsistent(st.pop, h, acts);
  }
}
