/** Households and their members. An individual is an adult (a worker with
    an office) or a child (a student with a school); both share an identity
    and the household's residence. */
module Entities {
  import opened Occupancy

  type LocationId = nat
  type ActivityId = nat

  /** An activity program: a tuple of activity identities. */
  type Program = seq<ActivityId>

  datatype Individual =
    | Adult(id: nat, residence: LocationId, office: LocationId, program: Program)
    | Child(id: nat, residence: LocationId, school: LocationId, program: Program)

  datatype Household = Household(
    id: nat,
    size: nat,
    fleet: nat,
    residence: LocationId,
    program: Program,
    adults: seq<Individual>,
    children: seq<Individual>)

  /** `get_workplace`: the office of an adult, the school of a child. */
  function Workplace(p: Individual): LocationId {
    match p
    case Adult(_, _, office, _) => office
    case Child(_, _, school, _) => school
  }

  /** The individual a role stands for: workers are adults, students are
      children. */
  function Member(role: Role, id: nat, residence: LocationId, place: LocationId, program: Program): Individual {
    match role
    case Worker => Adult(id, residence, place, program)
    case Student => Child(id, residence, place, program)
  }

  /** The household's member list for a role. */
  function Members(h: Household, role: Role): seq<Individual> {
    match role
    case Worker => h.adults
    case Student => h.children
  }

  /** `Household.add_adult` and `Household.add_child`: build the member and
      append it to the household's own list for its role. */
  function AddMember(h: Household, role: Role, id: nat, residence: LocationId, place: LocationId, program: Program): (r: (Household, Individual))
    ensures r.1.id == id && r.1.residence == residence && r.1.program == program
    ensures Workplace(r.1) == place
    ensures r.1.Adult? <==> role == Worker
    ensures Members(r.0, role) == Members(h, role) + [r.1]
    ensures role == Worker ==> r.0 == h.(adults := r.0.adults)
    ensures role == Student ==> r.0 == h.(children := r.0.children)
  {
    var m := Member(role, id, residence, place, program);
    match role
    case Worker => (h.(adults := h.adults + [m]), m)
    case Student => (h.(children := h.children + [m]), m)
  }
}
