# Population generator: discrete core in Dafny

This project models the discrete part of the PyABM population generator
(`population.py`). The generator turns household-size, vehicle-fleet and
activity-program frequencies into concrete households, adults and
children. It also gives them residences, workplaces, schools and activity
programs drawn from capacity tables. The model covers four pieces:

- **Capacity-constrained sampler** (`_rand_assignment`, `_get_assignments`).
  A capacity table is expanded into a pool in which each slot appears
  `capacity` times. The pool is shuffled and its first `total` entries are
  returned. The request fails when the total capacity is below `total`.
  The shuffle is CPython's Fisher-Yates loop. Its random draws come from an
  arbitrary oracle, so every possible run of the shuffle is one choice of
  that oracle.
- **Occupancy rule.** Workers are `2 if size > 3 else size`. Students are
  `0 if size < 3 else size - 2`. The rule is applied per household and, in
  aggregate, over the size-frequency table.
- **Household construction** (`add_household`, `Household.add_adult` /
  `add_child`, `Adult` / `Child.get_workplace`). This is a pure step over
  four assignment streams: programs, residences, offices and schools. Each
  stream is a list plus an iterator cursor. The step appends to the
  population's flat lists and to the new household's own member lists.
- **Table walk** in `create_households`. The rounded joint table is an input
  matrix of naturals. Rows are fleet categories and columns are size
  categories. Cells are visited in row-major order, and each cell creates
  `table[i][j]` households.

Modules, leaf first: `Results` (errors), `Sampler`, `Sorting` (constructor
sorting), `Occupancy`, `Entities`, `Streams`, `HouseholdStep`,
`PopulationInvariant`, `TableWalk`, `Aggregate`, `ProgramTable`, `Builder`.

Points where the code's behaviour is easy to misread:

- A size-3 household gets 3 workers and 1 student, four members in all
  (population.py:71-73). The comment at population.py:101-102 speaks of two
  workers for households larger than one. `MembersOfSize` states what the
  code computes.
- `add_household` draws the residence before the program
  (population.py:68-69): the iterator arguments are evaluated in order.
- `hhnum` is `round(table.sum())` of the fitted table (population.py:99).
  The fit ends with the column step (population.py:42), so this is the
  size-marginal total, not the sum of the separately rounded cells
  (population.py:122). The two can differ.
- A stream that runs dry during the walk raises `StopIteration`. The model
  returns `Err(StopIteration)`. `Walk` and `CreateHouseholds` state exactly
  when this happens.

## Model

| member | source | states |
|---|---|---|
| `Sampler.ExpandCounts` | population.py:51-52 | The expanded pool holds each slot exactly as often as its capacity, so the pool's length is the sum of the capacities. |
| `Sampler.DictCapacity` | population.py:51-52 | For a dictionary (no repeated key), a key's capacity is its value and any other slot's capacity is zero. |
| `Sampler.ShuffleDown` | population.py:55 | Each Fisher-Yates swap step keeps the length and the multiset of the pool and leaves the positions at or above `n` alone. |
| `Sampler.Shuffle` | population.py:53-55 | The shuffled pool is a rearrangement of the pool: same length, same multiset. |
| `Sampler.RandAssignment` | population.py:48-56 | The shuffled pool has the total capacity as its length and holds each slot exactly `capacity` times. |
| `Sampler.GetAssignments` | population.py:58-64 | It fails with the shortfall exactly when the total capacity is below `total`. Otherwise it returns exactly `total` slots, each at most its capacity times, drawn from the pool's multiset. |
| `Sorting.Sort` | population.py:17 | `sorted(freq)` gives a rearrangement of the table sorted in Python's (category, frequency) tuple order. |
| `Occupancy.MembersOfSize` | population.py:71-73 | Workers plus students equal the size, except that size 3 gives four members. There are at most three workers, and no students exactly for sizes below 3. |
| `Occupancy.TotalPermutation` | population.py:103-105 | The aggregate worker or student total does not depend on the row order of the size table, so the constructor's sorting does not change it. |
| `Entities.AddMember` | population.py:140-190 | `add_adult` / `add_child` append exactly one member, with the given id, residence and program, to the household's list for its role. Nothing else changes. The member is an adult exactly for a worker, and its `get_workplace` is the place it was given. |
| `Streams.DrawInOrder` | population.py:81-89 | `k` successive `next()` calls on an iterator succeed exactly when `k` items remain. They return those items in list order and move the cursor by `k`; otherwise they stop with `StopIteration`. |
| `Streams.DrainFresh` | population.py:116-118 | An iterator over a fresh list returns the list's first `k` items in order. The call after the last item, and any draw past the end, is `StopIteration`. |
| `HouseholdStep.AddMembers` | population.py:78-89 | The member loop for one role equals its closed form `MembersAfter`. It succeeds exactly when the stream holds `n` more places, and fails with `StopIteration` otherwise. It then appends to the household's list and to the population's role list and individuals list the `n` members with consecutive ids, the household's residence, the next `n` places in order and the role's program. The stream moves on by `n`. |
| `HouseholdStep.MembersFromDraw` | population.py:81-89 | The member loop fails exactly when `n` draws from the place iterator fail. Otherwise its members are created from the drawn places, in draw order, and the stream is left where the draws leave it. |
| `HouseholdStep.AddHousehold` | population.py:66-90 | One step succeeds exactly when the streams hold one residence, one program, `wknum` offices and `stnum` schools. It then consumes exactly those, in that order. It appends exactly one household, `wknum` adults, `stnum` children and `wknum + stnum` individuals, and changes nothing else. |
| `PopulationInvariant.ExpectedMembers` | population.py:80-89 | The new household's adults have consecutive ids after the existing individuals, then come the children. Every member has the household's residence. Each adult's program is `(home, work) + program` and its workplace is the next office. Each child's program is `(home, school) + program` and its workplace is the next school. |
| `PopulationInvariant.AddHouseholdKeepsConsistent` | population.py:66-90 | `add_household` keeps the population consistent. Ids equal list positions. The flat adult, child and individual lists are the households' own lists laid end to end. Every member lives at its household's residence. |
| `TableWalk.PlanRowBlocks` | population.py:120-124 | In one fleet row, the block of column `j` is exactly `row[j]` households of size `sizes[j]` and that fleet. The row creates as many households as its sum. |
| `TableWalk.PlanBlocks` | population.py:120-124 | In row-major order, cell `(i, j)` creates exactly `table[i][j]` consecutive households of size `sizes[j]` and fleet `fleets[i]`, starting after all earlier cells. The walk creates as many households as the table's sum. |
| `TableWalk.Walk` | population.py:120-124 | Creating the planned households one by one succeeds exactly when every stream holds what the plan draws. It then appends one household per plan entry, with that entry's size and fleet and in plan order, and the members those sizes call for. It consumes exactly what it draws. |
| `TableWalk.WalkKeepsConsistent` | population.py:120-124 | The walk keeps the population consistent. |
| `Aggregate.NeedPlan` | population.py:120-124 | The workers (or students) the walk creates equal the table's column sums weighted by the per-household count of each column's size. |
| `Aggregate.SumColumnSums` | population.py:99 | The column sums of the table add up to the sum of all its cells. So when every column sum is its size's frequency, the walk creates exactly the size-marginal total `hhnum` of households. |
| `Aggregate.AggregateMatchesWalk` | population.py:103-105 | When every column of the table adds up to its size's frequency, the aggregate `wknum` / `stnum` equal exactly the workers / students the walk creates. |
| `ProgramTable.Put` | population.py:107 | A dictionary store keeps the keys distinct, adds the key, gives it the new value and leaves every other key's value alone. |
| `ProgramTable.ProgramCapacities` | population.py:107 | Building the program dictionary fails exactly when some label is unknown, and the error names the first unknown label. Otherwise the result is a dictionary with distinct keys. |
| `ProgramTable.LastPairWins` | population.py:107 | In the program dictionary, each program's capacity is the frequency of the last pair resolving to it. Programs that no label resolves to have none. |
| `Builder.NewPopulation` | population.py:16-21 | The constructor stores sorted rearrangements of the size and fleet tables and the program table as given, with empty output lists. The result is consistent. |
| `Builder.Requests` | population.py:106-118 | The four requests succeed exactly when the program labels resolve and each capacity table covers its request. They yield fresh streams of exactly `hhnum`, `hhnum`, `wknum` and `stnum` items. An unknown label gives `UnknownProgram`. When every label is known, a failure is the `Shortfall(capsum, total)` of the first request, in the order programs, residences, offices, schools, whose capacity sum is below its total. |
| `Builder.CreateHouseholds` | population.py:92-124 | `hhnum` is the size-marginal total. If the fleet and size totals differ, it fails with both totals. Otherwise, an unknown label gives `UnknownProgram`; with every label known, a capacity short of its request gives `Shortfall`. If the requests are served but the table asks for more than `hhnum` households, or for more members than the aggregates, the walk fails with `StopIteration`. It succeeds exactly when none of these happens. It then extends the population by exactly the table's households, in walk order. |
| `Builder.Populate` | population.py:99-124 | After the marginal check: an unknown label gives `UnknownProgram`; with every label known, an unserved request gives `Shortfall`; served requests whose streams the table overruns give `StopIteration`. It succeeds exactly when the table is feasible, and then extends the population by the table's households in walk order. |
| `Builder.CreateKeepsConsistent` | population.py:92-124 | `create_households` keeps the population consistent. |
| `Builder.ExactCounts` | population.py:98-124 | With column sums equal to the size frequencies, equal marginals, known labels and enough capacity, `create_households` succeeds for every random draw. It creates exactly `hhnum` households (the size-marginal total), `wknum` adults and `stnum` children. |
| `Builder.HouseholdsByCell` | population.py:120-124 | The households `create_households` appends come cell by cell in row-major order. Cell `(i, j)` contributes exactly `table[i][j]` households of size `size_freq[j][0]` and fleet `fleet_freq[i][0]`. |

## Left out

- `_proportional_fit` (population.py:23-46): floating-point iteration whose stopping test depends only on a tolerance. The rounded joint table is an input matrix of naturals. The fit's assertion that the marginal totals agree is modelled in `CreateHouseholds`. Its structural-zero pattern is not required of the input table, because nothing else in the model depends on it.
- Rounding: each cell of the fitted float table is rounded separately (population.py:122). The model takes those rounded cells as its input table, and takes `hhnum` as the exact size-marginal total. Floating-point error in `round(table.sum())` is not modelled.
- `random.shuffle` quality: the random source is an arbitrary oracle. Nothing is claimed about uniformity or the generator's period.
- `Sampler.GetAssignments`: does not state that the selection is uniformly random, because randomness is an oracle parameter here.
- Dictionary iteration order: Python 2 leaves it unspecified. Capacity tables are item lists in some order, and every statement holds for any order.
- `add_object2pool`, `ndrange` and `Config` (from `utils` and `config`) are not part of this model. Ids are the length of the pool being appended to. `ndrange` is a row-major nested loop.
- `land` and `demand` are plain values: three capacity tables, the home/work/school activity ids and the program map.
- `create_households` is all-or-nothing in the model. When the source raises part-way, its lists keep the entries appended before the exception; the model returns only the error.
- Size and fleet categories are natural numbers. Negative size labels, which would give negative member counts in the aggregate, are not modelled.
- `__repr__`, the identity-based `__eq__`, `get_residence` and the unused `transitions` / `states` fields carry no behaviour that the model uses.
