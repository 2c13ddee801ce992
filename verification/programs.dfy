/** The program capacity table of `create_households`: every
    (program label, frequency) pair is resolved to its program through the
    demand's program table and put into a dictionary, a later pair for the
    same program replacing an earlier one. An unknown label is a
    `KeyError`. */
module ProgramTable {
  import opened Results
  import opened Sampler
  import opened Entities

  /** The keys of a capacity table. */
  function Keys(items: Items<Program>): set<Program> {
    if |items| == 0 then {} else {items[0].0} + Keys(items[1..])
  }

  lemma {:induction false} DictCons(items: Items<Program>)
    requires |items| > 0
    ensures IsDict(items) <==> items[0].0 !in Keys(items[1..]) && IsDict(items[1..])
  {
    KeysAt(items[1..]);
    if IsDict(items) {
      forall i, j | 0 <= i < j < |items[1..]|
        ensures items[1..][i].0 != items[1..][j].0
      {
        assert items[1..][i] == items[i + 1] && items[1..][j] == items[j + 1];
      }
    }
    if items[0].0 !in Keys(items[1..]) && IsDict(items[1..]) {
      forall i, j | 0 <= i < j < |items|
        ensures items[i].0 != items[j].0
      {
        if i == 0 {
          assert items[j] == items[1..][j - 1];
        } else {
          assert items[i] == items[1..][i - 1] && items[j] == items[1..][j - 1];
        }
      }
    }
  }

  lemma {:induction false} KeysAt(items: Items<Program>)
    ensures forall i :: 0 <= i < |items| ==> items[i].0 in Keys(items)
    ensures forall s :: s in Keys(items) ==> exists i :: 0 <= i < |items| && items[i].0 == s
  {
    if |items| > 0 {
      KeysAt(items[1..]);
      forall i | 0 < i < |items|
        ensures items[i].0 in Keys(items)
      {
        assert items[i] == items[1..][i - 1];
      }
      forall s | s in Keys(items)
        ensures exists i :: 0 <= i < |items| && items[i].0 == s
      {
        if s != items[0].0 {
          var i :| 0 <= i < |items[1..]| && items[1..][i].0 == s;
          assert items[i + 1].0 == s;
        }
      }
    }
  }

  /** `d[k] = v`: replaces the value of an existing key in place, or
      appends a new key. */
  function Put(items: Items<Program>, k: Program, v: nat): (r: Items<Program>)
    requires IsDict(items)
    ensures IsDict(r)
    ensures Keys(r) == Keys(items) + {k}
    ensures CapacityOf(r, k) == v
    ensures forall s :: s != k ==> CapacityOf(r, s) == CapacityOf(items, s)
  {
    DictCons([(k, v)] + items);
    if |items| == 0 then
      [(k, v)]
    else
      DictCons(items);
      if items[0].0 == k then
        var r := [(k, v)] + items[1..];
        assert r[1..] == items[1..];
        DictCons(r);
        DictCapacity(items[1..], k);
        KeysAt(items[1..]);
        r
      else
        var rest := Put(items[1..], k, v);
        var r := [items[0]] + rest;
        assert r[1..] == rest;
        DictCons(r);
        r
  }

  /** `pf[k]` is the last pair whose label resolves to the same program. */
  predicate LastFor(pf: seq<(string, nat)>, programs: map<string, Program>, k: nat)
    requires k < |pf| && pf[k].0 in programs
  {
    forall m :: k < m < |pf| ==> pf[m].0 in programs && programs[pf[m].0] != programs[pf[k].0]
  }

  /** Every label of the table names a known program. */
  predicate AllKnown(pf: seq<(string, nat)>, programs: map<string, Program>) {
    forall k :: 0 <= k < |pf| ==> pf[k].0 in programs
  }

  /** `pf[k]` holds the first label that names no known program. */
  predicate FirstUnknown(pf: seq<(string, nat)>, programs: map<string, Program>, k: nat) {
    k < |pf| && pf[k].0 !in programs && forall m :: 0 <= m < k ==> pf[m].0 in programs
  }

  /** Some label of the table names program `p`. */
  predicate Resolves(pf: seq<(string, nat)>, programs: map<string, Program>, p: Program) {
    exists k :: 0 <= k < |pf| && pf[k].0 in programs && programs[pf[k].0] == p
  }

  /** `dict((demand.programs[label], freq) for label, freq in prog_freq)`.
      It fails on the first unknown label and otherwise builds a
      dictionary; `LastPairWins` states its values. */
  function ProgramCapacities(pf: seq<(string, nat)>, programs: map<string, Program>): (r: Result<Items<Program>>)
    ensures r.Ok? <==> AllKnown(pf, programs)
    ensures r.Err? ==> exists k :: 0 <= k < |pf| && FirstUnknown(pf, programs, k) && r.error == UnknownProgram(pf[k].0)
    ensures r.Ok? ==> IsDict(r.value)
    decreases |pf|
  {
    if |pf| == 0 then Ok([])
    else
      var init := pf[..|pf| - 1];
      var last := pf[|pf| - 1];
      match ProgramCapacities(init, programs)
      case Err(e) =>
        InitErr(pf, programs, e);
        Err(e)
      case Ok(table) =>
        assert AllKnown(init, programs);
        if last.0 !in programs then
          assert FirstUnknown(pf, programs, |pf| - 1);
          Err(UnknownProgram(last.0))
        else
          Ok(Put(table, programs[last.0], last.1))
  }

  /** In the program dictionary each program's capacity is the frequency of
      the last pair that resolves to it, and a program no label resolves to
      has none. */
  lemma {:induction false} LastPairWins(pf: seq<(string, nat)>, programs: map<string, Program>)
    requires AllKnown(pf, programs)
    ensures
      var table := ProgramCapacities(pf, programs).value;
      && (forall k :: 0 <= k < |pf| && pf[k].0 in programs && LastFor(pf, programs, k) ==>
            CapacityOf(table, programs[pf[k].0]) == pf[k].1)
      && (forall p :: !Resolves(pf, programs, p) ==> CapacityOf(table, p) == 0)
    decreases |pf|
  {
    if |pf| > 0 {
      var init := pf[..|pf| - 1];
      assert AllKnown(init, programs) by {
        forall k | 0 <= k < |init| ensures init[k].0 in programs {
          assert init[k] == pf[k];
        }
      }
      LastPairWins(init, programs);
      var table := ProgramCapacities(init, programs).value;
      PutLast(pf, programs, table, ProgramCapacities(pf, programs).value);
    }
  }

  /** An unknown label among the earlier pairs is the first unknown label
      of the whole table. */
  lemma InitErr(pf: seq<(string, nat)>, programs: map<string, Program>, e: Error)
    requires |pf| > 0
    requires exists k :: 0 <= k < |pf| - 1 && FirstUnknown(pf[..|pf| - 1], programs, k) && e == UnknownProgram(pf[k].0)
    ensures !AllKnown(pf, programs)
    ensures exists k :: 0 <= k < |pf| && FirstUnknown(pf, programs, k) && e == UnknownProgram(pf[k].0)
  {
    var init := pf[..|pf| - 1];
    var k :| 0 <= k < |init| && FirstUnknown(init, programs, k) && e == UnknownProgram(pf[k].0);
    assert init[k] == pf[k];
    forall m | 0 <= m < k
      ensures pf[m].0 in programs
    {
      assert init[m] == pf[m];
    }
    assert FirstUnknown(pf, programs, k);
  }

  /** Storing the last pair on top of the table of the earlier pairs gives
      every program the frequency of the last pair resolving to it. */
  lemma PutLast(pf: seq<(string, nat)>, programs: map<string, Program>, table: Items<Program>, r: Items<Program>)
    requires |pf| > 0 && AllKnown(pf, programs)
    requires IsDict(table)
    requires
      var init := pf[..|pf| - 1];
      && (forall k :: 0 <= k < |init| && init[k].0 in programs && LastFor(init, programs, k) ==>
            CapacityOf(table, programs[init[k].0]) == init[k].1)
      && (forall p :: !Resolves(init, programs, p) ==> CapacityOf(table, p) == 0)
    requires r == Put(table, programs[pf[|pf| - 1].0], pf[|pf| - 1].1)
    ensures forall k :: 0 <= k < |pf| && pf[k].0 in programs && LastFor(pf, programs, k) ==>
              CapacityOf(r, programs[pf[k].0]) == pf[k].1
    ensures forall p :: !Resolves(pf, programs, p) ==> CapacityOf(r, p) == 0
  {
    var init := pf[..|pf| - 1];
    var last := pf[|pf| - 1];
    forall k | 0 <= k < |pf| && pf[k].0 in programs && LastFor(pf, programs, k)
      ensures CapacityOf(r, programs[pf[k].0]) == pf[k].1
    {
      if k < |init| {
        assert init[k] == pf[k];
        assert programs[pf[k].0] != programs[last.0];
        assert LastFor(init, programs, k);
      }
    }
    forall p | !Resolves(pf, programs, p)
      ensures CapacityOf(r, p) == 0
    {
      assert programs[last.0] != p;
      forall k | 0 <= k < |init| && init[k].0 in programs
        ensures programs[init[k].0] != p
      {
        assert init[k] == pf[k];
      }
    }
  }
}
