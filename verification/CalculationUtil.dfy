/** pkg/util/calculations.go: the tests on steps and entries, and the sorted
    list of pending entries. */
module CalculationUtil {
  import opened Phases
  import opened Objects
  import opened Strings

  const VEGA_STEPS: seq<Step> := [
    Step("atlas12_ada", ["s"], Unset),
    Step("atlas12_ada", ["r"], Unset),
    Step("/bin/bash", ["-c", "synspec49 < input_tlusty_fortfive"], Unset)
  ]

  // The entry whose printed form is hashed: vega entries get their steps first.
  function WithSteps(c: BulkCalc): BulkCalc {
    if c.pipeline == VEGA then c.(steps := VEGA_STEPS) else c
  }

  method IsFinishedCalculation(steps: seq<Step>) returns (r: bool)
    ensures r == Finished(Statuses(steps))
    ensures r <==> forall i | 0 <= i < |steps| :: steps[i].status != Unset
  {
    for i := 0 to |steps|
      invariant forall k | 0 <= k < i :: steps[k].status != Unset
    {
      if steps[i].status == Unset {
        assert Statuses(steps)[i] == Unset;
        return false;
      }
    }
    return true;
  }

  method GetCalculationFinalPhase(steps: seq<Step>) returns (p: Phase)
    ensures p == FinalPhase(Statuses(steps))
    ensures p == if exists i | 0 <= i < |steps| :: steps[i].status == Failed then Failed else Completed
  {
    for i := 0 to |steps|
      invariant forall k | 0 <= k < i :: steps[k].status != Failed
    {
      if steps[i].status == Failed {
        assert Statuses(steps)[i] == Failed;
        return Failed;
      }
    }
    return Completed;
  }

  function Pending(calcs: map<string, BulkCalc>): set<string> {
    set k | k in calcs && calcs[k].phase == Unset
  }

  predicate AllFinished(calcs: map<string, BulkCalc>) {
    forall k | k in calcs :: calcs[k].phase != Unset && calcs[k].phase != Processing
  }

  // Go ranges over a map in any order; `k :| k in rest` is any order.
  method IsAllFinishedCalculations(calcs: map<string, BulkCalc>) returns (r: bool)
    ensures r == AllFinished(calcs)
    ensures r <==> forall k | k in calcs :: calcs[k].phase != Unset && calcs[k].phase != Processing
  {
    var rest := calcs.Keys;
    while rest != {}
      invariant rest <= calcs.Keys
      invariant forall k | k in calcs && k !in rest :: calcs[k].phase != Unset && calcs[k].phase != Processing
    {
      var k :| k in rest;
      if calcs[k].phase == Unset || calcs[k].phase == Processing {
        return false;
      }
      rest := rest - {k};
    }
    return true;
  }

  /** The names of the pending entries, sorted, whatever order the map is walked in. */
  method GetSortedCreatedCalculations(calcs: map<string, BulkCalc>) returns (names: seq<string>)
    ensures names == Listing(Pending(calcs))
    ensures forall k :: k in names <==> k in calcs && calcs[k].phase == Unset
    ensures forall i, j | 0 <= i < j < |names| :: Lt(names[i], names[j])
  {
    var keys := [];
    var rest := calcs.Keys;
    while rest != {}
      invariant rest <= calcs.Keys
      invariant Distinct(keys)
      invariant forall k :: k in keys <==> k in Pending(calcs) && k !in rest
    {
      var k :| k in rest;
      if calcs[k].phase == Unset {
        keys := keys + [k];
      }
      rest := rest - {k};
    }
    names := Sort(keys);
    SortLists(keys);
    assert (set k | k in keys) == Pending(calcs);
    ListsUnique(names, Listing(Pending(calcs)), Pending(calcs));
  }
}
