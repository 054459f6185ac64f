/** pkg/dispatcher/bulks/controller.go: pairing pending entries with available
    workers. */
module Scheduler {
  import opened Phases
  import opened Objects
  import opened Strings
  import opened CalculationUtil

  function NewCalculationForBulk(bulk: Bulk, c: BulkCalc, worker: Worker, labels: Labels, h: Namer, addr: nat): Calculation {
    Calculation(
      name := h(WithSteps(c), addr),
      labels := labels,
      assign := worker.name,
      workerPool := bulk.workerPool,
      pipeline := c.pipeline,
      params := c.params,
      steps := WithSteps(c).steps,
      inputFiles := c.inputFiles,
      outputFilesRegex := bulk.outputFilesRegex,
      phase := Created)
  }

  function EntryLabels(bulkName: string, bulk: Bulk, entry: string, worker: Worker): Labels {
    Labels(Some(bulkName), Some(entry), false, Some(bulk.rootFolder), Some(worker.name))
  }

  function AvailableNodes(pool: Pool): set<string> {
    set n | n in pool && pool[n].state == Available
  }

  function Min(a: nat, b: nat): nat {
    if a < b then a else b
  }

  function Pairing(bulkName: string, bulk: Bulk, pool: Pool, h: Namer, addr: string -> nat, entry: string, node: string): Calculation
    requires entry in bulk.calcs && node in pool
  {
    NewCalculationForBulk(bulk, bulk.calcs[entry], pool[node], EntryLabels(bulkName, bulk, entry, pool[node]), h, addr(entry))
  }

  // The k-th smallest pending entry goes to the k-th smallest available node.
  ghost function Assigned(bulkName: string, bulk: Bulk, pool: Pool, h: Namer, addr: string -> nat, k: nat): Calculation
    requires k < |Pending(bulk.calcs)| && k < |AvailableNodes(pool)|
  {
    ListsLength(Listing(Pending(bulk.calcs)), Pending(bulk.calcs));
    ListsLength(Listing(AvailableNodes(pool)), AvailableNodes(pool));
    var entry := Listing(Pending(bulk.calcs))[k];
    var node := Listing(AvailableNodes(pool))[k];
    assert entry in Pending(bulk.calcs) && node in AvailableNodes(pool);
    Pairing(bulkName, bulk, pool, h, addr, entry, node)
  }

  ghost function Assignment(bulkName: string, bulk: Bulk, pool: Pool, h: Namer, addr: string -> nat): seq<Calculation> {
    var n := Min(|Pending(bulk.calcs)|, |AvailableNodes(pool)|);
    seq(n, k requires 0 <= k < n => Assigned(bulkName, bulk, pool, h, addr, k))
  }

  method SortedAvailable(pool: Pool) returns (nodes: seq<string>)
    ensures nodes == Listing(AvailableNodes(pool))
    ensures forall n :: n in nodes <==> n in pool && pool[n].state == Available
  {
    var keys := [];
    var rest := pool.Keys;
    while rest != {}
      invariant rest <= pool.Keys
      invariant Distinct(keys)
      invariant forall k :: k in keys <==> k in AvailableNodes(pool) && k !in rest
    {
      var k :| k in rest;
      if pool[k].state == Available {
        keys := keys + [k];
      }
      rest := rest - {k};
    }
    nodes := Sort(keys);
    SortLists(keys);
    assert (set k | k in keys) == AvailableNodes(pool);
    ListsUnique(nodes, Listing(AvailableNodes(pool)), AvailableNodes(pool));
  }

  lemma PairedIsAssignment(bulkName: string, bulk: Bulk, pool: Pool, h: Namer, addr: string -> nat, cs: seq<Calculation>)
    requires |cs| == Min(|Listing(Pending(bulk.calcs))|, |Listing(AvailableNodes(pool))|)
    requires forall k | 0 <= k < |cs| ::
               Listing(Pending(bulk.calcs))[k] in bulk.calcs && Listing(AvailableNodes(pool))[k] in pool &&
               cs[k] == Pairing(bulkName, bulk, pool, h, addr, Listing(Pending(bulk.calcs))[k], Listing(AvailableNodes(pool))[k])
    ensures cs == Assignment(bulkName, bulk, pool, h, addr)
  {
    ListsLength(Listing(Pending(bulk.calcs)), Pending(bulk.calcs));
    ListsLength(Listing(AvailableNodes(pool)), AvailableNodes(pool));
  }

  // The loop over the sorted entries, with its own index into the workers.
  method PairUp(bulkName: string, bulk: Bulk, pool: Pool, h: Namer, addr: string -> nat, items: seq<string>, nodes: seq<string>)
    returns (calculations: seq<Calculation>)
    requires forall i | 0 <= i < |items| :: items[i] in bulk.calcs && bulk.calcs[items[i]].phase == Unset
    requires forall i | 0 <= i < |nodes| :: nodes[i] in pool
    ensures |calculations| == Min(|items|, |nodes|)
    ensures forall k | 0 <= k < |calculations| ::
              calculations[k] == Pairing(bulkName, bulk, pool, h, addr, items[k], nodes[k])
  {
    calculations := [];
    var workerIndex := 0;
    for i := 0 to |items|
      invariant workerIndex == Min(i, |nodes|)
      invariant |calculations| == workerIndex
      invariant forall k | 0 <= k < workerIndex :: calculations[k] == Pairing(bulkName, bulk, pool, h, addr, items[k], nodes[k])
    {
      if bulk.calcs[items[i]].phase == Unset && workerIndex < |nodes| {
        calculations := calculations + [Pairing(bulkName, bulk, pool, h, addr, items[i], nodes[workerIndex])];
        workerIndex := workerIndex + 1;
      }
    }
  }

  /** The assignment is exactly that pairing, for every order in which the two
      maps are walked. */
  method AssignCalculationsToWorkers(bulkName: string, bulk: Bulk, pool: Pool, h: Namer, addr: string -> nat)
    returns (calculations: seq<Calculation>)
    ensures calculations == Assignment(bulkName, bulk, pool, h, addr)
  {
    var items := GetSortedCreatedCalculations(bulk.calcs);
    var nodes := SortedAvailable(pool);
    assert forall i | 0 <= i < |items| :: items[i] in Pending(bulk.calcs);
    assert forall i | 0 <= i < |nodes| :: nodes[i] in AvailableNodes(pool);
    calculations := PairUp(bulkName, bulk, pool, h, addr, items, nodes);
    PairedIsAssignment(bulkName, bulk, pool, h, addr, calculations);
  }

  /** No entry is given out twice, only pending entries are, and only to
      available workers; every pending entry is given out if there are enough. */
  lemma AssignmentIsMatching(bulkName: string, bulk: Bulk, pool: Pool, h: Namer, addr: string -> nat)
    ensures var r := Assignment(bulkName, bulk, pool, h, addr);
            && |r| == Min(|Pending(bulk.calcs)|, |AvailableNodes(pool)|)
            && (forall k | 0 <= k < |r| :: r[k].labels.entry.Some? && r[k].labels.entry.value in Pending(bulk.calcs))
            && (forall i, k | 0 <= i < k < |r| :: Lt(r[i].labels.entry.value, r[k].labels.entry.value))
            && (forall k | 0 <= k < |r| :: exists n :: n in AvailableNodes(pool) && r[k].assign == pool[n].name)
            && (|Pending(bulk.calcs)| <= |AvailableNodes(pool)| ==>
                  forall e | e in Pending(bulk.calcs) :: exists k :: 0 <= k < |r| && r[k].labels.entry == Some(e))
  {
    var r := Assignment(bulkName, bulk, pool, h, addr);
    var es := Listing(Pending(bulk.calcs));
    var ns := Listing(AvailableNodes(pool));
    ListsLength(es, Pending(bulk.calcs));
    ListsLength(ns, AvailableNodes(pool));
    forall k | 0 <= k < |r|
      ensures r[k].labels.entry == Some(es[k]) && es[k] in Pending(bulk.calcs)
      ensures ns[k] in AvailableNodes(pool) && r[k].assign == pool[ns[k]].name
    {
      assert r[k] == Assigned(bulkName, bulk, pool, h, addr, k);
    }
    if |Pending(bulk.calcs)| <= |AvailableNodes(pool)| {
      forall e | e in Pending(bulk.calcs)
        ensures exists k :: 0 <= k < |r| && r[k].labels.entry == Some(e)
      {
        var k :| 0 <= k < |es| && es[k] == e;
        assert r[k].labels.entry == Some(e);
      }
    }
  }

  // x is in s, and exactly k of s come before it.
  ghost predicate IsKth(s: set<string>, x: string, k: nat) {
    x in s && |Below(s, x)| == k
  }

  /** What is assigned, field by field. There are as many Calculations as pending
      entries or available workers, whichever are fewer; the k-th is for the k-th
      smallest entry in phase "" and goes to the k-th smallest node in state
      Available; and it is made of the entry, but a vega entry gets its three
      steps, and of the bulk's output pattern and pool. */
  lemma AssignmentExactly(bulkName: string, bulk: Bulk, pool: Pool, h: Namer, addr: string -> nat, k: nat)
    returns (entry: string, node: string)
    requires k < |Assignment(bulkName, bulk, pool, h, addr)|
    ensures entry in bulk.calcs && IsKth((set e | e in bulk.calcs && bulk.calcs[e].phase == Unset), entry, k)
    ensures node in pool && IsKth((set n | n in pool && pool[n].state == Available), node, k)
    ensures var c, x := Assignment(bulkName, bulk, pool, h, addr)[k], bulk.calcs[entry];
            && c.labels == Labels(Some(bulkName), Some(entry), false, Some(bulk.rootFolder), Some(pool[node].name))
            && c.assign == pool[node].name && c.workerPool == bulk.workerPool && c.phase == Created
            && MadeOf(c, x, bulk, h, addr(entry))
  {
    ListsLength(Listing(Pending(bulk.calcs)), Pending(bulk.calcs));
    ListsLength(Listing(AvailableNodes(pool)), AvailableNodes(pool));
    entry, node := Listing(Pending(bulk.calcs))[k], Listing(AvailableNodes(pool))[k];
    RankInListing(Listing(Pending(bulk.calcs)), Pending(bulk.calcs), k);
    RankInListing(Listing(AvailableNodes(pool)), AvailableNodes(pool), k);
    assert Pending(bulk.calcs) == set e | e in bulk.calcs && bulk.calcs[e].phase == Unset;
    assert AvailableNodes(pool) == set n | n in pool && pool[n].state == Available;
    assert Assignment(bulkName, bulk, pool, h, addr)[k] == Assigned(bulkName, bulk, pool, h, addr, k);
  }

  lemma AssignmentLength(bulkName: string, bulk: Bulk, pool: Pool, h: Namer, addr: string -> nat)
    ensures var pending := |set e | e in bulk.calcs && bulk.calcs[e].phase == Unset|;
            var available := |set n | n in pool && pool[n].state == Available|;
            |Assignment(bulkName, bulk, pool, h, addr)| == if pending < available then pending else available
  {
    assert Pending(bulk.calcs) == set e | e in bulk.calcs && bulk.calcs[e].phase == Unset;
    assert AvailableNodes(pool) == set n | n in pool && pool[n].state == Available;
  }

  // The entry's own fields, the three vega steps and the bulk's output pattern.
  predicate MadeOf(c: Calculation, x: BulkCalc, bulk: Bulk, h: Namer, addr: nat) {
    && c.params.teff == x.params.teff && c.params.logG == x.params.logG
    && c.pipeline == x.pipeline && c.inputFiles == x.inputFiles && c.outputFilesRegex == bulk.outputFilesRegex
    && (x.pipeline != "vega" ==> c.steps == x.steps && c.name == h(x, addr))
    && (x.pipeline == "vega" ==>
          && c.steps == [Step("atlas12_ada", ["s"], Unset), Step("atlas12_ada", ["r"], Unset),
                         Step("/bin/bash", ["-c", "synspec49 < input_tlusty_fortfive"], Unset)]
          && c.name == h(x.(steps := c.steps), addr))
  }

  /** Different positions go to different nodes, so no worker gets two entries
      of one round. */
  lemma AssignmentInjectiveOnNodes(bulkName: string, bulk: Bulk, pool: Pool, h: Namer, addr: string -> nat, i: nat, k: nat)
    requires i < k < |Assignment(bulkName, bulk, pool, h, addr)|
    ensures var ns := Listing(AvailableNodes(pool));
            && k < |ns| && ns[i] != ns[k] && ns[i] in pool && ns[k] in pool
            && Assignment(bulkName, bulk, pool, h, addr)[i].assign == pool[ns[i]].name
            && Assignment(bulkName, bulk, pool, h, addr)[k].assign == pool[ns[k]].name
  {
    var ns := Listing(AvailableNodes(pool));
    ListsLength(ns, AvailableNodes(pool));
    LtIrreflexive(ns[i]);
    assert ns[i] in AvailableNodes(pool) && ns[k] in AvailableNodes(pool);
  }

  /** When every entry counts as finished there is nothing to assign, so the
      early return after creating a post-calculation skips no dispatch. */
  lemma AllFinishedNothingToAssign(bulkName: string, bulk: Bulk, pool: Pool, h: Namer, addr: string -> nat)
    ensures AllFinished(bulk.calcs) ==> Assignment(bulkName, bulk, pool, h, addr) == []
    ensures Assignment(bulkName, bulk, pool, h, addr) == [] <==>
              Pending(bulk.calcs) == {} || AvailableNodes(pool) == {}
  {
    assert |Pending(bulk.calcs)| == 0 <==> Pending(bulk.calcs) == {};
    assert |AvailableNodes(pool)| == 0 <==> AvailableNodes(pool) == {};
  }
}
