/** The dispatcher's reconcilers over the object store: pkg/dispatcher/bulks,
    pkg/dispatcher/calculations and pkg/dispatcher/workers. Each reconcile runs
    to its end without interference here. */
module Dispatcher {
  import opened Phases
  import opened Objects
  import opened Strings
  import opened CalculationUtil
  import opened Scheduler
  import opened Cluster
  import opened Failover
  import opened ResultStore
  import opened VegaExecution
  import opened Conservation
  import opened Creation
  import opened Incidents

  // The reconcile of Calculation x gets to its end.
  predicate CopyOk(c: Cluster, x: Calculation) {
    x.labels.bulk.Some? ==>
      (x.labels.post || x.labels.entry.Some? ==> x.labels.bulk.value in c.bulks) &&
      (x.labels.post && x.labels.bulk.value in c.bulks ==> c.bulks[x.labels.bulk.value].post.Some?)
  }

  class Dispatcher {
    var calcs: map<string, Calculation>
    var bulks: map<string, Bulk>
    var pools: map<string, Pool>
    const h: Namer

    constructor (h: Namer)
      ensures this.h == h && State() == Cluster(map[], map[], map[])
    {
      this.h := h;
      calcs, bulks, pools := map[], map[], map[];
    }

    function State(): Cluster
      reads this
    {
      Cluster(calcs, bulks, pools)
    }

    // The store keeps objects under their names.
    ghost predicate Valid()
      reads this
    {
      forall n | n in calcs :: calcs[n].name == n
    }

    method Create(c: Calculation) returns (ok: bool)
      modifies this`calcs
      ensures calcs == Created1(old(calcs), c)
      ensures ok <==> c.name !in old(calcs)
    {
      ok := c.name !in calcs;
      if ok {
        calcs := calcs[c.name := c];
      }
    }

    // The first available node in whatever order the pool is walked.
    static method FirstAvailable(pool: Pool) returns (node: Option<string>)
      ensures node.Some? ==> node.value in AvailableNodes(pool)
      ensures node.None? ==> AvailableNodes(pool) == {}
    {
      var rest := pool.Keys;
      while rest != {}
        invariant rest <= pool.Keys
        invariant forall n | n in pool && n !in rest :: pool[n].state != Available
      {
        var n :| n in rest;
        if pool[n].state == Available {
          return Some(n);
        }
        rest := rest - {n};
      }
      node := None;
    }

    /** The entries are marked on the copy that was read first, and the copy is
        read again before it is used, so the marks change nothing: the outcome
        does not depend on the result store at all. The bulk is then written back
        as it was read; `updated` is whether that succeeds. `node` is the one that
        gets the post-calculation, if one is due. */
    method ReconcileBulk(b: string, addr: string -> nat, results: CalculationResultsStore, f: Printer, call: string -> Call, updated: bool)
      returns (ok: bool, node: string)
      modifies this`calcs
      ensures State() == if updated then AfterBulk(old(State()), b, h, addr, node) else old(State())
      ensures updated && b in bulks && bulks[b].workerPool in pools && AvailableNodes(pools[bulks[b].workerPool]) != {} ==>
                node in AvailableNodes(pools[bulks[b].workerPool])
      ensures !ok ==> calcs == old(calcs)
    {
      node := "";
      if b !in bulks || bulks[b].workerPool !in pools {
        return false, node;
      }
      var bulk := bulks[b];
      var pool := pools[bulk.workerPool];
      var marked, _ := ReconcileCalculations(results, f, bulk.calcs, bulk.created, call);
      bulk := bulk.(calcs := marked);
      if !updated {
        return false, node;
      }
      bulk := bulks[b];
      var allFinished := IsAllFinishedCalculations(bulk.calcs);
      var first := FirstAvailable(pool);
      if first.Some? {
        node := first.value;
      }
      if allFinished && bulk.post.Some? && bulk.post.value.phase == Unset && first.Some? {
        ok := Create(PostCalculation(b, bulk, pool[node], h, addr("")));
        return;
      }
      var todo := AssignCalculationsToWorkers(b, bulk, pool, h, addr);
      ghost var before := calcs;
      for i := 0 to |todo|
        invariant CreateAll(before, todo) == CreateAll(calcs, todo[i..])
        invariant bulks == old(bulks) && pools == old(pools)
      {
        var _ := Create(todo[i]);
        assert todo[i..][0] == todo[i] && todo[i..][1..] == todo[i + 1..];
      }
      ok := true;
    }

    method ReconcileCalculation(n: string) returns (ok: bool)
      modifies this`calcs, this`bulks
      ensures State() == AfterCalculation(old(State()), n)
      ensures ok <==> n in old(calcs) && CopyOk(old(State()), old(calcs)[n])
    {
      if n !in calcs {
        return false;
      }
      var x := calcs[n];
      if x.phase == Processing {
        var finished := IsFinishedCalculation(x.steps);
        if finished {
          var phase := GetCalculationFinalPhase(x.steps);
          calcs := calcs[n := calcs[n].(phase := phase)];
        }
      }
      assert calcs == old(calcs)[n := Finalised(x)];
      if x.labels.bulk.None? {
        return true;
      }
      var b := x.labels.bulk.value;
      if x.labels.post {
        if b !in bulks || bulks[b].post.None? {
          return false;
        }
        bulks := bulks[b := bulks[b].(post := Some(bulks[b].post.value.(phase := x.phase)))];
        return true;
      }
      if x.labels.entry.None? {
        return true;
      }
      if b !in bulks {
        return false;
      }
      bulks := bulks[b := SetEntry(bulks[b], x.labels.entry.value, x.phase)];
      ok := true;
    }

    method ReconcileWorkerInPools(pod: string)
      modifies this`pools
      ensures pools == PoolsWithout(old(pools), pod)
    {
      var rest := pools.Keys;
      while rest != {}
        invariant rest <= pools.Keys == old(pools).Keys
        invariant forall p | p in pools :: pools[p] == if p in rest then old(pools)[p] else PoolWithout(old(pools)[p], pod)
      {
        var p :| p in rest;
        var pool := pools[p];
        var nodes := pool.Keys;
        var updated := pool;
        while nodes != {}
          invariant nodes <= pool.Keys == updated.Keys
          invariant forall n | n in pool :: updated[n] == if n in nodes then pool[n] else PoolWithout(pool, pod)[n]
        {
          var n :| n in nodes;
          if pool[n].name == pod {
            updated := updated[n := updated[n].(state := Unknown)];
          }
          nodes := nodes - {n};
        }
        assert updated == PoolWithout(pool, pod);
        pools := pools[p := updated];
        rest := rest - {p};
      }
    }

    // The Calculations labelled with the pod that are not over, in list order.
    method AssignedTo(pod: string) returns (xs: seq<Calculation>)
      requires Valid()
      ensures ListsLost(State(), pod, xs)
    {
      xs := [];
      var rest := calcs.Keys;
      while rest != {}
        invariant rest <= calcs.Keys
        invariant forall i, j | 0 <= i < j < |xs| :: xs[i].name != xs[j].name
        invariant forall i | 0 <= i < |xs| ::
                    xs[i].name in calcs && xs[i].name !in rest && calcs[xs[i].name] == xs[i] && Lost(xs[i], pod)
        invariant forall n | n in calcs && n !in rest && Lost(calcs[n], pod) :: calcs[n] in xs
      {
        var n :| n in rest;
        if Lost(calcs[n], pod) {
          xs := xs + [calcs[n]];
        }
        rest := rest - {n};
      }
    }

    // One listed Calculation: it is deleted and its entry reopened.
    method DeleteAndReopen(x: Calculation) returns (ok: bool)
      modifies this`calcs, this`bulks
      ensures (State(), ok) == DeleteOne(old(State()), x)
    {
      calcs := calcs - {x.name};
      if x.labels.bulk.None? || x.labels.entry.None? {
        return true;
      }
      var b := x.labels.bulk.value;
      if b !in bulks {
        return false;
      }
      bulks := bulks[b := SetEntry(bulks[b], x.labels.entry.value, Unset)];
      ok := true;
    }

    /** `deletable` is whether the API deletes a Calculation; the loop ends at the
        first that it does not, or whose bulk is missing. */
    method DeleteAssignedCalculations(pod: string, deletable: string -> bool) returns (ok: bool, ghost xs: seq<Calculation>)
      requires Valid()
      modifies this`calcs, this`bulks
      ensures ListsLost(old(State()), pod, xs)
      ensures (State(), ok) == DeletesUntil(old(State()), xs, deletable)
    {
      var todo := AssignedTo(pod);
      xs := todo;
      for i := 0 to |todo|
        invariant DeletesUntil(old(State()), todo, deletable) == DeletesUntil(State(), todo[i..], deletable)
      {
        var x := todo[i];
        assert todo[i..][0] == x && todo[i..][1..] == todo[i + 1..];
        if !deletable(x.name) {
          return false, todo;
        }
        ok := DeleteAndReopen(x);
        if !ok {
          return;
        }
      }
      ok := true;
    }

    /** A pod that is still there changes nothing; one that is gone is failed over. */
    method ReconcilePod(pod: string, found: bool, deletable: string -> bool) returns (ok: bool, ghost xs: seq<Calculation>)
      requires Valid()
      modifies this
      ensures found ==> ok && State() == old(State())
      ensures var c := old(State());
              !found ==> ListsLost(c, pod, xs) &&
                         (State(), ok) == DeletesUntil(c.(pools := PoolsWithout(c.pools, pod)), xs, deletable)
      ensures !found && Labelled(old(State())) && (forall n :: deletable(n)) ==>
                ok && State() == AfterPodLost(old(State()), pod)
    {
      xs := [];
      if found {
        return true, xs;
      }
      ReconcileWorkerInPools(pod);
      ok, xs := DeleteAssignedCalculations(pod, deletable);
      if Labelled(old(State())) && forall n :: deletable(n) {
        DeletesUntilKept(old(State()).(pools := pools), xs, deletable, |xs|);
        assert xs[..|xs|] == xs;
        LoopIsFailover(old(State()), pod, xs);
      }
    }
  }

  function DeletesUntil(c: Cluster, xs: seq<Calculation>, deletable: string -> bool): (Cluster, bool)
    decreases |xs|
  {
    if xs == [] then (c, true)
    else if !deletable(xs[0].name) then (c, false)
    else
      var (c1, ok) := DeleteOne(c, xs[0]);
      if ok then DeletesUntil(c1, xs[1..], deletable) else (c1, false)
  }

  /** Up to the first Calculation that the API does not delete it is failover; it
      ends there, with that one and the later ones as they were. */
  lemma {:induction false} DeletesUntilKept(c: Cluster, xs: seq<Calculation>, deletable: string -> bool, k: nat)
    requires k <= |xs| && forall i | 0 <= i < k :: deletable(xs[i].name)
    requires k < |xs| ==> !deletable(xs[k].name)
    ensures DeletesUntil(c, xs, deletable) == (DeleteEach(c, xs[..k]).0, DeleteEach(c, xs[..k]).1 && k == |xs|)
    decreases |xs|
  {
    if k > 0 {
      assert xs[..k][1..] == xs[1..][..k - 1];
      DeletesUntilKept(DeleteOne(c, xs[0]).0, xs[1..], deletable, k - 1);
    }
  }

  // ----- The marks of the result table are of no use -----

  /** An entry whose result is in the table, old enough, is dispatched all the
      same: whenever it is given out under a free name it gets a Calculation. */
  lemma CachedIsDispatched(c: Cluster, b: string, h: Namer, addr: string -> nat, node: string, k: nat,
      f: Printer, rows: seq<Row>, call: string -> Call)
    requires k < |Round(c, b, h, addr, node)| && NameFree(c.calcs, Round(c, b, h, addr, node), k)
    ensures b in c.bulks && Round(c, b, h, addr, node)[k].labels.entry.Some?
    ensures var e := Round(c, b, h, addr, node)[k].labels.entry.value;
            && e in c.bulks[b].calcs
            && (call(e).Answers? && OldEnough(Lookup(rows, Key(f, c.bulks[b].calcs[e].params)), c.bulks[b].created) ==>
                  && Marked(f, rows, c.bulks[b].calcs, c.bulks[b].created, call)[e].phase == Cached
                  && HasCalculation(AfterBulk(c, b, h, addr, node), b, e))
  {
    RoundContent(c, b, h, addr, node, k);
    ServedExactly(c, b, h, addr, node, k);
  }

  /** One such reconcile. */
  method DispatchCached(h: Namer, f: Printer, x: BulkCalc) returns (d: Dispatcher, results: CalculationResultsStore)
    requires x.phase == Unset
    ensures OldEnough(Lookup(results.rows, Key(f, x.params)), 0)
    ensures d.bulks == map["bulk" := OneEntry(x)] && HasCalculation(d.State(), "bulk", "e")
  {
    results := new CalculationResultsStore();
    var _ := results.StoreOrUpdateData(Key(f, x.params), "flux", 0, true, true);
    StoreThenLookup([], Key(f, x.params), "flux", 0, Key(f, x.params));
    d := new Dispatcher(h);
    d.bulks, d.pools := map["bulk" := OneEntry(x)], map["pool" := POOL];
    ghost var c := d.State();
    var ok, node := d.ReconcileBulk("bulk", FIRST, results, f, _ => Answers, true);
    assert !AllFinished(OneEntry(x).calcs) by {
      assert "e" in OneEntry(x).calcs;
    }
    OneRound(c, h, x, FIRST);
    ServedExactly(c, "bulk", h, FIRST, "", 0);
    assert AfterBulk(c, "bulk", h, FIRST, node) == AfterBulk(c, "bulk", h, FIRST, "");
  }
}
