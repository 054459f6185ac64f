/** The object store and what the dispatcher's controllers do to it, each
    reconcile as one step: pairing and creating, copying phases into bulks, and
    failover when a worker pod is gone. */
module Cluster {
  import opened Phases
  import opened Objects
  import opened Strings
  import opened CalculationUtil
  import opened Scheduler

  datatype Cluster = Cluster(
    calcs: map<string, Calculation>,
    bulks: map<string, Bulk>,
    pools: map<string, Pool>
  )

  // ----- bulks: reconcile -----

  // Create fails when the name is taken; the error is only logged.
  function Created1(calcs: map<string, Calculation>, c: Calculation): map<string, Calculation> {
    if c.name in calcs then calcs else calcs[c.name := c]
  }

  function CreateAll(calcs: map<string, Calculation>, cs: seq<Calculation>): map<string, Calculation>
    decreases |cs|
  {
    if cs == [] then calcs else CreateAll(Created1(calcs, cs[0]), cs[1..])
  }

  function PostLabels(bulkName: string, bulk: Bulk, worker: Worker): Labels {
    Labels(Some(bulkName), None, true, Some(bulk.rootFolder), Some(worker.name))
  }

  predicate PostDue(bulk: Bulk) {
    AllFinished(bulk.calcs) && bulk.post.Some? && bulk.post.value.phase == Unset
  }

  function PostCalculation(bulkName: string, bulk: Bulk, worker: Worker, h: Namer, addr: nat): Calculation
    requires bulk.post.Some?
  {
    NewCalculationForBulk(bulk, bulk.post.value, worker, PostLabels(bulkName, bulk, worker), h, addr)
  }

  // `node` is the first available one in the order the pool is walked.
  ghost function AfterBulk(c: Cluster, b: string, h: Namer, addr: string -> nat, node: string): Cluster {
    if b !in c.bulks || c.bulks[b].workerPool !in c.pools then c
    else
      var bulk := c.bulks[b];
      var pool := c.pools[bulk.workerPool];
      if PostDue(bulk) && node in AvailableNodes(pool)
      then c.(calcs := Created1(c.calcs, PostCalculation(b, bulk, pool[node], h, addr(""))))
      else c.(calcs := CreateAll(c.calcs, Assignment(b, bulk, pool, h, addr)))
  }

  // ----- calculations: reconcile -----

  function SetEntry(bulk: Bulk, e: string, p: Phase): Bulk {
    if e in bulk.calcs then bulk.(calcs := bulk.calcs[e := bulk.calcs[e].(phase := p)])
    // A missing key is written with an otherwise empty entry.
    else bulk.(calcs := bulk.calcs[e := BulkCalc("", Params(0.0, 0.0), [], p, None)])
  }

  predicate NeedsFinal(x: Calculation) {
    x.phase == Processing && Finished(Statuses(x.steps))
  }

  function Finalised(x: Calculation): Calculation {
    if NeedsFinal(x) then x.(phase := FinalPhase(Statuses(x.steps))) else x
  }

  // The entry gets the phase the Calculation had before it was finalised. A
  // missing bulk, like a bulk without the slot a post-calculation needs, ends
  // the reconcile after the final phase was written.
  function CopyPhase(c: Cluster, x: Calculation): Cluster {
    if x.labels.bulk.None? || x.labels.bulk.value !in c.bulks then c
    else
      var b := x.labels.bulk.value;
      var bulk := c.bulks[b];
      if x.labels.post then
        (if bulk.post.Some? then c.(bulks := c.bulks[b := bulk.(post := Some(bulk.post.value.(phase := x.phase)))]) else c)
      else if x.labels.entry.None? then c
      else c.(bulks := c.bulks[b := SetEntry(bulk, x.labels.entry.value, x.phase)])
  }

  function AfterCalculation(c: Cluster, n: string): Cluster {
    if n !in c.calcs then c
    else CopyPhase(c.(calcs := c.calcs[n := Finalised(c.calcs[n])]), c.calcs[n])
  }

  // ----- workers: reconcile when the pod is gone -----

  predicate Lost(x: Calculation, pod: string) {
    x.labels.assign == Some(pod) && (x.phase == Created || x.phase == Processing)
  }

  function LostNames(calcs: map<string, Calculation>, pod: string): set<string> {
    set n | n in calcs && Lost(calcs[n], pod)
  }

  function PoolWithout(pool: Pool, pod: string): Pool {
    map n | n in pool :: if pool[n].name == pod then pool[n].(state := Unknown) else pool[n]
  }

  function PoolsWithout(pools: map<string, Pool>, pod: string): map<string, Pool> {
    map p | p in pools :: PoolWithout(pools[p], pod)
  }

  // Entry e of bulk b is that of a lost Calculation.
  predicate Reopens(calcs: map<string, Calculation>, pod: string, b: string, e: string) {
    exists n | n in calcs :: Lost(calcs[n], pod) && calcs[n].labels.bulk == Some(b) && calcs[n].labels.entry == Some(e)
  }

  function Reopened(calcs: map<string, Calculation>, pod: string, b: string, bulk: Bulk): Bulk {
    bulk.(calcs := map e | e in bulk.calcs ::
            if Reopens(calcs, pod, b, e) then bulk.calcs[e].(phase := Unset) else bulk.calcs[e])
  }

  // What failover amounts to when the labels name bulks and entries that exist.
  function AfterPodLost(c: Cluster, pod: string): Cluster {
    Cluster(
      c.calcs - LostNames(c.calcs, pod),
      map b | b in c.bulks :: Reopened(c.calcs, pod, b, c.bulks[b]),
      PoolsWithout(c.pools, pod))
  }

  // What the code does: one Calculation after the other, ending at the first
  // whose bulk is missing. `x` is the listed copy.
  function DeleteOne(c: Cluster, x: Calculation): (Cluster, bool) {
    var c1 := c.(calcs := c.calcs - {x.name});
    if x.labels.bulk.None? || x.labels.entry.None? then (c1, true)
    else
      var b := x.labels.bulk.value;
      if b !in c.bulks then (c1, false)
      else (c1.(bulks := c.bulks[b := SetEntry(c.bulks[b], x.labels.entry.value, Unset)]), true)
  }

  function DeleteEach(c: Cluster, xs: seq<Calculation>): (Cluster, bool)
    decreases |xs|
  {
    if xs == [] then (c, true)
    else
      var (c1, ok) := DeleteOne(c, xs[0]);
      if ok then DeleteEach(c1, xs[1..]) else (c1, false)
  }

  // xs lists the lost Calculations, in any order.
  ghost predicate ListsLost(c: Cluster, pod: string, xs: seq<Calculation>) {
    && (forall i, j | 0 <= i < j < |xs| :: xs[i].name != xs[j].name)
    && (forall i | 0 <= i < |xs| :: xs[i].name in c.calcs && c.calcs[xs[i].name] == xs[i] && Lost(xs[i], pod))
    && (forall n | n in c.calcs && Lost(c.calcs[n], pod) :: c.calcs[n] in xs)
  }

  // ----- Labels -----

  ghost predicate EntryExists(c: Cluster, x: Calculation) {
    x.labels.bulk.Some? && x.labels.bulk.value in c.bulks &&
    (if x.labels.post then c.bulks[x.labels.bulk.value].post.Some?
     else x.labels.entry.Some? && x.labels.entry.value in c.bulks[x.labels.bulk.value].calcs)
  }

  ghost predicate Labelled(c: Cluster) {
    forall n | n in c.calcs ::
      c.calcs[n].name == n && (c.calcs[n].labels.bulk.Some? ==> EntryExists(c, c.calcs[n])) &&
      (c.calcs[n].labels.post ==> c.calcs[n].labels.entry.None?)
  }
}
