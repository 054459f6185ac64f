/** What the dispatcher's reconciles do to the objects, field by field. */
module FieldLaws {
  import CalcStore
  import opened Phases
  import opened Objects
  import opened CalculationUtil
  import opened Scheduler
  import opened Cluster
  import opened Creation
  import opened Conservation

  /** The dispatcher finalises here what it finalises in the protocol. */
  lemma FinalisesAsInProtocol(x: Calculation)
    ensures NeedsFinal(x) <==> CalcStore.Finishable(CalcStore.Calc(x.phase, Statuses(x.steps)))
  {
  }

  /** After the reconcile of a Calculation its phase is final, by its statuses, if
      it was Processing with no status empty, and else as before; nothing else of
      it and no other Calculation has changed. */
  lemma CalculationFinalised(c: Cluster, n: string)
    requires n in c.calcs
    ensures var c', x := AfterCalculation(c, n), c.calcs[n];
            && c'.calcs.Keys == c.calcs.Keys && c'.pools == c.pools
            && (forall m | m in c.calcs && m != n :: c'.calcs[m] == c.calcs[m])
            && c'.calcs[n] == x.(phase :=
                 if x.phase == Processing && (forall i | 0 <= i < |x.steps| :: x.steps[i].status != Unset)
                 then (if exists i | 0 <= i < |x.steps| :: x.steps[i].status == Failed then Failed else Completed)
                 else x.phase)
  {
    var x := c.calcs[n];
    FailedOnFields(x.steps);
  }

  // The bulk x is labelled with, after x's phase was copied into it.
  predicate CopiedInto(x: Calculation, before: Bulk, after: Bulk) {
    && after.(calcs := map[], post := None) == before.(calcs := map[], post := None)
    && (if x.labels.post then
          && after.calcs == before.calcs
          && after.post == if before.post.Some? then Some(before.post.value.(phase := x.phase)) else None
        else
          && after.post == before.post
          && (x.labels.entry.None? ==> after.calcs == before.calcs)
          && (x.labels.entry.Some? ==>
                var e := x.labels.entry.value;
                && after.calcs.Keys == before.calcs.Keys + {e} && after.calcs[e].phase == x.phase
                && (e in before.calcs ==> after.calcs[e] == before.calcs[e].(phase := x.phase))
                && forall k | k in before.calcs && k != e :: after.calcs[k] == before.calcs[k]))
  }

  /** The phase that was read, before it was made final, is copied into the entry
      or the post-calculation slot that the labels name, and no other bulk, entry
      or slot changes. */
  lemma PhaseCopied(c: Cluster, n: string)
    requires n in c.calcs
    ensures var c', x := AfterCalculation(c, n), c.calcs[n];
            && c'.bulks.Keys == c.bulks.Keys
            && (forall b | b in c.bulks && x.labels.bulk != Some(b) :: c'.bulks[b] == c.bulks[b])
            && (forall b | b in c.bulks && x.labels.bulk == Some(b) :: CopiedInto(x, c.bulks[b], c'.bulks[b]))
  {
    var c1, x := c.(calcs := c.calcs[n := Finalised(c.calcs[n])]), c.calcs[n];
    if x.labels.bulk.Some? && x.labels.bulk.value in c.bulks {
      CopiedOnFields(c1, x, x.labels.bulk.value);
    }
  }

  lemma CopiedOnFields(c: Cluster, x: Calculation, b: string)
    requires b in c.bulks && x.labels.bulk == Some(b)
    ensures CopyPhase(c, x).bulks.Keys == c.bulks.Keys
    ensures CopiedInto(x, c.bulks[b], CopyPhase(c, x).bulks[b])
    ensures forall k | k in c.bulks && k != b :: CopyPhase(c, x).bulks[k] == c.bulks[k]
  {
    if !x.labels.post && x.labels.entry.Some? {
      EntrySet(c.bulks[b], x.labels.entry.value, x.phase);
    }
  }

  lemma EntrySet(bulk: Bulk, e: string, p: Phase)
    ensures SetEntry(bulk, e, p) == bulk.(calcs := SetEntry(bulk, e, p).calcs)
    ensures SetEntry(bulk, e, p).calcs.Keys == bulk.calcs.Keys + {e} && SetEntry(bulk, e, p).calcs[e].phase == p
    ensures e in bulk.calcs ==> SetEntry(bulk, e, p).calcs[e] == bulk.calcs[e].(phase := p)
    ensures forall k | k in bulk.calcs && k != e :: SetEntry(bulk, e, p).calcs[k] == bulk.calcs[k]
  {
  }

  /** A bulk is due for its post-calculation exactly when it has one in phase ""
      and no entry is in phase "" or Processing. */
  lemma DueExactly(bulk: Bulk)
    ensures PostDue(bulk) <==>
              && bulk.post.Some? && bulk.post.value.phase == Unset
              && forall e | e in bulk.calcs :: bulk.calcs[e].phase != Unset && bulk.calcs[e].phase != Processing
  {
  }

  /** The reconcile of a bulk that is due, with an available worker: one
      Calculation more, unless its name is taken, made of the post-calculation,
      labelled as such and assigned to that worker; and nothing else. */
  lemma PostCreatedExactly(c: Cluster, b: string, h: Namer, addr: string -> nat, node: string)
    requires b in c.bulks && c.bulks[b].workerPool in c.pools && node in c.pools[c.bulks[b].workerPool]
    requires c.bulks[b].post.Some? && c.bulks[b].post.value.phase == Unset
    requires forall e | e in c.bulks[b].calcs :: c.bulks[b].calcs[e].phase != Unset && c.bulks[b].calcs[e].phase != Processing
    requires c.pools[c.bulks[b].workerPool][node].state == Available
    ensures var c' := AfterBulk(c, b, h, addr, node);
            var worker := c.pools[c.bulks[b].workerPool][node];
            exists x: Calculation ::
              && MadeOf(x, c.bulks[b].post.value, c.bulks[b], h, addr(""))
              && x.labels == Labels(Some(b), None, true, Some(c.bulks[b].rootFolder), Some(worker.name))
              && x.assign == worker.name && x.workerPool == c.bulks[b].workerPool && x.phase == Created
              && c' == c.(calcs := if x.name in c.calcs then c.calcs else c.calcs[x.name := x])
  {
    var worker := c.pools[c.bulks[b].workerPool][node];
    var x := PostCalculation(b, c.bulks[b], worker, h, addr(""));
    assert MadeOf(x, c.bulks[b].post.value, c.bulks[b], h, addr(""));
  }

  /** The reconcile of any other bulk gives out the assignment, and changes only
      the Calculations: none that was there, and one more for each of those given
      out whose name is neither taken nor given to an earlier one. */
  lemma RoundCreatedExactly(c: Cluster, b: string, h: Namer, addr: string -> nat, node: string, n: string)
    requires b in c.bulks && c.bulks[b].workerPool in c.pools
    requires c.bulks[b].post.None? || c.bulks[b].post.value.phase != Unset ||
             exists e | e in c.bulks[b].calcs :: c.bulks[b].calcs[e].phase == Unset || c.bulks[b].calcs[e].phase == Processing
    ensures var c' := AfterBulk(c, b, h, addr, node);
            var r := Assignment(b, c.bulks[b], c.pools[c.bulks[b].workerPool], h, addr);
            && c' == c.(calcs := CreateAll(c.calcs, r))
            && (n in c.calcs ==> n in c'.calcs && c'.calcs[n] == c.calcs[n])
            && (n in c'.calcs && n !in c.calcs ==>
                  exists k | 0 <= k < |r| :: r[k].name == n && c'.calcs[n] == r[k] && forall i | 0 <= i < k :: r[i].name != n)
            && (forall k | 0 <= k < |r| && r[k].name == n :: n in c'.calcs)
  {
    var r := Assignment(b, c.bulks[b], c.pools[c.bulks[b].workerPool], h, addr);
    CreateAllExact(c.calcs, r, n);
    if k :| 0 <= k < |r| && r[k].name == n {
      FirstNamed(c.calcs, r, k);
    }
  }

  // Among those named alike some is the first.
  lemma {:induction false} FirstNamed(calcs: map<string, Calculation>, r: seq<Calculation>, k: nat)
    requires k < |r|
    ensures r[k].name in calcs || exists i: nat :: NameFree(calcs, r, i) && r[i].name == r[k].name
  {
    if !NameFree(calcs, r, k) && r[k].name !in calcs {
      var i :| 0 <= i < k && r[i].name == r[k].name;
      FirstNamed(calcs, r, i);
    }
  }

  /** A bulk that is due changes nothing while no worker is available. */
  lemma NothingWithoutWorker(c: Cluster, b: string, h: Namer, addr: string -> nat, node: string)
    requires b in c.bulks && c.bulks[b].workerPool in c.pools
    requires forall n | n in c.pools[c.bulks[b].workerPool] :: c.pools[c.bulks[b].workerPool][n].state != Available
    ensures AfterBulk(c, b, h, addr, node) == c
  {
    var pool := c.pools[c.bulks[b].workerPool];
    assert AvailableNodes(pool) == {};
    AllFinishedNothingToAssign(b, c.bulks[b], pool, h, addr);
  }

  /** A bulk that is missing, or whose pool is, changes nothing. */
  lemma NothingWithoutPool(c: Cluster, b: string, h: Namer, addr: string -> nat, node: string)
    requires b in c.bulks ==> c.bulks[b].workerPool !in c.pools
    ensures AfterBulk(c, b, h, addr, node) == c
  {
  }

  /** Over a run the final write decides on the copy read at the start, whatever
      became of the object since, and changes the phase of the newest object only. */
  lemma DecidedOnTheCopyRead(w: World, h: Namer)
    requires w.reading.Read? && w.reading.x.phase == Processing
    requires forall i | 0 <= i < |w.reading.x.steps| :: w.reading.x.steps[i].status != Unset
    ensures var w', x := After(w, h, CalculationDecided), w.reading.x;
            && w'.c.bulks == w.c.bulks && w'.c.pools == w.c.pools && w'.c.calcs.Keys == w.c.calcs.Keys
            && (forall m | m in w.c.calcs && m != x.name :: w'.c.calcs[m] == w.c.calcs[m])
            && (x.name in w.c.calcs ==>
                  && w'.c.calcs[x.name] == w.c.calcs[x.name].(phase :=
                       if exists i | 0 <= i < |x.steps| :: x.steps[i].status == Failed then Failed else Completed)
                  && w'.reading == Decided(x))
            && (x.name !in w.c.calcs ==> w'.reading == Idle)
  {
    FailedOnFields(w.reading.x.steps);
  }

  /** The copy at the end of it is of the phase read at the start, into the bulk
      as it then is, or into none. */
  lemma CopiedLater(w: World, h: Namer)
    requires w.reading.Decided? ||
             (w.reading.Read? && !(w.reading.x.phase == Processing &&
                                   forall i | 0 <= i < |w.reading.x.steps| :: w.reading.x.steps[i].status != Unset))
    ensures var w', x := After(w, h, CalculationCopied), w.reading.x;
            && w'.reading == Idle && w'.c.calcs == w.c.calcs && w'.c.pools == w.c.pools
            && w'.c.bulks.Keys == w.c.bulks.Keys
            && (forall b | b in w.c.bulks && x.labels.bulk != Some(b) :: w'.c.bulks[b] == w.c.bulks[b])
            && (forall b | b in w.c.bulks && x.labels.bulk == Some(b) :: CopiedInto(x, w.c.bulks[b], w'.c.bulks[b]))
  {
    FailedOnFields(w.reading.x.steps);
    var x := w.reading.x;
    if x.labels.bulk.Some? && x.labels.bulk.value in w.c.bulks {
      CopiedOnFields(w.c, x, x.labels.bulk.value);
    }
  }

  /** Nobody waits for the reconcile of a Calculation: whatever it is at, bulks are
      reconciled, pods lost, pools and objects written, and it may fail. */
  lemma OthersGoOn(w: World, b: string, addr: string -> nat, node: string, n: string, p: Phase, steps: seq<Step>, pool: Pool)
    ensures Allowed(w, BulkReconciled(b, addr, node)) && Allowed(w, PodLost(n)) && Allowed(w, PoolChanged(n, pool))
    ensures n in w.c.calcs ==> Allowed(w, WorkerWrote(n, p, steps))
    ensures w.reading == Idle ==> Allowed(w, CalculationRead(n))
    ensures w.reading != Idle ==> Allowed(w, CalculationGivenUp)
  {
  }

  lemma FailedOnFields(steps: seq<Step>)
    ensures Finished(Statuses(steps)) <==> forall i | 0 <= i < |steps| :: steps[i].status != Unset
    ensures HasFailed(Statuses(steps)) <==> exists i | 0 <= i < |steps| :: steps[i].status == Failed
  {
    assert forall i | 0 <= i < |steps| :: Statuses(steps)[i] == steps[i].status;
    if i :| 0 <= i < |steps| && steps[i].status == Failed {
      assert Statuses(steps)[i] == Failed;
    }
  }
}
