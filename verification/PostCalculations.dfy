/** Failover and the post-calculation of a bulk: when losing a pod loses it for
    good, and when it is created again. */
module PostCalculations {
  import opened Phases
  import opened Objects
  import opened Strings
  import opened CalculationUtil
  import opened Scheduler
  import opened Cluster
  import opened Conservation

  predicate HasPost(c: Cluster, b: string) {
    exists n | n in c.calcs :: ForPost(c, n, b)
  }

  // The post-calculation slot of b claims running work that nobody does.
  predicate PostLost(c: Cluster, b: string) {
    && b in c.bulks && c.bulks[b].post.Some?
    && (c.bulks[b].post.value.phase == Created || c.bulks[b].post.value.phase == Processing)
    && !HasPost(c, b)
  }

  /** Failover forgets post-calculations: a lost pod leaves the slot claiming
      running work that nobody does exactly if the slot was in phase Created or
      Processing and every Calculation for it was lost with that pod. */
  lemma PodLossLosesPost(c: Cluster, b: string, pod: string)
    requires Labelled(c) && b in c.bulks && c.bulks[b].post.Some?
    ensures PostLost(AfterPodLost(c, pod), b) <==>
              (c.bulks[b].post.value.phase == Created || c.bulks[b].post.value.phase == Processing) &&
              forall n | n in c.calcs && ForPost(c, n, b) :: Lost(c.calcs[n], pod)
  {
    var c' := AfterPodLost(c, pod);
    if n :| n in c.calcs && ForPost(c, n, b) && !Lost(c.calcs[n], pod) {
      assert ForPost(c', n, b);
    }
    if HasPost(c', b) {
      var n :| n in c'.calcs && ForPost(c', n, b);
      assert ForPost(c, n, b);
    }
  }

  /** A slot whose phase had not been copied back yet is due again once all entries
      count as finished: the next reconcile of the bulk that finds an available
      worker has it created, never on the lost pod, exactly if the name is free. */
  lemma UnsetPostComesBack(c: Cluster, b: string, pod: string, h: Namer, addr: string -> nat, node: string)
    requires Labelled(c) && b in c.bulks && c.bulks[b].post.Some? && c.bulks[b].post.value.phase == Unset
    ensures var c1 := AfterPodLost(c, pod);
            PostDue(c1.bulks[b]) <==>
              forall e | e in c.bulks[b].calcs ::
                c.bulks[b].calcs[e].phase != Unset && c.bulks[b].calcs[e].phase != Processing && !Reopens(c.calcs, pod, b, e)
    ensures var c1 := AfterPodLost(c, pod);
            PostDue(c1.bulks[b]) && c1.bulks[b].workerPool in c1.pools && node in AvailableNodes(c1.pools[c1.bulks[b].workerPool]) ==>
              var worker := c1.pools[c1.bulks[b].workerPool][node];
              var x := PostCalculation(b, c1.bulks[b], worker, h, addr(""));
              && x.assign != pod
              && (HasPost(AfterBulk(c1, b, h, addr, node), b) <==> HasPost(c1, b) || x.name !in c1.calcs)
  {
    var c1 := AfterPodLost(c, pod);
    assert forall e :: e in c.bulks[b].calcs <==> e in c1.bulks[b].calcs;
    assert forall e | e in c.bulks[b].calcs ::
      (c1.bulks[b].calcs[e].phase == if Reopens(c.calcs, pod, b, e) then Unset else c.bulks[b].calcs[e].phase);
    if PostDue(c1.bulks[b]) && c1.bulks[b].workerPool in c1.pools && node in AvailableNodes(c1.pools[c1.bulks[b].workerPool]) {
      PostCreated(c1, b, h, addr, node);
    }
  }

  lemma PostCreated(c: Cluster, b: string, h: Namer, addr: string -> nat, node: string)
    requires b in c.bulks && PostDue(c.bulks[b]) && c.bulks[b].workerPool in c.pools
    requires node in AvailableNodes(c.pools[c.bulks[b].workerPool])
    ensures var x := PostCalculation(b, c.bulks[b], c.pools[c.bulks[b].workerPool][node], h, addr(""));
            HasPost(AfterBulk(c, b, h, addr, node), b) <==> HasPost(c, b) || x.name !in c.calcs
  {
    var x := PostCalculation(b, c.bulks[b], c.pools[c.bulks[b].workerPool][node], h, addr(""));
    var c' := AfterBulk(c, b, h, addr, node);
    if x.name !in c.calcs {
      assert ForPost(c', x.name, b);
    }
    if n :| n in c.calcs && ForPost(c, n, b) {
      assert ForPost(c', n, b);
    }
    if n :| n in c'.calcs && ForPost(c', n, b) && n in c.calcs {
      assert ForPost(c, n, b);
    }
  }

  // ----- Lost for good -----

  // No reconcile in progress will copy another phase than Created or Processing into the slot.
  predicate NoNews(w: World, b: string) {
    !w.reading.Idle? && w.reading.x.labels.bulk == Some(b) && w.reading.x.labels.post ==> ReadRunning(w)
  }

  lemma {:induction false} CreateAllForPost(c: Cluster, xs: seq<Calculation>, b: string)
    requires forall i | 0 <= i < |xs| :: !xs[i].labels.post
    ensures forall n :: ForPost(c.(calcs := CreateAll(c.calcs, xs)), n, b) <==> ForPost(c, n, b)
    decreases |xs|
  {
    if xs != [] {
      CreateAllForPost(c.(calcs := Created1(c.calcs, xs[0])), xs[1..], b);
    }
  }

  lemma BulkKeepsPostLost(c: Cluster, h: Namer, b: string, b1: string, addr: string -> nat, node: string)
    requires PostLost(c, b)
    ensures PostLost(AfterBulk(c, b1, h, addr, node), b)
  {
    var c' := AfterBulk(c, b1, h, addr, node);
    if b1 in c.bulks && c.bulks[b1].workerPool in c.pools {
      var bulk := c.bulks[b1];
      var pool := c.pools[bulk.workerPool];
      if !(PostDue(bulk) && node in AvailableNodes(pool)) {
        var r := Assignment(b1, bulk, pool, h, addr);
        forall k | 0 <= k < |r|
          ensures !r[k].labels.post
        {
          assert r[k] == Assigned(b1, bulk, pool, h, addr, k);
        }
        CreateAllForPost(c, r, b);
      }
    }
    if HasPost(c', b) {
      var n :| n in c'.calcs && ForPost(c', n, b);
      assert ForPost(c, n, b);
    }
  }

  lemma OtherKeepsPostLost(w: World, h: Namer, a: Action, b: string)
    requires PostLost(w.c, b) && NoNews(w, b) && Allowed(w, a) && !a.BulkReconciled?
    ensures PostLost(After(w, h, a).c, b)
  {
    var w' := After(w, h, a);
    forall n | n in w'.c.calcs
      ensures !ForPost(w'.c, n, b)
    {
      assert !ForPost(w.c, n, b);
    }
  }

  /** Nothing that happens later creates it again. */
  lemma {:induction false} PostStaysLost(w: World, h: Namer, as_: seq<Action>, w': World, b: string)
    requires PostLost(w.c, b) && NoNews(w, b) && Runs(w, h, as_, w')
    ensures PostLost(w'.c, b)
    decreases |as_|
  {
    if as_ != [] {
      if as_[0].BulkReconciled? {
        BulkKeepsPostLost(w.c, h, b, as_[0].b, as_[0].addr, as_[0].node);
      } else {
        OtherKeepsPostLost(w, h, as_[0], b);
      }
      var w1 := After(w, h, as_[0]);
      if as_[0].CalculationRead? && as_[0].n in w.c.calcs {
        assert !ForPost(w.c, as_[0].n, b);
      }
      PostStaysLost(w1, h, as_[1..], w', b);
    }
  }
}
