/** What happens when a worker's pod is gone. */
module Failover {
  import opened Phases
  import opened Objects
  import opened Strings
  import opened CalculationUtil
  import opened Scheduler
  import opened Cluster

  // ----- The loop does what AfterPodLost says -----

  // Some Calculation of xs is for entry e of bulk b.
  predicate Among(xs: seq<Calculation>, b: string, e: string) {
    exists i | 0 <= i < |xs| :: xs[i].labels.bulk == Some(b) && xs[i].labels.entry == Some(e)
  }

  function ReopenedBy(xs: seq<Calculation>, b: string, bulk: Bulk): Bulk {
    bulk.(calcs := map e | e in bulk.calcs ::
            if Among(xs, b, e) then bulk.calcs[e].(phase := Unset) else bulk.calcs[e])
  }

  function Names(xs: seq<Calculation>): set<string> {
    set i | 0 <= i < |xs| :: xs[i].name
  }

  // Every label in xs names a bulk and an entry that exist.
  ghost predicate AllExist(c: Cluster, xs: seq<Calculation>) {
    forall i | 0 <= i < |xs| ::
      xs[i].labels.bulk.Some? && xs[i].labels.entry.Some? ==>
        xs[i].labels.bulk.value in c.bulks && xs[i].labels.entry.value in c.bulks[xs[i].labels.bulk.value].calcs
  }

  function AfterDeleting(c: Cluster, xs: seq<Calculation>): Cluster {
    Cluster(c.calcs - Names(xs), map b | b in c.bulks :: ReopenedBy(xs, b, c.bulks[b]), c.pools)
  }

  lemma {:induction false} DeleteEachDeletes(c: Cluster, xs: seq<Calculation>)
    requires AllExist(c, xs)
    ensures DeleteEach(c, xs) == (AfterDeleting(c, xs), true)
    decreases |xs|
  {
    if xs == [] {
      assert forall b | b in c.bulks :: ReopenedBy([], b, c.bulks[b]).calcs == c.bulks[b].calcs;
      assert AfterDeleting(c, []).bulks == c.bulks;
      assert AfterDeleting(c, []).calcs == c.calcs;
    } else {
      var x := xs[0];
      var c1 := DeleteOne(c, x).0;
      assert AllExist(c, [x]);
      DeleteOneDeletes(c, x);
      forall i | 0 <= i < |xs[1..]|
        ensures xs[1..][i] == xs[i + 1]
      {
      }
      DeleteEachDeletes(c1, xs[1..]);
      DeletingComposes(c, xs);
    }
  }

  lemma DeleteOneDeletes(c: Cluster, x: Calculation)
    requires AllExist(c, [x])
    ensures DeleteOne(c, x) == (AfterDeleting(c, [x]), true)
  {
    assert [x][0] == x;
    assert Names([x]) == {x.name};
    var c1 := DeleteOne(c, x).0;
    forall b | b in c.bulks
      ensures b in c1.bulks && c1.bulks[b] == ReopenedBy([x], b, c.bulks[b])
    {
      assert c1.bulks[b].calcs == ReopenedBy([x], b, c.bulks[b]).calcs;
    }
    assert c1.bulks == AfterDeleting(c, [x]).bulks;
  }

  lemma DeletingComposes(c: Cluster, xs: seq<Calculation>)
    requires xs != []
    ensures AfterDeleting(AfterDeleting(c, [xs[0]]), xs[1..]) == AfterDeleting(c, xs)
  {
    var c1 := AfterDeleting(c, [xs[0]]);
    assert Names(xs) == Names([xs[0]]) + Names(xs[1..]) by {
      assert xs == [xs[0]] + xs[1..];
    }
    assert AfterDeleting(c1, xs[1..]).calcs == AfterDeleting(c, xs).calcs;
    forall b | b in c.bulks
      ensures ReopenedBy(xs[1..], b, ReopenedBy([xs[0]], b, c.bulks[b])) == ReopenedBy(xs, b, c.bulks[b])
    {
      forall e
        ensures Among(xs, b, e) <==> Among([xs[0]], b, e) || Among(xs[1..], b, e)
      {
        AmongSplits(xs, b, e);
      }
      assert ReopenedBy(xs[1..], b, ReopenedBy([xs[0]], b, c.bulks[b])).calcs == ReopenedBy(xs, b, c.bulks[b]).calcs;
    }
  }

  lemma AmongSplits(xs: seq<Calculation>, b: string, e: string)
    requires xs != []
    ensures Among(xs, b, e) <==> Among([xs[0]], b, e) || Among(xs[1..], b, e)
  {
    if i :| 0 <= i < |xs| && xs[i].labels.bulk == Some(b) && xs[i].labels.entry == Some(e) {
      if i > 0 {
        assert xs[1..][i - 1] == xs[i];
      } else {
        assert [xs[0]][0] == xs[i];
      }
    }
    if i :| 0 <= i < |xs[1..]| && xs[1..][i].labels.bulk == Some(b) && xs[1..][i].labels.entry == Some(e) {
      assert xs[i + 1] == xs[1..][i];
    }
    if Among([xs[0]], b, e) {
      assert xs[0] == [xs[0]][0];
    }
  }

  /** Deleting one Calculation after the other and reopening its entry, in any
      order, is the same as doing all of it at once. */
  lemma LoopIsFailover(c: Cluster, pod: string, xs: seq<Calculation>)
    requires Labelled(c) && ListsLost(c, pod, xs)
    ensures DeleteEach(c.(pools := PoolsWithout(c.pools, pod)), xs) == (AfterPodLost(c, pod), true)
  {
    var c1 := c.(pools := PoolsWithout(c.pools, pod));
    forall i | 0 <= i < |xs| && xs[i].labels.bulk.Some? && xs[i].labels.entry.Some?
      ensures xs[i].labels.bulk.value in c.bulks && xs[i].labels.entry.value in c.bulks[xs[i].labels.bulk.value].calcs
    {
      assert EntryExists(c, c.calcs[xs[i].name]);
    }
    DeleteEachDeletes(c1, xs);
    LostNamesListed(c, pod, xs);
    forall b | b in c.bulks
      ensures ReopenedBy(xs, b, c.bulks[b]) == Reopened(c.calcs, pod, b, c.bulks[b])
    {
      forall e
        ensures Among(xs, b, e) <==> Reopens(c.calcs, pod, b, e)
      {
        AmongLost(c, pod, xs, b, e);
      }
      assert ReopenedBy(xs, b, c.bulks[b]).calcs == Reopened(c.calcs, pod, b, c.bulks[b]).calcs;
    }
    assert AfterDeleting(c1, xs).bulks == AfterPodLost(c, pod).bulks;
  }

  lemma LostNamesListed(c: Cluster, pod: string, xs: seq<Calculation>)
    requires Labelled(c) && ListsLost(c, pod, xs)
    ensures Names(xs) == LostNames(c.calcs, pod)
  {
    forall n | n in LostNames(c.calcs, pod)
      ensures n in Names(xs)
    {
      var i :| 0 <= i < |xs| && xs[i] == c.calcs[n];
      assert xs[i].name in Names(xs);
    }
  }

  lemma AmongLost(c: Cluster, pod: string, xs: seq<Calculation>, b: string, e: string)
    requires ListsLost(c, pod, xs)
    ensures Among(xs, b, e) <==> Reopens(c.calcs, pod, b, e)
  {
    if n :| n in c.calcs && Lost(c.calcs[n], pod) && c.calcs[n].labels.bulk == Some(b) && c.calcs[n].labels.entry == Some(e) {
      var i :| 0 <= i < |xs| && xs[i] == c.calcs[n];
      assert xs[i].labels.bulk == Some(b);
    }
  }

  // ----- Labels that name no bulk -----

  // The entry of x is to be reopened in a bulk that is not there.
  predicate Missing(c: Cluster, x: Calculation) {
    x.labels.bulk.Some? && x.labels.entry.Some? && x.labels.bulk.value !in c.bulks
  }

  // The loop ends at the i-th Calculation: it is deleted, and nothing after it.
  ghost predicate StopsAt(c: Cluster, xs: seq<Calculation>, i: nat) {
    && i < |xs| && Missing(c, xs[i]) && (forall j | 0 <= j < i :: !Missing(c, xs[j]))
    && DeleteEach(c, xs).0.calcs == c.calcs - Names(xs[..i + 1])
    && DeleteEach(c, xs).0.bulks == DeleteEach(c, xs[..i]).0.bulks
    && DeleteEach(c, xs[..i]).1
  }

  /** Failover succeeds if and only if every lost Calculation with both labels
      names a bulk that exists. Otherwise it ends at the first that does not: that
      one and those before it are deleted, entries are reopened for those before
      it only, and the others keep the lost pod's label. */
  lemma {:induction false} SucceedsExactly(c: Cluster, xs: seq<Calculation>)
    ensures DeleteEach(c, xs).1 <==>
              forall i | 0 <= i < |xs| :: xs[i].labels.bulk.Some? && xs[i].labels.entry.Some? ==> xs[i].labels.bulk.value in c.bulks
    ensures !DeleteEach(c, xs).1 ==> exists i: nat :: StopsAt(c, xs, i)
    decreases |xs|
  {
    assert forall i | 0 <= i < |xs| :: Missing(c, xs[i]) <==>
      !(xs[i].labels.bulk.Some? && xs[i].labels.entry.Some? ==> xs[i].labels.bulk.value in c.bulks);
    if xs != [] {
      var (c1, ok) := DeleteOne(c, xs[0]);
      if ok {
        SucceedsExactly(c1, xs[1..]);
        assert forall x :: Missing(c1, x) <==> Missing(c, x);
        assert forall i | 0 < i < |xs| :: xs[i] == xs[1..][i - 1];
        if i: nat :| StopsAt(c1, xs[1..], i) {
          StopsLater(c, xs, i);
        }
      } else {
        assert Names(xs[..1]) == {xs[0].name};
        assert StopsAt(c, xs, 0);
      }
    }
  }

  lemma NamesCons(x: Calculation, xs: seq<Calculation>)
    ensures Names([x] + xs) == {x.name} + Names(xs)
  {
    forall n | n in {x.name} + Names(xs)
      ensures n in Names([x] + xs)
    {
      if n == x.name {
        assert ([x] + xs)[0] == x;
      } else {
        var i :| 0 <= i < |xs| && xs[i].name == n;
        assert ([x] + xs)[i + 1] == xs[i];
      }
    }
  }

  lemma StopsLater(c: Cluster, xs: seq<Calculation>, i: nat)
    requires xs != [] && DeleteOne(c, xs[0]).1 && StopsAt(DeleteOne(c, xs[0]).0, xs[1..], i)
    ensures StopsAt(c, xs, i + 1)
  {
    var c1 := DeleteOne(c, xs[0]).0;
    assert xs[1..][..i] == xs[..i + 1][1..];
    assert xs[..i + 2] == [xs[0]] + xs[1..][..i + 1];
    NamesCons(xs[0], xs[1..][..i + 1]);
    assert forall x :: Missing(c1, x) <==> Missing(c, x);
    forall j | 0 <= j < i + 1
      ensures !Missing(c, xs[j])
    {
      assert j > 0 ==> xs[j] == xs[1..][j - 1];
    }
  }

  // ----- What failover achieves -----

  /** After handling a lost pod, in whatever order its Calculations are listed: no
      Calculation in phase Created or Processing carries its label; every other
      one, with another label or over already, is as it was; an entry is pending
      exactly if it was before or one of those with the label, in one of the two
      phases, was for it, and nothing else of any bulk changes; and the pod's
      workers, and only they, are Unknown. */
  lemma FailoverEffect(c: Cluster, pod: string, xs: seq<Calculation>)
    requires Labelled(c) && ListsLost(c, pod, xs)
    ensures DeleteEach(c.(pools := PoolsWithout(c.pools, pod)), xs).1
    ensures var c' := DeleteEach(c.(pools := PoolsWithout(c.pools, pod)), xs).0;
            && (forall n | n in c'.calcs ::
                  !(c'.calcs[n].labels.assign == Some(pod) && (c'.calcs[n].phase == Created || c'.calcs[n].phase == Processing)))
            && (forall n | n in c.calcs &&
                  (c.calcs[n].labels.assign != Some(pod) || (c.calcs[n].phase != Created && c.calcs[n].phase != Processing)) ::
                  n in c'.calcs && c'.calcs[n] == c.calcs[n])
            && c'.calcs.Keys <= c.calcs.Keys && c'.bulks.Keys == c.bulks.Keys && c'.pools.Keys == c.pools.Keys
    ensures var c' := DeleteEach(c.(pools := PoolsWithout(c.pools, pod)), xs).0;
            && (forall b | b in c.bulks ::
                  c'.bulks[b].(calcs := map[]) == c.bulks[b].(calcs := map[]) && c'.bulks[b].calcs.Keys == c.bulks[b].calcs.Keys)
            && (forall b, e | b in c.bulks && e in c.bulks[b].calcs :: c'.bulks[b].calcs[e] ==
                  if exists n | n in c.calcs ::
                       c.calcs[n].labels.assign == Some(pod) && (c.calcs[n].phase == Created || c.calcs[n].phase == Processing) &&
                       c.calcs[n].labels.bulk == Some(b) && c.calcs[n].labels.entry == Some(e)
                  then c.bulks[b].calcs[e].(phase := Unset) else c.bulks[b].calcs[e])
    ensures var c' := DeleteEach(c.(pools := PoolsWithout(c.pools, pod)), xs).0;
            && (forall p | p in c.pools :: c'.pools[p].Keys == c.pools[p].Keys)
            && (forall p, n | p in c.pools && n in c.pools[p] :: c'.pools[p][n] ==
                  if c.pools[p][n].name == pod then c.pools[p][n].(state := Unknown) else c.pools[p][n])
  {
    LoopIsFailover(c, pod, xs);
  }

  /** What is listed to be deleted: every Calculation with the pod's label in phase
      Created or Processing, once, and no other. */
  lemma ListedExactly(c: Cluster, pod: string, xs: seq<Calculation>)
    requires ListsLost(c, pod, xs)
    ensures forall i | 0 <= i < |xs| ::
              xs[i].labels.assign == Some(pod) && (xs[i].phase == Created || xs[i].phase == Processing)
    ensures forall n | n in c.calcs && c.calcs[n].labels.assign == Some(pod) &&
              (c.calcs[n].phase == Created || c.calcs[n].phase == Processing) :: c.calcs[n] in xs
    ensures forall i, j | 0 <= i < j < |xs| :: xs[i].name != xs[j].name
    ensures forall i | 0 <= i < |xs| :: xs[i].name in c.calcs && c.calcs[xs[i].name] == xs[i]
  {
  }

  /** The next assignment round gives nothing to the lost pod, and gives out
      every reopened entry when there are enough available workers. */
  lemma FailoverThenAssign(c: Cluster, pod: string, xs: seq<Calculation>, b: string, h: Namer, addr: string -> nat)
    requires Labelled(c) && ListsLost(c, pod, xs)
    requires b in c.bulks && c.bulks[b].workerPool in c.pools
    ensures var c' := DeleteEach(c.(pools := PoolsWithout(c.pools, pod)), xs).0;
            && b in c'.bulks && c'.bulks[b].workerPool in c'.pools
            && var pool := c'.pools[c'.bulks[b].workerPool];
               var r := Assignment(b, c'.bulks[b], pool, h, addr);
               && (forall k | 0 <= k < |r| :: r[k].assign != pod)
               && (|Pending(c'.bulks[b].calcs)| <= |AvailableNodes(pool)| ==>
                     forall e | e in c.bulks[b].calcs && Reopens(c.calcs, pod, b, e) ::
                       exists k :: 0 <= k < |r| && r[k].labels.entry == Some(e))
  {
    LoopIsFailover(c, pod, xs);
    var c' := AfterPodLost(c, pod);
    var pool := c'.pools[c'.bulks[b].workerPool];
    AssignmentIsMatching(b, c'.bulks[b], pool, h, addr);
    var r := Assignment(b, c'.bulks[b], pool, h, addr);
    forall k | 0 <= k < |r|
      ensures r[k].assign != pod
    {
      var n :| n in AvailableNodes(pool) && r[k].assign == pool[n].name;
    }
    forall e | e in c.bulks[b].calcs && Reopens(c.calcs, pod, b, e)
      ensures e in Pending(c'.bulks[b].calcs)
    {
    }
  }
}
