/** What one bulk reconcile creates, exactly: names are hashes, and a name that
    is taken keeps its Calculation. */
module Creation {
  import opened Phases
  import opened Objects
  import opened Strings
  import opened CalculationUtil
  import opened Scheduler
  import opened Cluster
  import opened Conservation

  function LiveNames(c: Cluster, b: string, e: string): set<string> {
    set n | n in c.calcs && For(c, n, b, e)
  }

  // What a bulk reconcile tries to create for entries.
  ghost function Round(c: Cluster, b: string, h: Namer, addr: string -> nat, node: string): seq<Calculation> {
    if b !in c.bulks || c.bulks[b].workerPool !in c.pools then []
    else if PostDue(c.bulks[b]) && node in AvailableNodes(c.pools[c.bulks[b].workerPool]) then []
    else Assignment(b, c.bulks[b], c.pools[c.bulks[b].workerPool], h, addr)
  }

  // The k-th name is neither taken nor given to an earlier one of the round.
  predicate NameFree(calcs: map<string, Calculation>, xs: seq<Calculation>, k: nat) {
    k < |xs| && xs[k].name !in calcs && forall i | 0 <= i < k :: xs[i].name != xs[k].name
  }

  lemma NameFreeTail(calcs: map<string, Calculation>, xs: seq<Calculation>, k: nat)
    requires 0 < k < |xs|
    ensures NameFree(calcs, xs, k) <==> NameFree(Created1(calcs, xs[0]), xs[1..], k - 1)
  {
    if NameFree(Created1(calcs, xs[0]), xs[1..], k - 1) {
      forall i | 0 <= i < k
        ensures xs[i].name != xs[k].name
      {
        assert i > 0 ==> xs[i] == xs[1..][i - 1];
      }
    }
  }

  /** Of the Calculations of a round exactly those with a free name are created. */
  lemma {:induction false} CreateAllExact(calcs: map<string, Calculation>, xs: seq<Calculation>, n: string)
    ensures n in calcs ==> n in CreateAll(calcs, xs) && CreateAll(calcs, xs)[n] == calcs[n]
    ensures n in CreateAll(calcs, xs) <==> n in calcs || exists k: nat :: NameFree(calcs, xs, k) && xs[k].name == n
    ensures forall k: nat | NameFree(calcs, xs, k) && xs[k].name == n :: n in CreateAll(calcs, xs) && CreateAll(calcs, xs)[n] == xs[k]
    decreases |xs|
  {
    if xs != [] {
      var calcs1 := Created1(calcs, xs[0]);
      CreateAllExact(calcs1, xs[1..], n);
      forall k: nat | 0 < k < |xs|
        ensures NameFree(calcs, xs, k) <==> NameFree(calcs1, xs[1..], k - 1)
      {
        NameFreeTail(calcs, xs, k);
      }
      if k: nat :| NameFree(calcs1, xs[1..], k) && xs[1..][k].name == n {
        NameFreeTail(calcs, xs, k + 1);
        assert xs[k + 1].name == n;
      }
      if n in calcs1 && n !in calcs {
        assert NameFree(calcs, xs, 0) && xs[0].name == n;
      }
    }
  }

  // The Calculations of a round are labelled with different entries of the bulk.
  lemma RoundEntries(c: Cluster, b: string, h: Namer, addr: string -> nat, node: string)
    ensures var r := Round(c, b, h, addr, node);
            && (forall k | 0 <= k < |r| :: r[k].labels.bulk == Some(b) && r[k].labels.entry.Some? && !r[k].labels.post)
            && (forall i, k | 0 <= i < k < |r| :: r[i].labels.entry != r[k].labels.entry)
  {
    var r := Round(c, b, h, addr, node);
    if r != [] {
      var bulk, pool := c.bulks[b], c.pools[c.bulks[b].workerPool];
      AssignmentIsMatching(b, bulk, pool, h, addr);
      forall k | 0 <= k < |r|
        ensures r[k].labels.bulk == Some(b) && !r[k].labels.post
      {
        assert r[k] == Assigned(b, bulk, pool, h, addr, k);
      }
      forall i, k | 0 <= i < k < |r|
        ensures r[i].labels.entry != r[k].labels.entry
      {
        LtIrreflexive(r[i].labels.entry.value);
      }
    }
  }

  /** An entry of the bulk gains a Calculation, under that name, exactly if it is
      given out in this round under a free name; all others keep theirs. */
  lemma AddsExactly(c: Cluster, b: string, h: Namer, addr: string -> nat, node: string, e: string, n: string)
    ensures var r := Round(c, b, h, addr, node);
            For(AfterBulk(c, b, h, addr, node), n, b, e) <==>
              For(c, n, b, e) ||
              exists k: nat :: NameFree(c.calcs, r, k) && r[k].name == n && r[k].labels.entry == Some(e)
  {
    var r := Round(c, b, h, addr, node);
    RoundEntries(c, b, h, addr, node);
    if b in c.bulks && c.bulks[b].workerPool in c.pools {
      if !(PostDue(c.bulks[b]) && node in AvailableNodes(c.pools[c.bulks[b].workerPool])) {
        CreateAllExact(c.calcs, r, n);
      }
    }
  }

  /** Over any cluster: an entry that is given out has a Calculation labelled with
      it afterwards if and only if the name was free, of other Calculations and of
      earlier ones of the round, or it had one before. A twin of either kind, a
      post-calculation with the same content, or a hash collision all block it. */
  lemma ServedExactly(c: Cluster, b: string, h: Namer, addr: string -> nat, node: string, k: nat)
    requires k < |Round(c, b, h, addr, node)|
    ensures var r := Round(c, b, h, addr, node);
            && r[k].labels.entry.Some?
            && var e := r[k].labels.entry.value;
               HasCalculation(AfterBulk(c, b, h, addr, node), b, e) <==>
                 HasCalculation(c, b, e) || NameFree(c.calcs, r, k)
  {
    var r := Round(c, b, h, addr, node);
    RoundEntries(c, b, h, addr, node);
    var e := r[k].labels.entry.value;
    var c' := AfterBulk(c, b, h, addr, node);
    if n :| n in c'.calcs && For(c', n, b, e) {
      AddsExactly(c, b, h, addr, node, e, n);
      if !For(c, n, b, e) {
        var i: nat :| NameFree(c.calcs, r, i) && r[i].name == n && r[i].labels.entry == Some(e);
        assert !(i < k) && !(k < i);
      }
    }
    if n :| n in c.calcs && For(c, n, b, e) {
      AddsExactly(c, b, h, addr, node, e, n);
    }
    if NameFree(c.calcs, r, k) {
      AddsExactly(c, b, h, addr, node, e, r[k].name);
    }
  }

  // The content of what is given out, and its name.
  lemma RoundContent(c: Cluster, b: string, h: Namer, addr: string -> nat, node: string, k: nat)
    requires k < |Round(c, b, h, addr, node)|
    ensures b in c.bulks && !PostDue(c.bulks[b])
    ensures var r := Round(c, b, h, addr, node);
            && r[k].labels.entry.Some? && r[k].labels.entry.value in Pending(c.bulks[b].calcs)
            && k < |Listing(Pending(c.bulks[b].calcs))| && r[k].labels.entry.value == Listing(Pending(c.bulks[b].calcs))[k]
            && r[k].name == h(WithSteps(c.bulks[b].calcs[r[k].labels.entry.value]), addr(r[k].labels.entry.value))
  {
    var bulk, pool := c.bulks[b], c.pools[c.bulks[b].workerPool];
    AssignmentIsMatching(b, bulk, pool, h, addr);
    AllFinishedNothingToAssign(b, bulk, pool, h, addr);
    ListsLength(Listing(Pending(bulk.calcs)), Pending(bulk.calcs));
    assert Round(c, b, h, addr, node)[k] == Assigned(b, bulk, pool, h, addr, k);
  }

  /** Two entries with the same content and no input files, given out in one
      round: the second gets no Calculation from it. */
  lemma TwinNotServed(c: Cluster, b: string, h: Namer, addr: string -> nat, node: string, i: nat, k: nat)
    requires HashesContent(h) && i < k < |Round(c, b, h, addr, node)|
    ensures b in c.bulks
    ensures var r := Round(c, b, h, addr, node);
            && r[i].labels.entry.Some? && r[i].labels.entry.value in c.bulks[b].calcs
            && r[k].labels.entry.Some? && r[k].labels.entry.value in c.bulks[b].calcs
            && var x := c.bulks[b].calcs[r[i].labels.entry.value];
               var e := r[k].labels.entry.value;
               x.inputFiles.None? && x == c.bulks[b].calcs[e] ==>
                 (HasCalculation(AfterBulk(c, b, h, addr, node), b, e) <==> HasCalculation(c, b, e))
  {
    RoundContent(c, b, h, addr, node, i);
    RoundContent(c, b, h, addr, node, k);
    ServedExactly(c, b, h, addr, node, k);
  }

  // Until a bulk changes, its next round gives out the same entries.
  lemma SameRound(c: Cluster, b: string, h: Namer, addr1: string -> nat, addr2: string -> nat, node1: string, node2: string, k: nat)
    requires k < |Round(c, b, h, addr1, node1)|
    ensures var c1 := AfterBulk(c, b, h, addr1, node1);
            && k < |Round(c1, b, h, addr2, node2)|
            && Round(c1, b, h, addr2, node2)[k].labels.entry == Round(c, b, h, addr1, node1)[k].labels.entry
            && c1.bulks == c.bulks
  {
    RoundContent(c, b, h, addr1, node1, k);
    var c1 := AfterBulk(c, b, h, addr1, node1);
    assert c1.bulks == c.bulks && c1.pools == c.pools;
    AssignmentIsMatching(b, c.bulks[b], c.pools[c.bulks[b].workerPool], h, addr1);
    AssignmentIsMatching(b, c.bulks[b], c.pools[c.bulks[b].workerPool], h, addr2);
    RoundContent(c1, b, h, addr2, node2, k);
  }

  /** Two reconciles that give out the same entry leave it with two Calculations
      exactly if both printed addresses hash to free names, the second one after
      the first reconcile, so to different ones. Without input files the address
      is not printed, and that never happens. */
  lemma ServedTwice(c: Cluster, b: string, h: Namer, addr1: string -> nat, addr2: string -> nat, node1: string, node2: string, k: nat)
    requires k < |Round(c, b, h, addr1, node1)|
    ensures var r1 := Round(c, b, h, addr1, node1);
            var c1 := AfterBulk(c, b, h, addr1, node1);
            var r2 := Round(c1, b, h, addr2, node2);
            var c2 := AfterBulk(c1, b, h, addr2, node2);
            && k < |r2| && r1[k].labels.entry.Some? && b in c.bulks && r1[k].labels.entry.value in c.bulks[b].calcs
            && var e := r1[k].labels.entry.value;
               var x := WithSteps(c.bulks[b].calcs[e]);
               && r1[k].name == h(x, addr1(e)) && r2[k].name == h(x, addr2(e))
               && LiveNames(c2, b, e) == LiveNames(c, b, e)
                    + (if NameFree(c.calcs, r1, k) then {h(x, addr1(e))} else {})
                    + (if NameFree(c1.calcs, r2, k) then {h(x, addr2(e))} else {})
               && (LiveNames(c, b, e) == {} ==>
                     (|LiveNames(c2, b, e)| == 2 <==> NameFree(c.calcs, r1, k) && NameFree(c1.calcs, r2, k)))
  {
    var c1 := AfterBulk(c, b, h, addr1, node1);
    SameRound(c, b, h, addr1, addr2, node1, node2, k);
    RoundContent(c, b, h, addr1, node1, k);
    RoundContent(c1, b, h, addr2, node2, k);
    var e := Round(c, b, h, addr1, node1)[k].labels.entry.value;
    LiveNamesAfter(c, b, h, addr1, node1, k);
    LiveNamesAfter(c1, b, h, addr2, node2, k);
    if NameFree(c.calcs, Round(c, b, h, addr1, node1), k) {
      AddsExactly(c, b, h, addr1, node1, e, Round(c, b, h, addr1, node1)[k].name);
    }
  }

  lemma LiveNamesAfter(c: Cluster, b: string, h: Namer, addr: string -> nat, node: string, k: nat)
    requires k < |Round(c, b, h, addr, node)| && Round(c, b, h, addr, node)[k].labels.entry.Some?
    ensures var r := Round(c, b, h, addr, node);
            LiveNames(AfterBulk(c, b, h, addr, node), b, r[k].labels.entry.value)
            == LiveNames(c, b, r[k].labels.entry.value) + if NameFree(c.calcs, r, k) then {r[k].name} else {}
  {
    var r := Round(c, b, h, addr, node);
    var e := r[k].labels.entry.value;
    var c' := AfterBulk(c, b, h, addr, node);
    var added := if NameFree(c.calcs, r, k) then {r[k].name} else {};
    forall n
      ensures n in LiveNames(c', b, e) <==> n in LiveNames(c, b, e) + added
    {
      LiveAfter(c, b, h, addr, node, k, e, n);
    }
  }

  lemma LiveAfter(c: Cluster, b: string, h: Namer, addr: string -> nat, node: string, k: nat, e: string, n: string)
    requires k < |Round(c, b, h, addr, node)| && Round(c, b, h, addr, node)[k].labels.entry == Some(e)
    ensures var r := Round(c, b, h, addr, node);
            For(AfterBulk(c, b, h, addr, node), n, b, e) <==> For(c, n, b, e) || (NameFree(c.calcs, r, k) && n == r[k].name)
  {
    var r := Round(c, b, h, addr, node);
    RoundEntries(c, b, h, addr, node);
    AddsExactly(c, b, h, addr, node, e, n);
    forall i: nat | NameFree(c.calcs, r, i) && r[i].name == n && r[i].labels.entry == Some(e)
      ensures i == k
    {
      assert !(i < k) && !(k < i);
    }
  }
}
