/** Runs of the whole cluster, from one without bulks, that end badly. The exact
    conditions, for all runs, are in Conservation, Creation and PostCalculations. */
module Incidents {
  import opened Phases
  import opened Objects
  import opened CalculationUtil
  import opened Scheduler
  import opened Cluster
  import opened Conservation
  import opened Creation
  import opened PostCalculations

  ghost predicate Reached(w: World, h: Namer) {
    exists w0: World, as_: seq<Action> :: Start(w0) && Runs(w0, h, as_, w)
  }

  lemma {:induction false} RunsAppend(w: World, h: Namer, as_: seq<Action>, w': World, a: Action)
    requires Runs(w, h, as_, w') && Allowed(w', a)
    ensures Runs(w, h, as_ + [a], After(w', h, a))
    decreases |as_|
  {
    if as_ == [] {
      assert [a][1..] == [];
    } else {
      RunsAppend(After(w, h, as_[0]), h, as_[1..], w', a);
      assert (as_ + [a])[1..] == as_[1..] + [a];
    }
  }

  lemma Act(w: World, h: Namer, a: Action) returns (w': World)
    requires Reached(w, h) && Allowed(w, a)
    ensures w' == After(w, h, a) && Reached(w', h)
  {
    var w0, as_ :| Start(w0) && Runs(w0, h, as_, w);
    RunsAppend(w0, h, as_, w, a);
    w' := After(w, h, a);
  }

  lemma ReachedInv(w: World, h: Namer)
    requires Reached(w, h) && HashesContent(h)
    ensures WorldInv(w, h)
  {
    var w0, as_ :| Start(w0) && Runs(w0, h, as_, w);
    StartInv(w0, h);
    RunKeeps(w0, h, as_, w);
  }

  // Printed addresses, in two reconciles.
  const FIRST: string -> nat := _ => 0
  const SECOND: string -> nat := _ => 1

  const POOL := map["node" := Worker("pod", "node", Available)]

  // One bulk and one pool, and nothing created yet.
  lemma SetUp(h: Namer, bulk: Bulk, pool: Pool) returns (w: World)
    requires FreshBulk(bulk)
    ensures Reached(w, h) && w == World(Cluster(map[], map["bulk" := bulk], map["pool" := pool]), Idle)
  {
    w := World(Cluster(map[], map[], map[]), Idle);
    assert Start(w) && Runs(w, h, [], w);
    w := Act(w, h, BulkAdded("bulk", bulk));
    w := Act(w, h, PoolChanged("pool", pool));
  }

  function OneEntry(x: BulkCalc): Bulk {
    Bulk("root", "pool", "", map["e" := x], None, 0)
  }

  lemma OneRound(c: Cluster, h: Namer, x: BulkCalc, addr: string -> nat)
    requires c.bulks == map["bulk" := OneEntry(x)] && c.pools == map["pool" := POOL] && x.phase == Unset
    ensures var r := Round(c, "bulk", h, addr, "");
            |r| == 1 && r[0].labels == Labels(Some("bulk"), Some("e"), false, Some("root"), Some("pod")) && r[0].phase == Created
    ensures Round(c, "bulk", h, addr, "")[0].name == h(WithSteps(x), addr("e"))
  {
    assert Pending(OneEntry(x).calcs) == {"e"};
    assert AvailableNodes(POOL) == {"node"};
    assert "" !in AvailableNodes(POOL);
    AssignmentIsMatching("bulk", OneEntry(x), POOL, h, addr);
    RoundContent(c, "bulk", h, addr, "", 0);
    assert Round(c, "bulk", h, addr, "")[0] == Assigned("bulk", OneEntry(x), POOL, h, addr, 0);
    AssignedWorker(h, x, addr);
  }

  lemma AssignedWorker(h: Namer, x: BulkCalc, addr: string -> nat)
    requires x.phase == Unset
    ensures |Assignment("bulk", OneEntry(x), POOL, h, addr)| > 0
    ensures Assignment("bulk", OneEntry(x), POOL, h, addr)[0].labels.assign == Some("pod")
  {
    assert Pending(OneEntry(x).calcs) == {"e"} && AvailableNodes(POOL) == {"node"};
    AssignmentIsMatching("bulk", OneEntry(x), POOL, h, addr);
    var r := Assignment("bulk", OneEntry(x), POOL, h, addr);
    assert r[0] == Assigned("bulk", OneEntry(x), POOL, h, addr, 0);
    var n :| n in AvailableNodes(POOL) && r[0].assign == POOL[n].name;
  }

  // The entry is dispatched to the pod.
  lemma Dispatched(h: Namer, x: BulkCalc, addr: string -> nat) returns (w: World, n: string)
    requires x.phase == Unset
    ensures Reached(w, h) && w.reading.Idle? && w.c.bulks == map["bulk" := OneEntry(x)] && w.c.pools == map["pool" := POOL]
    ensures n == h(WithSteps(x), addr("e")) && w.c.calcs.Keys == {n} && w.c.calcs[n].name == n
    ensures w.c.calcs[n].labels == Labels(Some("bulk"), Some("e"), false, Some("root"), Some("pod")) && w.c.calcs[n].phase == Created
  {
    var w0 := SetUp(h, OneEntry(x), POOL);
    OneRound(w0.c, h, x, addr);
    w := Act(w0, h, BulkReconciled("bulk", addr, ""));
    n := h(WithSteps(x), addr("e"));
    var r := Round(w0.c, "bulk", h, addr, "");
    assert r[1..] == [] && CreateAll(map[], r) == Created1(map[], r[0]);
  }

  /** The pod is lost while a reconcile that has read its Calculation has not yet
      copied the phase: the reopened entry is Created again, nobody works on it,
      and nobody ever will. */
  lemma WorkCanBeLost(h: Namer, x: BulkCalc) returns (w: World)
    requires HashesContent(h) && x.phase == Unset
    ensures Reached(w, h) && Orphan(w.c, "bulk", "e")
    ensures forall as_, w' :: Runs(w, h, as_, w') ==> Orphan(w'.c, "bulk", "e")
  {
    var w0, n := Dispatched(h, x, FIRST);
    var w1 := Act(w0, h, CalculationRead(n));
    ReachedInv(w1, h);
    OvertakenLosesWork(w1, h, "pod", "bulk", "e");
    forall m | m in w1.c.calcs && For(w1.c, m, "bulk", "e")
      ensures Lost(w1.c.calcs[m], "pod")
    {
      assert m == n;
    }
    var w2 := Act(w1, h, PodLost("pod"));
    w := Act(w2, h, CalculationCopied);
    ReachedInv(w, h);
    forall as_, w' | Runs(w, h, as_, w')
      ensures Orphan(w'.c, "bulk", "e")
    {
      OrphanStays(w, h, as_, w', "bulk", "e");
    }
  }

  const TWO := map["m" := Worker("pod", "m", Available), "n" := Worker("pod2", "n", Available)]

  function Twins(x: BulkCalc): Bulk {
    Bulk("root", "pool", "", map["a" := x, "b" := x], None, 0)
  }

  lemma TwinRound(c: Cluster, h: Namer, x: BulkCalc)
    requires x.phase == Unset && c.bulks == map["bulk" := Twins(x)] && c.pools == map["pool" := TWO]
    ensures var r := Round(c, "bulk", h, FIRST, "");
            && |r| == 2 && r[0].labels.entry.Some? && r[1].labels.entry.Some?
            && r[0].labels.entry != r[1].labels.entry
            && {r[0].labels.entry.value, r[1].labels.entry.value} <= {"a", "b"}
  {
    assert Pending(Twins(x).calcs) == {"a", "b"} && AvailableNodes(TWO) == {"m", "n"};
    assert "" !in AvailableNodes(TWO);
    AssignmentIsMatching("bulk", Twins(x), TWO, h, FIRST);
    RoundEntries(c, "bulk", h, FIRST, "");
    RoundContent(c, "bulk", h, FIRST, "", 0);
    RoundContent(c, "bulk", h, FIRST, "", 1);
  }

  lemma TwinServed(c: Cluster, h: Namer, x: BulkCalc) returns (served: string, starved: string)
    requires HashesContent(h) && x.phase == Unset && x.inputFiles.None?
    requires c.calcs == map[] && c.bulks == map["bulk" := Twins(x)] && c.pools == map["pool" := TWO]
    ensures served != starved && {served, starved} <= {"a", "b"}
    ensures var c' := AfterBulk(c, "bulk", h, FIRST, "");
            HasCalculation(c', "bulk", served) && !HasCalculation(c', "bulk", starved)
  {
    TwinRound(c, h, x);
    ServedExactly(c, "bulk", h, FIRST, "", 0);
    TwinNotServed(c, "bulk", h, FIRST, "", 0, 1);
    var r := Round(c, "bulk", h, FIRST, "");
    served, starved := r[0].labels.entry.value, r[1].labels.entry.value;
  }

  lemma TwinsDispatched(h: Namer, x: BulkCalc) returns (w: World, served: string, starved: string)
    requires HashesContent(h) && x.phase == Unset && x.inputFiles.None?
    ensures Reached(w, h) && w.c.bulks == map["bulk" := Twins(x)] && served != starved && {served, starved} <= {"a", "b"}
    ensures HasCalculation(w.c, "bulk", served) && !HasCalculation(w.c, "bulk", starved)
  {
    var w0 := SetUp(h, Twins(x), TWO);
    served, starved := TwinServed(w0.c, h, x);
    w := Act(w0, h, BulkReconciled("bulk", FIRST, ""));
  }

  /** Of two entries with the same content, both given out to free workers, one
      starves: it is pending and without a Calculation, and stays without one in
      every run for as long as the other one's is there. */
  lemma TwinCanStarve(h: Namer, x: BulkCalc) returns (w: World, served: string, starved: string)
    requires HashesContent(h) && x.phase == Unset && x.inputFiles.None?
    ensures Reached(w, h) && w.c.bulks == map["bulk" := Twins(x)] && served != starved && {served, starved} <= {"a", "b"}
    ensures HasCalculation(w.c, "bulk", served) && !HasCalculation(w.c, "bulk", starved)
    ensures forall as_, w' :: Runs(w, h, as_, w') && HasCalculation(w'.c, "bulk", served) ==> !HasCalculation(w'.c, "bulk", starved)
  {
    w, served, starved := TwinsDispatched(h, x);
    ReachedInv(w, h);
    forall as_, w' | Runs(w, h, as_, w') && HasCalculation(w'.c, "bulk", served)
      ensures !HasCalculation(w'.c, "bulk", starved)
    {
      StillStarved(w, h, as_, w', x, served, starved);
    }
  }

  lemma StillStarved(w: World, h: Namer, as_: seq<Action>, w': World, x: BulkCalc, served: string, starved: string)
    requires WorldInv(w, h) && HashesContent(h) && Runs(w, h, as_, w') && x.phase == Unset && x.inputFiles.None?
    requires w.c.bulks == map["bulk" := Twins(x)] && served != starved && {served, starved} <= {"a", "b"}
    requires HasCalculation(w'.c, "bulk", served)
    ensures !HasCalculation(w'.c, "bulk", starved)
  {
    ContentStays(w, h, as_, w', Entry("bulk", served));
    ContentStays(w, h, as_, w', Entry("bulk", starved));
    var n :| n in w'.c.calcs && For(w'.c, n, "bulk", served);
    assert Fills(w'.c, n, Entry("bulk", served));
    forall m | m in w'.c.calcs
      ensures !For(w'.c, m, "bulk", starved)
    {
      assert For(w'.c, m, "bulk", starved) ==> Fills(w'.c, m, Entry("bulk", starved));
    }
  }

  // The second reconcile finds its name free.
  lemma SecondNameFree(c: Cluster, h: Namer, x: BulkCalc)
    requires c.calcs == map[] && c.bulks == map["bulk" := OneEntry(x)] && c.pools == map["pool" := POOL]
    requires x.phase == Unset && h(WithSteps(x), 0) != h(WithSteps(x), 1)
    ensures var c1 := AfterBulk(c, "bulk", h, FIRST, "");
            && NameFree(c.calcs, Round(c, "bulk", h, FIRST, ""), 0)
            && NameFree(c1.calcs, Round(c1, "bulk", h, SECOND, ""), 0)
  {
    var c1 := AfterBulk(c, "bulk", h, FIRST, "");
    OneRound(c, h, x, FIRST);
    assert c1.bulks == c.bulks && c1.pools == c.pools;
    OneRound(c1, h, x, SECOND);
    CreateAllExact(c.calcs, Round(c, "bulk", h, FIRST, ""), h(WithSteps(x), 1));
  }

  lemma TwoNames(c: Cluster, h: Namer, x: BulkCalc)
    requires c.calcs == map[] && c.bulks == map["bulk" := OneEntry(x)] && c.pools == map["pool" := POOL]
    requires x.phase == Unset && h(WithSteps(x), 0) != h(WithSteps(x), 1)
    ensures |LiveNames(AfterBulk(AfterBulk(c, "bulk", h, FIRST, ""), "bulk", h, SECOND, ""), "bulk", "e")| == 2
  {
    SecondNameFree(c, h, x);
    FirstEntry(c, h, x);
    ServedTwice(c, "bulk", h, FIRST, SECOND, "", "", 0);
  }

  lemma FirstEntry(c: Cluster, h: Namer, x: BulkCalc)
    requires c.calcs == map[] && c.bulks == map["bulk" := OneEntry(x)] && c.pools == map["pool" := POOL] && x.phase == Unset
    ensures var r := Round(c, "bulk", h, FIRST, ""); |r| == 1 && r[0].labels.entry == Some("e")
    ensures LiveNames(c, "bulk", "e") == {}
  {
    OneRound(c, h, x, FIRST);
  }

  /** With input files the printed entry holds an address, and two reconciles
      before the phase is copied back create two Calculations for one entry. */
  lemma InputFilesDuplicate(h: Namer, x: BulkCalc) returns (w: World)
    requires x.phase == Unset && h(WithSteps(x), 0) != h(WithSteps(x), 1)
    ensures Reached(w, h) && |LiveNames(w.c, "bulk", "e")| == 2
  {
    var w0 := SetUp(h, OneEntry(x), POOL);
    TwoNames(w0.c, h, x);
    var w1 := Act(w0, h, BulkReconciled("bulk", FIRST, ""));
    w := Act(w1, h, BulkReconciled("bulk", SECOND, ""));
  }

  function OnlyPost(post: BulkCalc): Bulk {
    Bulk("root", "pool", "", map[], Some(post), 0)
  }

  lemma PostDispatched(h: Namer, post: BulkCalc) returns (w: World, n: string)
    requires post.phase == Unset
    ensures Reached(w, h) && w.reading.Idle? && w.c.bulks == map["bulk" := OnlyPost(post)]
    ensures w.c.calcs.Keys == {n} && w.c.calcs[n].name == n && w.c.calcs[n].phase == Created
    ensures w.c.calcs[n].labels == Labels(Some("bulk"), None, true, Some("root"), Some("pod"))
  {
    var w0 := SetUp(h, OnlyPost(post), POOL);
    assert PostDue(OnlyPost(post)) && "node" in AvailableNodes(POOL);
    w := Act(w0, h, BulkReconciled("bulk", FIRST, "node"));
    n := h(WithSteps(post), 0);
  }

  /** The pod that runs a post-calculation is lost after its phase was copied once:
      the slot stays Created, and no later step creates it again. */
  lemma PostCanBeLost(h: Namer, post: BulkCalc) returns (w: World)
    requires HashesContent(h) && post.phase == Unset
    ensures Reached(w, h) && PostLost(w.c, "bulk")
    ensures forall as_, w' :: Runs(w, h, as_, w') ==> PostLost(w'.c, "bulk")
  {
    var w0, n := PostDispatched(h, post);
    var w1 := Act(w0, h, CalculationRead(n));
    var w2 := Act(w1, h, CalculationCopied);
    ReachedInv(w2, h);
    PodLossLosesPost(w2.c, "bulk", "pod");
    w := Act(w2, h, PodLost("pod"));
    forall as_, w' | Runs(w, h, as_, w')
      ensures PostLost(w'.c, "bulk")
    {
      PostStaysLost(w, h, as_, w', "bulk");
    }
  }
}
