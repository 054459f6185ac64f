/** Which entries have a Calculation, over every run of the dispatcher's
    controllers and the workers. A calculation reconcile is taken apart here:
    between its read and its copy the other controllers go on. */
module Conservation {
  import opened Phases
  import opened Objects
  import opened Strings
  import opened CalculationUtil
  import opened Scheduler
  import opened Cluster

  // The dispatcher's reconcile of one Calculation at a time: x is what it read.
  datatype Reading = Idle | Read(x: Calculation) | Decided(x: Calculation)

  datatype World = World(c: Cluster, reading: Reading)

  datatype Action =
    | BulkReconciled(b: string, addr: string -> nat, node: string)
    | CalculationRead(n: string)
    | CalculationDecided             // the final phase is written
    | CalculationCopied              // the phase read is copied into the bulk
    | CalculationGivenUp             // a request fails; the key is queued again
    | PodLost(pod: string)
    | WorkerWrote(n: string, phase: Phase, steps: seq<Step>)
    | PoolChanged(p: string, pool: Pool)
    | BulkAdded(b: string, bulk: Bulk)

  // A new bulk claims no running work.
  ghost predicate FreshBulk(bulk: Bulk) {
    forall e | e in bulk.calcs :: bulk.calcs[e].phase != Created && bulk.calcs[e].phase != Processing
  }

  ghost predicate Allowed(w: World, a: Action) {
    match a
    case CalculationRead(_) => w.reading.Idle?
    case CalculationDecided => w.reading.Read? && NeedsFinal(w.reading.x)
    case CalculationCopied => (w.reading.Read? && !NeedsFinal(w.reading.x)) || w.reading.Decided?
    case CalculationGivenUp => !w.reading.Idle?
    case WorkerWrote(n, _, _) => n in w.c.calcs
    case BulkAdded(b, bulk) => b !in w.c.bulks && FreshBulk(bulk)
    case _ => true
  }

  ghost function After(w: World, h: Namer, a: Action): World
    requires Allowed(w, a)
  {
    var c := w.c;
    match a
    case BulkReconciled(b, addr, node) => w.(c := AfterBulk(c, b, h, addr, node))
    case CalculationRead(n) => w.(reading := if n in c.calcs then Read(c.calcs[n]) else Idle)
    // The object is fetched again; when it is gone the reconcile fails.
    case CalculationDecided =>
      var x := w.reading.x;
      if x.name in c.calcs
      then World(c.(calcs := c.calcs[x.name := c.calcs[x.name].(phase := FinalPhase(Statuses(x.steps)))]), Decided(x))
      else w.(reading := Idle)
    case CalculationCopied => World(CopyPhase(c, w.reading.x), Idle)
    case CalculationGivenUp => w.(reading := Idle)
    case PodLost(pod) => w.(c := AfterPodLost(c, pod))
    case WorkerWrote(n, p, steps) => w.(c := c.(calcs := c.calcs[n := c.calcs[n].(phase := p, steps := steps)]))
    case PoolChanged(p, pool) => w.(c := c.(pools := c.pools[p := pool]))
    case BulkAdded(b, bulk) => w.(c := c.(bulks := c.bulks[b := bulk]))
  }

  ghost predicate Runs(w: World, h: Namer, as_: seq<Action>, w': World)
    decreases |as_|
  {
    if as_ == [] then w == w'
    else Allowed(w, as_[0]) && Runs(After(w, h, as_[0]), h, as_[1..], w')
  }

  // A cluster without bulks, in which no Calculation carries a bulk label.
  ghost predicate Start(w: World) {
    w.reading.Idle? && w.c.bulks == map[] &&
    forall n | n in w.c.calcs :: w.c.calcs[n].name == n && w.c.calcs[n].labels.bulk.None? && !w.c.calcs[n].labels.post
  }

  /** With nobody in between, the three parts are the reconcile as one step. */
  lemma ReconcileInParts(w: World, h: Namer, n: string)
    requires w.reading.Idle? && n in w.c.calcs && w.c.calcs[n].name == n
    ensures var as_ := [CalculationRead(n)] + (if NeedsFinal(w.c.calcs[n]) then [CalculationDecided] else []) + [CalculationCopied];
            Runs(w, h, as_, World(AfterCalculation(w.c, n), Idle))
  {
    var x := w.c.calcs[n];
    var w1 := w.(reading := Read(x));
    if NeedsFinal(x) {
      var w2 := After(w1, h, CalculationDecided);
      assert w2.c == w.c.(calcs := w.c.calcs[n := Finalised(x)]);
      assert Runs(After(w2, h, CalculationCopied), h, [], World(AfterCalculation(w.c, n), Idle));
      assert ([CalculationRead(n)] + [CalculationDecided] + [CalculationCopied])[1..] == [CalculationDecided, CalculationCopied];
      assert [CalculationDecided, CalculationCopied][1..] == [CalculationCopied];
    } else {
      assert w.c.(calcs := w.c.calcs[n := x]) == w.c;
      assert ([CalculationRead(n)] + [] + [CalculationCopied])[1..] == [CalculationCopied];
    }
    assert [CalculationCopied][1..] == [];
  }

  // ----- Slots: entries and post-calculations -----

  // Calculation n is labelled with entry e of bulk b.
  predicate For(c: Cluster, n: string, b: string, e: string) {
    n in c.calcs && c.calcs[n].labels.bulk == Some(b) && c.calcs[n].labels.entry == Some(e)
  }

  predicate ForPost(c: Cluster, n: string, b: string) {
    n in c.calcs && c.calcs[n].labels.bulk == Some(b) && c.calcs[n].labels.post
  }

  datatype Slot = Entry(b: string, e: string) | Post(b: string)

  predicate Fills(c: Cluster, n: string, s: Slot) {
    match s
    case Entry(b, e) => For(c, n, b, e)
    case Post(b) => ForPost(c, n, b)
  }

  // What is computed for a slot, whatever its phase.
  function Content(c: Cluster, s: Slot): Option<BulkCalc> {
    if s.b !in c.bulks then None
    else match s
      case Entry(b, e) => if e in c.bulks[b].calcs then Some(c.bulks[b].calcs[e].(phase := Unset)) else None
      case Post(b) => if c.bulks[b].post.Some? then Some(c.bulks[b].post.value.(phase := Unset)) else None
  }

  function NameOf(h: Namer, x: BulkCalc): string {
    h(WithSteps(x), 0)
  }

  ghost predicate NamedByContent(c: Cluster, h: Namer) {
    forall n, s | Fills(c, n, s) && Content(c, s).Some? && Content(c, s).value.inputFiles.None? ::
      n == NameOf(h, Content(c, s).value)
  }

  // The labels of what is being reconciled name slots that exist.
  ghost predicate ReadingLabelled(w: World) {
    !w.reading.Idle? ==>
      (w.reading.x.labels.bulk.Some? ==> EntryExists(w.c, w.reading.x)) &&
      (w.reading.x.labels.post ==> w.reading.x.labels.entry.None?)
  }

  ghost predicate WorldInv(w: World, h: Namer) {
    Labelled(w.c) && NamedByContent(w.c, h) && ReadingLabelled(w)
  }

  // What is needed of each Calculation that is to be created.
  ghost predicate Creatable(c: Cluster, h: Namer, x: Calculation) {
    && x.labels.bulk.Some? && EntryExists(c, x) && (x.labels.post ==> x.labels.entry.None?)
    && var content := Content(c, SlotOf(x));
       content.Some? && (content.value.inputFiles.None? ==> x.name == NameOf(h, content.value))
  }

  function SlotOf(x: Calculation): Slot
    requires x.labels.bulk.Some? && (!x.labels.post ==> x.labels.entry.Some?)
  {
    if x.labels.post then Post(x.labels.bulk.value) else Entry(x.labels.bulk.value, x.labels.entry.value)
  }

  lemma CreateKeeps(c: Cluster, h: Namer, x: Calculation)
    requires Labelled(c) && NamedByContent(c, h) && Creatable(c, h, x)
    ensures Labelled(c.(calcs := Created1(c.calcs, x))) && NamedByContent(c.(calcs := Created1(c.calcs, x)), h)
  {
    var c' := c.(calcs := Created1(c.calcs, x));
    forall n, s | Fills(c', n, s) && Content(c', s).Some? && Content(c', s).value.inputFiles.None?
      ensures n == NameOf(h, Content(c', s).value)
    {
      if n in c.calcs {
        assert Fills(c, n, s);
      } else {
        assert s == SlotOf(x);
      }
    }
  }

  lemma {:induction false} CreateAllKeeps(c: Cluster, h: Namer, xs: seq<Calculation>)
    requires Labelled(c) && NamedByContent(c, h)
    requires forall i | 0 <= i < |xs| :: Creatable(c, h, xs[i])
    ensures Labelled(c.(calcs := CreateAll(c.calcs, xs))) && NamedByContent(c.(calcs := CreateAll(c.calcs, xs)), h)
    decreases |xs|
  {
    if xs != [] {
      assert Creatable(c, h, xs[0]);
      CreateKeeps(c, h, xs[0]);
      var c1 := c.(calcs := Created1(c.calcs, xs[0]));
      forall i | 0 <= i < |xs[1..]|
        ensures Creatable(c1, h, xs[1..][i])
      {
        assert Creatable(c, h, xs[i + 1]);
      }
      CreateAllKeeps(c1, h, xs[1..]);
    }
  }

  lemma AssignmentCreatable(c: Cluster, h: Namer, b: string, addr: string -> nat, pool: Pool, k: nat)
    requires HashesContent(h) && b in c.bulks
    requires k < |Assignment(b, c.bulks[b], pool, h, addr)|
    ensures Creatable(c, h, Assignment(b, c.bulks[b], pool, h, addr)[k])
  {
    var bulk := c.bulks[b];
    ListsLength(Listing(Pending(bulk.calcs)), Pending(bulk.calcs));
    var e := Listing(Pending(bulk.calcs))[k];
    assert Assignment(b, bulk, pool, h, addr)[k] == Assigned(b, bulk, pool, h, addr, k);
    assert e in Pending(bulk.calcs);
    assert bulk.calcs[e] == bulk.calcs[e].(phase := Unset);
  }

  lemma PostCreatable(c: Cluster, h: Namer, b: string, addr: nat, worker: Worker)
    requires HashesContent(h) && b in c.bulks && PostDue(c.bulks[b])
    ensures Creatable(c, h, PostCalculation(b, c.bulks[b], worker, h, addr))
  {
    var post := c.bulks[b].post.value;
    assert post == post.(phase := Unset);
  }

  lemma BulkKeeps(c: Cluster, h: Namer, b: string, addr: string -> nat, node: string)
    requires Labelled(c) && NamedByContent(c, h) && HashesContent(h)
    ensures Labelled(AfterBulk(c, b, h, addr, node)) && NamedByContent(AfterBulk(c, b, h, addr, node), h)
  {
    if b in c.bulks && c.bulks[b].workerPool in c.pools {
      var bulk := c.bulks[b];
      var pool := c.pools[bulk.workerPool];
      if PostDue(bulk) && node in AvailableNodes(pool) {
        PostCreatable(c, h, b, addr(""), pool[node]);
        CreateKeeps(c, h, PostCalculation(b, bulk, pool[node], h, addr("")));
      } else {
        forall k | 0 <= k < |Assignment(b, bulk, pool, h, addr)|
          ensures Creatable(c, h, Assignment(b, bulk, pool, h, addr)[k])
        {
          AssignmentCreatable(c, h, b, addr, pool, k);
        }
        CreateAllKeeps(c, h, Assignment(b, bulk, pool, h, addr));
      }
    }
  }

  // Two clusters whose bulks differ at most in phases.
  predicate SameContents(c: Cluster, c': Cluster) {
    && c.bulks.Keys == c'.bulks.Keys
    && forall b | b in c.bulks ::
         && c.bulks[b].calcs.Keys == c'.bulks[b].calcs.Keys
         && (c.bulks[b].post.Some? <==> c'.bulks[b].post.Some?)
         && (c.bulks[b].post.Some? ==> c.bulks[b].post.value.(phase := Unset) == c'.bulks[b].post.value.(phase := Unset))
         && forall e | e in c.bulks[b].calcs :: c.bulks[b].calcs[e].(phase := Unset) == c'.bulks[b].calcs[e].(phase := Unset)
  }

  // Copying a phase changes no content, and no other entry's phase.
  lemma CopyIsLocal(c: Cluster, x: Calculation)
    requires x.labels.bulk.Some? ==> EntryExists(c, x)
    requires x.labels.post ==> x.labels.entry.None?
    ensures SameContents(c, CopyPhase(c, x)) && CopyPhase(c, x).calcs == c.calcs
    ensures forall b, e | b in c.bulks && e in c.bulks[b].calcs :: CopyPhase(c, x).bulks[b].calcs[e].phase ==
              if x.labels.bulk == Some(b) && x.labels.entry == Some(e) then x.phase else c.bulks[b].calcs[e].phase
  {
    if x.labels.bulk.Some? {
      if x.labels.post {
        CopyPost(c, x);
      } else {
        CopyEntry(c, x);
      }
    }
  }

  lemma CopyPost(c: Cluster, x: Calculation)
    requires EntryExists(c, x) && x.labels.post && x.labels.entry.None?
    ensures SameContents(c, CopyPhase(c, x)) && CopyPhase(c, x).calcs == c.calcs
    ensures forall b, e | b in c.bulks && e in c.bulks[b].calcs ::
              CopyPhase(c, x).bulks[b].calcs[e].phase == c.bulks[b].calcs[e].phase
  {
  }

  lemma CopyEntry(c: Cluster, x: Calculation)
    requires EntryExists(c, x) && !x.labels.post
    ensures SameContents(c, CopyPhase(c, x)) && CopyPhase(c, x).calcs == c.calcs
    ensures forall b, e | b in c.bulks && e in c.bulks[b].calcs :: CopyPhase(c, x).bulks[b].calcs[e].phase ==
              if x.labels.bulk == Some(b) && x.labels.entry == Some(e) then x.phase else c.bulks[b].calcs[e].phase
  {
  }

  // What survives when contents stay and Calculations only go or change phase.
  lemma StillNamed(c: Cluster, c': Cluster, h: Namer)
    requires Labelled(c) && NamedByContent(c, h) && SameContents(c, c') && c'.calcs.Keys <= c.calcs.Keys
    requires forall n | n in c'.calcs :: c'.calcs[n].labels == c.calcs[n].labels && c'.calcs[n].name == c.calcs[n].name
    ensures Labelled(c') && NamedByContent(c', h)
  {
    forall n, s | Fills(c', n, s) && Content(c', s).Some? && Content(c', s).value.inputFiles.None?
      ensures n == NameOf(h, Content(c', s).value)
    {
      assert Fills(c, n, s) && Content(c, s) == Content(c', s);
    }
  }

  lemma StillLabelled(c: Cluster, c': Cluster, x: Calculation)
    requires SameContents(c, c') && EntryExists(c, x)
    ensures EntryExists(c', x)
  {
  }

  lemma PodLostKeeps(w: World, h: Namer, pod: string)
    requires WorldInv(w, h)
    ensures WorldInv(w.(c := AfterPodLost(w.c, pod)), h)
  {
    var c' := AfterPodLost(w.c, pod);
    assert SameContents(w.c, c');
    StillNamed(w.c, c', h);
    if !w.reading.Idle? && w.reading.x.labels.bulk.Some? {
      StillLabelled(w.c, c', w.reading.x);
    }
  }

  lemma CopyKeeps(w: World, h: Namer)
    requires WorldInv(w, h) && !w.reading.Idle?
    ensures WorldInv(World(CopyPhase(w.c, w.reading.x), Idle), h)
  {
    CopyIsLocal(w.c, w.reading.x);
    StillNamed(w.c, CopyPhase(w.c, w.reading.x), h);
  }

  lemma DecideKeeps(w: World, h: Namer)
    requires WorldInv(w, h) && Allowed(w, CalculationDecided)
    ensures WorldInv(After(w, h, CalculationDecided), h)
  {
    var w' := After(w, h, CalculationDecided);
    assert SameContents(w.c, w'.c);
    StillNamed(w.c, w'.c, h);
  }

  lemma WroteKeeps(w: World, h: Namer, n: string, p: Phase, steps: seq<Step>)
    requires WorldInv(w, h) && n in w.c.calcs
    ensures WorldInv(After(w, h, WorkerWrote(n, p, steps)), h)
  {
    var w' := After(w, h, WorkerWrote(n, p, steps));
    assert SameContents(w.c, w'.c);
    StillNamed(w.c, w'.c, h);
  }

  lemma AddedKeeps(w: World, h: Namer, b: string, bulk: Bulk)
    requires WorldInv(w, h) && b !in w.c.bulks
    ensures WorldInv(w.(c := w.c.(bulks := w.c.bulks[b := bulk])), h)
  {
    var c' := w.c.(bulks := w.c.bulks[b := bulk]);
    forall n, s | Fills(c', n, s) && Content(c', s).Some? && Content(c', s).value.inputFiles.None?
      ensures n == NameOf(h, Content(c', s).value)
    {
      assert Fills(w.c, n, s);
      assert w.c.calcs[n].labels.bulk.Some? && EntryExists(w.c, w.c.calcs[n]);
      assert Content(w.c, s) == Content(c', s);
    }
  }

  lemma StepKeeps(w: World, h: Namer, a: Action)
    requires WorldInv(w, h) && HashesContent(h) && Allowed(w, a)
    ensures WorldInv(After(w, h, a), h)
  {
    match a
    case BulkReconciled(b, addr, node) => BulkKeeps(w.c, h, b, addr, node);
    case CalculationRead(n) =>
    case CalculationDecided => DecideKeeps(w, h);
    case CalculationCopied => CopyKeeps(w, h);
    case CalculationGivenUp =>
    case PodLost(pod) => PodLostKeeps(w, h, pod);
    case WorkerWrote(n, p, steps) => WroteKeeps(w, h, n, p, steps);
    case PoolChanged(p, pool) => PoolKeeps(w, h, p, pool);
    case BulkAdded(b, bulk) => AddedKeeps(w, h, b, bulk);
  }

  lemma PoolKeeps(w: World, h: Namer, p: string, pool: Pool)
    requires WorldInv(w, h)
    ensures WorldInv(w.(c := w.c.(pools := w.c.pools[p := pool])), h)
  {
    var c' := w.c.(pools := w.c.pools[p := pool]);
    assert SameContents(w.c, c');
    StillNamed(w.c, c', h);
  }

  lemma {:induction false} RunKeeps(w: World, h: Namer, as_: seq<Action>, w': World)
    requires WorldInv(w, h) && HashesContent(h) && Runs(w, h, as_, w')
    ensures WorldInv(w', h)
    decreases |as_|
  {
    if as_ != [] {
      StepKeeps(w, h, as_[0]);
      RunKeeps(After(w, h, as_[0]), h, as_[1..], w');
    }
  }

  lemma StartInv(w: World, h: Namer)
    requires Start(w)
    ensures WorldInv(w, h)
  {
    assert forall n, s :: Fills(w.c, n, s) ==> w.c.calcs[n].labels.bulk.Some?;
  }

  // ----- No duplicates, and twins -----

  /** Names come from content: two slots with the same content and no input files,
      be they entries or post-calculations of one bulk or of two, never both have
      a Calculation; and no such slot ever has two. */
  lemma OneNameOneSlot(w: World, h: Namer, as_: seq<Action>, w': World, s1: Slot, s2: Slot, n: string, m: string)
    requires Start(w) && HashesContent(h) && Runs(w, h, as_, w')
    requires Content(w'.c, s1).Some? && Content(w'.c, s1) == Content(w'.c, s2)
    requires Content(w'.c, s1).value.inputFiles.None?
    requires Fills(w'.c, n, s1) && Fills(w'.c, m, s2)
    ensures n == m && s1 == s2
  {
    StartInv(w, h);
    RunKeeps(w, h, as_, w');
    assert n == NameOf(h, Content(w'.c, s1).value) == m;
  }

  lemma ContentKept(w: World, h: Namer, a: Action, s: Slot)
    requires WorldInv(w, h) && Allowed(w, a) && Content(w.c, s).Some?
    ensures Content(After(w, h, a).c, s) == Content(w.c, s)
  {
    if a.CalculationCopied? {
      CopyIsLocal(w.c, w.reading.x);
    } else if a.PodLost? {
      assert SameContents(w.c, AfterPodLost(w.c, a.pod));
    }
  }

  lemma {:induction false} ContentStays(w: World, h: Namer, as_: seq<Action>, w': World, s: Slot)
    requires WorldInv(w, h) && HashesContent(h) && Runs(w, h, as_, w') && Content(w.c, s).Some?
    ensures WorldInv(w', h) && Content(w'.c, s) == Content(w.c, s)
    decreases |as_|
  {
    if as_ != [] {
      StepKeeps(w, h, as_[0]);
      ContentKept(w, h, as_[0], s);
      ContentStays(After(w, h, as_[0]), h, as_[1..], w', s);
    }
  }

  // ----- No work lost -----

  predicate Running(c: Cluster, b: string, e: string) {
    b in c.bulks && e in c.bulks[b].calcs &&
    (c.bulks[b].calcs[e].phase == Created || c.bulks[b].calcs[e].phase == Processing)
  }

  predicate HasCalculation(c: Cluster, b: string, e: string) {
    exists n | n in c.calcs :: For(c, n, b, e)
  }

  // The entry claims running work that nobody does.
  predicate Orphan(c: Cluster, b: string, e: string) {
    Running(c, b, e) && !HasCalculation(c, b, e)
  }

  // The reconcile in progress is about entry e of bulk b.
  predicate ReadFor(w: World, b: string, e: string) {
    !w.reading.Idle? && w.reading.x.labels.bulk == Some(b) && w.reading.x.labels.entry == Some(e)
  }

  predicate ReadRunning(w: World) {
    !w.reading.Idle? && (w.reading.x.phase == Created || w.reading.x.phase == Processing)
  }

  // Bulk reconciles create for pending entries only, and remove nothing.
  lemma {:induction false} CreateAllFor(c: Cluster, xs: seq<Calculation>, b: string, e: string)
    requires forall i | 0 <= i < |xs| :: !(xs[i].labels.bulk == Some(b) && xs[i].labels.entry == Some(e))
    ensures forall n :: For(c.(calcs := CreateAll(c.calcs, xs)), n, b, e) <==> For(c, n, b, e)
    decreases |xs|
  {
    if xs != [] {
      CreateAllFor(c.(calcs := Created1(c.calcs, xs[0])), xs[1..], b, e);
    }
  }

  lemma {:induction false} CreateAllGrows(c: Cluster, xs: seq<Calculation>)
    ensures forall n | n in c.calcs :: n in CreateAll(c.calcs, xs) && CreateAll(c.calcs, xs)[n] == c.calcs[n]
    decreases |xs|
  {
    if xs != [] {
      CreateAllGrows(c.(calcs := Created1(c.calcs, xs[0])), xs[1..]);
    }
  }

  lemma BulkOrphans(c: Cluster, h: Namer, b1: string, addr: string -> nat, node: string, b: string, e: string)
    ensures Orphan(AfterBulk(c, b1, h, addr, node), b, e) <==> Orphan(c, b, e)
    ensures forall n | n in c.calcs ::
              n in AfterBulk(c, b1, h, addr, node).calcs && AfterBulk(c, b1, h, addr, node).calcs[n] == c.calcs[n]
  {
    if b1 in c.bulks && c.bulks[b1].workerPool in c.pools {
      var bulk := c.bulks[b1];
      var pool := c.pools[bulk.workerPool];
      if !(PostDue(bulk) && node in AvailableNodes(pool)) {
        var r := Assignment(b1, bulk, pool, h, addr);
        CreateAllGrows(c, r);
        if Running(c, b, e) {
          forall k | 0 <= k < |r|
            ensures !(r[k].labels.bulk == Some(b) && r[k].labels.entry == Some(e))
          {
            AssignedArePending(c, h, b1, addr, pool, k);
          }
          CreateAllFor(c, r, b, e);
          SameCover(c, c.(calcs := CreateAll(c.calcs, r)), b, e);
        }
      } else {
        SameCover(c, AfterBulk(c, b1, h, addr, node), b, e);
      }
    }
  }

  lemma SameCover(c: Cluster, c': Cluster, b: string, e: string)
    requires forall n :: For(c', n, b, e) <==> For(c, n, b, e)
    ensures HasCalculation(c', b, e) <==> HasCalculation(c, b, e)
  {
    if n :| n in c.calcs && For(c, n, b, e) {
      assert For(c', n, b, e);
    }
    if n :| n in c'.calcs && For(c', n, b, e) {
      assert For(c, n, b, e);
    }
  }

  lemma AssignedArePending(c: Cluster, h: Namer, b: string, addr: string -> nat, pool: Pool, k: nat)
    requires b in c.bulks && k < |Assignment(b, c.bulks[b], pool, h, addr)|
    ensures var r := Assignment(b, c.bulks[b], pool, h, addr);
            r[k].labels.bulk == Some(b) && r[k].labels.entry.Some? && r[k].labels.entry.value in Pending(c.bulks[b].calcs)
  {
    AssignmentIsMatching(b, c.bulks[b], pool, h, addr);
    assert Assignment(b, c.bulks[b], pool, h, addr)[k] == Assigned(b, c.bulks[b], pool, h, addr, k);
  }

  lemma PodLostOrphans(c: Cluster, pod: string, b: string, e: string)
    ensures Orphan(AfterPodLost(c, pod), b, e) <==> Orphan(c, b, e)
  {
    var c' := AfterPodLost(c, pod);
    if Running(c, b, e) && HasCalculation(c, b, e) && Running(c', b, e) {
      var n :| n in c.calcs && For(c, n, b, e);
      assert !Reopens(c.calcs, pod, b, e);
      assert For(c', n, b, e);
    }
    if Orphan(c, b, e) {
      assert !Reopens(c.calcs, pod, b, e);
    }
  }

  lemma CopyOrphans(w: World, b: string, e: string)
    requires Labelled(w.c) && ReadingLabelled(w) && !w.reading.Idle?
    ensures Orphan(CopyPhase(w.c, w.reading.x), b, e) <==>
              if ReadFor(w, b, e) then ReadRunning(w) && !HasCalculation(w.c, b, e) else Orphan(w.c, b, e)
  {
    CopyIsLocal(w.c, w.reading.x);
    SameCover(w.c, CopyPhase(w.c, w.reading.x), b, e);
  }

  /** How an entry loses its Calculation, exactly. After any step of anyone an
      entry claims running work without a Calculation if it did before, and its
      phase was not just copied; or if its phase was just copied, from a
      Calculation read as running, while it has no Calculation any more. */
  lemma OrphansExactly(w: World, h: Namer, a: Action, b: string, e: string)
    requires WorldInv(w, h) && Allowed(w, a)
    ensures Orphan(After(w, h, a).c, b, e) <==>
              if a.CalculationCopied? && ReadFor(w, b, e) then ReadRunning(w) && !HasCalculation(w.c, b, e)
              else Orphan(w.c, b, e)
  {
    match a
    case BulkReconciled(b1, addr, node) => BulkOrphans(w.c, h, b1, addr, node, b, e);
    case CalculationCopied => CopyOrphans(w, b, e);
    case PodLost(pod) => PodLostOrphans(w.c, pod, b, e);
    case _ => OtherOrphans(w, h, a, b, e);
  }

  lemma OtherOrphans(w: World, h: Namer, a: Action, b: string, e: string)
    requires Allowed(w, a) && !a.BulkReconciled? && !a.CalculationCopied? && !a.PodLost?
    ensures Orphan(After(w, h, a).c, b, e) <==> Orphan(w.c, b, e)
  {
    SameCover(w.c, After(w, h, a).c, b, e);
  }

  // A pod is lost between a reconcile's read of a running Calculation and its
  // copy, and the Calculation is deleted.
  ghost predicate Overtakes(w: World, a: Action) {
    a.PodLost? && ReadRunning(w) && w.reading.x.labels.bulk.Some? &&
    w.reading.x.name in w.c.calcs && Lost(w.c.calcs[w.reading.x.name], a.pod)
  }

  ghost predicate NeverOvertaken(w: World, h: Namer, as_: seq<Action>)
    decreases |as_|
  {
    as_ == [] ||
    (Allowed(w, as_[0]) && !Overtakes(w, as_[0]) && NeverOvertaken(After(w, h, as_[0]), h, as_[1..]))
  }

  // What is being reconciled, if it was read as running, is still there.
  ghost predicate ReadIsThere(w: World) {
    ReadRunning(w) && w.reading.x.labels.bulk.Some? ==>
      w.reading.x.name in w.c.calcs && w.c.calcs[w.reading.x.name].labels == w.reading.x.labels
  }

  lemma StepKeepsRead(w: World, h: Namer, a: Action)
    requires WorldInv(w, h) && Allowed(w, a) && !Overtakes(w, a) && ReadIsThere(w)
    ensures ReadIsThere(After(w, h, a))
  {
    if a.BulkReconciled? {
      BulkOrphans(w.c, h, a.b, a.addr, a.node, "", "");
    }
  }

  lemma {:induction false} NotOvertakenCovers(w: World, h: Namer, as_: seq<Action>, w': World, b: string, e: string)
    requires WorldInv(w, h) && HashesContent(h) && Runs(w, h, as_, w') && NeverOvertaken(w, h, as_)
    requires ReadIsThere(w) && !Orphan(w.c, b, e)
    ensures !Orphan(w'.c, b, e)
    decreases |as_|
  {
    if as_ != [] {
      var a := as_[0];
      StepKeeps(w, h, a);
      StepKeepsRead(w, h, a);
      OrphansExactly(w, h, a, b, e);
      if ReadFor(w, b, e) && ReadRunning(w) {
        assert For(w.c, w.reading.x.name, b, e);
      }
      NotOvertakenCovers(After(w, h, a), h, as_[1..], w', b, e);
    }
  }

  // At no step of the run a pod is lost whose Calculation, Created or Processing,
  // a reconcile has read as Created or Processing and not yet copied.
  ghost predicate NoneOvertaken(w: World, h: Namer, as_: seq<Action>) {
    forall k: nat, v: World :: k < |as_| && Runs(w, h, as_[..k], v) ==>
      !(&& as_[k].PodLost? && !v.reading.Idle? && v.reading.x.labels.bulk.Some?
        && (v.reading.x.phase == Created || v.reading.x.phase == Processing)
        && v.reading.x.name in v.c.calcs && v.c.calcs[v.reading.x.name].labels.assign == Some(as_[k].pod)
        && (v.c.calcs[v.reading.x.name].phase == Created || v.c.calcs[v.reading.x.name].phase == Processing))
  }

  lemma {:induction false} NoneIsNever(w: World, h: Namer, as_: seq<Action>, w': World)
    requires Runs(w, h, as_, w') && NoneOvertaken(w, h, as_)
    ensures NeverOvertaken(w, h, as_)
    decreases |as_|
  {
    if as_ != [] {
      var w1 := After(w, h, as_[0]);
      assert as_[..0] == [] && Runs(w, h, as_[..0], w);
      forall k: nat, v: World | k < |as_[1..]| && Runs(w1, h, as_[1..][..k], v)
        ensures Runs(w, h, as_[..k + 1], v) && as_[1..][k] == as_[k + 1]
      {
        assert as_[..k + 1][1..] == as_[1..][..k];
      }
      NoneIsNever(w1, h, as_[1..], w');
    }
  }

  /** As long as no pod is lost between a reconcile's read of a running
      Calculation and its copy, every entry in phase Created or Processing has a
      Calculation labelled with it, however often its bulk was reconciled. */
  lemma NoWorkLost(w: World, h: Namer, as_: seq<Action>, w': World, b: string, e: string)
    requires Start(w) && HashesContent(h) && Runs(w, h, as_, w') && NoneOvertaken(w, h, as_)
    requires b in w'.c.bulks && e in w'.c.bulks[b].calcs
    requires w'.c.bulks[b].calcs[e].phase == Created || w'.c.bulks[b].calcs[e].phase == Processing
    ensures exists n | n in w'.c.calcs :: w'.c.calcs[n].labels.bulk == Some(b) && w'.c.calcs[n].labels.entry == Some(e)
  {
    StartInv(w, h);
    NoneIsNever(w, h, as_, w');
    NotOvertakenCovers(w, h, as_, w', b, e);
  }

  /** And if one is, the entry that was just reopened gets the old phase back and
      has no Calculation: exactly when the deleted one was the only one for it. */
  lemma OvertakenLosesWork(w: World, h: Namer, pod: string, b: string, e: string)
    requires WorldInv(w, h) && Allowed(w, CalculationCopied) && ReadFor(w, b, e) && ReadRunning(w)
    ensures var w1 := After(w, h, PodLost(pod));
            && Allowed(w1, CalculationCopied)
            && (Orphan(After(w1, h, CalculationCopied).c, b, e) <==>
                  forall n | n in w.c.calcs && For(w.c, n, b, e) :: Lost(w.c.calcs[n], pod))
  {
    var w1 := After(w, h, PodLost(pod));
    PodLostKeeps(w, h, pod);
    OrphansExactly(w1, h, CalculationCopied, b, e);
    if n :| n in w.c.calcs && For(w.c, n, b, e) && !Lost(w.c.calcs[n], pod) {
      assert For(w1.c, n, b, e);
    }
    if HasCalculation(w1.c, b, e) {
      var n :| n in w1.c.calcs && For(w1.c, n, b, e);
      assert For(w.c, n, b, e);
    }
  }

  /** Nothing that happens later helps: the entry is never dispatched again. */
  lemma {:induction false} OrphanStays(w: World, h: Namer, as_: seq<Action>, w': World, b: string, e: string)
    requires WorldInv(w, h) && HashesContent(h) && Runs(w, h, as_, w')
    requires Orphan(w.c, b, e) && !ReadFor(w, b, e)
    ensures Orphan(w'.c, b, e)
    decreases |as_|
  {
    if as_ != [] {
      var a := as_[0];
      StepKeeps(w, h, a);
      OrphansExactly(w, h, a, b, e);
      if a.CalculationRead? && a.n in w.c.calcs {
        assert !For(w.c, a.n, b, e);
      }
      OrphanStays(After(w, h, a), h, as_[1..], w', b, e);
    }
  }
}
