/** Runs of a fleet: that they end, how they end, and a worker whose executor has
    returned. */
module FleetRuns {
  import opened Phases
  import opened CalcStore
  import opened CalcProtocol
  import opened CalcInvariants
  import opened CalcTheorems
  import opened Fleet

  // ----- Termination -----

  // Ranks are compared from the left.
  datatype Rank = Rank(exec: nat, commits: nat, undelivered: nat, queued: nat, rereads: nat)

  predicate Less(a: Rank, b: Rank) {
    || a.exec < b.exec
    || (a.exec == b.exec && a.commits < b.commits)
    || (a.exec == b.exec && a.commits == b.commits && a.undelivered < b.undelivered)
    || (a.exec == b.exec && a.commits == b.commits && a.undelivered == b.undelivered && a.queued < b.queued)
    || (a.exec == b.exec && a.commits == b.commits && a.undelivered == b.undelivered && a.queued == b.queued && a.rereads < b.rereads)
  }

  function Minus(a: nat, b: nat): nat {
    if a < b then 0 else a - b
  }

  // What is left after an error has been sent.
  function ResumeRank(k: EPc, rem: nat): nat {
    match k
    case EPipe => 7 + 4 * rem
    case ERun => 6 + 4 * rem
    case ECleanup => 3
    case EPool => 1
    case _ => 0
  }

  // Executor work left, with `rem` steps of the loop to go.
  function ExecRank(e: EPc, rem: nat): nat {
    match e
    case ENew => 11 + 4 * rem
    case ESetup => 10 + 4 * rem
    case EInput => 9 + 4 * rem
    case EPipe => 7 + 4 * rem
    case ERun => 6 + 4 * rem
    case EEmit(_) => 5 + 4 * rem
    case EErr(k) => 1 + ResumeRank(k, rem)
    case ECopy => 5
    case EStore => 5
    case ECleanup => 3
    case EPool => 1
    case EDone => 0
    case EDead => 0
  }

  function HandOffRank(w: WPc): nat {
    match w
    case WQueued => 3
    case WPool(_) => 2
    case WSend(_) => 1
    case _ => 0
  }

  function Bit(b: bool): nat {
    if b then 1 else 0
  }

  // No version up to the dispatcher's cache can be finalised.
  ghost predicate FinalAhead(s: State) {
    forall v | 0 <= v <= s.cd :: !Finishable(At(s.store, v))
  }

  // Writes that can still be committed without the executor moving.
  ghost function CommitsLeft(s: State): nat {
    Bit(!s.w.WDone?) + Bit(s.u.UGet? || s.u.UUpd?) +
    Bit(s.d.DGet? || s.d.DUpd?) + Bit(s.dq && Finishable(At(s.store, s.cd))) + Bit(FinalAhead(s))
  }

  function ReadsLeft(s: State): nat {
    var t := Top(s.store);
    Minus(t, s.cw) +
    (match s.w
     case WGet(lo) => 2 * Minus(t, lo) + 1
     case WUpd(r) => 2 * Minus(t, r)
     case _ => 0) +
    (match s.u
     case UGet(_, lo) => 2 * Minus(t, lo) + 2
     case UUpd(_, r) => 2 * Minus(t, r) + 1
     case UPool => 1
     case UIdle => 0) +
    (match s.d
     case DGet(_, lo) => 2 * Minus(t, lo) + 3
     case DUpd(_, r) => 2 * Minus(t, r) + 2
     case DBulk(_) => 1
     case DIdle => 0)
  }

  ghost function RankOf(s: State): Rank {
    Rank(HandOffRank(s.w) + ExecLeft(s),
         CommitsLeft(s),
         Minus(Top(s.store), s.cd),
         Bit(s.dq),
         ReadsLeft(s))
  }

  // A commit leaves the versions in the dispatcher's cache alone.
  lemma CommitKeepsAhead(s: State, s': State, w: Write)
    requires Base(s) && s'.store == Commit(s.store, w) && s'.cd == s.cd
    ensures FinalAhead(s') == FinalAhead(s)
    ensures At(s'.store, s.cd) == At(s.store, s.cd)
    ensures |Steps0(s')| == |Steps0(s)|
  {
    CommitShape(s.store, w);
    assert forall v | 0 <= v <= s.cd :: At(s'.store, v) == At(s.store, v);
  }

  lemma WorkerDecreases(s: State, ev: WorkerEvent)
    requires Base(s) && WorkerInv(s) && WorkerCan(s, ev) && ev != WPooled(false)
    ensures Less(RankOf(DoWorker(s, ev)), RankOf(s))
  {
    if ev.WWrite? {
      WriteDecreases(s);
    }
  }

  lemma WriteDecreases(s: State)
    requires Base(s) && WorkerInv(s) && s.w.WUpd?
    ensures Less(RankOf(DoWorker(s, WWrite)), RankOf(s))
  {
    if s.w.r == Top(s.store) {
      CommitKeepsAhead(s, DoWorker(s, WWrite), ToProcessing);
    }
  }

  function ExecLeft(s: State): nat {
    ExecRank(s.e, Minus(|Steps0(s)|, s.pos))
  }

  predicate InLoop(e: EPc) {
    e.ERun? || e.EEmit?
  }

  lemma LoopDecreases(s: State, ev: ExecutorEvent)
    requires s.snap == 0 && (s.vega ==> |Steps0(s)| == 3) && ExecutorInv(s)
    requires ExecutorCan(s, ev) && InLoop(s.e)
    ensures ExecLeft(DoExecutor(s, ev)) < ExecLeft(s)
  {
  }

  lemma OutsideLoopDecreases(s: State, ev: ExecutorEvent)
    requires ExecutorInv(s) && ExecutorCan(s, ev) && !InLoop(s.e)
    ensures ExecLeft(DoExecutor(s, ev)) < ExecLeft(s)
  {
  }

  lemma ExecutorDecreases(s: State, ev: ExecutorEvent)
    requires Base(s) && ExecutorInv(s) && ExecutorCan(s, ev)
    ensures Less(RankOf(DoExecutor(s, ev)), RankOf(s))
  {
    if InLoop(s.e) {
      LoopDecreases(s, ev);
    } else {
      OutsideLoopDecreases(s, ev);
    }
  }

  lemma UpdaterDecreases(s: State, ev: UpdaterEvent)
    requires Base(s) && UpdaterInv(s) && UpdaterCan(s, ev)
    ensures Less(RankOf(DoUpdater(s, ev)), RankOf(s))
  {
    if ev.UWrite? {
      UpdateDecreases(s);
    }
  }

  lemma UpdateDecreases(s: State)
    requires Base(s) && UpdaterInv(s) && s.u.UUpd?
    ensures Less(RankOf(DoUpdater(s, UWrite)), RankOf(s))
  {
    if s.u.r == Top(s.store) {
      CommitKeepsAhead(s, DoUpdater(s, UWrite), MsgWrite(s.u.m));
    }
  }

  lemma DispatcherDecreases(s: State, ev: DispatcherEvent)
    requires Base(s) && DispatcherInv(s) && DispatcherCan(s, ev) && ev != DFails
    ensures Less(RankOf(DoDispatcher(s, ev)), RankOf(s))
  {
    if ev.DWrite? && s.d.r == Top(s.store) {
      CommitKeepsAhead(s, DoDispatcher(s, ev), FinalWrite(s));
    }
  }

  lemma WatchDecreases(s: State, ev: Event)
    requires Base(s) && OneFinishable(s.store) && Enabled(s, ev) && (ev.WatchW? || ev.WatchD?)
    ensures Less(RankOf(Do(s, ev)), RankOf(s))
  {
  }

  lemma StepDecreases(s: State, ev: Event)
    requires Inv(s) && Enabled(s, ev) && !Requeues(ev)
    ensures Less(RankOf(Do(s, ev)), RankOf(s))
  {
    match ev
    case WatchW(_) => WatchDecreases(s, ev);
    case WatchD(_) => WatchDecreases(s, ev);
    case Worker(x) => WorkerDecreases(s, x);
    case Executor(x) => ExecutorDecreases(s, x);
    case Updater(x) => UpdaterDecreases(s, x);
    case Dispatcher(x) => DispatcherDecreases(s, x);
  }

  function Plus(a: Rank, b: Rank): Rank {
    Rank(a.exec + b.exec, a.commits + b.commits, a.undelivered + b.undelivered, a.queued + b.queued, a.rereads + b.rereads)
  }

  ghost function TotalRank(ss: seq<State>): Rank {
    if ss == [] then Rank(0, 0, 0, 0, 0) else Plus(RankOf(ss[0]), TotalRank(ss[1..]))
  }

  lemma {:induction false} TotalDecreases(ss: seq<State>, j: nat, s: State)
    requires j < |ss| && Less(RankOf(s), RankOf(ss[j]))
    ensures Less(TotalRank(ss[j := s]), TotalRank(ss))
  {
    if j == 0 {
      assert ss[j := s][1..] == ss[1..];
    } else {
      assert ss[j := s][1..] == ss[1..][j - 1 := s];
      TotalDecreases(ss[1..], j - 1, s);
    }
  }

  lemma ProgressDecreases(g: Fleet, g': Fleet)
    requires EachReachable(g) && Progress(g, g')
    ensures EachReachable(g') && Less(TotalRank(g'.calcs), TotalRank(g.calcs))
  {
    var j: nat, ev: Event :| CanDo(g, j, ev) && !Requeues(ev) && g' == Next(g, j, ev);
    ReachableInv(g.calcs[j]);
    StepDecreases(g.calcs[j], ev);
    TotalDecreases(g.calcs, j, Do(g.calcs[j], ev));
    NextEachReachable(g, j, ev);
  }

  // From step n on the run goes on as long as any actor can make progress.
  ghost predicate FullRun(run: nat -> Fleet, n: nat) {
    forall k: nat :: k >= n ==> Progress(run(k), run(k + 1)) || (!CanProgress(run(k)) && run(k + 1) == run(k))
  }

  /** Termination. From any reachable fleet every run in which no reconcile
      fails on the API any more comes to a stop, with every Calculation done but
      those on workers with a dead executor that were never handed out. */
  lemma {:induction false} RunsEnd(run: nat -> Fleet, k: nat)
    requires EachReachable(run(k)) && FullRun(run, k)
    ensures exists m: nat :: m >= k && Settled(run(m)) && EachReachable(run(m)) && !CanProgress(run(m))
    decreases TotalRank(run(k).calcs).exec, TotalRank(run(k).calcs).commits, TotalRank(run(k).calcs).undelivered,
              TotalRank(run(k).calcs).queued, TotalRank(run(k).calcs).rereads
  {
    if CanProgress(run(k)) {
      ProgressDecreases(run(k), run(k + 1));
      RunsEnd(run, k + 1);
    } else {
      NoProgressMeansSettled(run(k));
    }
  }

  // Any steps at all, requeues included, or none.
  ghost predicate AnyRun(run: nat -> Fleet) {
    forall k: nat :: AnyStep(run(k), run(k + 1))
  }

  ghost predicate AnyStep(g: Fleet, g': Fleet) {
    g' == g || exists j: nat, ev: Event :: CanDo(g, j, ev) && g' == Next(g, j, ev)
  }

  lemma AnyStepReachable(g: Fleet, g': Fleet)
    requires EachReachable(g) && AnyStep(g, g')
    ensures EachReachable(g')
  {
    if g' != g {
      var j: nat, ev: Event :| CanDo(g, j, ev) && g' == Next(g, j, ev);
      NextEachReachable(g, j, ev);
    }
  }

  lemma {:induction false} AnyRunReachable(run: nat -> Fleet, k: nat)
    requires EachReachable(run(0)) && AnyRun(run)
    ensures EachReachable(run(k))
  {
    if k > 0 {
      AnyRunReachable(run, k - 1);
      AnyStepReachable(run(k - 1), run(k - 1 + 1));
    }
  }

  // How Calculation j ends: never handed out, or done; and without faults the
  // phase of a default pipeline, and of its bulk entry, is the one its steps decide.
  ghost predicate EndsWell(g: Fleet, j: nat)
    requires j < |g.calcs|
  {
    var s := g.calcs[j];
    if NotHanded(s.w) then DeadHost(g, j)
    else
      && Quiescent(s)
      && (!s.vega && !s.faulted ==>
            Finished(CurSteps(s)) && Cur(s.store).phase == FinalPhase(CurSteps(s)) && s.entry == Cur(s.store).phase)
  }

  /** Termination and confluence together: every run of the fleet with finitely
      many requeues ends, each Calculation whose worker has a live executor is
      done, and each fault-free default one is in the phase its steps decide. */
  lemma RunsEndAlike(run: nat -> Fleet, n: nat)
    requires FleetReachable(run(0)) && AnyRun(run) && FullRun(run, n)
    ensures exists m: nat :: Settled(run(m)) && forall j: nat | j < |run(m).calcs| :: EndsWell(run(m), j)
  {
    FleetProjects(run(0));
    AnyRunReachable(run, n);
    RunsEnd(run, n);
    var m: nat :| m >= n && Settled(run(m)) && EachReachable(run(m)) && !CanProgress(run(m));
    forall j: nat | j < |run(m).calcs|
      ensures EndsWell(run(m), j)
    {
      EndOfOne(run(m), j);
    }
  }

  lemma EndOfOne(g: Fleet, j: nat)
    requires EachReachable(g) && Settled(g) && j < |g.calcs|
    ensures EndsWell(g, j)
  {
    var s := g.calcs[j];
    if Quiescent(s) && !s.vega && !s.faulted {
      Confluence(s);
    }
  }

  // ----- Why the executors must be alive -----

  ghost predicate Stranded(g: Fleet, i: nat, j: nat) {
    && i < |g.calcs| && j < |g.calcs| && i != j && Same(g, i, j)
    && g.calcs[i].e.EDead?
    && g.calcs[j].w.WSend?
  }

  lemma StrandedStep(g: Fleet, i: nat, j: nat, k: nat, ev: Event)
    requires Stranded(g, i, j) && CanDo(g, k, ev)
    ensures Stranded(Next(g, k, ev), i, j)
  {
  }

  /** One failed input copy ends the executor's Run, and then the Calculation
      that worker's reconciler is handing over is never executed: no later step
      of anyone gets it out of the send. */
  lemma {:induction false} DeadExecutorStrands(g: Fleet, i: nat, j: nat, steps: seq<(nat, Event)>, g': Fleet)
    requires Stranded(g, i, j) && FleetRun(g, steps, g')
    ensures Stranded(g', i, j)
    decreases |steps|
  {
    if steps != [] {
      StrandedStep(g, i, j, steps[0].0, steps[0].1);
      DeadExecutorStrands(Next(g, steps[0].0, steps[0].1), i, j, steps[1..], g');
    }
  }

  lemma {:induction false} FleetAppend(g: Fleet, steps: seq<(nat, Event)>, g': Fleet, j: nat, ev: Event)
    requires FleetRun(g, steps, g') && CanDo(g', j, ev)
    ensures FleetRun(g, steps + [(j, ev)], Next(g', j, ev))
    decreases |steps|
  {
    if steps == [] {
      assert [(j, ev)][1..] == [];
    } else {
      FleetAppend(Next(g, steps[0].0, steps[0].1), steps[1..], g', j, ev);
      assert (steps + [(j, ev)])[1..] == steps[1..] + [(j, ev)];
    }
  }

  // Two Calculations of one worker; the other one is not busy anywhere.
  predicate OutOfTheWay(s: State) {
    ReconcilerFree(s.w) && ExecutorFree(s.e) && s.u.UIdle? && s.d.DIdle?
  }

  lemma TakeFirst(a: State, b: State, ev: Event) returns (a': State)
    requires FleetReachable(Fleet([0, 0], [a, b])) && Enabled(a, ev) && OutOfTheWay(b)
    ensures a' == Do(a, ev) && FleetReachable(Fleet([0, 0], [a', b]))
  {
    var g := Fleet([0, 0], [a, b]);
    var g0, steps :| FleetInit(g0) && FleetRun(g0, steps, g);
    FleetAppend(g0, steps, g, 0, ev);
    a' := Do(a, ev);
    assert Next(g, 0, ev) == Fleet([0, 0], [a', b]);
  }

  lemma TakeSecond(a: State, b: State, ev: WorkerEvent) returns (b': State)
    requires FleetReachable(Fleet([0, 0], [a, b])) && WorkerCan(b, ev) && !ev.WHandOff? && ReconcilerFree(a.w)
    ensures b' == DoWorker(b, ev) && FleetReachable(Fleet([0, 0], [a, b']))
  {
    var g := Fleet([0, 0], [a, b]);
    var g0, steps :| FleetInit(g0) && FleetRun(g0, steps, g);
    FleetAppend(g0, steps, g, 1, Worker(ev));
    b' := DoWorker(b, ev);
    assert Next(g, 1, Worker(ev)) == Fleet([0, 0], [a, b']);
  }

  // The first one is handed over and written Processing ...
  lemma FirstHandedOver(c: Calc) returns (a: State, b: State)
    requires Fresh(c, false)
    ensures FleetReachable(Fleet([0, 0], [a, b]))
    ensures b == Init(c, false, Unset) && a.w.WDone? && a.e.ESetup? && a.u.UIdle?
  {
    b := Init(c, false, Unset);
    assert FleetInit(Fleet([0, 0], [b, b])) && FleetRun(Fleet([0, 0], [b, b]), [], Fleet([0, 0], [b, b]));
    a := TakeFirst(b, b, Worker(WTake));
    a := TakeFirst(a, b, Worker(WPooled(true)));
    a := TakeFirst(a, b, Worker(WHandOff));
    a := TakeFirst(a, b, Worker(WRead));
    a := TakeFirst(a, b, Worker(WWrite));
  }

  /** ... an input file of it cannot be copied, and the next Calculation of that
      worker waits for ever: a fleet that is reached and stranded. */
  lemma StrandedIsReachable() returns (g: Fleet)
    ensures FleetReachable(g) && Stranded(g, 0, 1)
  {
    var c := Calc(Created, [Unset]);
    var a, b := FirstHandedOver(c);
    a := TakeFirst(a, b, Executor(ESetUp(true)));
    a := TakeFirst(a, b, Executor(EInputs(CopyFailed)));
    a := TakeFirst(a, b, Executor(ESendError));
    b := TakeSecond(a, b, WTake);
    b := TakeSecond(a, b, WPooled(true));
    g := Fleet([0, 0], [a, b]);
  }
}
