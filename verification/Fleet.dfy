/** Many Calculations at once. Each worker process has one reconciler, one
    executor and one result updater, and there is one dispatcher reconcile at a
    time, so an actor takes up a Calculation only when it is not busy with
    another. Blocking on the unbuffered channels shows up as steps that are not
    enabled. */
module Fleet {
  import opened Phases
  import opened CalcStore
  import opened CalcProtocol
  import opened CalcInvariants
  import opened CalcTheorems

  // host[i] is the worker that Calculation i is assigned to.
  datatype Fleet = Fleet(host: seq<nat>, calcs: seq<State>)

  predicate ExecutorFree(e: EPc) {
    e.ENew? || e.EDone?
  }

  predicate ReconcilerFree(w: WPc) {
    w.WQueued? || w.WDone?
  }

  predicate Same(g: Fleet, i: nat, j: nat) {
    i < |g.host| && j < |g.host| && g.host[i] == g.host[j]
  }

  ghost predicate ActorFree(g: Fleet, j: nat, ev: Event) {
    forall i | 0 <= i < |g.calcs| && i != j ::
      && (ev.Worker? && ev.we.WTake? && Same(g, i, j) ==> ReconcilerFree(g.calcs[i].w))
      && (ev.Worker? && ev.we.WHandOff? && Same(g, i, j) ==> ExecutorFree(g.calcs[i].e))
      && (ev.Executor? && (ev.ee.ESendResult? || ev.ee.ESendError?) && Same(g, i, j) ==> g.calcs[i].u.UIdle?)
      && (ev.Dispatcher? && ev.de.DTake? ==> g.calcs[i].d.DIdle?)
  }

  ghost predicate CanDo(g: Fleet, j: nat, ev: Event) {
    j < |g.calcs| && Enabled(g.calcs[j], ev) && ActorFree(g, j, ev)
  }

  ghost function Next(g: Fleet, j: nat, ev: Event): Fleet
    requires CanDo(g, j, ev)
  {
    g.(calcs := g.calcs[j := Do(g.calcs[j], ev)])
  }

  ghost predicate FleetInit(g: Fleet) {
    |g.host| == |g.calcs| &&
    forall i | 0 <= i < |g.calcs| ::
      exists c: Calc, vega: bool, entry: Phase :: Fresh(c, vega) && g.calcs[i] == Init(c, vega, entry)
  }

  ghost predicate FleetRun(g: Fleet, steps: seq<(nat, Event)>, g': Fleet)
    decreases |steps|
  {
    if steps == [] then g == g'
    else CanDo(g, steps[0].0, steps[0].1) && FleetRun(Next(g, steps[0].0, steps[0].1), steps[1..], g')
  }

  ghost predicate FleetReachable(g: Fleet) {
    exists g0: Fleet, steps: seq<(nat, Event)> :: FleetInit(g0) && FleetRun(g0, steps, g)
  }

  ghost predicate EachReachable(g: Fleet) {
    |g.host| == |g.calcs| && forall i | 0 <= i < |g.calcs| :: Reachable(g.calcs[i])
  }

  lemma NextEachReachable(g: Fleet, j: nat, ev: Event)
    requires EachReachable(g) && CanDo(g, j, ev)
    ensures EachReachable(Next(g, j, ev))
  {
    ReachableStep(g.calcs[j], ev);
  }

  lemma {:induction false} RunEachReachable(g: Fleet, steps: seq<(nat, Event)>, g': Fleet)
    requires EachReachable(g) && FleetRun(g, steps, g')
    ensures EachReachable(g')
    decreases |steps|
  {
    if steps != [] {
      NextEachReachable(g, steps[0].0, steps[0].1);
      RunEachReachable(Next(g, steps[0].0, steps[0].1), steps[1..], g');
    }
  }

  /** Seen from one Calculation, a fleet run is a run of its own protocol, so
      every theorem about one Calculation holds for each of the fleet. */
  lemma FleetProjects(g: Fleet)
    requires FleetReachable(g)
    ensures EachReachable(g)
  {
    var g0, steps :| FleetInit(g0) && FleetRun(g0, steps, g);
    forall i | 0 <= i < |g0.calcs|
      ensures Reachable(g0.calcs[i])
    {
      var c, vega, entry :| Fresh(c, vega) && g0.calcs[i] == Init(c, vega, entry);
      ReachableInit(c, vega, entry);
    }
    RunEachReachable(g0, steps, g);
  }

  // ----- One of each actor -----

  // Program counters at which an actor is busy with a Calculation.
  predicate ReconcilerBusy(s: State) {
    s.w.WPool? || s.w.WSend? || s.w.WGet? || s.w.WUpd?
  }

  predicate ExecutorBusy(s: State) {
    && !s.e.ENew? && !s.e.EDone?
  }

  predicate UpdaterBusy(s: State) {
    s.u.UGet? || s.u.UUpd? || s.u.UPool?
  }

  predicate DispatcherBusy(s: State) {
    s.d.DGet? || s.d.DUpd? || s.d.DBulk?
  }

  // Two Calculations that no actor is busy with at once; `same` on one worker.
  predicate NotBoth(s: State, t: State, same: bool) {
    && (same ==> !(ReconcilerBusy(s) && ReconcilerBusy(t)))
    && (same ==> !(ExecutorBusy(s) && ExecutorBusy(t)))
    && (same ==> !(UpdaterBusy(s) && UpdaterBusy(t)))
    && !(DispatcherBusy(s) && DispatcherBusy(t))
  }

  ghost predicate OneEach(g: Fleet) {
    |g.host| == |g.calcs| &&
    forall i, j | 0 <= i < |g.calcs| && 0 <= j < |g.calcs| && i != j ::
      NotBoth(g.calcs[i], g.calcs[j], g.host[i] == g.host[j])
  }

  // Only the event that takes something up makes an actor busy.
  lemma BecomesBusy(s: State, ev: Event)
    requires Enabled(s, ev)
    ensures ReconcilerBusy(Do(s, ev)) ==> ReconcilerBusy(s) || ev == Worker(WTake)
    ensures UpdaterBusy(Do(s, ev)) ==> UpdaterBusy(s) || ev == Executor(ESendResult) || ev == Executor(ESendError)
    ensures DispatcherBusy(Do(s, ev)) ==> DispatcherBusy(s) || ev == Dispatcher(DTake)
  {
    match ev
    case Executor(x) => ExecutorBecomesBusy(s, x);
    case _ =>
  }

  lemma ExecutorBecomesBusy(s: State, ev: ExecutorEvent)
    requires ExecutorCan(s, ev)
    ensures UpdaterBusy(DoExecutor(s, ev)) ==> UpdaterBusy(s) || ev.ESendResult? || ev.ESendError?
    ensures DoExecutor(s, ev).w == s.w && DoExecutor(s, ev).d == s.d
  {
  }

  lemma HandOffBecomesBusy(s: State, ev: Event)
    requires Enabled(s, ev)
    ensures ExecutorBusy(Do(s, ev)) ==> ExecutorBusy(s) || ev == Worker(WHandOff) || ev.Executor?
    ensures ev.Executor? ==> ExecutorBusy(s)
  {
    match ev
    case Executor(x) =>
    case _ =>
  }

  lemma NextOneEach(g: Fleet, k: nat, ev: Event)
    requires OneEach(g) && CanDo(g, k, ev)
    ensures OneEach(Next(g, k, ev))
  {
    var g' := Next(g, k, ev);
    BecomesBusy(g.calcs[k], ev);
    HandOffBecomesBusy(g.calcs[k], ev);
    forall i | 0 <= i < |g.calcs| && i != k
      ensures NotBoth(g'.calcs[k], g.calcs[i], g.host[k] == g.host[i])
      ensures NotBoth(g.calcs[i], g'.calcs[k], g.host[k] == g.host[i])
    {
      assert NotBoth(g.calcs[k], g.calcs[i], g.host[k] == g.host[i]);
      OtherFree(g, k, ev, i);
    }
  }

  // What the one who takes something up has waited for.
  lemma OtherFree(g: Fleet, k: nat, ev: Event, i: nat)
    requires |g.host| == |g.calcs| && CanDo(g, k, ev) && i < |g.calcs| && i != k
    ensures g.host[k] == g.host[i] && ev == Worker(WTake) ==> !ReconcilerBusy(g.calcs[i])
    ensures g.host[k] == g.host[i] && ev == Worker(WHandOff) ==> !ExecutorBusy(g.calcs[i])
    ensures g.host[k] == g.host[i] && (ev == Executor(ESendResult) || ev == Executor(ESendError)) ==> !UpdaterBusy(g.calcs[i])
    ensures ev == Dispatcher(DTake) ==> !DispatcherBusy(g.calcs[i])
  {
  }

  lemma {:induction false} RunOneEach(g: Fleet, steps: seq<(nat, Event)>, g': Fleet)
    requires OneEach(g) && FleetRun(g, steps, g')
    ensures OneEach(g')
    decreases |steps|
  {
    if steps != [] {
      NextOneEach(g, steps[0].0, steps[0].1);
      RunOneEach(Next(g, steps[0].0, steps[0].1), steps[1..], g');
    }
  }

  lemma InitOneEach(g: Fleet)
    requires FleetInit(g)
    ensures OneEach(g)
  {
    forall i | 0 <= i < |g.calcs|
      ensures g.calcs[i].w.WQueued? && g.calcs[i].e.ENew? && g.calcs[i].u.UIdle? && g.calcs[i].d.DIdle?
    {
      var c, vega, entry :| Fresh(c, vega) && g.calcs[i] == Init(c, vega, entry);
    }
  }

  /** One select loop, one reconcile and one execution at a time for each worker,
      and one reconcile of the dispatcher: of two Calculations of one worker at
      most one is taken up by its reconciler, at most one is with its executor, at
      most one is the updater writing for, and of any two at most one is the
      dispatcher reconciling. */
  lemma OneAtATime(g: Fleet, i: nat, j: nat)
    requires FleetReachable(g) && i < |g.calcs| && j < |g.calcs| && i != j
    ensures |g.host| == |g.calcs|
    ensures g.host[i] == g.host[j] ==>
              && !((g.calcs[i].w.WPool? || g.calcs[i].w.WSend? || g.calcs[i].w.WGet? || g.calcs[i].w.WUpd?) &&
                   (g.calcs[j].w.WPool? || g.calcs[j].w.WSend? || g.calcs[j].w.WGet? || g.calcs[j].w.WUpd?))
              && (g.calcs[i].e.ENew? || g.calcs[i].e.EDone? || g.calcs[j].e.ENew? || g.calcs[j].e.EDone?)
              && (g.calcs[i].u.UIdle? || g.calcs[j].u.UIdle?)
    ensures g.calcs[i].d.DIdle? || g.calcs[j].d.DIdle?
  {
    var g0, steps :| FleetInit(g0) && FleetRun(g0, steps, g);
    InitOneEach(g0);
    RunOneEach(g0, steps, g);
    assert NotBoth(g.calcs[i], g.calcs[j], g.host[i] == g.host[j]);
  }

  /** And no worker waits for another one: a step of a reconciler, an executor or
      an updater is possible when its own Calculation is ready and no other
      Calculation of that worker is taken up, executed or being written for. */
  lemma WorkersAreIndependent(g: Fleet, k: nat, ev: Event)
    requires k < |g.calcs| && Enabled(g.calcs[k], ev) && !ev.Dispatcher?
    requires forall i | 0 <= i < |g.calcs| && i < |g.host| && k < |g.host| && i != k && g.host[i] == g.host[k] ::
               && (g.calcs[i].w.WQueued? || g.calcs[i].w.WDone?)
               && (g.calcs[i].e.ENew? || g.calcs[i].e.EDone?)
               && g.calcs[i].u.UIdle?
    ensures CanDo(g, k, ev)
  {
  }

  // ----- Deadlock freedom -----

  // A reconcile that fails on the API is queued again; nothing else goes back.
  predicate Requeues(ev: Event) {
    (ev.Worker? && ev.we == WPooled(false)) || (ev.Dispatcher? && ev.de.DFails?)
  }

  ghost predicate Progress(g: Fleet, g': Fleet) {
    exists j: nat, ev: Event :: CanDo(g, j, ev) && !Requeues(ev) && g' == Next(g, j, ev)
  }

  ghost predicate CanProgress(g: Fleet) {
    exists j: nat, ev: Event :: CanDo(g, j, ev) && !Requeues(ev)
  }

    // An input copy has failed on the worker of Calculation j, which ended its executor's Run.
  ghost predicate DeadHost(g: Fleet, j: nat) {
    exists i: nat :: i < |g.calcs| && Same(g, i, j) && g.calcs[i].e.EDead?
  }

  // Every Calculation is done, but those never handed out on such a worker.
  ghost predicate Settled(g: Fleet) {
    forall j: nat :: j < |g.calcs| ==>
      && (Quiescent(g.calcs[j]) <==> !NotHanded(g.calcs[j].w))
      && (NotHanded(g.calcs[j].w) ==> DeadHost(g, j))
  }

  // An updater that is busy can always go on: its reads wait only for a watch.
  function UpdaterMove(s: State): Event
    requires !s.u.UIdle?
  {
    if s.u.UGet? then (if s.u.lo <= s.cw then Updater(URead) else WatchW(Top(s.store)))
    else if s.u.UUpd? then Updater(UWrite)
    else Updater(UPooled)
  }

  function ExecutorMove(s: State): Event
    requires !ExecutorFree(s.e) && !s.e.EDead?
  {
    Executor(match s.e
      case ESetup => ESetUp(true)
      case EInput => EInputs(InputOk)
      case EPipe => EPiped(true)
      case ERun => if s.pos >= StepCount(s) then ELoopEnd else if StepTodo(s) then ECommand(true) else ESkip
      case EEmit(_) => ESendResult
      case EErr(_) => ESendError
      case ECopy => ECopied(true)
      case EStore => EStored(true)
      case ECleanup => ECleaned(true)
      case _ => EPooled)
  }

  function ReconcilerMove(s: State): Event
    requires !s.w.WDone?
  {
    match s.w
    case WQueued => Worker(WTake)
    case WPool(_) => Worker(WPooled(true))
    case WSend(_) => Worker(WHandOff)
    case WGet(lo) => if lo <= s.cw then Worker(WRead) else WatchW(Top(s.store))
    case _ => Worker(WWrite)
  }

  function DispatcherMove(s: State): Event
    requires !s.d.DIdle?
  {
    if s.d.DGet? then (if s.d.lo <= s.cd then Dispatcher(DRead) else WatchD(Top(s.store)))
    else if s.d.DUpd? then Dispatcher(DWrite)
    else Dispatcher(DCopy)
  }

  // What a move needs of the state it is made in.
  ghost predicate ActorsSound(s: State) {
    Base(s) && WorkerInv(s) && UpdaterInv(s) && DispatcherInv(s)
  }

  lemma ReachableSound(s: State)
    requires Reachable(s)
    ensures ActorsSound(s)
  {
    ReachableInv(s);
  }

  lemma MovesEnabled(s: State)
    requires ActorsSound(s)
    ensures !s.u.UIdle? ==> Enabled(s, UpdaterMove(s))
    ensures s.u.UIdle? && !ExecutorFree(s.e) && !s.e.EDead? ==> Enabled(s, ExecutorMove(s))
    ensures !s.w.WDone? && (s.w.WSend? ==> s.e.ENew?) ==> Enabled(s, ReconcilerMove(s))
    ensures !s.d.DIdle? ==> Enabled(s, DispatcherMove(s))
  {
  }

  lemma UpdaterGoesOn(g: Fleet, j: nat)
    requires j < |g.calcs| && Reachable(g.calcs[j]) && !g.calcs[j].u.UIdle?
    ensures CanProgress(g)
  {
    ReachableSound(g.calcs[j]);
    MovesEnabled(g.calcs[j]);
    assert CanDo(g, j, UpdaterMove(g.calcs[j]));
  }

  ghost predicate UpdatersIdle(g: Fleet) {
    forall i | 0 <= i < |g.calcs| :: g.calcs[i].u.UIdle?
  }

  lemma ExecutorGoesOn(g: Fleet, j: nat)
    requires j < |g.calcs| && Reachable(g.calcs[j])
    requires !ExecutorFree(g.calcs[j].e) && !g.calcs[j].e.EDead?
    requires UpdatersIdle(g)
    ensures CanProgress(g)
  {
    ReachableSound(g.calcs[j]);
    MovesEnabled(g.calcs[j]);
    assert CanDo(g, j, ExecutorMove(g.calcs[j]));
  }

  // The other Calculations of the same worker do not hold up j.
  ghost predicate ReconcilersFree(g: Fleet, j: nat) {
    forall i: nat :: i < |g.calcs| && Same(g, i, j) ==> ReconcilerFree(g.calcs[i].w)
  }

  ghost predicate ExecutorsFree(g: Fleet, j: nat) {
    forall i: nat :: i < |g.calcs| && i != j && Same(g, i, j) ==> ExecutorFree(g.calcs[i].e)
  }

  lemma ReconcilerGoesOn(g: Fleet, j: nat)
    requires j < |g.calcs| && Reachable(g.calcs[j]) && !g.calcs[j].w.WDone?
    requires g.calcs[j].w.WQueued? ==> ReconcilersFree(g, j)
    requires g.calcs[j].w.WSend? ==> ExecutorsFree(g, j)
    ensures CanProgress(g)
  {
    ReachableSound(g.calcs[j]);
    MovesEnabled(g.calcs[j]);
    assert CanDo(g, j, ReconcilerMove(g.calcs[j]));
  }

  ghost predicate DispatcherIdle(g: Fleet) {
    forall i | 0 <= i < |g.calcs| :: g.calcs[i].d.DIdle?
  }

  lemma DispatcherGoesOn(g: Fleet, j: nat)
    requires j < |g.calcs| && Reachable(g.calcs[j])
    requires !g.calcs[j].d.DIdle? || g.calcs[j].dq || g.calcs[j].cd != Top(g.calcs[j].store)
    requires g.calcs[j].d.DIdle? ==> DispatcherIdle(g)
    ensures CanProgress(g)
  {
    var s := g.calcs[j];
    ReachableSound(s);
    MovesEnabled(s);
    var ev := if !s.d.DIdle? then DispatcherMove(s) else if s.dq then Dispatcher(DTake) else WatchD(Top(s.store));
    assert CanDo(g, j, ev);
  }

  predicate NothingElse(s: State) {
    s.u.UIdle? && (ExecutorFree(s.e) || s.e.EDead?) && s.d.DIdle? && !s.dq && s.cd == Top(s.store)
  }

  // Without progress, updaters and dispatcher are idle and executors free or dead.
  lemma OthersIdle(g: Fleet)
    requires EachReachable(g) && !CanProgress(g)
    ensures forall j: nat :: j < |g.calcs| ==> NothingElse(g.calcs[j])
  {
    if j: nat :| j < |g.calcs| && !g.calcs[j].u.UIdle? {
      UpdaterGoesOn(g, j);
    }
    if j: nat :| j < |g.calcs| && !ExecutorFree(g.calcs[j].e) && !g.calcs[j].e.EDead? {
      ExecutorGoesOn(g, j);
    }
    if j: nat :| j < |g.calcs| && !g.calcs[j].d.DIdle? {
      DispatcherGoesOn(g, j);
    }
    if j: nat :| j < |g.calcs| && (g.calcs[j].dq || g.calcs[j].cd != Top(g.calcs[j].store)) {
      DispatcherGoesOn(g, j);
    }
  }

  // A reconciler that is busy without progress waits to hand over to a dead executor.
  lemma BusyReconciler(g: Fleet, j: nat)
    requires EachReachable(g) && !CanProgress(g) && j < |g.calcs| && !ReconcilerFree(g.calcs[j].w)
    ensures g.calcs[j].w.WSend? && DeadHost(g, j)
  {
    OthersIdle(g);
    if !g.calcs[j].w.WSend? {
      ReconcilerGoesOn(g, j);
    } else if i: nat :| i < |g.calcs| && i != j && Same(g, i, j) && !ExecutorFree(g.calcs[i].e) {
      assert g.calcs[i].e.EDead?;
    } else {
      ReconcilerGoesOn(g, j);
    }
  }

  lemma NotHandedOut(g: Fleet, j: nat)
    requires EachReachable(g) && !CanProgress(g) && j < |g.calcs| && !g.calcs[j].w.WDone?
    ensures NotHanded(g.calcs[j].w) && DeadHost(g, j)
  {
    if !g.calcs[j].w.WQueued? {
      BusyReconciler(g, j);
    } else if i: nat :| i < |g.calcs| && Same(g, i, j) && !ReconcilerFree(g.calcs[i].w) {
      BusyReconciler(g, i);
      var k: nat :| k < |g.calcs| && Same(g, k, i) && g.calcs[k].e.EDead?;
      assert Same(g, k, j);
    } else {
      ReconcilerGoesOn(g, j);
    }
  }

  /** Where a fleet can stop. When no actor can take a step that is not a
      failure, every Calculation is done but those that were never handed out;
      and those are all on workers on which an input copy has failed. */
  lemma NoProgressMeansSettled(g: Fleet)
    requires EachReachable(g) && !CanProgress(g)
    ensures Settled(g)
  {
    forall j: nat | j < |g.calcs|
      ensures Quiescent(g.calcs[j]) <==> !NotHanded(g.calcs[j].w)
      ensures NotHanded(g.calcs[j].w) ==> DeadHost(g, j)
    {
      OthersIdle(g);
      if g.calcs[j].w.WDone? {
        ReachableSound(g.calcs[j]);
      } else {
        NotHandedOut(g, j);
      }
    }
  }

  /** The waits from reconciler to executor to updater never close into a
      deadlock: as long as a Calculation is not done, on a worker whose executor
      is alive, some actor can take a step that is not a failure. */
  lemma NoDeadlock(g: Fleet, j: nat)
    requires EachReachable(g) && j < |g.calcs| && !Quiescent(g.calcs[j]) && !DeadHost(g, j)
    ensures CanProgress(g)
  {
    if !CanProgress(g) {
      NoProgressMeansSettled(g);
    }
  }
}
