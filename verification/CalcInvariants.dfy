/** What every reachable state of the protocol satisfies. */
module CalcInvariants {
  import opened Phases
  import opened CalcStore
  import opened CalcProtocol

  function Steps0(s: State): seq<Phase> {
    At(s.store, 0).steps
  }

  function CurSteps(s: State): seq<Phase> {
    Cur(s.store).steps
  }

  // The message the updater is working on.
  function InFlight(u: UPc): seq<Msg> {
    match u
    case UIdle => []
    case UGet(m, _) => [m]
    case UUpd(m, _) => [m]
    case UPool => [Error]
  }

  predicate Holds(u: UPc, i: nat) {
    (u.UGet? || u.UUpd?) && u.m.Result? && u.m.step == i
  }

  predicate HoldsFailed(u: UPc) {
    (u.UGet? || u.UUpd?) && u.m.Result? && u.m.status == Failed
  }

  predicate HoldsError(u: UPc) {
    u.UPool? || ((u.UGet? || u.UUpd?) && u.m.Error?)
  }

  predicate NotHanded(w: WPc) {
    w.WQueued? || w.WPool? || w.WSend?
  }

  // The step indices of the results among some messages, in order.
  function ResultSteps(ms: seq<Msg>): seq<nat> {
    if ms == [] then []
    else ResultSteps(ms[..|ms| - 1]) +
         (if ms[|ms| - 1].Result? then [ms[|ms| - 1].step] else [])
  }

  // The indices below k of the steps without a status, in order.
  function UnsetBelow(steps: seq<Phase>, k: nat): seq<nat>
    requires k <= |steps|
  {
    if k == 0 then []
    else UnsetBelow(steps, k - 1) + (if steps[k - 1] == Unset then [k - 1] else [])
  }

  ghost predicate Base(s: State) {
    && |s.store.hist| == |s.store.log| + 1
    && Fresh(At(s.store, 0), s.vega)
    && s.cw <= Top(s.store)
    && s.cd <= Top(s.store)
    && s.snap == 0
  }

  ghost predicate WorkerInv(s: State) {
    && (NotHanded(s.w) <==> s.e.ENew?)
    && (s.e.ENew? ==> s.store.log == [] && s.u.UIdle? && s.pos == 0 && s.emitted == [] && s.handled == [])
    && (s.w.WPool? || s.w.WSend? ==> s.w.v == 0)
    && (s.w.WGet? ==> s.w.lo <= Top(s.store))
    && (s.w.WUpd? ==> s.w.r <= Top(s.store))
    && (s.w.WDone? <==> ToProcessing in s.store.log)
  }

  predicate AfterError(k: EPc) {
    k.EPipe? || k.ERun? || k.ECleanup? || k.EPool? || k.EDone? || k.EDead?
  }

  ghost predicate ExecutorInv(s: State) {
    && s.pos <= |Steps0(s)|
    && (s.e.EEmit? ==> s.pos < |Steps0(s)| && Steps0(s)[s.pos] == Unset && IsOutcome(s.e.status))
    && (s.e.EErr? ==> AfterError(s.e.k))
  }

  ghost predicate UpdaterInv(s: State) {
    && (s.u.UGet? ==> s.u.lo <= Top(s.store))
    && (s.u.UUpd? ==> s.u.r <= Top(s.store))
    && ((s.u.UGet? || s.u.UUpd?) && s.u.m.Result? ==>
          s.u.m.step < s.pos && s.u.m.step < |Steps0(s)| && Steps0(s)[s.u.m.step] == Unset && IsOutcome(s.u.m.status))
  }

  // A step not yet reported, or whose report is still being written, has the
  // status it started with.
  ghost predicate PendingInv(s: State) {
    |CurSteps(s)| == |Steps0(s)| &&
    forall i | 0 <= i < |Steps0(s)| :: i >= s.pos || Holds(s.u, i) ==> CurSteps(s)[i] == Steps0(s)[i]
  }

  ghost predicate DispatcherInv(s: State) {
    && (s.d.DIdle? && !s.dq ==>
          s.entry == At(s.store, s.cd).phase && (Finishable(At(s.store, s.cd)) ==> s.cd < Top(s.store)))
    && (s.d.DGet? ==> s.d.lo <= Top(s.store))
    && (s.d.DUpd? ==> s.d.r <= Top(s.store))
    && (s.d.DGet? || s.d.DUpd? ==>
          s.d.v <= s.cd && Finishable(At(s.store, s.d.v)) && (!s.dq ==> s.d.v == s.cd))
    && (s.d.DBulk? ==>
          s.d.v <= s.cd && (!s.dq ==> s.d.v == s.cd) && (Finishable(At(s.store, s.d.v)) ==> s.d.v < Top(s.store)))
  }

  ghost predicate DeliveryInv(s: State) {
    s.emitted == s.handled + InFlight(s.u)
  }

  ghost predicate EmissionInv(s: State) {
    && s.pos <= |Steps0(s)|
    && ResultSteps(s.emitted) == UnsetBelow(Steps0(s), s.pos)
  }

  // Every status in the object is one the executor reported.
  ghost predicate ReportedInv(s: State) {
    |CurSteps(s)| == |Steps0(s)| &&
    forall i | 0 <= i < |Steps0(s)| ::
      CurSteps(s)[i] == Steps0(s)[i] || Result(i, CurSteps(s)[i]) in s.handled
  }

  predicate Stopped(e: EPc) {
    e.ECleanup? || e.EPool? || e.EDone? || (e.EErr? && (e.k.ECleanup? || e.k.EPool?))
  }

  // The vega pipeline sends no result after a failed one.
  ghost predicate VegaInv(s: State) {
    s.vega ==>
      forall k | 0 <= k < |s.emitted| && s.emitted[k].Result? && s.emitted[k].status == Failed ::
        Stopped(s.e) && s.emitted[k].step + 1 == s.pos
  }

  predicate LoopOver(e: EPc) {
    e.ECopy? || e.EStore? || e.ECleanup? || e.EPool? || e.EDone?
  }

  ghost predicate CleanInv(s: State) {
    !s.faulted ==>
      && |CurSteps(s)| == |Steps0(s)|
      && !s.e.EDead?
      && (s.e.EErr? ==> s.e.k == if s.vega then ECleanup else ERun)
      && (forall i | 0 <= i < |Steps0(s)| && i < s.pos :: CurSteps(s)[i] != Unset || Holds(s.u, i))
      && (!s.vega && LoopOver(s.e) ==> s.pos == |Steps0(s)|)
  }

  // Without a fault an error message means that some step has failed.
  ghost predicate ErrorInv(s: State) {
    !s.faulted ==>
      && (HoldsError(s.u) || ToFailed in s.store.log ==> HasFailed(CurSteps(s)))
      && (s.e.EErr? ==> HasFailed(CurSteps(s)) || HoldsFailed(s.u))
      && (s.vega && LoopOver(s.e) ==> s.pos == 3 || HasFailed(CurSteps(s)))
  }

  ghost predicate Inv(s: State) {
    && StoreInv(s.store)
    && Base(s)
    && WorkerInv(s)
    && ExecutorInv(s)
    && UpdaterInv(s)
    && PendingInv(s)
    && DispatcherInv(s)
    && DeliveryInv(s)
    && EmissionInv(s)
    && ReportedInv(s)
    && VegaInv(s)
    && CleanInv(s)
    && ErrorInv(s)
  }

  lemma InitInv(c: Calc, vega: bool, entry: Phase)
    requires Fresh(c, vega)
    ensures Inv(Init(c, vega, entry))
  {
    FreshStoreInv(c, vega);
  }

  // The worker reconciler.

  lemma WorkerKeeps(s: State, ev: WorkerEvent)
    requires Base(s) && WorkerInv(s) && WorkerCan(s, ev)
    ensures Base(DoWorker(s, ev)) && WorkerInv(DoWorker(s, ev))
  {
  }

  lemma WorkerKeepsSteps(s: State, ev: WorkerEvent)
    requires Base(s) && WorkerInv(s) && WorkerCan(s, ev)
    requires ExecutorInv(s) && UpdaterInv(s) && PendingInv(s)
    ensures ExecutorInv(DoWorker(s, ev)) && UpdaterInv(DoWorker(s, ev)) && PendingInv(DoWorker(s, ev))
  {
  }

  lemma WorkerKeepsDispatcher(s: State, ev: WorkerEvent)
    requires Base(s) && WorkerCan(s, ev) && DispatcherInv(s)
    ensures DispatcherInv(DoWorker(s, ev))
  {
  }

  lemma WorkerKeepsReports(s: State, ev: WorkerEvent)
    requires |s.store.hist| == |s.store.log| + 1 && WorkerInv(s) && WorkerCan(s, ev)
    requires DeliveryInv(s) && EmissionInv(s) && VegaInv(s)
    ensures DeliveryInv(DoWorker(s, ev)) && EmissionInv(DoWorker(s, ev)) && VegaInv(DoWorker(s, ev))
  {
    if ev.WWrite? {
      CommitShape(s.store, ToProcessing);
    }
  }

  lemma WorkerKeepsReported(s: State, ev: WorkerEvent)
    requires Base(s) && WorkerCan(s, ev) && ReportedInv(s)
    ensures ReportedInv(DoWorker(s, ev))
  {
  }

  lemma WorkerKeepsClean(s: State, ev: WorkerEvent)
    requires Base(s) && WorkerCan(s, ev) && CleanInv(s) && ErrorInv(s)
    ensures CleanInv(DoWorker(s, ev)) && ErrorInv(DoWorker(s, ev))
  {
  }

  lemma WorkerStore(s: State, ev: WorkerEvent)
    requires WorkerInv(s) && WorkerCan(s, ev) && StoreInv(s.store)
    ensures StoreInv(DoWorker(s, ev).store)
  {
    if ev.WWrite? && s.w.r == Top(s.store) {
      CommitKeepsStoreInv(s.store, ToProcessing);
    }
  }

  // The executor never touches the object.

  lemma ExecutorKeeps(s: State, ev: ExecutorEvent)
    requires Base(s) && WorkerInv(s) && ExecutorInv(s) && ExecutorCan(s, ev)
    ensures Base(DoExecutor(s, ev)) && WorkerInv(DoExecutor(s, ev))
  {
  }

  lemma ExecutorKeepsSteps(s: State, ev: ExecutorEvent)
    requires Base(s) && ExecutorInv(s) && UpdaterInv(s) && ExecutorCan(s, ev)
    ensures ExecutorInv(DoExecutor(s, ev)) && UpdaterInv(DoExecutor(s, ev))
  {
  }

  lemma ExecutorKeepsPending(s: State, ev: ExecutorEvent)
    requires Base(s) && PendingInv(s) && ExecutorCan(s, ev)
    ensures PendingInv(DoExecutor(s, ev))
  {
  }

  lemma ExecutorKeepsObject(s: State, ev: ExecutorEvent)
    requires DispatcherInv(s) && ReportedInv(s) && ExecutorCan(s, ev)
    ensures DispatcherInv(DoExecutor(s, ev)) && ReportedInv(DoExecutor(s, ev))
    ensures DoExecutor(s, ev).store == s.store
  {
  }

  lemma ExecutorKeepsDelivery(s: State, ev: ExecutorEvent)
    requires DeliveryInv(s) && ExecutorCan(s, ev)
    ensures DeliveryInv(DoExecutor(s, ev))
  {
  }

  lemma ResultStepsAppend(ms: seq<Msg>, m: Msg)
    ensures ResultSteps(ms + [m]) == ResultSteps(ms) + (if m.Result? then [m.step] else [])
  {
    assert (ms + [m])[..|ms|] == ms;
  }

  // The one step whose index the executor passes is reported if it was unset.
  lemma Passes(steps: seq<Phase>, k: nat, sent: seq<Msg>, ms: seq<Msg>)
    requires k < |steps| && ResultSteps(sent) == UnsetBelow(steps, k)
    requires ms == [] <==> steps[k] != Unset
    requires ms != [] ==> |ms| == 1 && ms[0].Result? && ms[0].step == k
    ensures ResultSteps(sent + ms) == UnsetBelow(steps, k + 1)
  {
    if ms == [] {
      assert sent + ms == sent;
    } else {
      ResultStepsAppend(sent, ms[0]);
      assert ms == [ms[0]];
    }
  }

  lemma SendKeepsEmission(s: State)
    requires s.snap == 0 && ExecutorInv(s) && EmissionInv(s) && ExecutorCan(s, ESendResult)
    ensures EmissionInv(DoExecutor(s, ESendResult))
  {
    Passes(Steps0(s), s.pos, s.emitted, [Result(s.pos, s.e.status)]);
  }

  lemma SkipKeepsEmission(s: State)
    requires s.snap == 0 && EmissionInv(s) && ExecutorCan(s, ESkip)
    ensures EmissionInv(DoExecutor(s, ESkip))
  {
    Passes(Steps0(s), s.pos, s.emitted, []);
    assert s.emitted + [] == s.emitted;
  }

  lemma ExecutorKeepsEmission(s: State, ev: ExecutorEvent)
    requires s.snap == 0 && ExecutorInv(s) && EmissionInv(s) && ExecutorCan(s, ev)
    ensures EmissionInv(DoExecutor(s, ev))
  {
    if ev.ESendResult? {
      SendKeepsEmission(s);
    } else if ev.ESkip? {
      SkipKeepsEmission(s);
    } else {
      StillEmitted(s, ev);
    }
  }

  lemma StillEmitted(s: State, ev: ExecutorEvent)
    requires EmissionInv(s) && ExecutorCan(s, ev) && !ev.ESendResult? && !ev.ESkip?
    ensures EmissionInv(DoExecutor(s, ev))
  {
    if ev.ESendError? {
      ResultStepsAppend(s.emitted, Error);
    }
  }

  lemma ExecutorKeepsVega(s: State, ev: ExecutorEvent)
    requires Base(s) && ExecutorInv(s) && VegaInv(s) && ExecutorCan(s, ev)
    ensures VegaInv(DoExecutor(s, ev))
  {
  }

  lemma ExecutorKeepsClean(s: State, ev: ExecutorEvent)
    requires Base(s) && ExecutorInv(s) && PendingInv(s) && CleanInv(s) && ErrorInv(s) && ExecutorCan(s, ev)
    ensures CleanInv(DoExecutor(s, ev)) && ErrorInv(DoExecutor(s, ev))
  {
  }

  // The result updater.

  lemma UpdaterKeeps(s: State, ev: UpdaterEvent)
    requires Base(s) && WorkerInv(s) && UpdaterCan(s, ev)
    ensures Base(DoUpdater(s, ev)) && WorkerInv(DoUpdater(s, ev))
  {
    if ev.UWrite? {
      CommitShape(s.store, MsgWrite(s.u.m));
    }
  }

  lemma UpdaterKeepsSteps(s: State, ev: UpdaterEvent)
    requires Base(s) && ExecutorInv(s) && UpdaterInv(s) && UpdaterCan(s, ev)
    ensures ExecutorInv(DoUpdater(s, ev)) && UpdaterInv(DoUpdater(s, ev))
  {
    if ev.UWrite? {
      CommitShape(s.store, MsgWrite(s.u.m));
    }
  }

  lemma UpdaterKeepsPending(s: State, ev: UpdaterEvent)
    requires Base(s) && UpdaterInv(s) && PendingInv(s) && UpdaterCan(s, ev)
    ensures PendingInv(DoUpdater(s, ev))
  {
    if ev.UWrite? {
      CommitShape(s.store, MsgWrite(s.u.m));
    }
  }

  lemma UpdaterKeepsDispatcher(s: State, ev: UpdaterEvent)
    requires Base(s) && DispatcherInv(s) && UpdaterCan(s, ev)
    ensures DispatcherInv(DoUpdater(s, ev))
  {
    if ev.UWrite? {
      CommitShape(s.store, MsgWrite(s.u.m));
    }
  }

  lemma UpdaterKeepsDelivery(s: State, ev: UpdaterEvent)
    requires DeliveryInv(s) && UpdaterCan(s, ev)
    ensures DeliveryInv(DoUpdater(s, ev))
  {
  }

  lemma UpdaterKeepsEmission(s: State, ev: UpdaterEvent)
    requires |s.store.hist| == |s.store.log| + 1 && EmissionInv(s) && UpdaterCan(s, ev)
    ensures EmissionInv(DoUpdater(s, ev))
  {
    if ev.UWrite? {
      CommitShape(s.store, MsgWrite(s.u.m));
    }
  }

  lemma UpdaterKeepsVega(s: State, ev: UpdaterEvent)
    requires VegaInv(s) && UpdaterCan(s, ev)
    ensures VegaInv(DoUpdater(s, ev))
  {
  }

  lemma UpdaterKeepsReported(s: State, ev: UpdaterEvent)
    requires Base(s) && ReportedInv(s) && UpdaterCan(s, ev)
    ensures ReportedInv(DoUpdater(s, ev))
  {
    if ev.UWrite? {
      CommitShape(s.store, MsgWrite(s.u.m));
    }
  }

  lemma UpdaterKeepsClean(s: State, ev: UpdaterEvent)
    requires Base(s) && UpdaterInv(s) && PendingInv(s) && CleanInv(s) && UpdaterCan(s, ev)
    ensures CleanInv(DoUpdater(s, ev))
  {
    if ev.UWrite? {
      CommitShape(s.store, MsgWrite(s.u.m));
    }
  }

  lemma FailureStays(steps: seq<Phase>, i: nat, p: Phase)
    requires HasFailed(steps) && i < |steps| && steps[i] == Unset
    ensures HasFailed(steps[i := p])
  {
    var j :| 0 <= j < |steps| && steps[j] == Failed;
    assert steps[i := p][j] == Failed;
  }

  lemma UpdaterKeepsError(s: State, ev: UpdaterEvent)
    requires Base(s) && UpdaterInv(s) && PendingInv(s) && ErrorInv(s) && UpdaterCan(s, ev)
    ensures ErrorInv(DoUpdater(s, ev))
  {
    if ev.UWrite? && s.u.r == Top(s.store) {
      CommitShape(s.store, MsgWrite(s.u.m));
      if s.u.m.Result? {
        var i := s.u.m.step;
        assert Holds(s.u, i);
        if HasFailed(CurSteps(s)) {
          FailureStays(CurSteps(s), i, s.u.m.status);
        }
        assert CurSteps(DoUpdater(s, ev))[i] == s.u.m.status;
      }
    }
  }

  lemma UpdaterStore(s: State, ev: UpdaterEvent)
    requires Base(s) && UpdaterInv(s) && PendingInv(s) && UpdaterCan(s, ev) && StoreInv(s.store)
    ensures StoreInv(DoUpdater(s, ev).store)
  {
    if ev.UWrite? && s.u.r == Top(s.store) {
      if s.u.m.Result? {
        assert Holds(s.u, s.u.m.step);
      }
      CommitKeepsStoreInv(s.store, MsgWrite(s.u.m));
    }
  }

  // The dispatcher.

  function FinalWrite(s: State): Write
    requires s.d.DUpd?
  {
    ToFinal(FinalPhase(At(s.store, s.d.v).steps))
  }

  lemma DispatcherKeeps(s: State, ev: DispatcherEvent)
    requires Base(s) && WorkerInv(s) && DispatcherInv(s) && DispatcherCan(s, ev)
    ensures Base(DoDispatcher(s, ev)) && WorkerInv(DoDispatcher(s, ev))
  {
    if ev.DWrite? {
      CommitShape(s.store, FinalWrite(s));
    }
  }

  lemma DispatcherKeepsDispatcher(s: State, ev: DispatcherEvent)
    requires Base(s) && DispatcherInv(s) && DispatcherCan(s, ev)
    ensures DispatcherInv(DoDispatcher(s, ev))
  {
    if ev.DWrite? {
      CommitShape(s.store, FinalWrite(s));
    }
  }

  lemma DispatcherKeepsSteps(s: State, ev: DispatcherEvent)
    requires Base(s) && DispatcherCan(s, ev) && ExecutorInv(s) && UpdaterInv(s) && PendingInv(s)
    ensures ExecutorInv(DoDispatcher(s, ev)) && UpdaterInv(DoDispatcher(s, ev)) && PendingInv(DoDispatcher(s, ev))
  {
    if ev.DWrite? {
      CommitShape(s.store, FinalWrite(s));
    }
  }

  lemma DispatcherKeepsReports(s: State, ev: DispatcherEvent)
    requires |s.store.hist| == |s.store.log| + 1 && DispatcherCan(s, ev)
    requires DeliveryInv(s) && EmissionInv(s) && VegaInv(s)
    ensures DeliveryInv(DoDispatcher(s, ev)) && EmissionInv(DoDispatcher(s, ev)) && VegaInv(DoDispatcher(s, ev))
  {
    if ev.DWrite? {
      CommitShape(s.store, FinalWrite(s));
    }
  }

  lemma DispatcherKeepsReported(s: State, ev: DispatcherEvent)
    requires Base(s) && DispatcherCan(s, ev) && ReportedInv(s)
    ensures ReportedInv(DoDispatcher(s, ev))
  {
    if ev.DWrite? {
      CommitShape(s.store, FinalWrite(s));
    }
  }

  lemma DispatcherKeepsClean(s: State, ev: DispatcherEvent)
    requires Base(s) && DispatcherCan(s, ev) && CleanInv(s) && ErrorInv(s)
    ensures CleanInv(DoDispatcher(s, ev)) && ErrorInv(DoDispatcher(s, ev))
  {
    if ev.DWrite? {
      CommitShape(s.store, FinalWrite(s));
    }
  }

  lemma DispatcherStore(s: State, ev: DispatcherEvent)
    requires Base(s) && DispatcherInv(s) && DispatcherCan(s, ev) && StoreInv(s.store)
    ensures StoreInv(DoDispatcher(s, ev).store)
  {
    if ev.DWrite? && s.d.r == Top(s.store) {
      assert Finishable(s.store.hist[s.d.v]);
      CommitKeepsStoreInv(s.store, FinalWrite(s));
    }
  }

  lemma WatchKeeps(s: State, ev: Event)
    requires Inv(s) && Enabled(s, ev) && (ev.WatchW? || ev.WatchD?)
    ensures Inv(Do(s, ev))
  {
  }

  lemma WorkerStep(s: State, ev: WorkerEvent)
    requires Inv(s) && WorkerCan(s, ev)
    ensures Inv(DoWorker(s, ev))
  {
    WorkerKeeps(s, ev);
    WorkerKeepsSteps(s, ev);
    WorkerKeepsDispatcher(s, ev);
    WorkerKeepsReports(s, ev);
    WorkerKeepsReported(s, ev);
    WorkerKeepsClean(s, ev);
    WorkerStore(s, ev);
  }

  lemma ExecutorStep(s: State, ev: ExecutorEvent)
    requires Inv(s) && ExecutorCan(s, ev)
    ensures Inv(DoExecutor(s, ev))
  {
    ExecutorKeeps(s, ev);
    ExecutorKeepsSteps(s, ev);
    ExecutorKeepsPending(s, ev);
    ExecutorKeepsObject(s, ev);
    ExecutorKeepsDelivery(s, ev);
    ExecutorKeepsEmission(s, ev);
    ExecutorKeepsVega(s, ev);
    ExecutorKeepsClean(s, ev);
  }

  lemma UpdaterStep(s: State, ev: UpdaterEvent)
    requires Inv(s) && UpdaterCan(s, ev)
    ensures Inv(DoUpdater(s, ev))
  {
    UpdaterKeeps(s, ev);
    UpdaterKeepsSteps(s, ev);
    UpdaterKeepsPending(s, ev);
    UpdaterKeepsDispatcher(s, ev);
    UpdaterKeepsDelivery(s, ev);
    UpdaterKeepsEmission(s, ev);
    UpdaterKeepsVega(s, ev);
    UpdaterKeepsReported(s, ev);
    UpdaterKeepsClean(s, ev);
    UpdaterKeepsError(s, ev);
    UpdaterStore(s, ev);
  }

  lemma DispatcherStep(s: State, ev: DispatcherEvent)
    requires Inv(s) && DispatcherCan(s, ev)
    ensures Inv(DoDispatcher(s, ev))
  {
    DispatcherKeeps(s, ev);
    DispatcherKeepsDispatcher(s, ev);
    DispatcherKeepsSteps(s, ev);
    DispatcherKeepsReports(s, ev);
    DispatcherKeepsReported(s, ev);
    DispatcherKeepsClean(s, ev);
    DispatcherStore(s, ev);
  }

  lemma StepKeepsInv(s: State, ev: Event)
    requires Inv(s) && Enabled(s, ev)
    ensures Inv(Do(s, ev))
  {
    match ev
    case WatchW(_) => WatchKeeps(s, ev);
    case WatchD(_) => WatchKeeps(s, ev);
    case Worker(x) => WorkerStep(s, x);
    case Executor(x) => ExecutorStep(s, x);
    case Updater(x) => UpdaterStep(s, x);
    case Dispatcher(x) => DispatcherStep(s, x);
  }

  lemma {:induction false} RunKeepsInv(s: State, evs: seq<Event>)
    requires Inv(s) && RunOk(s, evs)
    ensures Inv(Run(s, evs))
    decreases |evs|
  {
    if evs != [] {
      StepKeepsInv(s, evs[0]);
      RunKeepsInv(Do(s, evs[0]), evs[1..]);
    }
  }

  lemma ReachableInv(s: State)
    requires Reachable(s)
    ensures Inv(s)
  {
    var c, vega, entry, evs :| Fresh(c, vega) && RunOk(Init(c, vega, entry), evs) && s == Run(Init(c, vega, entry), evs);
    InitInv(c, vega, entry);
    RunKeepsInv(Init(c, vega, entry), evs);
  }

  lemma {:induction false} RunAppend(s: State, evs: seq<Event>, ev: Event)
    requires RunOk(s, evs) && Enabled(Run(s, evs), ev)
    ensures RunOk(s, evs + [ev]) && Run(s, evs + [ev]) == Do(Run(s, evs), ev)
    decreases |evs|
  {
    if evs == [] {
      assert [ev][1..] == [];
    } else {
      RunAppend(Do(s, evs[0]), evs[1..], ev);
      assert (evs + [ev])[1..] == evs[1..] + [ev];
    }
  }

  lemma ReachableStep(s: State, ev: Event)
    requires Reachable(s) && Enabled(s, ev)
    ensures Reachable(Do(s, ev))
  {
    var c, vega, entry, evs :| Fresh(c, vega) && RunOk(Init(c, vega, entry), evs) && s == Run(Init(c, vega, entry), evs);
    RunAppend(Init(c, vega, entry), evs, ev);
  }

  lemma ReachableInit(c: Calc, vega: bool, entry: Phase)
    requires Fresh(c, vega)
    ensures Reachable(Init(c, vega, entry))
  {
    assert RunOk(Init(c, vega, entry), []);
  }
}
