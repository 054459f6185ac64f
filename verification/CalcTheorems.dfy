/** What the protocol guarantees of a Calculation, over every interleaving. */
module CalcTheorems {
  import opened Phases
  import opened CalcStore
  import opened CalcProtocol
  import opened CalcInvariants

  // ----- The steps of the protocol, on their own -----

  // The version that was read, and the message, of the actor that is to write.
  datatype Writing = Nobody | Reconciler(r: nat) | UpdaterOf(m: Msg, r: nat) | Finaliser(v: nat, r: nat)

  function WritingOf(s: State, ev: Event): Writing {
    if ev == Worker(WWrite) && s.w.WUpd? then Reconciler(s.w.r)
    else if ev == Updater(UWrite) && s.u.UUpd? then UpdaterOf(s.u.m, s.u.r)
    else if ev == Dispatcher(DWrite) && s.d.DUpd? then Finaliser(s.d.v, s.d.r)
    else Nobody
  }

  // What the writer makes of the version it read: one field, or one step's status.
  ghost predicate OneFieldChanged(hist: seq<Calc>, x: Writing, a: Calc, b: Calc) {
    match x
    case Nobody => false
    case Reconciler(_) => b.phase == Processing && b.steps == a.steps
    case UpdaterOf(Error, _) => b.phase == Failed && b.steps == a.steps
    case UpdaterOf(Result(i, p), _) => b.phase == a.phase && i < |a.steps| && b.steps == a.steps[i := p]
    case Finaliser(v, _) =>
      v < |hist| && b.steps == a.steps &&
      b.phase == if exists i | 0 <= i < |hist[v].steps| :: hist[v].steps[i] == Failed then Failed else Completed
  }

  // From hist to hist' by a version-checked Update, or not at all.
  ghost predicate CheckedUpdate(hist: seq<Calc>, x: Writing, hist': seq<Calc>) {
    if !x.Nobody? && x.r + 1 == |hist| then
      |hist'| == |hist| + 1 && hist'[..|hist|] == hist && OneFieldChanged(hist, x, hist[x.r], hist'[|hist|])
    else hist' == hist
  }

  /** Every change of the object is a version-checked Update. An Update goes
      through exactly if the writer's last read was the newest version, and the
      new version is that one with its one field changed; a writer that read
      anything older changes nothing and has to read again, something newer. */
  lemma UpdatesAreChecked(s: State, ev: Event)
    requires Reachable(s) && Enabled(s, ev)
    ensures CheckedUpdate(s.store.hist, WritingOf(s, ev), Do(s, ev).store.hist)
    ensures ev == Worker(WWrite) && s.w.r + 1 != |s.store.hist| ==> Do(s, ev) == s.(w := WGet(s.w.r + 1))
    ensures ev == Updater(UWrite) && s.u.r + 1 != |s.store.hist| ==> Do(s, ev) == s.(u := UGet(s.u.m, s.u.r + 1))
    ensures ev == Dispatcher(DWrite) && s.d.r + 1 != |s.store.hist| ==> Do(s, ev) == s.(d := DGet(s.d.v, s.d.r + 1))
  {
    WritersShape(s);
    match ev
    case Worker(x) => WorkerChecked(s, x);
    case Updater(x) => UpdaterChecked(s, x);
    case Dispatcher(x) => DispatcherChecked(s, x);
    case _ =>
  }

  lemma WritersShape(s: State)
    requires Reachable(s)
    ensures |s.store.hist| > 0
    ensures s.u.UUpd? && s.u.m.Result? ==> s.u.m.step < |Cur(s.store).steps|
    ensures s.d.DUpd? ==> s.d.v < |s.store.hist|
  {
    ReachableInv(s);
  }

  lemma WorkerChecked(s: State, ev: WorkerEvent)
    requires |s.store.hist| > 0 && WorkerCan(s, ev)
    ensures CheckedUpdate(s.store.hist, WritingOf(s, Worker(ev)), DoWorker(s, ev).store.hist)
    ensures ev.WWrite? && s.w.r + 1 != |s.store.hist| ==> DoWorker(s, ev) == s.(w := WGet(s.w.r + 1))
  {
  }

  lemma UpdaterChecked(s: State, ev: UpdaterEvent)
    requires |s.store.hist| > 0 && UpdaterCan(s, ev)
    requires s.u.UUpd? && s.u.m.Result? ==> s.u.m.step < |Cur(s.store).steps|
    ensures CheckedUpdate(s.store.hist, WritingOf(s, Updater(ev)), DoUpdater(s, ev).store.hist)
    ensures ev.UWrite? && s.u.r + 1 != |s.store.hist| ==> DoUpdater(s, ev) == s.(u := UGet(s.u.m, s.u.r + 1))
  {
  }

  lemma DispatcherChecked(s: State, ev: DispatcherEvent)
    requires |s.store.hist| > 0 && DispatcherCan(s, ev) && (s.d.DUpd? ==> s.d.v < |s.store.hist|)
    ensures CheckedUpdate(s.store.hist, WritingOf(s, Dispatcher(ev)), DoDispatcher(s, ev).store.hist)
    ensures ev.DWrite? && s.d.r + 1 != |s.store.hist| ==> DoDispatcher(s, ev) == s.(d := DGet(s.d.v, s.d.r + 1))
  {
  }

  /** The environment is free: a watch may deliver any newer version, a command
      may end either way, and every request, file operation and command at hand
      may fail. Nothing that can go wrong is ruled out by the model. */
  lemma EnvironmentIsFree(s: State, ok: bool, v: nat)
    requires Reachable(s)
    ensures s.cw < v < |s.store.hist| ==> Enabled(s, WatchW(v))
    ensures s.cd < v < |s.store.hist| ==> Enabled(s, WatchD(v))
    ensures s.w.WPool? ==> Enabled(s, Worker(WPooled(ok)))
    ensures s.e.ESetup? ==> Enabled(s, Executor(ESetUp(ok)))
    ensures s.e.EInput? ==> Enabled(s, Executor(EInputs(LinkFailed))) && Enabled(s, Executor(EInputs(CopyFailed)))
    ensures s.e.EPipe? && s.vega ==> Enabled(s, Executor(EPiped(ok)))
    ensures s.e.ERun? && s.vega && (s.pos == 0 || s.pos == 2) ==> Enabled(s, Executor(EPrepFails))
    ensures s.e.ERun? && s.vega && s.pos < 3 ==> Enabled(s, Executor(ECommand(ok)))
    ensures |s.store.hist| > 0
    ensures s.e.ERun? && !s.vega && s.pos < |s.store.hist[0].steps| && s.store.hist[0].steps[s.pos] == Unset ==>
              Enabled(s, Executor(ECommand(ok)))
    ensures s.e.ECopy? ==> Enabled(s, Executor(ECopied(ok)))
    ensures s.e.EStore? ==> Enabled(s, Executor(EStored(ok)))
    ensures s.e.ECleanup? ==> Enabled(s, Executor(ECleaned(ok)))
    ensures s.u.UGet? || s.u.UUpd? ==> Enabled(s, Updater(UGiveUp))
    ensures s.d.DGet? || s.d.DUpd? || s.d.DBulk? ==> Enabled(s, Dispatcher(DFails))
  {
    FirstVersion(s);
  }

  /** Every read is of the reader's cache, however old: the reconciler takes and
      re-reads it, the updater re-reads it, and the dispatcher decides on one
      version of it, re-reads a later one before it writes, and copies the phase
      of the one it decided on. */
  lemma ReadsAreOfTheCache(s: State)
    requires Reachable(s)
    ensures s.cw < |s.store.hist| && s.cd < |s.store.hist|
    ensures s.w.WQueued? ==>
              Do(s, Worker(WTake)).w == if s.store.hist[s.cw].phase == Created then WPool(s.cw) else WDone
    ensures s.w.WGet? && s.w.lo <= s.cw ==> Do(s, Worker(WRead)).w == WUpd(s.cw)
    ensures s.u.UGet? && s.u.lo <= s.cw ==> Do(s, Updater(URead)).u == UUpd(s.u.m, s.cw)
    ensures s.d.DIdle? && s.dq ==>
              Do(s, Dispatcher(DTake)).d ==
                if s.store.hist[s.cd].phase == Processing &&
                   (forall i | 0 <= i < |s.store.hist[s.cd].steps| :: s.store.hist[s.cd].steps[i] != Unset)
                then DGet(s.cd, 0) else DBulk(s.cd)
    ensures s.d.DGet? && s.d.lo <= s.cd ==> Do(s, Dispatcher(DRead)).d == DUpd(s.d.v, s.cd)
    ensures s.d.DBulk? && s.d.v < |s.store.hist| ==>
              Do(s, Dispatcher(DCopy)).entry == s.store.hist[s.d.v].phase && Do(s, Dispatcher(DCopy)).d == DIdle
  {
    CachesShape(s);
  }

  lemma CachesShape(s: State)
    requires Reachable(s)
    ensures s.cw < |s.store.hist| && s.cd < |s.store.hist|
  {
    ReachableInv(s);
  }

  lemma FirstVersion(s: State)
    requires Reachable(s)
    ensures Top(s.store) + 1 == |s.store.hist| && At(s.store, 0) == s.store.hist[0] && s.snap == 0
  {
    ReachableInv(s);
  }

  /** What counts as a fault: a failed setup, file, store or cleanup, or a write
      the updater gives up on. A command that fails is none. */
  lemma FaultsExactly(s: State, ev: Event)
    requires Enabled(s, ev)
    ensures Do(s, ev).faulted <==>
              || s.faulted
              || ev == Executor(ESetUp(false))
              || ev == Executor(EInputs(LinkFailed)) || ev == Executor(EInputs(CopyFailed))
              || ev == Executor(EPiped(false)) || ev == Executor(EPrepFails)
              || ev == Executor(ECopied(false)) || ev == Executor(EStored(false)) || ev == Executor(ECleaned(false))
              || ev == Updater(UGiveUp)
  {
    match ev
    case Executor(x) => ExecutorFaults(s, x);
    case _ =>
  }

  lemma ExecutorFaults(s: State, ev: ExecutorEvent)
    requires ExecutorCan(s, ev)
    ensures DoExecutor(s, ev).faulted <==>
              || s.faulted
              || ev == ESetUp(false) || ev == EInputs(LinkFailed) || ev == EInputs(CopyFailed)
              || ev == EPiped(false) || ev == EPrepFails
              || ev == ECopied(false) || ev == EStored(false) || ev == ECleaned(false)
  {
  }

  // ----- No lost updates -----

  function Replay(c: Calc, ws: seq<Write>): Calc
    decreases |ws|
  {
    if ws == [] then c else Apply(ws[|ws| - 1], Replay(c, ws[..|ws| - 1]))
  }

  lemma {:induction false} ReplayPrefix(st: Store, v: nat)
    requires Chained(st) && v < |st.hist|
    ensures st.hist[v] == Replay(st.hist[0], st.log[..v])
  {
    if v > 0 {
      ReplayPrefix(st, v - 1);
      assert st.log[..v][..v - 1] == st.log[..v - 1];
      assert st.hist[v - 1 + 1] == Apply(st.log[v - 1], st.hist[v - 1]);
    }
  }

  // The last phase write among some writes, or the phase there was before.
  function LastPhase(p: Phase, ws: seq<Write>): Phase
    decreases |ws|
  {
    if ws == [] then p
    else match ws[|ws| - 1]
      case ToProcessing => Processing
      case ToFailed => Failed
      case ToFinal(q) => q
      case ToStatus(_, _) => LastPhase(p, ws[..|ws| - 1])
  }

  lemma {:induction false} ReplayPhase(c: Calc, ws: seq<Write>)
    ensures Replay(c, ws).phase == LastPhase(c.phase, ws)
    decreases |ws|
  {
    if ws != [] {
      ReplayPhase(c, ws[..|ws| - 1]);
    }
  }

  /** However the retry loops interleave, the object is the result of applying
      the successful writes one after another in commit order. Every status that
      was written is still there and the phase is that of the last phase write,
      so neither kind of write erases the other. */
  lemma NoLostUpdates(s: State)
    requires Reachable(s)
    ensures Cur(s.store) == Replay(At(s.store, 0), s.store.log)
    ensures forall k | 0 <= k < |s.store.log| && s.store.log[k].ToStatus? ::
              s.store.log[k].step < |CurSteps(s)| &&
              CurSteps(s)[s.store.log[k].step] == s.store.log[k].status
    ensures Cur(s.store).phase == LastPhase(Created, s.store.log)
  {
    ReachableInv(s);
    var st := s.store;
    ReplayPrefix(st, Top(st));
    assert st.log[..Top(st)] == st.log;
    ReplayPhase(At(st, 0), st.log);
    forall k | 0 <= k < |st.log| && st.log[k].ToStatus?
      ensures st.log[k].step < |CurSteps(s)| && CurSteps(s)[st.log[k].step] == st.log[k].status
    {
      StatusSurvives(st, k);
    }
  }

  // Relies on every status write being in range and over an empty status.
  lemma StatusSurvives(st: Store, k: nat)
    requires Chained(st) && StatusesKept(st) && StatusWritesLegal(st)
    requires k < |st.log| && st.log[k].ToStatus?
    ensures st.log[k].step < |Cur(st).steps| && Cur(st).steps[st.log[k].step] == st.log[k].status
  {
    assert st.hist[k + 1] == Apply(st.log[k], st.hist[k]);
    assert Keeps(st.hist[k + 1], st.hist[Top(st)]);
  }

  // ----- Safety of single phases -----

  /** A Calculation is never Completed unless every step is, although the
      dispatcher decides on one read and writes after a later one. */
  lemma CompletedIsSound(s: State, v: nat, i: nat)
    requires Reachable(s) && v < |s.store.hist| && s.store.hist[v].phase == Completed
    requires i < |s.store.hist[v].steps|
    ensures s.store.hist[v].steps[i] == Completed
  {
    ReachableInv(s);
    assert AllStatuses(s.store.hist[v].steps);
  }

  lemma LogBefore(st: Store, k: nat)
    requires StoreInv(st) && k < |st.log|
    requires st.hist[k].phase == Processing || st.hist[k].phase == Completed
    ensures st.log[k] != ToProcessing
  {
    var i :| 0 <= i < k && st.log[..k][i] == ToProcessing;
    assert st.log[i] == ToProcessing;
  }

  /** Created is never re-entered, Processing is written at most once, Completed
      is written only after Processing, and once Completed the phase can only
      become Failed. `k` is any committed write. */
  lemma PhaseHistory(s: State, k: nat)
    requires Reachable(s) && k < |s.store.log|
    ensures var a, b := At(s.store, k).phase, At(s.store, k + 1).phase;
            && (b == Created ==> a == Created)
            && (s.store.log[k] == ToProcessing ==> forall j | 0 <= j < |s.store.log| && j != k :: s.store.log[j] != ToProcessing)
            && (s.store.log[k] == ToFinal(Completed) ==> ToProcessing in s.store.log[..k])
            && (a == Completed ==> b == Completed || b == Failed)
            && (a == Processing ==> b != Created)
  {
    ReachableInv(s);
    var st := s.store;
    assert st.hist[k + 1] == Apply(st.log[k], st.hist[k]);
    if st.hist[k].phase == Completed {
      LogBefore(st, k);
    }
    assert st.hist[k + 1].phase == Created ==> st.log[k].ToStatus?;
  }

  // ----- Outcome when nothing is left to do -----

  predicate SomeFinal(log: seq<Write>) {
    exists k | 0 <= k < |log| :: log[k].ToFinal?
  }

  lemma NoFinalBeforeFinished(s: State)
    requires Inv(s) && !Finished(CurSteps(s))
    ensures !SomeFinal(s.store.log)
  {
    var st := s.store;
    forall k | 0 <= k < |st.log| && st.log[k].ToFinal?
      ensures false
    {
      FinishedFixes(st, k, Top(st));
    }
  }

  // The last write of a phase, or -1.
  lemma {:induction false} LastPhaseWrite(p: Phase, ws: seq<Write>) returns (k: int)
    ensures -1 <= k < |ws| && forall j | k < j < |ws| :: ws[j].ToStatus?
    ensures k == -1 ==> LastPhase(p, ws) == p
    ensures k >= 0 ==> WritesPhase(ws[k]) && LastPhase(p, ws) == Apply(ws[k], Calc(p, [])).phase
    decreases |ws|
  {
    k := |ws| - 1;
    if ws != [] && ws[k].ToStatus? {
      k := LastPhaseWrite(p, ws[..|ws| - 1]);
    }
  }

  // Every step is reported and the object is not to be finalised: the last of
  // the final write and the errors decides.
  lemma FinishedOutcome(st: Store)
    requires Chained(st) && StatusesKept(st) && FinalLate(st) && At(st, 0).phase == Created
    requires Finished(Cur(st).steps) && Cur(st).phase != Created && Cur(st).phase != Processing
    ensures Cur(st).phase == if FinalLast(st.log) then FinalPhase(Cur(st).steps) else Failed
  {
    ReplayPrefix(st, Top(st));
    assert st.log[..Top(st)] == st.log;
    ReplayPhase(st.hist[0], st.log);
    var k := LastPhaseWrite(Created, st.log);
    if st.log[k].ToFinal? {
      FinalFromSteps(st, k);
      assert forall j | k < j < |st.log| :: st.log[j] != ToFailed;
    } else if st.log[k].ToFailed? {
      assert forall i | 0 <= i < |st.log| && st.log[i].ToFinal? :: i < k;
    }
  }

  /** In every state with nothing left to do, whatever failed on the way: the
      bulk entry holds the object's phase. With every step reported the phase is
      the one the steps decide exactly if the dispatcher's write came after every
      error, and Failed otherwise; with a step missing the object is stuck in
      Processing exactly when no error was written after Processing was. */
  lemma QuiescentOutcome(s: State)
    requires Reachable(s) && Quiescent(s)
    ensures s.entry == Cur(s.store).phase
    ensures Finished(CurSteps(s)) ==>
              Cur(s.store).phase == if FinalLast(s.store.log) then FinalPhase(CurSteps(s)) else Failed
    ensures !Finished(CurSteps(s)) ==>
              Cur(s.store).phase == if FailedAfterProcessing(s.store.log) then Failed else Processing
    ensures Cur(s.store).phase == Processing <==> !Finished(CurSteps(s)) && !FailedAfterProcessing(s.store.log)
  {
    ReachableInv(s);
    if !Finished(CurSteps(s)) {
      NoFinalBeforeFinished(s);
    } else {
      assert !Finishable(Cur(s.store));
      NotCreated(s);
      FinishedOutcome(s.store);
    }
  }

  /** When an error leaves no trace: with nothing left to do and every step
      Completed, the object is Completed exactly if a final write was committed
      after the last error. This covers errors of the setup, of copying outputs,
      of storing a result and of the cleanup. */
  lemma ErrorsMasked(s: State)
    requires Reachable(s) && Quiescent(s) && Finished(CurSteps(s)) && !HasFailed(CurSteps(s))
    ensures Cur(s.store).phase == Completed <==> FinalLast(s.store.log)
    ensures Cur(s.store).phase == Completed <==> s.entry == Completed
  {
    QuiescentOutcome(s);
  }

  // After an error only the worker's own write makes the phase Processing again.
  lemma {:induction false} ProcessingAgain(st: Store, j: nat, v: nat)
    requires Chained(st) && FinalLate(st) && j < |st.log| && st.log[j] == ToFailed
    requires j < v < |st.hist| && st.hist[v].phase == Processing
    ensures exists p | j < p < v :: st.log[p] == ToProcessing
  {
    assert st.hist[v - 1 + 1] == Apply(st.log[v - 1], st.hist[v - 1]);
    if st.log[v - 1] != ToProcessing {
      ProcessingAgain(st, j, v - 1);
    }
  }

  // v is the only version that passes the dispatcher's test.
  ghost predicate OnlyFinishable(st: Store, v: nat) {
    && v < |st.hist| && Finishable(st.hist[v])
    && forall u | 0 <= u < |st.hist| && u != v :: !Finishable(st.hist[u])
  }

  lemma FinalAfterError(st: Store, j: nat, k: nat) returns (v: nat)
    requires Chained(st) && FinalLate(st) && FinalRead(st) && OneFinishable(st)
    requires j < k < |st.log| && st.log[j] == ToFailed && st.log[k].ToFinal?
    ensures v <= k && OnlyFinishable(st, v)
    ensures v <= j || exists p | j < p < v :: st.log[p] == ToProcessing
  {
    v :| 0 <= v <= k && Finishable(st.hist[v]);
    if v > j {
      ProcessingAgain(st, j, v);
    }
  }

  /** How a final write can come after an error: the one version that passes the
      dispatcher's test, on which it computed the phase, is older than the error,
      or the error was written before the worker wrote Processing. */
  lemma MaskedByOldRead(s: State, j: nat, k: nat) returns (v: nat)
    requires Reachable(s) && j < k < |s.store.log|
    requires s.store.log[j] == ToFailed && s.store.log[k].ToFinal?
    ensures v <= k && OnlyFinishable(s.store, v)
    ensures v <= j || exists p | j < p < v :: s.store.log[p] == ToProcessing
  {
    ReachableInv(s);
    v := FinalAfterError(s.store, j, k);
  }

  lemma NotCreated(s: State)
    requires Inv(s) && s.w.WDone?
    ensures Cur(s.store).phase != Created
  {
    var k :| 0 <= k < |s.store.log| && s.store.log[k] == ToProcessing;
    assert !s.store.log[k].ToStatus?;
  }

  /** Confluence. With no setup, file, cleanup or lost-write failure, a default
      pipeline always ends the same way: every step has a status, the phase is
      Failed if some step failed and Completed otherwise, and the bulk entry
      holds that phase. Commands may fail, writes may conflict and the
      dispatcher may fail and retry any number of times. */
  lemma Confluence(s: State)
    requires Reachable(s) && Quiescent(s) && !s.vega && !s.faulted
    ensures forall i | 0 <= i < |CurSteps(s)| :: CurSteps(s)[i] == Completed || CurSteps(s)[i] == Failed
    ensures Cur(s.store).phase == if exists i | 0 <= i < |CurSteps(s)| :: CurSteps(s)[i] == Failed then Failed else Completed
    ensures s.entry == Cur(s.store).phase
    ensures Finished(CurSteps(s)) && Cur(s.store).phase == FinalPhase(CurSteps(s))
  {
    ReachableInv(s);
    QuiescentOutcome(s);
    if Cur(s.store).phase == Failed && ToFailed !in s.store.log {
      FailedByFinal(s);
    }
  }

  // Failed without an error write comes from the dispatcher's computation.
  lemma FailedByFinal(s: State)
    requires Inv(s) && Cur(s.store).phase == Failed && ToFailed !in s.store.log
    ensures HasFailed(CurSteps(s))
  {
    var st := s.store;
    ReplayPrefix(st, Top(st));
    assert st.log[..Top(st)] == st.log;
    ReplayPhase(st.hist[0], st.log);
    LastPhaseFinal(Created, st.log);
    var k :| 0 <= k < |st.log| && st.log[k] == ToFinal(Failed);
    FinalFromSteps(s.store, k);
  }

  lemma {:induction false} LastPhaseFinal(p: Phase, ws: seq<Write>)
    requires p != Failed && LastPhase(p, ws) == Failed && ToFailed !in ws
    ensures ToFinal(Failed) in ws
    decreases |ws|
  {
    if ws[|ws| - 1].ToStatus? {
      LastPhaseFinal(p, ws[..|ws| - 1]);
    }
  }

  lemma FinalFromSteps(st: Store, k: nat)
    requires Chained(st) && StatusesKept(st) && FinalLate(st)
    requires k < |st.log| && st.log[k].ToFinal?
    ensures st.log[k].phase == FinalPhase(Cur(st).steps)
  {
    FinishedFixes(st, k, Top(st));
  }

  // ----- Delivery -----

  lemma {:induction false} UnsetBelowProperties(steps: seq<Phase>, k: nat)
    requires k <= |steps|
    ensures forall i | 0 <= i < |UnsetBelow(steps, k)| ::
              UnsetBelow(steps, k)[i] < k && steps[UnsetBelow(steps, k)[i]] == Unset
    ensures forall i, j | 0 <= i < j < |UnsetBelow(steps, k)| :: UnsetBelow(steps, k)[i] < UnsetBelow(steps, k)[j]
    ensures forall i | 0 <= i < k && steps[i] == Unset :: i in UnsetBelow(steps, k)
  {
    if k > 0 {
      UnsetBelowProperties(steps, k - 1);
    }
  }

  /** The updater has handled what the executor sent, in order, except at most
      the last message. The results sent carry strictly increasing step indices,
      each of a stored step that had no status; and once the default loop is
      over, exactly one for each of those steps. */
  lemma OrderedDelivery(s: State)
    requires Reachable(s)
    ensures s.handled == s.emitted || (s.emitted != [] && s.handled == s.emitted[..|s.emitted| - 1])
    ensures var r := ResultSteps(s.emitted);
            && (forall i, j | 0 <= i < j < |r| :: r[i] < r[j])
            && (forall i | 0 <= i < |r| :: r[i] < |Steps0(s)| && Steps0(s)[r[i]] == Unset)
            && (!s.vega && !s.faulted && (s.e.ECopy? || s.e.ECleanup? || s.e.EPool? || s.e.EDone?) ==>
                  forall i | 0 <= i < |Steps0(s)| && Steps0(s)[i] == Unset :: i in r)
  {
    ReachableInv(s);
    UnsetBelowProperties(Steps0(s), s.pos);
    if !s.u.UIdle? {
      assert s.emitted[..|s.emitted| - 1] == s.handled;
    }
  }

  // ----- The vega pipeline -----

  /** Even with status writes dropped, in every version no step after a failed
      one has a status; and a version that passes the dispatcher's finished test
      has its first two steps Completed, so the computed phase is the third
      step's outcome. */
  lemma VegaStepShape(s: State, v: nat)
    requires Reachable(s) && s.vega && v < |s.store.hist|
    ensures |s.store.hist[v].steps| == 3
    ensures forall i, j | 0 <= i < j < 3 && s.store.hist[v].steps[i] == Failed :: s.store.hist[v].steps[j] == Unset
    ensures Finished(s.store.hist[v].steps) ==>
              s.store.hist[v].steps[0] == Completed && s.store.hist[v].steps[1] == Completed &&
              FinalPhase(s.store.hist[v].steps) == s.store.hist[v].steps[2]
  {
    ReachableInv(s);
    var past := s.store.hist[v].steps;
    assert Keeps(s.store.hist[0], s.store.hist[v]);
    forall i, j | 0 <= i < j < 3 && past[i] == Failed
      ensures past[j] == Unset
    {
      NothingAfterFailure(s, v, i, j);
    }
    ThreeSteps(past);
  }

  lemma ThreeSteps(steps: seq<Phase>)
    requires |steps| == 3 && AllStatuses(steps)
    requires forall i, j | 0 <= i < j < 3 && steps[i] == Failed :: steps[j] == Unset
    ensures Finished(steps) ==>
              steps[0] == Completed && steps[1] == Completed && FinalPhase(steps) == steps[2]
  {
    if Finished(steps) {
      assert steps[2] != Unset && steps[1] != Unset;
      assert steps[0] != Failed && steps[1] != Failed;
    }
  }

  lemma NothingAfterFailure(s: State, v: nat, i: nat, j: nat)
    requires Inv(s) && s.vega && v < |s.store.hist| && i < j < 3
    requires |s.store.hist[v].steps| == 3 && s.store.hist[v].steps[i] == Failed
    ensures s.store.hist[v].steps[j] == Unset
  {
    assert Keeps(s.store.hist[v], s.store.hist[Top(s.store)]);
    if s.store.hist[v].steps[j] != Unset {
      VegaReported(s, i);
      VegaReported(s, j);
    }
  }

  // A status in the object was sent, and a failed one was the last sent.
  lemma VegaReported(s: State, i: nat)
    requires Inv(s) && s.vega && i < 3
    requires |CurSteps(s)| == 3 && CurSteps(s)[i] != Unset
    ensures i < s.pos
    ensures CurSteps(s)[i] == Failed ==> i + 1 == s.pos
  {
    var m := Result(i, CurSteps(s)[i]);
    assert m in s.handled;
    var k :| 0 <= k < |s.handled| && s.handled[k] == m;
    assert s.emitted[k] == m;
  }

  /** A fault-free vega run that is over is Completed when no step failed. When
      one failed, it is stuck in Processing exactly when the third step never
      ran and the error was written before Processing was. */
  lemma VegaOutcome(s: State)
    requires Reachable(s) && Quiescent(s) && s.vega && !s.faulted
    ensures !HasFailed(CurSteps(s)) ==> Finished(CurSteps(s)) && Cur(s.store).phase == Completed
    ensures HasFailed(CurSteps(s)) ==> Cur(s.store).phase == Failed || Cur(s.store).phase == Processing
    ensures |CurSteps(s)| == 3
    ensures Cur(s.store).phase == Processing <==>
              HasFailed(CurSteps(s)) && CurSteps(s)[2] == Unset && !FailedAfterProcessing(s.store.log)
  {
    QuiescentOutcome(s);
    VegaReportsAll(s);
    VegaStepShape(s, Top(s.store));
    if CurSteps(s)[2] != Unset {
      assert Finished(CurSteps(s));
    }
    if Cur(s.store).phase == Failed && ToFailed !in s.store.log {
      ReachableInv(s);
      FailedByFinal(s);
    }
  }

  lemma VegaReportsAll(s: State)
    requires Reachable(s) && Quiescent(s) && s.vega && !s.faulted
    ensures |CurSteps(s)| == 3
    ensures Finished(CurSteps(s)) || HasFailed(CurSteps(s))
    ensures |s.store.hist| > 0 && Cur(s.store) == s.store.hist[Top(s.store)]
    ensures ToFailed in s.store.log ==> HasFailed(CurSteps(s))
    ensures forall i | 0 <= i < 3 && CurSteps(s)[i] != Unset :: i < s.pos
    ensures forall i | 0 <= i < 3 && i < s.pos :: CurSteps(s)[i] != Unset
  {
    ReachableInv(s);
  }
}
