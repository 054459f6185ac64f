/** Concrete runs that end badly. The exact conditions are stated for all runs:
    `VegaOutcome` for stuck objects, `ErrorsMasked` and `MaskedByOldRead` for
    errors that leave no trace, `AvailableMeansError` for the worker's mark. */
module CalcRuns {
  import Objects
  import opened Phases
  import opened CalcStore
  import opened CalcProtocol
  import opened CalcInvariants
  import opened PoolMark

  // o' is o with its protocol state moved on to s.
  predicate Moves(o: Observed, o': Observed, s: State) {
    o'.s == s && o'.unstored == o.unstored && o'.missed == o.missed
  }

  lemma Take(o: Observed, ev: Event) returns (o': Observed)
    requires Seen(o) && Enabled(o.s, ev)
    ensures o' == Next(o, ev, true) && Seen(o')
  {
    o' := Next(o, ev, true);
    SeenStep(o, ev, true);
  }

  lemma Begin(c: Calc, vega: bool) returns (o: Observed)
    requires Fresh(c, vega)
    ensures Seen(o) && o == Fresh0(Init(c, vega, Unset))
  {
    o := Fresh0(Init(c, vega, Unset));
    assert Starts(o);
    assert ObservedRun(o, [], o);
  }

  // The worker takes the object and its executor reaches the step loop.
  lemma StartLoop(c: Calc, vega: bool) returns (o: Observed)
    requires Fresh(c, vega)
    ensures Seen(o) && Moves(Fresh0(Init(c, vega, Unset)), o, Init(c, vega, Unset).(w := WGet(0), e := ERun))
  {
    o := HandedOver(c, vega);
    o := Take(o, Executor(ESetUp(true)));
    o := Take(o, Executor(EInputs(InputOk)));
    o := Take(o, Executor(EPiped(true)));
  }

  lemma HandedOver(c: Calc, vega: bool) returns (o: Observed)
    requires Fresh(c, vega)
    ensures Seen(o) && Moves(Fresh0(Init(c, vega, Unset)), o, Init(c, vega, Unset).(w := WGet(0), e := ESetup))
  {
    o := Begin(c, vega);
    o := Take(o, Worker(WTake));
    o := Take(o, Worker(WPooled(true)));
    o := Take(o, Worker(WHandOff));
  }

  lemma SeenShape(o: Observed)
    requires Seen(o)
    ensures |o.s.store.hist| == |o.s.store.log| + 1
  {
    SeenInv(o);
  }

  // The command of the current step ends and its result is sent.
  lemma StepSent(o: Observed, ok: bool) returns (o': Observed)
    requires Seen(o) && o.s.e.ERun? && o.s.u.UIdle? && o.s.pos < StepCount(o.s) && StepTodo(o.s)
    ensures Seen(o')
    ensures var m := Result(o.s.pos, if ok then Completed else Failed);
            Moves(o, o', o.s.(pos := o.s.pos + 1, emitted := o.s.emitted + [m], u := UGet(m, 0),
                              e := if ok then ERun else EErr(if o.s.vega then ECleanup else ERun)))
  {
    o' := Take(o, Executor(ECommand(ok)));
    o' := Take(o', Executor(ESendResult));
  }

  // The updater writes a result, and the worker's cache sees it.
  lemma ResultWritten(o: Observed) returns (o': Observed)
    requires Seen(o) && o.s.u.UGet? && o.s.u.lo == 0 && o.s.u.m.Result? && o.s.cw == Top(o.s.store)
    ensures Seen(o')
    ensures Moves(o, o', o.s.(store := Commit(o.s.store, MsgWrite(o.s.u.m)), cw := Top(o.s.store) + 1,
                              handled := o.s.handled + [o.s.u.m], u := UIdle))
  {
    SeenShape(o);
    o' := Take(o, Updater(URead));
    o' := Take(o', Updater(UWrite));
    o' := Take(o', WatchW(Top(o.s.store) + 1));
  }

  lemma StepReported(o: Observed, ok: bool) returns (o': Observed)
    requires Seen(o) && o.s.e.ERun? && o.s.u.UIdle? && o.s.pos < StepCount(o.s) && StepTodo(o.s)
    requires o.s.cw == Top(o.s.store)
    ensures Seen(o')
    ensures var m := Result(o.s.pos, if ok then Completed else Failed);
            Moves(o, o', o.s.(store := Commit(o.s.store, MsgWrite(m)), cw := Top(o.s.store) + 1, pos := o.s.pos + 1,
                              emitted := o.s.emitted + [m], handled := o.s.handled + [m],
                              e := if ok then ERun else EErr(if o.s.vega then ECleanup else ERun)))
  {
    o' := StepSent(o, ok);
    o' := ResultWritten(o');
  }

  // An error, written, seen and answered by the mark.
  lemma ErrorReported(o: Observed) returns (o': Observed)
    requires Seen(o) && o.s.e.EErr? && o.s.u.UIdle? && o.s.cw == Top(o.s.store)
    ensures Seen(o') && o'.mark == Objects.Available
    ensures Moves(o, o', o.s.(store := Commit(o.s.store, ToFailed), cw := Top(o.s.store) + 1, e := o.s.e.k,
                              emitted := o.s.emitted + [Error], handled := o.s.handled + [Error]))
  {
    o' := Take(o, Executor(ESendError));
    o' := ErrorWritten(o');
  }

  lemma ErrorWritten(o: Observed) returns (o': Observed)
    requires Seen(o) && o.s.u == UGet(Error, 0) && o.s.cw == Top(o.s.store)
    ensures Seen(o') && o'.mark == Objects.Available
    ensures Moves(o, o', o.s.(store := Commit(o.s.store, ToFailed), cw := Top(o.s.store) + 1,
                              handled := o.s.handled + [Error], u := UIdle))
  {
    SeenShape(o);
    o' := Take(o, Updater(URead));
    o' := Take(o', Updater(UWrite));
    o' := Take(o', WatchW(Top(o.s.store) + 1));
    o' := Take(o', Updater(UpdaterEvent.UPooled));
  }

  lemma CleanedUp(o: Observed) returns (o': Observed)
    requires Seen(o) && o.s.e.ECleanup?
    ensures Seen(o') && Moves(o, o', o.s.(e := EDone))
  {
    o' := Take(o, Executor(ECleaned(true)));
    o' := Take(o', Executor(ExecutorEvent.EPooled));
  }

  lemma ProcessingWritten(o: Observed) returns (o': Observed)
    requires Seen(o) && o.s.w == WGet(0) && o.s.cw == Top(o.s.store)
    ensures Seen(o')
    ensures Moves(o, o', o.s.(store := Commit(o.s.store, ToProcessing), cw := Top(o.s.store) + 1, w := WDone))
  {
    SeenShape(o);
    o' := Take(o, Worker(WRead));
    o' := Take(o', Worker(WWrite));
    o' := Take(o', WatchW(Top(o.s.store) + 1));
  }

  // The dispatcher sees the newest version and copies its phase.
  lemma PhaseCopied(o: Observed) returns (o': Observed)
    requires Seen(o) && o.s.d.DIdle? && o.s.cd < Top(o.s.store) && !Finishable(Cur(o.s.store))
    ensures Seen(o')
    ensures Moves(o, o', o.s.(cd := Top(o.s.store), dq := false, entry := Cur(o.s.store).phase))
  {
    o' := Take(o, WatchD(Top(o.s.store)));
    o' := Take(o', Dispatcher(DTake));
    o' := Take(o', Dispatcher(DCopy));
  }

  const FRESH_VEGA := Calc(Created, [Unset, Unset, Unset])

  // The first command fails and is reported ...
  lemma FirstCommandFails() returns (o: Observed)
    ensures Seen(o) && o.s.vega && !o.s.faulted && o.s.e == EErr(ECleanup) && o.s.u.UIdle? && o.s.w == WGet(0)
    ensures o.s.d.DIdle? && o.s.cd == 0 && o.s.cw == Top(o.s.store) && Cur(o.s.store).steps == [Failed, Unset, Unset]
  {
    o := StartLoop(FRESH_VEGA, true);
    o := StepReported(o, false);
  }

  // ... and the error is answered, Processing unwritten.
  lemma FailedBeforeProcessing() returns (o: Observed)
    ensures Seen(o) && o.s.vega && !o.s.faulted && o.s.e.EDone? && o.s.u.UIdle? && o.s.w == WGet(0)
    ensures o.s.d.DIdle? && o.s.cd == 0 && o.s.cw == Top(o.s.store)
    ensures Cur(o.s.store) == Calc(Failed, [Failed, Unset, Unset])
  {
    o := FirstCommandFails();
    SeenShape(o);
    CommitShape(o.s.store, ToFailed);
    o := ErrorReported(o);
    o := CleanedUp(o);
  }

  /** The first vega command fails before the reconciler has written Processing:
      Failed is written, then overwritten, and nothing is left to correct it. */
  lemma VegaCanStick() returns (o: Observed)
    ensures Seen(o) && Quiescent(o.s) && o.s.vega && !o.s.faulted
    ensures HasFailed(CurSteps(o.s)) && Cur(o.s.store).phase == Processing && o.s.entry == Processing
  {
    o := FailedBeforeProcessing();
    SeenShape(o);
    o := ProcessingWritten(o);
    assert CurSteps(o.s)[0] == Failed && CurSteps(o.s)[1] == Unset;
    o := PhaseCopied(o);
  }

  // The first k vega steps are reported, all Completed.
  predicate VegaSoFar(o: Observed, k: nat) {
    && o.s.vega && o.s.e.ERun? && o.s.u.UIdle? && o.s.w.WDone? && o.s.d.DIdle? && o.s.cd == 0 && o.s.pos == k <= 3
    && !o.unstored && o.s.cw == Top(o.s.store) == k + 1
    && Cur(o.s.store) == Calc(Processing, seq(3, i => if i < k then Completed else Unset))
  }

  lemma NextVegaStep(o: Observed, k: nat) returns (o': Observed)
    requires Seen(o) && VegaSoFar(o, k) && k < 3
    ensures Seen(o') && VegaSoFar(o', k + 1)
  {
    SeenShape(o);
    o' := StepReported(o, true);
    assert Cur(o'.s.store).steps == seq(3, i => if i < k + 1 then Completed else Unset);
  }

  lemma ProcessingFirstVega() returns (o: Observed)
    ensures Seen(o) && VegaSoFar(o, 0)
  {
    o := StartLoop(FRESH_VEGA, true);
    o := ProcessingWritten(o);
    assert Cur(o.s.store).steps == seq(3, i => if i < 0 then Completed else Unset);
  }

  lemma AllStepsSucceed() returns (o: Observed)
    ensures Seen(o) && VegaSoFar(o, 3)
  {
    o := ProcessingFirstVega();
    o := NextVegaStep(o, 0);
    o := NextVegaStep(o, 1);
    o := NextVegaStep(o, 2);
  }

  lemma DispatcherOverwrites(o: Observed) returns (o': Observed)
    requires Seen(o) && o.s.d == DGet(4, 0) && o.s.cd < Top(o.s.store)
    requires At(o.s.store, 4).steps == [Completed, Completed, Completed]
    ensures Seen(o')
    ensures Moves(o, o', o.s.(store := Commit(o.s.store, ToFinal(Completed)), cd := Top(o.s.store), dq := true,
                              d := DIdle, entry := At(o.s.store, 4).phase))
  {
    o' := Take(o, WatchD(Top(o.s.store)));
    o' := Take(o', Dispatcher(DRead));
    o' := DispatcherWrites(o');
  }

  lemma DispatcherWrites(o: Observed) returns (o': Observed)
    requires Seen(o) && o.s.d == DUpd(4, Top(o.s.store)) && At(o.s.store, 4).steps == [Completed, Completed, Completed]
    requires Top(o.s.store) >= 4
    ensures Seen(o')
    ensures Moves(o, o', o.s.(store := Commit(o.s.store, ToFinal(Completed)), d := DIdle, entry := At(o.s.store, 4).phase))
  {
    SeenShape(o);
    CommitShape(o.s.store, ToFinal(Completed));
    o' := Take(o, Dispatcher(DWrite));
    o' := Take(o', Dispatcher(DCopy));
  }

  // The dispatcher has decided on Completed when storing fails.
  lemma DecidedThenUnstored() returns (o: Observed)
    ensures Seen(o) && o.unstored && o.s.vega && o.s.e == EErr(ECleanup)
    ensures o.s.u.UIdle? && o.s.w.WDone? && o.s.d == DGet(4, 0) && o.s.cd == 4 == o.s.cw == Top(o.s.store)
    ensures CurSteps(o.s) == [Completed, Completed, Completed]
  {
    o := AllStepsSucceed();
    SeenShape(o);
    assert CurSteps(o.s) == [Completed, Completed, Completed];
    o := Take(o, Executor(ELoopEnd));
    o := Take(o, WatchD(4));
    o := Take(o, Dispatcher(DTake));
    o := Take(o, Executor(EStored(false)));
  }

  /** Storing a vega result can fail without a trace: the dispatcher decides on
      Completed, the error is written, and the dispatcher's write comes last. */
  lemma StoreFailureCanBeMasked() returns (o: Observed)
    ensures Seen(o) && Quiescent(o.s) && o.s.vega
    ensures o.unstored && Error in o.s.handled && ToFailed in o.s.store.log
    ensures Cur(o.s.store).phase == Completed && o.s.entry == Completed
  {
    o := DecidedThenUnstored();
    SeenShape(o);
    o := ErrorReported(o);
    o := CleanedUp(o);
    o := DispatcherOverwrites(o);
    o := PhaseCopied(o);
  }

  const FRESH_DEFAULT := Calc(Created, [Unset, Unset])

  /** A default pipeline goes on after a failed step, while the updater answers
      the error by marking the worker Available: it is on offer to the dispatcher
      with a step of this calculation still to run. */
  lemma AvailableWhileRunning() returns (o: Observed)
    ensures Seen(o) && !o.s.vega && !o.s.faulted && o.mark == Objects.Available
    ensures o.s.handled == [Result(0, Failed), Error] && o.s.u.UIdle?
    ensures o.s.e.ERun? && o.s.pos < StepCount(o.s) && StepTodo(o.s)
  {
    o := StartLoop(FRESH_DEFAULT, false);
    o := StepReported(o, false);
    o := ErrorReported(o);
    assert At(o.s.store, 0) == FRESH_DEFAULT;
  }

  /** One input file cannot be copied: Run has returned, nobody will receive from
      its channel again, and the worker is on offer all the same. */
  lemma AvailableWithoutExecutor() returns (o: Observed)
    ensures Seen(o) && o.s.e.EDead? && o.s.u.UIdle? && o.mark == Objects.Available
  {
    o := HandedOver(FRESH_DEFAULT, false);
    o := Take(o, Executor(ESetUp(true)));
    o := Take(o, Executor(EInputs(CopyFailed)));
    o := ErrorReported(o);
  }
}
