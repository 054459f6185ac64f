/** The protocol together with the worker's entry in its pool, which the
    reconciler, the executor and the updater write and the dispatcher schedules by. */
module PoolMark {
  import Objects
  import opened Phases
  import opened CalcStore
  import opened CalcProtocol
  import opened CalcInvariants

  datatype Observed = Observed(
    s: State,
    mark: Objects.WorkerState,   // what was last written to the entry for this Calculation
    missed: bool,                // the update after some error has failed
    unstored: bool               // storing a vega result has failed
  )

  function Fresh0(s: State): Observed {
    Observed(s, Objects.NoState, false, false)
  }

  // `ok` is the outcome of a pool update after an error; a failed one is only
  // logged. A failed update elsewhere is an event of its own, or ends the process.
  function MarkAfter(o: Observed, ev: Event, ok: bool): Objects.WorkerState {
    if ev == Worker(WPooled(true)) then Objects.Busy
    else if ev == Executor(ExecutorEvent.EPooled) then Objects.Available
    else if ev == Updater(UpdaterEvent.UPooled) && ok then Objects.Available
    else o.mark
  }

  function Next(o: Observed, ev: Event, ok: bool): Observed
    requires Enabled(o.s, ev)
  {
    Observed(Do(o.s, ev), MarkAfter(o, ev, ok),
             o.missed || (ev == Updater(UpdaterEvent.UPooled) && !ok),
             o.unstored || ev == Executor(EStored(false)))
  }

  ghost predicate ObservedRun(o: Observed, steps: seq<(Event, bool)>, o': Observed)
    decreases |steps|
  {
    if steps == [] then o == o'
    else Enabled(o.s, steps[0].0) && ObservedRun(Next(o, steps[0].0, steps[0].1), steps[1..], o')
  }

  ghost predicate Starts(o: Observed) {
    exists c: Calc, vega: bool, entry: Phase :: Fresh(c, vega) && o == Fresh0(Init(c, vega, entry))
  }

  ghost predicate Seen(o: Observed) {
    exists o0: Observed, steps: seq<(Event, bool)> :: Starts(o0) && ObservedRun(o0, steps, o)
  }

  lemma {:induction false} ObservedAppend(o: Observed, steps: seq<(Event, bool)>, o': Observed, ev: Event, ok: bool)
    requires ObservedRun(o, steps, o') && Enabled(o'.s, ev)
    ensures ObservedRun(o, steps + [(ev, ok)], Next(o', ev, ok))
    decreases |steps|
  {
    if steps == [] {
      assert [(ev, ok)][1..] == [];
    } else {
      ObservedAppend(Next(o, steps[0].0, steps[0].1), steps[1..], o', ev, ok);
      assert (steps + [(ev, ok)])[1..] == steps[1..] + [(ev, ok)];
    }
  }

  lemma SeenStep(o: Observed, ev: Event, ok: bool)
    requires Seen(o) && Enabled(o.s, ev)
    ensures Seen(Next(o, ev, ok))
  {
    var o0, steps :| Starts(o0) && ObservedRun(o0, steps, o);
    ObservedAppend(o0, steps, o, ev, ok);
  }

  // Every reachable state is that of a run whose pool updates all succeed.
  lemma ReachableSeen(s: State) returns (o: Observed)
    requires Reachable(s)
    ensures Seen(o) && o.s == s && !o.missed
  {
    var c, vega, entry, evs :| Fresh(c, vega) && RunOk(Init(c, vega, entry), evs) && s == Run(Init(c, vega, entry), evs);
    var o0 := Fresh0(Init(c, vega, entry));
    assert Starts(o0);
    assert ObservedRun(o0, [], o0);
    o := SeenRun(o0, evs);
  }

  lemma {:induction false} SeenRun(o: Observed, evs: seq<Event>) returns (o': Observed)
    requires Seen(o) && !o.missed && RunOk(o.s, evs)
    ensures Seen(o') && !o'.missed && o'.s == Run(o.s, evs)
    decreases |evs|
  {
    if evs == [] {
      o' := o;
    } else {
      SeenStep(o, evs[0], true);
      o' := SeenRun(Next(o, evs[0], true), evs[1..]);
    }
  }

  // ----- The invariant of the mark -----

  // The executor has the calculation and has not let go of it.
  predicate Working(e: EPc) {
    !e.ENew? && !e.EDone?
  }

  ghost predicate MarkInv(o: Observed) {
    && (o.s.w.WSend? ==> o.mark == Objects.Busy)
    && (!o.s.e.ENew? ==> o.mark == Objects.Busy || o.mark == Objects.Available)
    && (Working(o.s.e) && o.mark == Objects.Available ==> Error in o.s.handled)
    && (!o.s.e.ENew? && Error in o.s.handled && !o.missed ==> o.mark == Objects.Available)
  }

  // How the executor's calculation can be over.
  ghost predicate EndInv(o: Observed) {
    && (o.s.e.EDead? ==> Error in o.s.emitted)
    && (o.s.e.EDone? ==> Error in o.s.emitted || o.mark == Objects.Available)
  }

  lemma WorkerKeepsMark(o: Observed, ev: WorkerEvent, ok: bool)
    requires WorkerCan(o.s, ev) && MarkInv(o) && EndInv(o) && WorkerInv(o.s)
    ensures MarkInv(Next(o, Worker(ev), ok)) && EndInv(Next(o, Worker(ev), ok))
  {
  }

  lemma UpdaterKeepsMark(o: Observed, ev: UpdaterEvent, ok: bool)
    requires UpdaterCan(o.s, ev) && MarkInv(o) && EndInv(o) && WorkerInv(o.s)
    ensures MarkInv(Next(o, Updater(ev), ok)) && EndInv(Next(o, Updater(ev), ok))
  {
  }

  lemma ExecutorKeepsMark(o: Observed, ev: ExecutorEvent, ok: bool)
    requires ExecutorCan(o.s, ev) && MarkInv(o) && (NotHanded(o.s.w) ==> o.s.e.ENew?)
    ensures MarkInv(Next(o, Executor(ev), ok))
  {
  }

  lemma ExecutorKeepsEnd(o: Observed, ev: ExecutorEvent, ok: bool)
    requires ExecutorCan(o.s, ev) && EndInv(o) && (o.s.e.EErr? ==> AfterError(o.s.e.k))
    ensures EndInv(Next(o, Executor(ev), ok))
  {
  }

  lemma DispatcherKeepsMark(o: Observed, ev: DispatcherEvent, ok: bool)
    requires DispatcherCan(o.s, ev) && MarkInv(o) && EndInv(o)
    ensures MarkInv(Next(o, Dispatcher(ev), ok)) && EndInv(Next(o, Dispatcher(ev), ok))
  {
  }

  lemma StepKeepsMark(o: Observed, ev: Event, ok: bool)
    requires Enabled(o.s, ev) && MarkInv(o) && EndInv(o)
    requires WorkerInv(o.s) && (o.s.e.EErr? ==> AfterError(o.s.e.k))
    ensures MarkInv(Next(o, ev, ok)) && EndInv(Next(o, ev, ok))
  {
    match ev
    case WatchW(_) =>
    case WatchD(_) =>
    case Worker(x) => WorkerKeepsMark(o, x, ok);
    case Executor(x) => ExecutorKeepsMark(o, x, ok); ExecutorKeepsEnd(o, x, ok);
    case Updater(x) => UpdaterKeepsMark(o, x, ok);
    case Dispatcher(x) => DispatcherKeepsMark(o, x, ok);
  }

  lemma {:induction false} RunKeepsMark(o: Observed, steps: seq<(Event, bool)>, o': Observed)
    requires ObservedRun(o, steps, o') && Inv(o.s) && MarkInv(o) && EndInv(o)
    ensures Inv(o'.s) && MarkInv(o') && EndInv(o')
    decreases |steps|
  {
    if steps != [] {
      StepKeepsInv(o.s, steps[0].0);
      StepKeepsMark(o, steps[0].0, steps[0].1);
      RunKeepsMark(Next(o, steps[0].0, steps[0].1), steps[1..], o');
    }
  }

  lemma SeenInv(o: Observed)
    requires Seen(o)
    ensures Inv(o.s) && MarkInv(o) && EndInv(o)
  {
    var o0, steps :| Starts(o0) && ObservedRun(o0, steps, o);
    var c, vega, entry :| Fresh(c, vega) && o0 == Fresh0(Init(c, vega, entry));
    InitInv(c, vega, entry);
    RunKeepsMark(o0, steps, o);
  }

  // ----- What the mark says -----

  /** From the hand-off until the executor lets go, the worker is marked
      Available exactly when an error has been answered: a worker that still
      runs steps, or whose executor has returned, is on offer. Pool updates of
      the updater may fail; then only the first half remains. */
  lemma AvailableMeansError(o: Observed)
    requires Seen(o) && Working(o.s.e)
    ensures o.mark == Objects.Available ==> Error in o.s.handled
    ensures !o.missed ==> (o.mark == Objects.Available <==> Error in o.s.handled)
    ensures o.mark == Objects.Busy || o.mark == Objects.Available
  {
    SeenInv(o);
  }

  /** Once an executor has let go, or has returned for good, and its messages
      are answered, the worker is Available: also when nobody will ever receive
      from its channel again. */
  lemma AvailableAfterwards(o: Observed)
    requires Seen(o) && !o.missed && (o.s.e.EDone? || o.s.e.EDead?) && o.s.u.UIdle?
    ensures o.mark == Objects.Available
  {
    SeenInv(o);
    assert o.s.emitted == o.s.handled;
  }

  // A pool update that succeeds and writes Available.
  predicate MarksAvailable(step: (Event, bool)) {
    step.0 == Executor(ExecutorEvent.EPooled) || (step.0 == Updater(UpdaterEvent.UPooled) && step.1)
  }

  /** Over any run the worker is on offer exactly if an executor that let go, or an
      answered error whose pool update succeeded, has said so, or it was before,
      and the reconciler has not taken it up since. */
  lemma {:induction false} MarkIsOfLastWrite(o: Observed, steps: seq<(Event, bool)>, o': Observed)
    requires ObservedRun(o, steps, o')
    ensures o'.mark == Objects.Available <==>
              || (o.mark == Objects.Available && forall j | 0 <= j < |steps| :: steps[j].0 != Worker(WPooled(true)))
              || exists i | 0 <= i < |steps| :: MarksAvailable(steps[i]) &&
                   forall j | i < j < |steps| :: steps[j].0 != Worker(WPooled(true))
    decreases |steps|
  {
    if steps != [] {
      var rest := steps[1..];
      MarkIsOfLastWrite(Next(o, steps[0].0, steps[0].1), rest, o');
      assert forall j | 0 < j < |steps| :: steps[j] == rest[j - 1];
      assert forall j | 0 <= j < |rest| :: rest[j] == steps[j + 1];
      assert (forall j | 0 <= j < |steps| :: steps[j].0 != Worker(WPooled(true))) <==>
             steps[0].0 != Worker(WPooled(true)) && forall j | 0 <= j < |rest| :: rest[j].0 != Worker(WPooled(true));
      LastWriteTail(steps);
    }
  }

  lemma LastWriteTail(steps: seq<(Event, bool)>)
    requires steps != []
    ensures var rest := steps[1..];
            (exists i | 0 <= i < |steps| :: MarksAvailable(steps[i]) &&
               forall j | i < j < |steps| :: steps[j].0 != Worker(WPooled(true))) <==>
            || (MarksAvailable(steps[0]) && forall j | 0 <= j < |rest| :: rest[j].0 != Worker(WPooled(true)))
            || exists i | 0 <= i < |rest| :: MarksAvailable(rest[i]) &&
                 forall j | i < j < |rest| :: rest[j].0 != Worker(WPooled(true))
  {
    var rest := steps[1..];
    assert forall j | 0 < j < |steps| :: steps[j] == rest[j - 1];
    if i :| 0 <= i < |steps| && MarksAvailable(steps[i]) &&
            forall j | i < j < |steps| :: steps[j].0 != Worker(WPooled(true)) {
      if i == 0 {
        assert forall j | 0 <= j < |rest| :: rest[j] == steps[j + 1];
      } else {
        assert rest[i - 1] == steps[i];
        assert forall j | i - 1 < j < |rest| :: rest[j] == steps[j + 1];
      }
    }
    if i :| 0 <= i < |rest| && MarksAvailable(rest[i]) &&
            forall j | i < j < |rest| :: rest[j].0 != Worker(WPooled(true)) {
      assert steps[i + 1] == rest[i];
      assert forall j | i + 1 < j < |steps| :: steps[j] == rest[j - 1];
    }
    if MarksAvailable(steps[0]) && forall j | 0 <= j < |rest| :: rest[j].0 != Worker(WPooled(true)) {
      assert forall j | 0 < j < |steps| :: steps[j] == rest[j - 1];
    }
  }
}
