/** pkg/worker/executor/executor.go: Run, one received calculation after
    another, and how it fits the protocol. Commands, files and the store's
    transport are outcomes given from outside. */
module ExecutorRun {
  import opened Phases
  import opened CalcStore
  import opened CalcProtocol
  import opened CalcInvariants
  import opened CalcTheorems
  import opened FleetRuns
  import opened Objects
  import opened ResultStore
  import opened VegaExecution

  // What happens around one calculation.
  datatype Env = Env(
    setUp: bool,              // stack limit and temporary directory
    readable: nat -> bool,    // each input file linked, or read and written
    run: VegaRun,             // the pipeline; the default one uses its `ran`
    copied: bool,             // output files copied
    cleaned: bool,            // temporary directory removed
    marked: bool              // worker marked Available; otherwise the process panics
  )

  // ----- What is sent for one calculation -----

  predicate InputFails(job: Calculation, env: Env) {
    job.inputFiles.Some? && exists k | 0 <= k < |job.inputFiles.value.files| :: !env.readable(k)
  }

  // A file that cannot be copied ends Run; a link that fails does not.
  predicate Survives(job: Calculation, env: Env) {
    env.setUp && InputFails(job, env) ==> job.inputFiles.value.symlink
  }

  // Run receives again afterwards.
  predicate GoesOn(job: Calculation, env: Env) {
    env.setUp ==> Survives(job, env) && env.marked
  }

  function Outcome(env: Env, i: nat): Phase {
    if env.run.ran(i) then Completed else Failed
  }

  // The default loop from step i on: a failed step does not stop it.
  function LoopSent(steps: seq<Step>, env: Env, i: nat): seq<Msg>
    requires i <= |steps|
    decreases |steps| - i
  {
    if i == |steps| then []
    else if steps[i].status != Unset then LoopSent(steps, env, i + 1)
    else (if env.run.ran(i) then [Result(i, Completed)] else [Result(i, Failed), Error]) + LoopSent(steps, env, i + 1)
  }

  function ErrorIf(failed: bool): seq<Msg> {
    if failed then [Error] else []
  }

  function RunOf(job: Calculation, env: Env): VegaRun {
    env.run.(params := job.params)
  }

  function PipelineSent(job: Calculation, env: Env): seq<Msg> {
    if job.pipeline == VEGA then
      (if env.run.linked then Sent(RunOf(job, env), 3) else []) + ErrorIf(!Stores(RunOf(job, env)))
    else LoopSent(job.steps, env, 0) + ErrorIf(!env.copied)
  }

  function Trace(job: Calculation, env: Env): seq<Msg> {
    if !env.setUp || !Survives(job, env) then [Error]
    else ErrorIf(InputFails(job, env)) + (PipelineSent(job, env) + ErrorIf(!env.cleaned))
  }

  // The row a calculation leaves in the result table.
  function RowsAfter(f: Printer, job: Calculation, env: Env, rows: seq<Row>): seq<Row> {
    var r := RunOf(job, env);
    if env.setUp && Survives(job, env) && job.pipeline == VEGA && Stores(r)
    then Stored(rows, Key(f, r.params), r.data.value, r.now) else rows
  }

  /** The row a calculation leaves: only a vega one leaves any, when nothing went
      wrong; it is stored under the printed parameters of that calculation and
      holds what its run produced. */
  lemma RowLeft(f: Printer, job: Calculation, env: Env, rows: seq<Row>)
    ensures RowsAfter(f, job, env, rows) ==
              if && job.pipeline == "vega" && env.setUp
                 && !(job.inputFiles.Some? && !job.inputFiles.value.symlink &&
                      exists k | 0 <= k < |job.inputFiles.value.files| :: !env.readable(k))
                 && env.run.linked && env.run.prepared(0) && env.run.ran(0) && env.run.ran(1)
                 && env.run.prepared(2) && env.run.ran(2) && env.run.data.Some? && env.run.stores
              then Stored(rows, map["log_g" := f(job.params.logG), "teff" := f(job.params.teff)], env.run.data.value, env.run.now)
              else rows
  {
    KeyIsPrinted(f, job.params);
    var r := RunOf(job, env);
    assert Stores(r) <==>
      (r.linked && r.prepared(0) && r.ran(0) && r.ran(1) && r.prepared(2) && r.ran(2) && r.data.Some? && r.stores);
  }

  /** What is sent, in order: an error for a failed setup, or a failed copy of an
      input, alone; else an error for a failed link, what the pipeline sends, and
      an error for a failed cleanup. A vega pipeline whose links fail sends one
      error, and one after its results when anything after that fails; a default
      one sends an error when its outputs cannot be copied. */
  lemma TraceExactly(job: Calculation, env: Env)
    ensures var bad := job.inputFiles.Some? && exists k | 0 <= k < |job.inputFiles.value.files| :: !env.readable(k);
            && (!env.setUp || (bad && !job.inputFiles.value.symlink) ==> Trace(job, env) == [Error])
            && (env.setUp && (bad ==> job.inputFiles.value.symlink) ==>
                  Trace(job, env) == (if bad then [Error] else []) + (PipelineSent(job, env) + if env.cleaned then [] else [Error]))
    ensures job.pipeline != "vega" ==>
              PipelineSent(job, env) == LoopSent(job.steps, env, 0) + if env.copied then [] else [Error]
    ensures job.pipeline == "vega" && !env.run.linked ==> PipelineSent(job, env) == [Error]
    ensures job.pipeline == "vega" && env.run.linked ==>
              PipelineSent(job, env) == Sent(env.run, 3) +
                if |Sent(env.run, 3)| == 3 && env.run.ran(2) && env.run.data.Some? && env.run.stores then [] else [Error]
  {
    var r := RunOf(job, env);
    SentExactly(env.run);
    SentExactly(r);
    assert Stores(r) <==>
      (r.linked && r.prepared(0) && r.ran(0) && r.ran(1) && r.prepared(2) && r.ran(2) && r.data.Some? && r.stores);
  }

  // ----- The code -----

  class Executor {
    const store: CalculationResultsStore
    const printer: Printer
    var sent: seq<Msg>    // everything put on the two channels
    var alive: bool       // Run has not returned, nor panicked
    var marked: nat       // how often the worker was marked Available

    constructor (store: CalculationResultsStore, printer: Printer)
      ensures this.store == store && this.printer == printer && sent == [] && alive && marked == 0
    {
      this.store, this.printer := store, printer;
      sent, alive, marked := [], true, 0;
    }

    method CopyInputs(job: Calculation, env: Env)
      requires alive
      modifies this
      ensures sent == old(sent) + ErrorIf(InputFails(job, env))
      ensures alive <==> (InputFails(job, env) ==> job.inputFiles.value.symlink)
      ensures marked == old(marked)
    {
      if job.inputFiles.Some? {
        for k := 0 to |job.inputFiles.value.files|
          invariant alive && sent == old(sent) && marked == old(marked)
          invariant forall j | 0 <= j < k :: env.readable(j)
        {
          if !env.readable(k) {
            sent := sent + [Error];
            if job.inputFiles.value.symlink {
              break;
            }
            alive := false;
            return;
          }
        }
      }
    }

    method RunSteps(job: Calculation, env: Env)
      modifies this
      ensures sent == old(sent) + (LoopSent(job.steps, env, 0) + ErrorIf(!env.copied))
      ensures alive == old(alive) && marked == old(marked)
    {
      for index := 0 to |job.steps|
        invariant sent + LoopSent(job.steps, env, index) == old(sent) + LoopSent(job.steps, env, 0)
        invariant alive == old(alive) && marked == old(marked)
      {
        if job.steps[index].status != Unset {
          continue;
        }
        var status := if env.run.ran(index) then Completed else Failed;
        ghost var before, rest := sent, LoopSent(job.steps, env, index + 1);
        sent := sent + [Result(index, status)];
        if status == Failed {
          sent := sent + [Error];
          assert sent + rest == before + ([Result(index, Failed), Error] + rest);
        } else {
          assert sent + rest == before + ([Result(index, Completed)] + rest);
        }
      }
      assert sent + [] == sent;
      assert (old(sent) + LoopSent(job.steps, env, 0)) + ErrorIf(!env.copied)
          == old(sent) + (LoopSent(job.steps, env, 0) + ErrorIf(!env.copied));
      if !env.copied {
        sent := sent + [Error];
      }
    }

    method RunVega(job: Calculation, env: Env)
      modifies this, store
      ensures var r := RunOf(job, env);
              && sent == old(sent) + ((if r.linked then Sent(r, 3) else []) + ErrorIf(!Stores(r)))
              && store.rows == if Stores(r) then Stored(old(store.rows), Key(printer, r.params), r.data.value, r.now) else old(store.rows)
      ensures alive == old(alive) && marked == old(marked)
    {
      var results, ok := RunBranch(store, printer, RunOf(job, env));
      sent := sent + results;
      if !ok {
        sent := sent + [Error];
      }
    }

    /** The body of the select for one received calculation. */
    method Execute(job: Calculation, env: Env)
      requires alive
      modifies this, store
      ensures sent == old(sent) + Trace(job, env)
      ensures alive <==> GoesOn(job, env)
      ensures alive <==> !env.setUp || (env.marked && !(job.inputFiles.Some? && !job.inputFiles.value.symlink &&
                           exists k | 0 <= k < |job.inputFiles.value.files| :: !env.readable(k)))
      ensures marked == old(marked) + if env.setUp && Survives(job, env) && env.marked then 1 else 0
      ensures store.rows == RowsAfter(printer, job, env, old(store.rows))
    {
      if !env.setUp {
        sent := sent + [Error];
        return;
      }
      ghost var start := sent;
      CopyInputs(job, env);
      if !alive {
        return;
      }
      ghost var inputs := ErrorIf(InputFails(job, env));
      if job.pipeline == VEGA {
        RunVega(job, env);
      } else {
        RunSteps(job, env);
      }
      assert sent == (start + inputs) + PipelineSent(job, env);
      Assoc(start, inputs, PipelineSent(job, env), ErrorIf(!env.cleaned));
      if !env.cleaned {
        sent := sent + [Error];
      }
      if env.marked {
        marked := marked + 1;
      } else {
        alive := false;
      }
    }

    /** Run, over the calculations it is handed: it answers each in turn until an
        input file cannot be copied or the worker cannot be marked, and none after
        that. */
    method Run(jobs: seq<Calculation>, envs: seq<Env>)
      requires alive && |envs| == |jobs|
      modifies this, store
      ensures alive <==> forall i | 0 <= i < |jobs| :: GoesOn(jobs[i], envs[i])
      ensures sent == old(sent) + AllSent(jobs, envs)
    {
      for i := 0 to |jobs|
        invariant alive && forall k | 0 <= k < i :: GoesOn(jobs[k], envs[k])
        invariant sent + AllSent(jobs[i..], envs[i..]) == old(sent) + AllSent(jobs, envs)
      {
        NextSent(jobs, envs, i, sent);
        Execute(jobs[i], envs[i]);
        if !alive {
          return;
        }
      }
      assert sent + AllSent([], []) == sent;
    }
  }

  function AllSent(jobs: seq<Calculation>, envs: seq<Env>): seq<Msg>
    requires |envs| == |jobs|
  {
    if jobs == [] then []
    else if !GoesOn(jobs[0], envs[0]) then Trace(jobs[0], envs[0])
    else Trace(jobs[0], envs[0]) + AllSent(jobs[1..], envs[1..])
  }

  lemma NextSent(jobs: seq<Calculation>, envs: seq<Env>, i: nat, before: seq<Msg>)
    requires |envs| == |jobs| && i < |jobs|
    ensures before + AllSent(jobs[i..], envs[i..])
         == (before + Trace(jobs[i], envs[i])) + if GoesOn(jobs[i], envs[i]) then AllSent(jobs[i + 1..], envs[i + 1..]) else []
  {
    assert jobs[i..][1..] == jobs[i + 1..] && envs[i..][1..] == envs[i + 1..];
    Assoc(before, Trace(jobs[i], envs[i]), AllSent(jobs[i + 1..], envs[i + 1..]), []);
    assert AllSent(jobs[i + 1..], envs[i + 1..]) + [] == AllSent(jobs[i + 1..], envs[i + 1..]);
  }

  lemma Assoc<T>(a: seq<T>, b: seq<T>, c: seq<T>, d: seq<T>)
    ensures ((a + b) + c) + d == a + (b + (c + d))
  {
  }

  // ----- The protocol's executor is this code, whatever the others do -----

  // The protocol state is about this calculation.
  predicate About(s: State, job: Calculation) {
    s.vega == (job.pipeline == VEGA) && Steps0(s) == Statuses(job.steps)
  }

  // The executor's step is the one the code takes in this environment.
  predicate Follows(s: State, ev: ExecutorEvent, job: Calculation, env: Env) {
    match ev
    case ESetUp(ok) => ok == env.setUp
    case EInputs(r) =>
      r == if !InputFails(job, env) then InputOk else if Survives(job, env) then LinkFailed else CopyFailed
    case EPiped(ok) => ok == (!s.vega || env.run.linked)
    case EPrepFails => Unprepared(s, env)
    case ECommand(ok) => ok == env.run.ran(s.pos) && !(s.vega && Unprepared(s, env))
    case ECopied(ok) => ok == env.copied
    case EStored(ok) => ok == (env.run.data.Some? && env.run.stores)
    case ECleaned(ok) => ok == env.cleaned
    case EPooled => env.marked
    case _ => true
  }

  predicate Unprepared(s: State, env: Env) {
    NeedsInput(s.pos) && !env.run.prepared(s.pos)
  }

  // What the vega branch sends from step i on.
  function VegaFrom(env: Env, i: nat): seq<Msg>
    decreases 3 - i
  {
    if i >= 3 then ErrorIf(env.run.data.None? || !env.run.stores)
    else if NeedsInput(i) && !env.run.prepared(i) then [Error]
    else if env.run.ran(i) then [Result(i, Completed)] + VegaFrom(env, i + 1)
    else [Result(i, Failed), Error]
  }

  function LoopFrom(job: Calculation, env: Env, i: nat): seq<Msg> {
    if job.pipeline == VEGA then VegaFrom(env, i)
    else if i <= |job.steps| then LoopSent(job.steps, env, i) + ErrorIf(!env.copied)
    else []
  }

  // What is still to be sent from a program counter on.
  function Rest(e: EPc, pos: nat, job: Calculation, env: Env): seq<Msg>
    decreases e
  {
    var end := ErrorIf(!env.cleaned);
    match e
    case ENew => Trace(job, env)
    case ESetup => Trace(job, env)
    case EInput =>
      if Survives(job, env) then ErrorIf(InputFails(job, env)) + (PipelineSent(job, env) + end) else [Error]
    case EPipe => PipelineSent(job, env) + end
    case ERun => LoopFrom(job, env, pos) + end
    case EEmit(st) =>
      if st != Failed then [Result(pos, st)] + (LoopFrom(job, env, pos + 1) + end)
      else [Result(pos, st)] + ([Error] + ((if job.pipeline == VEGA then [] else LoopFrom(job, env, pos + 1)) + end))
    case EErr(k) => [Error] + Rest(k, pos, job, env)
    case ECopy => ErrorIf(!env.copied) + end
    case EStore => ErrorIf(env.run.data.None? || !env.run.stores) + end
    case ECleanup => end
    case _ => []
  }

  // Where the executor can be in this environment.
  predicate OnCourse(e: EPc, job: Calculation, env: Env) {
    match e
    case ENew => true
    case ESetup => true
    case EInput => env.setUp
    case EErr(k) => if k.EDone? then !env.setUp else if k.EDead? then !Survives(job, env) else env.setUp && Survives(job, env)
    case EDone => Survives(job, env)
    case EDead => !Survives(job, env)
    case _ => env.setUp && Survives(job, env)
  }

  lemma {:induction false} VegaFromSent(env: Env, r: VegaRun, i: nat)
    requires i <= 3 && SentOk(r, i) && r.prepared == env.run.prepared && r.ran == env.run.ran
    requires r.data == env.run.data && r.stores == env.run.stores
    ensures Sent(r, 3) + ErrorIf(!(AllStepsCompleted(r) && r.data.Some? && r.stores)) == Sent(r, i) + VegaFrom(env, i)
    decreases 3 - i
  {
    if i < 3 {
      if StepOk(r, i) {
        VegaFromSent(env, r, i + 1);
        Shift(Sent(r, i), [Result(i, Completed)], [], VegaFrom(env, i + 1));
      } else {
        StopsHere(r, i);
        Shift(Sent(r, i), [Result(i, Failed)], [], [Error]);
        assert [Result(i, Failed)] + [Error] == [Result(i, Failed), Error];
      }
    }
  }

  // The pipeline as a whole, and from its first step.
  lemma PipelineFrom(job: Calculation, env: Env)
    ensures job.pipeline == VEGA && !env.run.linked ==> PipelineSent(job, env) == [Error]
    ensures job.pipeline == VEGA && env.run.linked ==> PipelineSent(job, env) == VegaFrom(env, 0)
    ensures job.pipeline != VEGA ==> PipelineSent(job, env) == LoopFrom(job, env, 0)
  {
    if job.pipeline == VEGA {
      VegaFromSent(env, RunOf(job, env), 0);
      assert Sent(RunOf(job, env), 0) + VegaFrom(env, 0) == VegaFrom(env, 0);
    }
  }

  // From one program counter to the next, outside the step loop.
  lemma SetUpRest(s: State, ev: ExecutorEvent, job: Calculation, env: Env)
    requires (s.e.ESetup? || s.e.EInput?) && OnCourse(s.e, job, env)
    requires ExecutorCan(s, ev) && Follows(s, ev, job, env)
    ensures Rest(DoExecutor(s, ev).e, s.pos, job, env) == Rest(s.e, s.pos, job, env)
    ensures DoExecutor(s, ev).emitted == s.emitted && DoExecutor(s, ev).pos == s.pos
  {
    var rest := PipelineSent(job, env) + ErrorIf(!env.cleaned);
    assert [] + rest == rest;
    assert [Error] + [] == [Error];
  }

  lemma PipeRest(s: State, ev: ExecutorEvent, job: Calculation, env: Env)
    requires s.e.EPipe? && s.pos == 0 && s.vega == (job.pipeline == VEGA)
    requires ExecutorCan(s, ev) && Follows(s, ev, job, env)
    ensures Rest(DoExecutor(s, ev).e, 0, job, env) == Rest(EPipe, 0, job, env)
    ensures DoExecutor(s, ev).emitted == s.emitted && DoExecutor(s, ev).pos == s.pos
  {
    PipelineFrom(job, env);
  }

  lemma EndRest(s: State, ev: ExecutorEvent, job: Calculation, env: Env)
    requires s.e.ECopy? || s.e.EStore? || s.e.ECleanup? || s.e.EPool?
    requires ExecutorCan(s, ev) && Follows(s, ev, job, env)
    ensures Rest(DoExecutor(s, ev).e, s.pos, job, env) == Rest(s.e, s.pos, job, env)
    ensures DoExecutor(s, ev).emitted == s.emitted && DoExecutor(s, ev).pos == s.pos
  {
    var end := ErrorIf(!env.cleaned);
    assert [] + end == end;
    assert [Error] + [] == [Error];
  }

  // The loop, by the kind of turn.
  lemma InsideLoop(s: State, ev: ExecutorEvent, job: Calculation, env: Env)
    requires About(s, job) && s.snap == 0 && s.pos <= |job.steps| && (s.vega ==> s.pos <= 3)
    requires s.e.ERun? && ExecutorCan(s, ev) && Follows(s, ev, job, env)
    ensures Rest(DoExecutor(s, ev).e, DoExecutor(s, ev).pos, job, env) == Rest(s.e, s.pos, job, env)
    ensures DoExecutor(s, ev).emitted == s.emitted
  {
    var end := ErrorIf(!env.cleaned);
    if ev.ECommand? {
      CommandRest(s, job, env);
    } else if ev.EPrepFails? {
      assert [Error] + end == Rest(s.e, s.pos, job, env);
    } else if ev.ESkip? {
      assert Statuses(job.steps)[s.pos] == job.steps[s.pos].status;
    } else {
      assert !s.vega ==> LoopSent(job.steps, env, s.pos) == [];
      assert [] + ErrorIf(!env.copied) == ErrorIf(!env.copied);
    }
  }

  lemma CommandRest(s: State, job: Calculation, env: Env)
    requires About(s, job) && s.snap == 0 && s.e.ERun? && s.pos < StepCount(s) && StepTodo(s)
    requires !(s.vega && Unprepared(s, env))
    ensures Rest(EEmit(Outcome(env, s.pos)), s.pos, job, env) == Rest(ERun, s.pos, job, env)
  {
    var end := ErrorIf(!env.cleaned);
    var st := Outcome(env, s.pos);
    if s.vega {
      Shift([Result(s.pos, st)], VegaFrom(env, s.pos + 1), [], end);
      assert [Result(s.pos, Failed), Error] + end == [Result(s.pos, Failed)] + ([Error] + ([] + end));
    } else {
      assert Statuses(job.steps)[s.pos] == job.steps[s.pos].status;
      Shift([Result(s.pos, st)] + (if st == Failed then [Error] else []),
            LoopSent(job.steps, env, s.pos + 1), ErrorIf(!env.copied), end);
      assert [Result(s.pos, Failed)] + [Error] == [Result(s.pos, Failed), Error];
      assert [Result(s.pos, Completed)] + [] == [Result(s.pos, Completed)];
      var later := LoopFrom(job, env, s.pos + 1) + end;
      assert ([Result(s.pos, st)] + [Error]) + later == [Result(s.pos, st)] + ([Error] + later);
    }
  }

  lemma Shift<T>(a: seq<T>, b: seq<T>, c: seq<T>, d: seq<T>)
    ensures ((a + b) + c) + d == a + ((b + c) + d)
    ensures (a + b) + d == a + (b + d)
  {
  }

  lemma ErrorSentRest(s: State, job: Calculation, env: Env)
    requires ExecutorCan(s, ESendError)
    ensures DoExecutor(s, ESendError).emitted + Rest(s.e.k, s.pos, job, env) == s.emitted + Rest(s.e, s.pos, job, env)
    ensures DoExecutor(s, ESendError).e == s.e.k && DoExecutor(s, ESendError).pos == s.pos
  {
    Shift(s.emitted, [Error], [], Rest(s.e.k, s.pos, job, env));
  }

  lemma ResultSentRest(s: State, job: Calculation, env: Env)
    requires s.vega == (job.pipeline == VEGA) && ExecutorCan(s, ESendResult)
    ensures var t := DoExecutor(s, ESendResult);
            t.emitted + Rest(t.e, t.pos, job, env) == s.emitted + Rest(s.e, s.pos, job, env)
  {
    ResultRest(s.e.status, s.pos, job, env);
    Shift(s.emitted, [Result(s.pos, s.e.status)], [], Rest(AfterResult(s.e.status, job), s.pos + 1, job, env));
  }

  function AfterResult(st: Phase, job: Calculation): EPc {
    if st != Failed then ERun else EErr(if job.pipeline == VEGA then ECleanup else ERun)
  }

  lemma ResultRest(st: Phase, pos: nat, job: Calculation, env: Env)
    ensures Rest(EEmit(st), pos, job, env) == [Result(pos, st)] + Rest(AfterResult(st, job), pos + 1, job, env)
  {
    if st == Failed && job.pipeline == VEGA {
      assert [] + ErrorIf(!env.cleaned) == ErrorIf(!env.cleaned);
    }
  }

  lemma StaysOnCourse(s: State, ev: ExecutorEvent, job: Calculation, env: Env)
    requires s.vega == (job.pipeline == VEGA) && OnCourse(s.e, job, env) && (s.e.EErr? ==> AfterError(s.e.k))
    requires ExecutorCan(s, ev) && Follows(s, ev, job, env)
    ensures OnCourse(DoExecutor(s, ev).e, job, env)
  {
  }

  // The step loop has not begun.
  predicate BeforeLoop(e: EPc) {
    e.ENew? || e.ESetup? || e.EInput? || e.EPipe? || e == EErr(EPipe)
  }

  // A state of a run in which the executor takes the code's steps.
  predicate Tracks(s: State, job: Calculation, env: Env) {
    && About(s, job) && OnCourse(s.e, job, env) && (BeforeLoop(s.e) ==> s.pos == 0)
    && s.emitted + Rest(s.e, s.pos, job, env) == Trace(job, env)
  }

  lemma ReachableShape(s: State)
    requires Reachable(s)
    ensures s.snap == 0 && s.pos <= |Steps0(s)| && (s.vega ==> |Steps0(s)| == 3) && |s.store.hist| > 0
    ensures s.e.EErr? ==> AfterError(s.e.k)
  {
    ReachableInv(s);
  }

  lemma ExecutorRest(s: State, ev: ExecutorEvent, job: Calculation, env: Env)
    requires About(s, job) && OnCourse(s.e, job, env) && (s.e.EPipe? ==> s.pos == 0)
    requires s.snap == 0 && s.pos <= |Steps0(s)| && (s.vega ==> |Steps0(s)| == 3)
    requires ExecutorCan(s, ev) && Follows(s, ev, job, env)
    ensures DoExecutor(s, ev).emitted + Rest(DoExecutor(s, ev).e, DoExecutor(s, ev).pos, job, env)
         == s.emitted + Rest(s.e, s.pos, job, env)
  {
    if ev.ESendResult? {
      ResultSentRest(s, job, env);
    } else if ev.ESendError? {
      ErrorSentRest(s, job, env);
    } else if s.e.ERun? {
      InsideLoop(s, ev, job, env);
    } else if s.e.EPipe? {
      PipeRest(s, ev, job, env);
    } else if s.e.ESetup? || s.e.EInput? {
      SetUpRest(s, ev, job, env);
    } else {
      EndRest(s, ev, job, env);
    }
  }

  lemma LoopNotBegun(s: State, ev: ExecutorEvent)
    requires ExecutorCan(s, ev) && (BeforeLoop(s.e) ==> s.pos == 0) && (s.e.EErr? ==> AfterError(s.e.k))
    ensures BeforeLoop(DoExecutor(s, ev).e) ==> DoExecutor(s, ev).pos == 0
  {
  }

  lemma ExecutorKeepsJob(s: State, ev: ExecutorEvent)
    requires ExecutorCan(s, ev) && (s.e.EErr? ==> AfterError(s.e.k))
    ensures !DoExecutor(s, ev).e.ENew? && Steps0(DoExecutor(s, ev)) == Steps0(s) && DoExecutor(s, ev).vega == s.vega
  {
  }

  lemma ExecutorTracks(s: State, ev: ExecutorEvent, job: Calculation, env: Env)
    requires Tracks(s, job, env) && s.snap == 0 && s.pos <= |Steps0(s)| && (s.vega ==> |Steps0(s)| == 3)
    requires s.e.EErr? ==> AfterError(s.e.k)
    requires ExecutorCan(s, ev) && Follows(s, ev, job, env)
    ensures Tracks(DoExecutor(s, ev), job, env)
  {
    StaysOnCourse(s, ev, job, env);
    LoopNotBegun(s, ev);
    ExecutorKeepsJob(s, ev);
    ExecutorRest(s, ev, job, env);
  }

  // Nobody else moves the executor or its messages, or what it was handed.
  predicate LeavesIt(s: State, t: State) {
    Steps0(t) == Steps0(s) && t.vega == s.vega && t.pos == s.pos && t.emitted == s.emitted &&
    (t.e == s.e || (s.e.ENew? && t.e.ESetup?))
  }

  lemma WorkerLeavesIt(s: State, ev: WorkerEvent)
    requires |s.store.hist| > 0 && WorkerCan(s, ev)
    ensures LeavesIt(s, DoWorker(s, ev))
  {
  }

  lemma UpdaterLeavesIt(s: State, ev: UpdaterEvent)
    requires |s.store.hist| > 0 && UpdaterCan(s, ev)
    ensures LeavesIt(s, DoUpdater(s, ev))
  {
  }

  lemma DispatcherLeavesIt(s: State, ev: DispatcherEvent)
    requires |s.store.hist| > 0 && DispatcherCan(s, ev)
    ensures LeavesIt(s, DoDispatcher(s, ev))
  {
  }

  lemma LeftTracks(s: State, t: State, job: Calculation, env: Env)
    requires Tracks(s, job, env) && LeavesIt(s, t)
    ensures Tracks(t, job, env)
  {
  }

  lemma StepTracks(s: State, ev: Event, job: Calculation, env: Env)
    requires Reachable(s) && Tracks(s, job, env) && Enabled(s, ev) && (ev.Executor? ==> Follows(s, ev.ee, job, env))
    ensures Reachable(Do(s, ev)) && Tracks(Do(s, ev), job, env)
  {
    ReachableStep(s, ev);
    ReachableShape(s);
    match ev
    case Executor(x) => ExecutorTracks(s, x, job, env);
    case Worker(x) => WorkerLeavesIt(s, x); LeftTracks(s, Do(s, ev), job, env);
    case Updater(x) => UpdaterLeavesIt(s, x); LeftTracks(s, Do(s, ev), job, env);
    case Dispatcher(x) => DispatcherLeavesIt(s, x); LeftTracks(s, Do(s, ev), job, env);
    case WatchW(_) => LeftTracks(s, Do(s, ev), job, env);
    case WatchD(_) => LeftTracks(s, Do(s, ev), job, env);
  }

  // A run in which the executor takes the code's steps and the others any.
  predicate FollowedRun(s: State, evs: seq<Event>, job: Calculation, env: Env)
    decreases |evs|
  {
    evs == [] ||
    (Enabled(s, evs[0]) && (evs[0].Executor? ==> Follows(s, evs[0].ee, job, env)) &&
     FollowedRun(Do(s, evs[0]), evs[1..], job, env))
  }

  lemma {:induction false} RunTracks(s: State, evs: seq<Event>, job: Calculation, env: Env)
    requires Reachable(s) && Tracks(s, job, env) && FollowedRun(s, evs, job, env)
    ensures RunOk(s, evs) && Tracks(CalcProtocol.Run(s, evs), job, env)
    decreases |evs|
  {
    if evs != [] {
      StepTracks(s, evs[0], job, env);
      RunTracks(Do(s, evs[0]), evs[1..], job, env);
    }
  }

  lemma StartTracks(c: Calc, entry: Phase, job: Calculation, env: Env)
    requires Fresh(c, job.pipeline == VEGA) && c.steps == Statuses(job.steps)
    ensures Reachable(Init(c, job.pipeline == VEGA, entry)) && Tracks(Init(c, job.pipeline == VEGA, entry), job, env)
  {
    ReachableInit(c, job.pipeline == VEGA, entry);
    assert [] + Trace(job, env) == Trace(job, env);
  }

  /** Simulation, under any interference. Let the executor of the protocol take
      the steps the code takes in some environment, while reconciler, updater,
      dispatcher and watches do whatever they can: what it has sent is always the
      start of what `Executor.Execute` sends; back at the receive, or returned,
      or about to mark the worker, it has sent exactly that; and it has returned
      only when an input file could not be copied. */
  lemma ExecutorSimulatesCode(c: Calc, entry: Phase, evs: seq<Event>, job: Calculation, env: Env)
    requires Fresh(c, job.pipeline == VEGA) && c.steps == Statuses(job.steps)
    requires FollowedRun(Init(c, job.pipeline == VEGA, entry), evs, job, env)
    ensures RunOk(Init(c, job.pipeline == VEGA, entry), evs)
    ensures var t := CalcProtocol.Run(Init(c, job.pipeline == VEGA, entry), evs);
            && t.emitted <= Trace(job, env)
            && (t.e.EDone? || t.e.EDead? || t.e.EPool? ==> t.emitted == Trace(job, env))
            && (t.e.EDead? ==> !Survives(job, env)) && (t.e.EDone? ==> Survives(job, env))
  {
    StartTracks(c, entry, job, env);
    RunTracks(Init(c, job.pipeline == VEGA, entry), evs, job, env);
  }

  // The code's next step.
  function Choice(s: State, job: Calculation, env: Env): ExecutorEvent {
    match s.e
    case ESetup => ESetUp(env.setUp)
    case EInput => EInputs(if !InputFails(job, env) then InputOk else if Survives(job, env) then LinkFailed else CopyFailed)
    case EPipe => EPiped(!s.vega || env.run.linked)
    case ERun =>
      if s.pos >= StepCount(s) then ELoopEnd
      else if s.vega && Unprepared(s, env) then EPrepFails
      else if StepTodo(s) then ECommand(env.run.ran(s.pos))
      else ESkip
    case EEmit(_) => ESendResult
    case EErr(_) => ESendError
    case ECopy => ECopied(env.copied)
    case EStore => EStored(env.run.data.Some? && env.run.stores)
    case ECleanup => ECleaned(env.cleaned)
    case _ => ExecutorEvent.EPooled
  }

  /** And the code's step is always possible: only a busy updater holds it up,
      and only a panic ends it before the receive. */
  lemma CodeCanGoOn(s: State, job: Calculation, env: Env)
    requires Reachable(s) && !s.e.ENew? && !s.e.EDone? && !s.e.EDead?
    requires (s.e.EEmit? || s.e.EErr?) ==> s.u.UIdle?
    requires s.e.EPool? ==> env.marked
    ensures ExecutorCan(s, Choice(s, job, env)) && Follows(s, Choice(s, job, env), job, env)
  {
  }

  // One step of a tracked run.
  lemma Go(s: State, ev: Event, job: Calculation, env: Env) returns (t: State)
    requires Reachable(s) && Tracks(s, job, env) && Enabled(s, ev) && (ev.Executor? ==> Follows(s, ev.ee, job, env))
    ensures t == Do(s, ev) && Reachable(t) && Tracks(t, job, env)
  {
    t := Do(s, ev);
    StepTracks(s, ev, job, env);
  }

  // The updater may drop a message; the executor goes on either way.
  lemma UpdaterFrees(s: State, job: Calculation, env: Env) returns (t: State)
    requires Reachable(s) && Tracks(s, job, env)
    ensures Reachable(t) && Tracks(t, job, env) && t.u.UIdle? && t.e == s.e && t.pos == s.pos && Steps0(t) == Steps0(s)
  {
    t := s;
    if t.u.UGet? || t.u.UUpd? {
      t := Go(t, Updater(UGiveUp), job, env);
    }
    if t.u.UPool? {
      t := Go(t, Updater(UpdaterEvent.UPooled), job, env);
    }
  }

  lemma LeftDecreases(s: State, ev: ExecutorEvent)
    requires Reachable(s) && ExecutorCan(s, ev)
    ensures ExecLeft(DoExecutor(s, ev)) < ExecLeft(s)
  {
    ReachableInv(s);
    if InLoop(s.e) {
      LoopDecreases(s, ev);
    } else {
      OutsideLoopDecreases(s, ev);
    }
  }

  // One run to the end, with an updater that never gets in the way.
  lemma {:induction false} RunsToEnd(s: State, job: Calculation, env: Env) returns (t: State)
    requires Reachable(s) && Tracks(s, job, env) && !s.e.ENew? && s.u.UIdle?
    ensures Reachable(t) && Tracks(t, job, env) && (t.e.EDone? || t.e.EDead? || t.e.EPool?)
    decreases ExecLeft(s)
  {
    if s.e.EDone? || s.e.EDead? || s.e.EPool? {
      t := s;
    } else {
      CodeCanGoOn(s, job, env);
      LeftDecreases(s, Choice(s, job, env));
      ReachableShape(s);
      ExecutorKeepsJob(s, Choice(s, job, env));
      var s1 := Go(s, Executor(Choice(s, job, env)), job, env);
      var s2 := UpdaterFrees(s1, job, env);
      t := RunsToEnd(s2, job, env);
    }
  }

  lemma HandedOff(job: Calculation, env: Env) returns (s: State)
    requires Fresh(Calc(Created, Statuses(job.steps)), job.pipeline == VEGA)
    ensures Reachable(s) && Tracks(s, job, env) && s.e.ESetup? && s.u.UIdle?
  {
    StartTracks(Calc(Created, Statuses(job.steps)), Unset, job, env);
    s := Init(Calc(Created, Statuses(job.steps)), job.pipeline == VEGA, Unset);
    s := Go(s, Event.Worker(WTake), job, env);
    s := Go(s, Event.Worker(WPooled(true)), job, env);
    s := Go(s, Event.Worker(WHandOff), job, env);
  }

  /** For every environment some reachable state has exactly the coded messages
      sent, so what holds of the messages in all reachable states holds of them. */
  lemma TraceIsReached(job: Calculation, env: Env) returns (t: State)
    requires Fresh(Calc(Created, Statuses(job.steps)), job.pipeline == VEGA)
    ensures Reachable(t) && About(t, job) && t.emitted == Trace(job, env)
  {
    var s := HandedOff(job, env);
    t := RunsToEnd(s, job, env);
    AllSentAtEnd(t, job, env);
  }

  lemma AllSentAtEnd(t: State, job: Calculation, env: Env)
    requires Tracks(t, job, env) && (t.e.EDone? || t.e.EDead? || t.e.EPool?)
    ensures t.emitted == Trace(job, env)
  {
    assert t.emitted + [] == t.emitted;
  }

  /** The coded executor never reports a step twice, out of order, out of range
      or over a status it was handed. */
  lemma CodeReportsInOrder(job: Calculation, env: Env)
    requires Fresh(Calc(Created, Statuses(job.steps)), job.pipeline == VEGA)
    ensures var r := ResultSteps(Trace(job, env));
            && (forall i, j | 0 <= i < j < |r| :: r[i] < r[j])
            && (forall i | 0 <= i < |r| :: r[i] < |job.steps| && job.steps[r[i]].status == Unset)
  {
    var t := TraceIsReached(job, env);
    OrderedDelivery(t);
  }

  /** The default loop reports every step that had no status with the outcome of
      its command, no other, and sends an error exactly when one of them failed. */
  lemma {:induction false} LoopReports(steps: seq<Step>, env: Env, i: nat)
    requires i <= |steps|
    ensures forall k: nat, p: Phase :: Result(k, p) in LoopSent(steps, env, i) <==>
              i <= k < |steps| && steps[k].status == Unset && p == Outcome(env, k)
    ensures Error in LoopSent(steps, env, i) <==>
              exists k | i <= k < |steps| :: steps[k].status == Unset && !env.run.ran(k)
    decreases |steps| - i
  {
    if i < |steps| {
      LoopReports(steps, env, i + 1);
    }
  }
}
