/** The life of one Calculation object as a state machine. Four actors work on
    it: the worker's reconciler (w), its executor (e), its result updater (u)
    and the dispatcher's calculation controller (d). Each Get, each Update, each
    send on an unbuffered channel and each delivery by a watch is one step. */
module CalcProtocol {
  import opened Phases
  import opened CalcStore

  // What goes over stepUpdaterChan and calcErrorChan.
  datatype Msg = Result(step: nat, status: Phase) | Error

  // A version number in a program counter is the version that actor last read.
  // `lo` is the oldest version its next read may return: an actor that lost to
  // version r + 1 backs off until its cache has passed r.
  datatype WPc = WQueued | WPool(v: nat) | WSend(v: nat) | WGet(lo: nat) | WUpd(r: nat) | WDone

  datatype EPc =
    | ENew                     // waiting on executeChan, this calculation not yet received
    | ESetup                   // stack limit, temporary directory
    | EInput                   // linking or copying the input files
    | EPipe                    // the pipeline switch
    | ERun                     // top of the step loop
    | EEmit(status: Phase)     // sending a step result
    | EErr(k: EPc)             // sending an error, then going on at k
    | ECopy                    // default pipeline: copying the output files
    | EStore                   // vega: reading fort.7 and storing it
    | ECleanup | EPool
    | EDone                    // back at the receive
    | EDead                    // Run returned

  datatype UPc = UIdle | UGet(m: Msg, lo: nat) | UUpd(m: Msg, r: nat) | UPool
  datatype DPc = DIdle | DGet(v: nat, lo: nat) | DUpd(v: nat, r: nat) | DBulk(v: nat)

  datatype State = State(
    vega: bool,
    store: Store,
    entry: Phase,        // the labelled bulk entry (or the bulk's post-calculation slot)
    cw: nat, cd: nat,    // version held by the watch cache of the worker and of the dispatcher
    dq: bool,            // the object's key is in the dispatcher's deduplicating queue
    w: WPc, e: EPc, u: UPc, d: DPc,
    snap: nat,           // version handed to the executor
    pos: nat,            // loop index of the executor
    emitted: seq<Msg>,   // everything the executor has sent
    handled: seq<Msg>,   // everything the updater has finished with
    faulted: bool        // a setup, file, store, cleanup or status write has failed
  )

  datatype InputOutcome = InputOk | LinkFailed | CopyFailed

  datatype WorkerEvent = WTake | WPooled(ok: bool) | WHandOff | WRead | WWrite

  datatype ExecutorEvent =
    | ESetUp(ok: bool) | EInputs(r: InputOutcome) | EPiped(ok: bool)
    | ESkip | EPrepFails | ECommand(ok: bool) | ELoopEnd
    | ESendResult | ESendError | ECopied(ok: bool) | EStored(ok: bool) | ECleaned(ok: bool) | EPooled

  datatype UpdaterEvent = URead | UWrite | UGiveUp | UPooled

  datatype DispatcherEvent = DTake | DRead | DWrite | DFails | DCopy

  datatype Event =
    | WatchW(v: nat) | WatchD(v: nat)        // a watch delivers version v
    | Worker(we: WorkerEvent)
    | Executor(ee: ExecutorEvent)
    | Updater(ue: UpdaterEvent)
    | Dispatcher(de: DispatcherEvent)

  function Init(c: Calc, vega: bool, entry: Phase): State {
    State(vega, Store([c], []), entry, 0, 0, true, WQueued, ENew, UIdle, DIdle, 0, 0, [], [], false)
  }

  // The step list the executor walks: vega has its own three-step list.
  function StepCount(s: State): nat {
    if s.vega then 3 else |At(s.store, s.snap).steps|
  }

  function StepTodo(s: State): bool {
    s.vega || (s.pos < |At(s.store, s.snap).steps| && At(s.store, s.snap).steps[s.pos] == Unset)
  }

  function MsgWrite(m: Msg): Write {
    match m
    case Result(i, st) => ToStatus(i, st)
    case Error => ToFailed
  }

  // After an error the updater also marks the worker Available.
  function AfterMsg(m: Msg): UPc {
    if m.Error? then UPool else UIdle
  }

  predicate WorkerCan(s: State, ev: WorkerEvent) {
    match ev
    case WTake => s.w.WQueued?
    case WPooled(_) => s.w.WPool?
    case WHandOff => s.w.WSend? && s.e.ENew?
    case WRead => s.w.WGet? && s.w.lo <= s.cw
    case WWrite => s.w.WUpd?
  }

  function DoWorker(s: State, ev: WorkerEvent): State
    requires WorkerCan(s, ev)
  {
    match ev
    case WTake =>
      if At(s.store, s.cw).phase == Created then s.(w := WPool(s.cw)) else s.(w := WDone)
    case WPooled(ok) =>
      if ok then s.(w := WSend(s.w.v)) else s.(w := WQueued)
    case WHandOff => s.(snap := s.w.v, w := WGet(0), e := ESetup)
    case WRead => s.(w := WUpd(s.cw))
    case WWrite =>
      if s.w.r == Top(s.store) then s.(store := CommitFrom(s.store, s.w.r, ToProcessing), w := WDone)
      else s.(w := WGet(s.w.r + 1))
  }

  predicate ExecutorCan(s: State, ev: ExecutorEvent) {
    match ev
    case ESetUp(_) => s.e.ESetup?
    case EInputs(_) => s.e.EInput?
    case EPiped(ok) => s.e.EPipe? && (ok || s.vega)
    case ESkip => s.e.ERun? && s.pos < StepCount(s) && !StepTodo(s)
    case EPrepFails => s.e.ERun? && s.vega && (s.pos == 0 || s.pos == 2)
    case ECommand(_) => s.e.ERun? && s.pos < StepCount(s) && StepTodo(s)
    case ELoopEnd => s.e.ERun? && s.pos >= StepCount(s)
    case ESendResult => s.e.EEmit? && s.u.UIdle?
    case ESendError => s.e.EErr? && s.u.UIdle?
    case ECopied(_) => s.e.ECopy?
    case EStored(_) => s.e.EStore?
    case ECleaned(_) => s.e.ECleanup?
    case EPooled => s.e.EPool?
  }

  function Fail(s: State, k: EPc): State {
    s.(e := EErr(k), faulted := true)
  }

  function DoExecutor(s: State, ev: ExecutorEvent): State
    requires ExecutorCan(s, ev)
  {
    match ev
    case ESetUp(ok) => if ok then s.(e := EInput) else Fail(s, EDone)
    case EInputs(r) =>
      (match r
       case InputOk => s.(e := EPipe)
       case LinkFailed => Fail(s, EPipe)    // the break leaves the file loop only
       case CopyFailed => Fail(s, EDead))   // the return leaves Run
    case EPiped(ok) => if ok then s.(e := ERun) else Fail(s, ECleanup)
    case ESkip => s.(pos := s.pos + 1)
    case EPrepFails => Fail(s, ECleanup)
    case ECommand(ok) => s.(e := EEmit(if ok then Completed else Failed))
    case ELoopEnd => s.(e := if s.vega then EStore else ECopy)
    case ESendResult =>
      var m := Result(s.pos, s.e.status);
      s.(u := UGet(m, 0), emitted := s.emitted + [m], pos := s.pos + 1,
         e := if s.e.status != Failed then ERun else EErr(if s.vega then ECleanup else ERun))
    case ESendError => s.(u := UGet(Error, 0), emitted := s.emitted + [Error], e := s.e.k)
    case ECopied(ok) => if ok then s.(e := ECleanup) else Fail(s, ECleanup)
    case EStored(ok) => if ok then s.(e := ECleanup) else Fail(s, ECleanup)
    case ECleaned(ok) => if ok then s.(e := EPool) else Fail(s, EPool)
    case EPooled => s.(e := EDone)
  }

  predicate UpdaterCan(s: State, ev: UpdaterEvent) {
    match ev
    case URead => s.u.UGet? && s.u.lo <= s.cw
    case UWrite => s.u.UUpd?
    case UGiveUp => s.u.UGet? || s.u.UUpd?
    case UPooled => s.u.UPool?
  }

  function Handled(s: State, m: Msg): seq<Msg> {
    if m.Error? then s.handled else s.handled + [m]
  }

  function DoUpdater(s: State, ev: UpdaterEvent): State
    requires UpdaterCan(s, ev)
  {
    match ev
    case URead => s.(u := UUpd(s.u.m, s.cw))
    case UWrite =>
      if s.u.r == Top(s.store)
      then s.(store := CommitFrom(s.store, s.u.r, MsgWrite(s.u.m)), u := AfterMsg(s.u.m), handled := Handled(s, s.u.m))
      else s.(u := UGet(s.u.m, s.u.r + 1))
    case UGiveUp =>
      s.(u := AfterMsg(s.u.m), handled := Handled(s, s.u.m), faulted := true)
    case UPooled => s.(u := UIdle, handled := s.handled + [Error])
  }

  predicate DispatcherCan(s: State, ev: DispatcherEvent) {
    match ev
    case DTake => s.d.DIdle? && s.dq
    case DRead => s.d.DGet? && s.d.lo <= s.cd
    case DWrite => s.d.DUpd?
    case DFails => !s.d.DIdle?
    case DCopy => s.d.DBulk?
  }

  function DoDispatcher(s: State, ev: DispatcherEvent): State
    requires DispatcherCan(s, ev)
  {
    match ev
    case DTake =>
      s.(dq := false, d := if Finishable(At(s.store, s.cd)) then DGet(s.cd, 0) else DBulk(s.cd))
    case DRead => s.(d := DUpd(s.d.v, s.cd))
    case DWrite =>
      if s.d.r == Top(s.store)
      then s.(store := CommitFrom(s.store, s.d.r, ToFinal(FinalPhase(At(s.store, s.d.v).steps))), d := DBulk(s.d.v))
      else s.(d := DGet(s.d.v, s.d.r + 1))
    // A reconcile that returns an error is queued again.
    case DFails => s.(d := DIdle, dq := true)
    // The phase copied is the one read at the start, not the one just written.
    case DCopy => s.(entry := At(s.store, s.d.v).phase, d := DIdle)
  }

  predicate Enabled(s: State, ev: Event) {
    match ev
    case WatchW(v) => s.cw < v <= Top(s.store)
    case WatchD(v) => s.cd < v <= Top(s.store)
    case Worker(x) => WorkerCan(s, x)
    case Executor(x) => ExecutorCan(s, x)
    case Updater(x) => UpdaterCan(s, x)
    case Dispatcher(x) => DispatcherCan(s, x)
  }

  function Do(s: State, ev: Event): State
    requires Enabled(s, ev)
  {
    match ev
    case WatchW(v) => s.(cw := v)
    // The watch handler adds the key on every update event.
    case WatchD(v) => s.(cd := v, dq := true)
    case Worker(x) => DoWorker(s, x)
    case Executor(x) => DoExecutor(s, x)
    case Updater(x) => DoUpdater(s, x)
    case Dispatcher(x) => DoDispatcher(s, x)
  }

  ghost predicate Step(s: State, s': State) {
    exists ev :: Enabled(s, ev) && s' == Do(s, ev)
  }

  predicate RunOk(s: State, evs: seq<Event>)
    decreases |evs|
  {
    evs == [] || (Enabled(s, evs[0]) && RunOk(Do(s, evs[0]), evs[1..]))
  }

  function Run(s: State, evs: seq<Event>): State
    requires RunOk(s, evs)
    decreases |evs|
  {
    if evs == [] then s else Run(Do(s, evs[0]), evs[1..])
  }

  // Every interleaving of the actors, from a fresh object.
  ghost predicate Reachable(s: State) {
    exists c: Calc, vega: bool, entry: Phase, evs: seq<Event> ::
      Fresh(c, vega) && RunOk(Init(c, vega, entry), evs) && s == Run(Init(c, vega, entry), evs)
  }

  // Nothing is left to do.
  predicate Quiescent(s: State) {
    && s.w.WDone?
    && (s.e.EDone? || s.e.EDead?)
    && s.u.UIdle?
    && s.d.DIdle? && !s.dq && s.cd == Top(s.store)
  }
}
