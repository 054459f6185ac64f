/** The Get-modify-Update loops of pkg/worker/controller.go and
    pkg/dispatcher/calculations/controller.go, step by step on one object of the
    API server, and what they amount to: one atomic write, or none. */
module RetryLoops {
  import Objects
  import opened Phases
  import opened CalcStore
  import opened CalcProtocol
  import opened CalcTheorems

  // One turn of a retry loop: what the others commit before the Get, how many
  // versions the cache that answers it lags behind, and what the others commit
  // between the Get and the Update. A failed request ends the loop.
  datatype Turn = Turn(before: seq<Write>, lag: nat, between: seq<Write>) | RequestFails

  function CommitAll(st: Store, ws: seq<Write>): Store
    decreases |ws|
  {
    if ws == [] then st else CommitAll(Commit(st, ws[0]), ws[1..])
  }

  // The version a Get returns, from a cache that lags.
  function VersionRead(st: Store, lag: nat): nat {
    if lag <= Top(st) then Top(st) - lag else 0
  }

  // The turn's Update is against the newest version.
  predicate Lands(st: Store, t: Turn) {
    t.Turn? && VersionRead(CommitAll(st, t.before), t.lag) == Top(CommitAll(st, t.before)) && t.between == []
  }

  // The object after the loop, with the write made at most once.
  function AfterLoop(st: Store, w: Write, turns: seq<Turn>): Store
    decreases |turns|
  {
    if turns == [] || turns[0].RequestFails? then st
    else if Lands(st, turns[0]) then Commit(CommitAll(st, turns[0].before), w)
    else AfterLoop(CommitAll(CommitAll(st, turns[0].before), turns[0].between), w, turns[1..])
  }

  predicate LoopLands(st: Store, w: Write, turns: seq<Turn>)
    decreases |turns|
  {
    turns != [] && turns[0].Turn? &&
    (Lands(st, turns[0]) || LoopLands(CommitAll(CommitAll(st, turns[0].before), turns[0].between), w, turns[1..]))
  }

  // One version for every write, and the one before them.
  predicate Numbered(st: Store) {
    |st.hist| == |st.log| + 1
  }

  lemma {:induction false} CommitAllSound(st: Store, ws: seq<Write>)
    requires Numbered(st)
    ensures Numbered(CommitAll(st, ws)) && Top(CommitAll(st, ws)) == Top(st) + |ws|
    decreases |ws|
  {
    if ws != [] {
      CommitAllSound(Commit(st, ws[0]), ws[1..]);
    }
  }

  class ApiObject {
    var hist: seq<Calc>
    ghost var log: seq<Write>

    ghost function Contents(): Store
      reads this
    {
      Store(hist, log)
    }

    constructor (c: Calc)
      ensures Contents() == Store([c], [])
    {
      hist := [c];
      log := [];
    }

    method Get(lag: nat) returns (c: Calc, version: nat)
      requires Numbered(Contents())
      ensures version == VersionRead(Contents(), lag) && c == At(Contents(), version)
    {
      version := if lag < |hist| then |hist| - 1 - lag else 0;
      c := hist[version];
    }

    // A write against any version but the newest is a conflict.
    method Update(c: Calc, version: nat, ghost w: Write) returns (ok: bool)
      requires Numbered(Contents()) && version <= Top(Contents())
      requires c == Apply(w, At(Contents(), version))
      modifies this
      ensures ok <==> version == Top(old(Contents()))
      ensures Contents() == if ok then Commit(old(Contents()), w) else old(Contents())
    {
      ok := version == |hist| - 1;
      if ok {
        hist, log := hist + [c], log + [w];
      }
    }

    // Any other actors.
    method Others(ws: seq<Write>)
      requires Numbered(Contents())
      modifies this
      ensures Contents() == CommitAll(old(Contents()), ws)
    {
      for i := 0 to |ws|
        invariant Numbered(Contents()) && CommitAll(Contents(), ws[i..]) == CommitAll(old(Contents()), ws)
      {
        assert ws[i..][1..] == ws[i + 1..];
        var ok := Update(Apply(ws[i], hist[|hist| - 1]), |hist| - 1, ws[i]);
      }
    }

    /** retry.RetryOnConflict around Get, modify, Update, for any bound on the
        number of turns: whatever the others do meanwhile, the object is as if
        the write had been made in one atomic step, at most once, and the loop
        reports success exactly when it was made. */
    method Modify(w: Write, turns: seq<Turn>) returns (ok: bool)
      requires Numbered(Contents())
      modifies this
      ensures Numbered(Contents())
      ensures Contents() == AfterLoop(old(Contents()), w, turns)
      ensures ok <==> LoopLands(old(Contents()), w, turns)
    {
      for i := 0 to |turns|
        invariant Numbered(Contents())
        invariant AfterLoop(Contents(), w, turns[i..]) == AfterLoop(old(Contents()), w, turns)
        invariant LoopLands(Contents(), w, turns[i..]) == LoopLands(old(Contents()), w, turns)
      {
        ghost var st := Contents();
        assert turns[i..][0] == turns[i] && turns[i..][1..] == turns[i + 1..];
        match turns[i]
        case RequestFails =>
          return false;
        case Turn(before, lag, between) =>
          CommitAllSound(st, before);
          Others(before);
          var calculation, version := Get(lag);
          CommitAllSound(Contents(), between);
          ghost var read := Contents();
          Others(between);
          KeptVersions(read, between, version);
          calculation := Apply(w, calculation);
          ok := Update(calculation, version, w);
          if ok {
            return;
          }
      }
      ok := false;
    }

    // updateErrorCalculation and updateCalculation, for one message
    method Handle(m: Msg, turns: seq<Turn>) returns (ok: bool)
      requires Numbered(Contents())
      modifies this
      ensures Numbered(Contents())
      ensures Contents() == AfterLoop(old(Contents()), MsgWrite(m), turns)
      ensures ok <==> LoopLands(old(Contents()), MsgWrite(m), turns)
    {
      match m
      case Result(step, status) =>
        ok := Modify(ToStatus(step, status), turns);
      case Error =>
        ok := Modify(ToFailed, turns);
    }
  }

  // What the select of the updater takes next: a message, with the turns its
  // retry loop takes and the outcome of the pool update, or the stop signal.
  datatype Input = Received(m: Msg, turns: seq<Turn>, pooled: bool) | Stop

  class ResultUpdater {
    const target: ApiObject
    var mark: Objects.WorkerState    // the worker's entry in its pool

    constructor (target: ApiObject, mark: Objects.WorkerState)
      ensures this.target == target && this.mark == mark
    {
      this.target, this.mark := target, mark;
    }

    // One message; a failed write is only logged.
    method Answer(m: Msg, turns: seq<Turn>, pooled: bool) returns (ok: bool)
      requires Numbered(target.Contents())
      modifies this, target
      ensures Numbered(target.Contents())
      ensures target.Contents() == AfterLoop(old(target.Contents()), MsgWrite(m), turns)
      ensures ok <==> LoopLands(old(target.Contents()), MsgWrite(m), turns)
      ensures mark == if m.Error? && pooled then Objects.Available else old(mark)
    {
      ok := target.Handle(m, turns);
      if m.Error? && pooled {
        mark := Objects.Available;
      }
    }

    /** resultUpdater. A write that gives up is logged and the loop goes on; an
        error also marks the worker Available, whether or not the object could be
        written; the stop signal ends the loop. */
    method Run(inputs: seq<Input>) returns (landed: seq<Msg>)
      requires Numbered(target.Contents())
      modifies this, target
      ensures Numbered(target.Contents())
      ensures target.Contents() == AfterMessages(old(target.Contents()), inputs)
      ensures landed == Landed(old(target.Contents()), inputs)
      ensures mark == if Answered(inputs) then Objects.Available else old(mark)
    {
      landed := [];
      ghost var st0, mark0 := target.Contents(), mark;
      assert inputs[0..] == inputs && [] + Landed(st0, inputs) == Landed(st0, inputs);
      for i := 0 to |inputs|
        invariant Numbered(target.Contents())
        invariant Continues(target.Contents(), landed, mark, inputs[i..], st0, mark0, inputs)
      {
        match inputs[i]
        case Stop =>
          Stopped(target.Contents(), landed, mark, inputs[i..], st0, mark0, inputs);
          return;
        case Received(m, turns, pooled) =>
          NextInput(target.Contents(), landed, mark, inputs, i, st0, mark0);
          var ok := Answer(m, turns, pooled);
          if ok {
            landed := landed + [m];
          }
      }
      Stopped(target.Contents(), landed, mark, inputs[|inputs|..], st0, mark0, inputs);
    }
  }

  // Commits leave older versions alone.
  lemma {:induction false} KeptVersions(st: Store, ws: seq<Write>, v: nat)
    requires Numbered(st) && v <= Top(st)
    ensures At(CommitAll(st, ws), v) == At(st, v)
    decreases |ws|
  {
    if ws != [] {
      KeptVersions(Commit(st, ws[0]), ws[1..], v);
    }
  }

  function AfterMessages(st: Store, inputs: seq<Input>): Store
    decreases |inputs|
  {
    if inputs == [] || inputs[0].Stop? then st
    else AfterMessages(AfterLoop(st, MsgWrite(inputs[0].m), inputs[0].turns), inputs[1..])
  }

  function Landed(st: Store, inputs: seq<Input>): seq<Msg>
    decreases |inputs|
  {
    if inputs == [] || inputs[0].Stop? then []
    else (if LoopLands(st, MsgWrite(inputs[0].m), inputs[0].turns) then [inputs[0].m] else []) +
         Landed(AfterLoop(st, MsgWrite(inputs[0].m), inputs[0].turns), inputs[1..])
  }

  // Some error before the stop was answered by a pool update that succeeded.
  predicate Answered(inputs: seq<Input>)
    decreases |inputs|
  {
    inputs != [] && inputs[0].Received? && ((inputs[0].m.Error? && inputs[0].pooled) || Answered(inputs[1..]))
  }

  // What is left to do leads to where everything did.
  ghost predicate Continues(st: Store, landed: seq<Msg>, mark: Objects.WorkerState, rest: seq<Input>,
      st0: Store, mark0: Objects.WorkerState, all: seq<Input>) {
    && AfterMessages(st, rest) == AfterMessages(st0, all)
    && landed + Landed(st, rest) == Landed(st0, all)
    && (if Answered(rest) then Objects.Available else mark) == if Answered(all) then Objects.Available else mark0
  }

  lemma Stopped(st: Store, landed: seq<Msg>, mark: Objects.WorkerState, rest: seq<Input>,
      st0: Store, mark0: Objects.WorkerState, all: seq<Input>)
    requires Continues(st, landed, mark, rest, st0, mark0, all) && (rest == [] || rest[0].Stop?)
    ensures st == AfterMessages(st0, all) && landed == Landed(st0, all)
    ensures mark == if Answered(all) then Objects.Available else mark0
  {
    assert landed + [] == landed;
  }

  lemma NextInput(st: Store, landed: seq<Msg>, mark: Objects.WorkerState, inputs: seq<Input>, i: nat,
      st0: Store, mark0: Objects.WorkerState)
    requires i < |inputs| && inputs[i].Received?
    requires Continues(st, landed, mark, inputs[i..], st0, mark0, inputs)
    ensures var (m, turns) := (inputs[i].m, inputs[i].turns);
            Continues(AfterLoop(st, MsgWrite(m), turns),
                      if LoopLands(st, MsgWrite(m), turns) then landed + [m] else landed,
                      if m.Error? && inputs[i].pooled then Objects.Available else mark,
                      inputs[i + 1..], st0, mark0, inputs)
  {
    var (m, turns) := (inputs[i].m, inputs[i].turns);
    assert inputs[i..][0] == inputs[i] && inputs[i..][1..] == inputs[i + 1..];
    var rest := Landed(AfterLoop(st, MsgWrite(m), turns), inputs[i + 1..]);
    assert (landed + [m]) + rest == landed + ([m] + rest);
    assert [] + rest == rest;
  }

  // ----- What the loops keep -----

  lemma {:induction false} CommitAllChained(st: Store, ws: seq<Write>)
    requires Chained(st)
    ensures Chained(CommitAll(st, ws)) && CommitAll(st, ws).log == st.log + ws
    ensures At(CommitAll(st, ws), 0) == At(st, 0)
    decreases |ws|
  {
    if ws == [] {
      assert st.log + ws == st.log;
    } else {
      assert st.hist[|st.log|] == Cur(st);
      CommitAllChained(Commit(st, ws[0]), ws[1..]);
      assert st.log + ws == (st.log + [ws[0]]) + ws[1..];
    }
  }

  // What the others committed during the loop.
  function Between(st: Store, turns: seq<Turn>): seq<Write>
    decreases |turns|
  {
    if turns == [] || turns[0].RequestFails? then []
    else if Lands(st, turns[0]) then turns[0].before
    else turns[0].before + (turns[0].between +
         Between(CommitAll(CommitAll(st, turns[0].before), turns[0].between), turns[1..]))
  }

  /** One loop commits its write once, after everything the others committed
      meanwhile, or not at all; the result is the replay of all commits in order,
      so no write of anyone is lost. */
  lemma {:induction false} LoopIsOneWrite(st: Store, w: Write, turns: seq<Turn>)
    requires Chained(st)
    ensures Chained(AfterLoop(st, w, turns)) && At(AfterLoop(st, w, turns), 0) == At(st, 0)
    ensures AfterLoop(st, w, turns).log
         == st.log + (Between(st, turns) + if LoopLands(st, w, turns) then [w] else [])
    decreases |turns|
  {
    if turns == [] || turns[0].RequestFails? {
      assert st.log + ([] + []) == st.log;
    } else {
      var t := turns[0];
      var st1 := CommitAll(st, t.before);
      CommitAllChained(st, t.before);
      if Lands(st, t) {
        assert st1.hist[|st1.log|] == Cur(st1);
        assert (st.log + t.before) + [w] == st.log + (t.before + [w]);
      } else {
        var st2 := CommitAll(st1, t.between);
        CommitAllChained(st1, t.between);
        LoopIsOneWrite(st2, w, turns[1..]);
        Regroup(st.log, t.before, t.between, Between(st2, turns[1..]), if LoopLands(st2, w, turns[1..]) then [w] else []);
      }
    }
  }

  lemma Regroup<T>(a: seq<T>, b: seq<T>, c: seq<T>, d: seq<T>, e: seq<T>)
    ensures ((a + b) + c) + (d + e) == a + ((b + (c + d)) + e)
  {
  }

  lemma LoopReplays(st: Store, w: Write, turns: seq<Turn>)
    requires Chained(st)
    ensures var end := AfterLoop(st, w, turns); Cur(end) == Replay(At(st, 0), end.log)
  {
    var end := AfterLoop(st, w, turns);
    LoopIsOneWrite(st, w, turns);
    ReplayPrefix(end, Top(end));
    assert end.log[..Top(end)] == end.log;
  }

  // ----- The updater against writers of phases -----

  // The statuses of the results among some messages, in their order.
  function SetStatuses(steps: seq<Phase>, msgs: seq<Msg>): seq<Phase>
    decreases |msgs|
  {
    if msgs == [] then steps
    else match msgs[0]
      case Error => SetStatuses(steps, msgs[1..])
      case Result(i, p) => SetStatuses(if i < |steps| then steps[i := p] else steps, msgs[1..])
  }

  predicate PhaseWrites(ws: seq<Write>) {
    forall i | 0 <= i < |ws| :: WritesPhase(ws[i])
  }

  predicate PhaseTurns(turns: seq<Turn>) {
    forall i | 0 <= i < |turns| && turns[i].Turn? :: PhaseWrites(turns[i].before) && PhaseWrites(turns[i].between)
  }

  lemma {:induction false} PhaseWritesKeepSteps(st: Store, ws: seq<Write>)
    requires Numbered(st) && PhaseWrites(ws)
    ensures Cur(CommitAll(st, ws)).steps == Cur(st).steps && Numbered(CommitAll(st, ws))
    decreases |ws|
  {
    if ws != [] {
      CommitShape(st, ws[0]);
      assert WritesPhase(ws[0]);
      assert PhaseWrites(ws[1..]);
      PhaseWritesKeepSteps(Commit(st, ws[0]), ws[1..]);
    }
  }

  lemma {:induction false} LoopSteps(st: Store, m: Msg, turns: seq<Turn>)
    requires Numbered(st) && PhaseTurns(turns)
    ensures Numbered(AfterLoop(st, MsgWrite(m), turns))
    ensures Cur(AfterLoop(st, MsgWrite(m), turns)).steps
         == SetStatuses(Cur(st).steps, if LoopLands(st, MsgWrite(m), turns) then [m] else [])
    decreases |turns|
  {
    if turns != [] && turns[0].Turn? {
      var t := turns[0];
      var st1 := CommitAll(st, t.before);
      PhaseWritesKeepSteps(st, t.before);
      if Lands(st, t) {
        CommitShape(st1, MsgWrite(m));
        assert [m][1..] == [];
      } else {
        PhaseWritesKeepSteps(st1, t.between);
        assert PhaseTurns(turns[1..]);
        LoopSteps(CommitAll(st1, t.between), m, turns[1..]);
      }
    }
  }

  /** While every other writer writes phases only, the step statuses after the
      updater's loop are the old ones overwritten by exactly the results whose
      loop reported success, in the order received: phase writes erase none, and
      a message whose loop gave up leaves no trace. */
  lemma {:induction false} UpdaterStatuses(st: Store, inputs: seq<Input>)
    requires Numbered(st) && forall i | 0 <= i < |inputs| && inputs[i].Received? :: PhaseTurns(inputs[i].turns)
    ensures Cur(AfterMessages(st, inputs)).steps == SetStatuses(Cur(st).steps, Landed(st, inputs))
    decreases |inputs|
  {
    if inputs != [] && inputs[0].Received? {
      var m, turns := inputs[0].m, inputs[0].turns;
      var st1 := AfterLoop(st, MsgWrite(m), turns);
      LoopSteps(st, m, turns);
      UpdaterStatuses(st1, inputs[1..]);
      SetStatusesAppend(Cur(st).steps, if LoopLands(st, MsgWrite(m), turns) then [m] else [], Landed(st1, inputs[1..]));
    }
  }

  lemma SetStatusesAppend(steps: seq<Phase>, ms: seq<Msg>, rest: seq<Msg>)
    requires |ms| <= 1
    ensures SetStatuses(steps, ms + rest) == SetStatuses(SetStatuses(steps, ms), rest)
  {
    if ms == [] {
      assert ms + rest == rest;
    } else {
      assert (ms + rest)[1..] == rest;
      assert ms[1..] == [];
    }
  }

  // ----- The worker's reconciler -----

  class WorkerReconciler {
    const target: ApiObject
    var handed: seq<Calc>    // what went over executeChan

    constructor (target: ApiObject)
      ensures this.target == target && handed == []
    {
      this.target := target;
      handed := [];
    }

    /** One reconcile of an object assigned to this host. `pooled` is whether the
        worker could be marked Processing in its pool. The object is handed to
        the executor before the phase is written: when the write gives up the
        reconcile fails, and it is queued again with the hand-off already made. */
    method Reconcile(lag: nat, mine: bool, pooled: bool, meanwhile: seq<Write>, turns: seq<Turn>) returns (ok: bool)
      requires Numbered(target.Contents())
      modifies this, target
      ensures Numbered(target.Contents())
      ensures var st := old(target.Contents());
              var c := At(st, VersionRead(st, lag));
              if !mine || c.phase != Created then
                ok && target.Contents() == st && handed == old(handed)
              else if !pooled then
                !ok && target.Contents() == st && handed == old(handed)
              else
                && handed == old(handed) + [c]
                && target.Contents() == AfterLoop(CommitAll(st, meanwhile), ToProcessing, turns)
                && (ok <==> LoopLands(CommitAll(st, meanwhile), ToProcessing, turns))
    {
      var calculation, _ := target.Get(lag);
      if mine && calculation.phase == Created {
        if !pooled {
          return false;
        }
        handed := handed + [calculation];
        CommitAllSound(target.Contents(), meanwhile);
        target.Others(meanwhile);
        ok := target.Modify(ToProcessing, turns);
      } else {
        ok := true;
      }
    }
  }

  // ----- When the loop gives up, and what it leaves -----

  // Turn i is reached, reads the newest version and is not overtaken. With a
  // single version there is no older one to read.
  predicate LandsAt(st: Store, turns: seq<Turn>, i: nat) {
    && i < |turns| && InForce(turns, i)
    && turns[i].between == []
    && (turns[i].lag == 0 || (i == 0 && Top(st) == 0 && turns[0].before == []))
  }

  // No request has failed up to turn i.
  predicate InForce(turns: seq<Turn>, i: nat)
    requires i < |turns|
  {
    forall j | 0 <= j <= i :: turns[j].Turn?
  }

  /** The write is made exactly if, before the first failed request, some turn
      reads the newest version and nobody commits before its Update. */
  lemma {:induction false} LandsExactly(st: Store, w: Write, turns: seq<Turn>)
    requires Numbered(st)
    ensures LoopLands(st, w, turns) <==> exists i: nat :: LandsAt(st, turns, i)
    decreases |turns|
  {
    if turns != [] && turns[0].Turn? {
      var t := turns[0];
      var st1 := CommitAll(st, t.before);
      CommitAllSound(st, t.before);
      if Lands(st, t) {
        assert LandsAt(st, turns, 0);
      } else {
        CommitAllSound(st1, t.between);
        LandsExactly(CommitAll(st1, t.between), w, turns[1..]);
        LandsLater(st, turns);
      }
    }
  }

  lemma LandsLater(st: Store, turns: seq<Turn>)
    requires Numbered(st) && turns != [] && turns[0].Turn? && !Lands(st, turns[0])
    ensures var st2 := CommitAll(CommitAll(st, turns[0].before), turns[0].between);
            (exists i: nat :: LandsAt(st, turns, i)) <==> exists i: nat :: LandsAt(st2, turns[1..], i)
  {
    var t := turns[0];
    CommitAllSound(st, t.before);
    CommitAllSound(CommitAll(st, t.before), t.between);
    var st2 := CommitAll(CommitAll(st, t.before), t.between);
    if i: nat :| LandsAt(st, turns, i) {
      assert i > 0;
      InForceTail(turns, i);
      assert LandsAt(st2, turns[1..], i - 1);
    }
    if i: nat :| LandsAt(st2, turns[1..], i) {
      InForceTail(turns, i + 1);
      assert turns[1..][i] == turns[i + 1];
      assert LandsAt(st, turns, i + 1);
    }
  }

  lemma InForceTail(turns: seq<Turn>, i: nat)
    requires 0 < i < |turns| && turns[0].Turn?
    ensures InForce(turns, i) <==> InForce(turns[1..], i - 1)
  {
    if InForce(turns[1..], i - 1) {
      forall j | 0 <= j <= i
        ensures turns[j].Turn?
      {
        assert j > 0 ==> turns[j] == turns[1..][j - 1];
      }
    }
  }

  // Everything the others commit before the first failed request is a status.
  predicate OnlyStatuses(turns: seq<Turn>) {
    forall i | 0 <= i < |turns| && InForce(turns, i) :: StatusWrites(turns[i].before) && StatusWrites(turns[i].between)
  }

  predicate StatusWrites(ws: seq<Write>) {
    forall i | 0 <= i < |ws| :: ws[i].ToStatus?
  }

  // The dispatcher writes outcomes.
  predicate FinalsAreOutcomes(turns: seq<Turn>) {
    forall i | 0 <= i < |turns| && turns[i].Turn? :: OutcomeWrites(turns[i].before) && OutcomeWrites(turns[i].between)
  }

  predicate OutcomeWrites(ws: seq<Write>) {
    forall i | 0 <= i < |ws| && ws[i].ToFinal? :: IsOutcome(ws[i].phase)
  }

  // Created is left by the first write that is not a status, and for good.
  lemma {:induction false} CreatedAfter(st: Store, ws: seq<Write>)
    requires Numbered(st) && OutcomeWrites(ws)
    ensures Numbered(CommitAll(st, ws))
    ensures Cur(CommitAll(st, ws)).phase == Created <==> Cur(st).phase == Created && StatusWrites(ws)
    decreases |ws|
  {
    if ws != [] {
      CommitShape(st, ws[0]);
      forall i | 0 <= i < |ws[1..]| && ws[1..][i].ToFinal?
        ensures IsOutcome(ws[1..][i].phase)
      {
        assert ws[1..][i] == ws[i + 1];
      }
      CreatedAfter(Commit(st, ws[0]), ws[1..]);
      assert StatusWrites(ws) <==> ws[0].ToStatus? && StatusWrites(ws[1..]) by {
        assert forall i | 0 < i < |ws| :: ws[i] == ws[1..][i - 1];
      }
    }
  }

  lemma OnlyStatusesTail(turns: seq<Turn>)
    requires turns != [] && turns[0].Turn?
    ensures OnlyStatuses(turns) <==>
              StatusWrites(turns[0].before) && StatusWrites(turns[0].between) && OnlyStatuses(turns[1..])
  {
    forall i | 0 < i < |turns|
      ensures InForce(turns, i) <==> InForce(turns[1..], i - 1)
    {
      InForceTail(turns, i);
    }
    if OnlyStatuses(turns) {
      assert InForce(turns, 0);
      forall i | 0 <= i < |turns[1..]| && InForce(turns[1..], i)
        ensures StatusWrites(turns[1..][i].before) && StatusWrites(turns[1..][i].between)
      {
        InForceTail(turns, i + 1);
        assert turns[1..][i] == turns[i + 1];
      }
    }
    if StatusWrites(turns[0].before) && StatusWrites(turns[0].between) && OnlyStatuses(turns[1..]) {
      forall i | 0 <= i < |turns| && InForce(turns, i)
        ensures StatusWrites(turns[i].before) && StatusWrites(turns[i].between)
      {
        if i > 0 {
          InForceTail(turns, i);
          assert turns[1..][i - 1] == turns[i];
        }
      }
    }
  }

  /** When an object can be executed twice: after the hand-off it is left Created,
      for the next reconcile to hand out again, exactly when no turn of the loop
      lands and nobody meanwhile wrote anything but step statuses. An error
      written meanwhile makes it Failed for good instead. */
  lemma {:induction false} HandedOutAgain(st: Store, turns: seq<Turn>)
    requires Numbered(st) && FinalsAreOutcomes(turns)
    ensures Cur(AfterLoop(st, ToProcessing, turns)).phase == Created <==>
              Cur(st).phase == Created && (forall i: nat :: !LandsAt(st, turns, i)) && OnlyStatuses(turns)
  {
    LandsExactly(st, ToProcessing, turns);
    LeftCreated(st, turns);
  }

  lemma {:induction false} LeftCreated(st: Store, turns: seq<Turn>)
    requires Numbered(st) && FinalsAreOutcomes(turns)
    ensures Cur(AfterLoop(st, ToProcessing, turns)).phase == Created <==>
              Cur(st).phase == Created && !LoopLands(st, ToProcessing, turns) && OnlyStatuses(turns)
    decreases |turns|
  {
    if turns != [] && turns[0].Turn? {
      var t := turns[0];
      var st1 := CommitAll(st, t.before);
      CreatedAfter(st, t.before);
      if Lands(st, t) {
        CommitShape(st1, ToProcessing);
      } else {
        CreatedAfter(st1, t.between);
        assert FinalsAreOutcomes(turns[1..]) by {
          assert forall i | 0 <= i < |turns[1..]| :: turns[1..][i] == turns[i + 1];
        }
        LeftCreated(CommitAll(st1, t.between), turns[1..]);
        OnlyStatusesTail(turns);
      }
    }
  }

  /** Two reconciles that hand out the same object: the first one's loop gives up
      on a request that fails. */
  method HandOutTwice(c: Calc) returns (r: WorkerReconciler, first: bool, second: bool)
    requires c.phase == Created
    ensures !first && second && r.handed == [c, c]
    ensures r.target.Contents() == Store([c, Apply(ToProcessing, c)], [ToProcessing])
  {
    var o := new ApiObject(c);
    r := new WorkerReconciler(o);
    first := r.Reconcile(0, true, true, [], [RequestFails]);
    assert CommitAll(Store([c], []), []) == Store([c], []);
    second := r.Reconcile(0, true, true, [], [Turn([], 0, [])]);
    assert Lands(Store([c], []), Turn([], 0, []));
  }
}
