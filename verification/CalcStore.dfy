/** One Calculation object as the API server keeps it: every version it ever
    had, and the write that made each version out of the one before. A write is
    committed only against the newest version, so `log` is the commit order. */
module CalcStore {
  import opened Phases

  datatype Calc = Calc(phase: Phase, steps: seq<Phase>)

  datatype Write =
    | ToProcessing                            // worker reconciler, after the hand-off
    | ToFailed                                // result updater, on an error message
    | ToStatus(step: nat, status: Phase)      // result updater, on a step result
    | ToFinal(phase: Phase)                   // dispatcher, when every step has a status

  datatype Store = Store(hist: seq<Calc>, log: seq<Write>)

  function Apply(w: Write, c: Calc): Calc {
    match w
    case ToProcessing => c.(phase := Processing)
    case ToFailed => c.(phase := Failed)
    case ToFinal(p) => c.(phase := p)
    case ToStatus(i, st) =>
      // An index out of range panics in the worker; `Legal` rules it out.
      if i < |c.steps| then c.(steps := c.steps[i := st]) else c
  }

  function At(st: Store, v: nat): Calc {
    if v < |st.hist| then st.hist[v] else Calc(Unset, [])
  }

  function Top(st: Store): nat {
    if |st.hist| == 0 then 0 else |st.hist| - 1
  }

  function Cur(st: Store): Calc {
    At(st, Top(st))
  }

  // Storing version r with w applied as the newest version. Whatever was
  // committed after r is gone from it.
  function CommitFrom(st: Store, r: nat, w: Write): Store {
    Store(st.hist + [Apply(w, At(st, r))], st.log + [w])
  }

  function Commit(st: Store, w: Write): Store {
    CommitFrom(st, Top(st), w)
  }

  // What the dispatcher looks for before it writes a final phase.
  predicate Finishable(c: Calc) {
    c.phase == Processing && Finished(c.steps)
  }

  // Statuses, once set, are kept.
  ghost predicate Keeps(a: Calc, b: Calc) {
    |a.steps| == |b.steps| &&
    forall i | 0 <= i < |a.steps| :: a.steps[i] != Unset ==> b.steps[i] == a.steps[i]
  }

  ghost predicate Fresh(c: Calc, vega: bool) {
    && c.phase == Created
    && AllStatuses(c.steps)
    && (vega ==> |c.steps| == 3 && forall i | 0 <= i < 3 :: c.steps[i] == Unset)
  }

  // What the four writers guarantee of the writes they commit.
  ghost predicate Legal(st: Store, w: Write) {
    match w
    case ToProcessing => ToProcessing !in st.log
    case ToFailed => true
    case ToStatus(i, s) => i < |Cur(st).steps| && Cur(st).steps[i] == Unset && IsOutcome(s)
    case ToFinal(p) => exists v | 0 <= v < |st.hist| :: Finishable(st.hist[v]) && p == FinalPhase(st.hist[v].steps)
  }

  // Every version is its predecessor with exactly one committed write applied.
  ghost predicate Chained(st: Store) {
    && |st.hist| == |st.log| + 1
    && forall k | 0 <= k < |st.log| :: st.hist[k + 1] == Apply(st.log[k], st.hist[k])
  }

  predicate WritesPhase(w: Write) {
    !w.ToStatus?
  }

  ghost predicate StatusesKept(st: Store) {
    && (forall v | 0 <= v < |st.hist| :: AllStatuses(st.hist[v].steps))
    && (forall u, v | 0 <= u <= v < |st.hist| :: Keeps(st.hist[u], st.hist[v]))
  }

  // A status is written at most once per step, in range, and is an outcome.
  ghost predicate StatusWritesLegal(st: Store)
    requires |st.hist| == |st.log| + 1
  {
    forall k | 0 <= k < |st.log| && st.log[k].ToStatus? ::
      && st.log[k].step < |st.hist[k].steps|
      && st.hist[k].steps[st.log[k].step] == Unset
      && IsOutcome(st.log[k].status)
  }

  ghost predicate ProcessingOnce(st: Store) {
    forall i, j | 0 <= i < j < |st.log| :: !(st.log[i] == ToProcessing && st.log[j] == ToProcessing)
  }

  // Processing and Completed are reached only after the worker wrote Processing.
  ghost predicate ProcessingFirst(st: Store)
    requires |st.hist| == |st.log| + 1
  {
    forall v | 0 <= v < |st.hist| && (st.hist[v].phase == Processing || st.hist[v].phase == Completed) ::
      ToProcessing in st.log[..v]
  }

  ghost predicate CreatedUntouched(st: Store)
    requires |st.hist| == |st.log| + 1
  {
    forall v | 0 <= v < |st.hist| ::
      st.hist[v].phase == Created <==> forall k | 0 <= k < v :: st.log[k].ToStatus?
  }

  ghost predicate FinalLate(st: Store)
    requires |st.hist| == |st.log| + 1
  {
    forall k | 0 <= k < |st.log| && st.log[k].ToFinal? ::
      && ToProcessing in st.log[..k]
      && Finished(st.hist[k].steps)
      && st.log[k].phase == FinalPhase(st.hist[k].steps)
  }

  // Every final write was computed on a version that passed the dispatcher's test.
  ghost predicate FinalRead(st: Store)
    requires |st.hist| == |st.log| + 1
  {
    forall k | 0 <= k < |st.log| && st.log[k].ToFinal? :: exists v | 0 <= v <= k :: Finishable(st.hist[v])
  }

  ghost predicate KnownPhases(st: Store) {
    forall v | 0 <= v < |st.hist| ::
      var p := st.hist[v].phase; p == Created || p == Processing || p == Completed || p == Failed
  }

  ghost predicate CompletedSound(st: Store) {
    forall v | 0 <= v < |st.hist| && st.hist[v].phase == Completed ::
      Finished(st.hist[v].steps) && !HasFailed(st.hist[v].steps)
  }

  // At most one version is both Processing and finished, so the dispatcher
  // finalises on one read only.
  ghost predicate OneFinishable(st: Store) {
    forall u, v | 0 <= u < v < |st.hist| :: !(Finishable(st.hist[u]) && Finishable(st.hist[v]))
  }

  ghost predicate FailedAfterProcessing(log: seq<Write>) {
    exists i, j | 0 <= i < j < |log| :: log[i] == ToProcessing && log[j] == ToFailed
  }

  // A final write was committed, and no error after it.
  ghost predicate FinalLast(log: seq<Write>) {
    exists k | 0 <= k < |log| :: log[k].ToFinal? && forall j | k < j < |log| :: log[j] != ToFailed
  }

  // Without a final write the phase is decided by the order of the two others.
  ghost predicate PhaseByOrder(st: Store) {
    (forall k | 0 <= k < |st.log| :: !st.log[k].ToFinal?) && ToProcessing in st.log ==>
      Cur(st).phase == if FailedAfterProcessing(st.log) then Failed else Processing
  }

  ghost predicate StoreInv(st: Store) {
    && Chained(st)
    && AllStatuses(st.hist[0].steps)
    && StatusesKept(st)
    && StatusWritesLegal(st)
    && ProcessingOnce(st)
    && ProcessingFirst(st)
    && CreatedUntouched(st)
    && FinalLate(st)
    && FinalRead(st)
    && KnownPhases(st)
    && CompletedSound(st)
    && OneFinishable(st)
    && PhaseByOrder(st)
  }

  lemma FreshStoreInv(c: Calc, vega: bool)
    requires Fresh(c, vega)
    ensures StoreInv(Store([c], []))
  {
  }

  lemma CommitShape(st: Store, w: Write)
    requires |st.hist| == |st.log| + 1
    ensures Top(Commit(st, w)) == Top(st) + 1
    ensures Cur(Commit(st, w)) == Apply(w, Cur(st))
    ensures |Commit(st, w).hist| == |Commit(st, w).log| + 1
    ensures At(Commit(st, w), 0) == At(st, 0)
    ensures forall v | 0 <= v <= Top(st) :: At(Commit(st, w), v) == At(st, v)
    ensures forall x: Write :: x in Commit(st, w).log <==> x in st.log || x == w
  {
  }

  lemma KeepsTransitive(a: Calc, b: Calc, c: Calc)
    requires Keeps(a, b) && Keeps(b, c)
    ensures Keeps(a, c)
  {
  }

  // A finished version fixes the statuses of every later one.
  lemma FinishedFixes(st: Store, u: nat, v: nat)
    requires Chained(st) && StatusesKept(st) && u <= v < |st.hist| && Finished(st.hist[u].steps)
    ensures st.hist[v].steps == st.hist[u].steps
  {
    assert Keeps(st.hist[u], st.hist[v]);
  }

  lemma ApplyKeeps(st: Store, w: Write)
    requires |st.hist| > 0 && Legal(st, w)
    ensures Keeps(Cur(st), Apply(w, Cur(st)))
    ensures AllStatuses(Cur(st).steps) ==> AllStatuses(Apply(w, Cur(st)).steps)
  {
  }

  lemma CommitKeepsStatuses(st: Store, w: Write)
    requires Chained(st) && StatusesKept(st) && Legal(st, w)
    ensures Chained(Commit(st, w)) && StatusesKept(Commit(st, w))
  {
    var st' := Commit(st, w);
    var t := Top(st);
    ApplyKeeps(st, w);
    forall u, v | 0 <= u <= v < |st'.hist|
      ensures Keeps(st'.hist[u], st'.hist[v])
    {
      if v > t && u <= t {
        KeepsTransitive(st.hist[u], st.hist[t], st'.hist[v]);
      }
    }
  }

  lemma CommitKeepsStatusWrites(st: Store, w: Write)
    requires StoreInv(st) && Legal(st, w)
    ensures StatusWritesLegal(Commit(st, w))
  {
    assert Cur(st) == st.hist[|st.log|];
  }

  lemma CommitKeepsProcessing(st: Store, w: Write)
    requires StoreInv(st) && Legal(st, w)
    ensures ProcessingOnce(Commit(st, w)) && ProcessingFirst(Commit(st, w))
  {
    if w.ToFinal? {
      FinalIsLate(st, w);
    }
    CommitKeepsFirst(st, w);
  }

  lemma CommitKeepsFirst(st: Store, w: Write)
    requires Chained(st) && ProcessingFirst(st) && (w.ToFinal? ==> ToProcessing in st.log)
    ensures ProcessingFirst(Commit(st, w))
  {
    var st' := Commit(st, w);
    var t := Top(st);
    assert st.log[..t] == st.log;
    forall v | 0 <= v < |st'.hist| && (st'.hist[v].phase == Processing || st'.hist[v].phase == Completed)
      ensures ToProcessing in st'.log[..v]
    {
      if v <= t {
        assert st'.log[..v] == st.log[..v];
      } else {
        assert st'.log[..v] == st.log + [w];
      }
    }
  }

  lemma CommitKeepsCreated(st: Store, w: Write)
    requires StoreInv(st) && Legal(st, w)
    ensures CreatedUntouched(Commit(st, w)) && KnownPhases(Commit(st, w))
  {
    if w.ToFinal? {
      FinalIsLate(st, w);
    }
    CommitKeepsUntouched(st, w);
    CommitKeepsKnown(st, w);
  }

  lemma CommitKeepsUntouched(st: Store, w: Write)
    requires Chained(st) && CreatedUntouched(st) && (w.ToFinal? ==> IsOutcome(w.phase))
    ensures CreatedUntouched(Commit(st, w))
  {
    var st' := Commit(st, w);
    var t := Top(st);
    assert forall k | 0 <= k < t :: st'.log[k] == st.log[k];
    assert st'.log[t] == w;
    assert st'.hist[t + 1].phase == Created <==> w.ToStatus? && st.hist[t].phase == Created;
  }

  lemma CommitKeepsKnown(st: Store, w: Write)
    requires Chained(st) && KnownPhases(st) && (w.ToFinal? ==> IsOutcome(w.phase))
    ensures KnownPhases(Commit(st, w))
  {
  }

  lemma CommitKeepsFinalLate(st: Store, w: Write)
    requires StoreInv(st) && Legal(st, w)
    ensures FinalLate(Commit(st, w))
  {
    var st' := Commit(st, w);
    var t := Top(st);
    assert forall k | 0 <= k <= t :: st'.log[..k] == st.log[..k];
    assert st.log[..t] == st.log;
    if w.ToFinal? {
      FinalIsLate(st, w);
    }
  }

  // A final write comes from a read of a finished Processing version.
  lemma FinalIsLate(st: Store, w: Write)
    requires StoreInv(st) && Legal(st, w) && w.ToFinal?
    ensures ToProcessing in st.log && Finished(Cur(st).steps)
    ensures w.phase == FinalPhase(Cur(st).steps)
  {
    var v :| 0 <= v < |st.hist| && Finishable(st.hist[v]) && w.phase == FinalPhase(st.hist[v].steps);
    assert ToProcessing in st.log[..v];
    FinishedFixes(st, v, Top(st));
  }

  lemma CommitKeepsFinalRead(st: Store, w: Write)
    requires |st.hist| == |st.log| + 1 && FinalRead(st) && Legal(st, w)
    ensures FinalRead(Commit(st, w))
  {
    var st' := Commit(st, w);
    forall k | 0 <= k < |st'.log| && st'.log[k].ToFinal?
      ensures exists v | 0 <= v <= k :: Finishable(st'.hist[v])
    {
      if k < |st.log| {
        var v :| 0 <= v <= k && Finishable(st.hist[v]);
        assert st'.hist[v] == st.hist[v];
      } else {
        var v :| 0 <= v < |st.hist| && Finishable(st.hist[v]);
        assert st'.hist[v] == st.hist[v];
      }
    }
  }

  lemma CommitKeepsCompleted(st: Store, w: Write)
    requires StoreInv(st) && Legal(st, w)
    ensures CompletedSound(Commit(st, w))
  {
    if w.ToFinal? {
      FinalIsLate(st, w);
    }
  }

  lemma CommitKeepsOneFinishable(st: Store, w: Write)
    requires StoreInv(st) && Legal(st, w)
    ensures OneFinishable(Commit(st, w))
  {
    var st' := Commit(st, w);
    var t := Top(st);
    forall u | 0 <= u <= t && Finishable(st.hist[u])
      ensures !Finishable(st'.hist[t + 1])
    {
      FinishedFixes(st, u, t);
      assert ToProcessing in st.log[..u];
      if w.ToFinal? {
        FinalIsLate(st, w);
      }
    }
  }

  lemma CommitKeepsOrder(st: Store, w: Write)
    requires StoreInv(st) && Legal(st, w)
    ensures PhaseByOrder(Commit(st, w))
  {
    var st' := Commit(st, w);
    var t := |st.log|;
    assert forall k | 0 <= k < t :: st'.log[k] == st.log[k];
    assert st'.log[t] == w;
    if (forall k | 0 <= k < t + 1 :: !st'.log[k].ToFinal?) && ToProcessing in st'.log {
      if FailedAfterProcessing(st.log) {
        var i, j :| 0 <= i < j < t && st.log[i] == ToProcessing && st.log[j] == ToFailed;
        assert st'.log[i] == ToProcessing && st'.log[j] == ToFailed;
      }
      if w == ToFailed && ToProcessing in st.log {
        var i :| 0 <= i < t && st.log[i] == ToProcessing;
        assert st'.log[i] == ToProcessing && st'.log[t] == ToFailed;
      }
      assert !st'.log[t].ToFinal?;
      assert forall k | 0 <= k < t :: !st.log[k].ToFinal?;
    }
  }

  /** Whatever order the writers commit in, every invariant of the object is
      kept, as long as each writer commits what its own code produces. */
  lemma CommitKeepsStoreInv(st: Store, w: Write)
    requires StoreInv(st) && Legal(st, w)
    ensures StoreInv(Commit(st, w))
  {
    CommitKeepsStatuses(st, w);
    CommitKeepsStatusWrites(st, w);
    CommitKeepsProcessing(st, w);
    CommitKeepsCreated(st, w);
    CommitKeepsFinalLate(st, w);
    CommitKeepsFinalRead(st, w);
    CommitKeepsCompleted(st, w);
    CommitKeepsOneFinishable(st, w);
    CommitKeepsOrder(st, w);
  }
}
