/** The vega branch of the executor (pkg/pipelines/vega.go and
    pkg/worker/executor/executor.go) and the result cache it feeds. Commands,
    files and the store's transport are outcomes given from outside. */
module VegaExecution {
  import opened Phases
  import opened CalcProtocol
  import opened Objects
  import opened CalculationUtil
  import opened Scheduler
  import opened ResultStore

  // What happens around one run of the vega branch.
  datatype VegaRun = VegaRun(
    params: Params,
    linked: bool,             // control and data files linked
    prepared: nat -> bool,    // input files of step 0 and of step 2 generated
    ran: nat -> bool,         // command of each step succeeded
    data: Option<string>,     // fort.7, if it can be read
    stores: bool,             // the store answers
    now: int
  )

  predicate NeedsInput(i: nat) {
    i == 0 || i == 2
  }

  predicate StepOk(r: VegaRun, i: nat) {
    (NeedsInput(i) ==> r.prepared(i)) && r.ran(i)
  }

  predicate AllStepsCompleted(r: VegaRun) {
    StepOk(r, 0) && StepOk(r, 1) && StepOk(r, 2)
  }

  predicate Stores(r: VegaRun) {
    r.linked && AllStepsCompleted(r) && r.data.Some? && r.stores
  }

  // The results sent when the first k steps have been tried.
  function Sent(r: VegaRun, k: nat): seq<Msg> {
    if k == 0 then []
    else if !SentOk(r, k - 1) then Sent(r, k - 1)
    else if NeedsInput(k - 1) && !r.prepared(k - 1) then Sent(r, k - 1)
    else Sent(r, k - 1) + [Result(k - 1, if r.ran(k - 1) then Completed else Failed)]
  }

  predicate SentOk(r: VegaRun, k: nat) {
    forall i | 0 <= i < k :: StepOk(r, i)
  }

  /** VegaPipeline.Run: it stops at the first step whose input cannot be
      generated or whose command fails, and only then returns an error. */
  method Run(r: VegaRun) returns (sent: seq<Msg>, ok: bool)
    ensures sent == Sent(r, 3)
    ensures ok <==> r.prepared(0) && r.ran(0) && r.ran(1) && r.prepared(2) && r.ran(2)
    ensures ok <==> AllStepsCompleted(r)
  {
    assert AllStepsCompleted(r) <==> r.prepared(0) && r.ran(0) && r.ran(1) && r.prepared(2) && r.ran(2);
    sent := [];
    var index := 0;
    while index < |VEGA_STEPS|
      invariant index <= |VEGA_STEPS| == 3
      invariant SentOk(r, index) && sent == Sent(r, index)
    {
      if VEGA_STEPS[index].status != Unset {
        index := index + 1;
        continue;
      }
      if NeedsInput(index) && !r.prepared(index) {
        StopsHere(r, index);
        return sent, false;
      }
      var status := if r.ran(index) then Completed else Failed;
      sent := sent + [Result(index, status)];
      if status == Failed {
        StopsHere(r, index);
        return sent, false;
      }
      index := index + 1;
    }
    ok := true;
  }

  // Nothing is sent after the first step that does not go well.
  lemma {:induction false} StopsHere(r: VegaRun, i: nat)
    requires i < 3 && SentOk(r, i) && !StepOk(r, i)
    ensures Sent(r, 3) == Sent(r, i + 1)
  {
    assert !SentOk(r, i + 1);
    if i < 2 {
      assert Sent(r, i + 2) == Sent(r, i + 1);
      assert !SentOk(r, i + 2);
    }
  }

  /** What is sent is the results of steps 0, 1, ... in order, all Completed but
      possibly the last; three Completed results mean that everything went well
      and the reverse. */
  lemma {:induction false} SentShape(r: VegaRun, k: nat)
    requires k <= 3
    ensures |Sent(r, k)| <= k
    ensures forall i | 0 <= i < |Sent(r, k)| :: Sent(r, k)[i].Result? && Sent(r, k)[i].step == i
    ensures forall i | 0 <= i < |Sent(r, k)| - 1 :: Sent(r, k)[i].status == Completed
    ensures SentOk(r, k) <==> |Sent(r, k)| == k && forall i | 0 <= i < k :: Sent(r, k)[i].status == Completed
  {
    if k > 0 {
      SentShape(r, k - 1);
      assert SentOk(r, k) <==> SentOk(r, k - 1) && StepOk(r, k - 1);
      if SentOk(r, k - 1) && (NeedsInput(k - 1) ==> r.prepared(k - 1)) {
        assert Sent(r, k)[k - 1].status == if r.ran(k - 1) then Completed else Failed;
      }
    }
  }

  /** What is sent, case by case: the inputs of the first and the third step have
      to be generated, and a step that fails is the last. */
  lemma {:induction false} SentExactly(r: VegaRun)
    ensures Sent(r, 3) ==
              if !r.prepared(0) then []
              else if !r.ran(0) then [Result(0, Failed)]
              else if !r.ran(1) then [Result(0, Completed), Result(1, Failed)]
              else if !r.prepared(2) then [Result(0, Completed), Result(1, Completed)]
              else [Result(0, Completed), Result(1, Completed), Result(2, if r.ran(2) then Completed else Failed)]
  {
    assert SentOk(r, 0) && Sent(r, 0) == [];
    if StepOk(r, 0) {
      assert SentOk(r, 1) && Sent(r, 1) == [Result(0, Completed)];
      if StepOk(r, 1) {
        assert SentOk(r, 2) && Sent(r, 2) == [Result(0, Completed), Result(1, Completed)];
      } else {
        StopsHere(r, 1);
      }
    } else {
      StopsHere(r, 0);
    }
  }

  // ----- Storing and looking up -----

  // Six decimals, as both sides print the parameters.
  type Printer = real -> string

  function Key(f: Printer, p: Params): (q: Query)
    ensures q.Keys == {"teff", "log_g"}
  {
    map["teff" := f(p.teff), "log_g" := f(p.logG)]
  }

  /** The vega branch: link, run the pipeline, read the result, store it. */
  method RunBranch(store: CalculationResultsStore, f: Printer, r: VegaRun) returns (sent: seq<Msg>, ok: bool)
    modifies store
    ensures ok <==> RanFor(f, r, r.params)
    ensures ok <==> Stores(r)
    ensures store.rows == if Stores(r) then Stored(old(store.rows), Key(f, r.params), r.data.value, r.now) else old(store.rows)
    ensures sent == if r.linked then Sent(r, 3) else []
  {
    if !r.linked {
      return [], false;
    }
    sent, ok := Run(r);
    if !ok || r.data.None? || !r.stores {
      return sent, false;
    }
    var _ := store.StoreOrUpdateData(Key(f, r.params), r.data.value, r.now, true, true);
  }

  // The table after some runs.
  function Table(f: Printer, rs: seq<VegaRun>): seq<Row>
    decreases |rs|
  {
    if rs == [] then []
    else
      var r := rs[|rs| - 1];
      var before := Table(f, rs[..|rs| - 1]);
      if Stores(r) then Stored(before, Key(f, r.params), r.data.value, r.now) else before
  }

  predicate StoredUnder(f: Printer, r: VegaRun, q: Query) {
    Stores(r) && Key(f, r.params) == q
  }

  // The first and the last run that stored something under q.
  ghost predicate FirstRun(f: Printer, rs: seq<VegaRun>, q: Query, k: nat) {
    k < |rs| && StoredUnder(f, rs[k], q) && forall i | 0 <= i < k :: !StoredUnder(f, rs[i], q)
  }

  ghost predicate LastRun(f: Printer, rs: seq<VegaRun>, q: Query, k: nat) {
    k < |rs| && StoredUnder(f, rs[k], q) && forall i | k < i < |rs| :: !StoredUnder(f, rs[i], q)
  }

  // The row a query over the two keys must find after some runs.
  ghost predicate Explained(f: Printer, rs: seq<VegaRun>, q: Query, row: Option<Row>) {
    && (row.None? ==> forall k | 0 <= k < |rs| :: !StoredUnder(f, rs[k], q))
    && (row.Some? ==>
          && row.value.params == q
          && (exists a: nat :: FirstRun(f, rs, q, a) && row.value.createdAt == rs[a].now)
          && (exists b: nat :: LastRun(f, rs, q, b) && row.value.results == rs[b].data.value))
  }

  lemma {:induction false} TableKeyed(f: Printer, rs: seq<VegaRun>)
    ensures Keyed(Table(f, rs), {"teff", "log_g"})
    decreases |rs|
  {
    if rs != [] {
      var r := rs[|rs| - 1];
      TableKeyed(f, rs[..|rs| - 1]);
      if Stores(r) {
        StoredKeyed(Table(f, rs[..|rs| - 1]), {"teff", "log_g"}, Key(f, r.params), r.data.value, r.now);
      }
    }
  }

  /** Over whole runs: a lookup finds a row exactly when some earlier run under
      the same six decimals completed all three steps and stored; the row was
      created by the first such run and holds the result of the last. */
  lemma {:induction false} RowsComeFromRuns(f: Printer, rs: seq<VegaRun>, p: Params)
    ensures Explained(f, rs, Key(f, p), Lookup(Table(f, rs), Key(f, p)))
    decreases |rs|
  {
    if rs != [] {
      RowsComeFromRuns(f, rs[..|rs| - 1], p);
      if StoredUnder(f, rs[|rs| - 1], Key(f, p)) {
        StoredHere(f, rs, p);
      } else {
        StoredElsewhere(f, rs, p);
      }
    }
  }

  // The parameters of p as both sides print them.
  function Printed(f: Printer, p: Params): Query {
    map["log_g" := f(p.logG), "teff" := f(p.teff)]
  }

  // A run that stored a result, with the same six decimals of both parameters.
  predicate RanFor(f: Printer, r: VegaRun, p: Params) {
    && f(r.params.teff) == f(p.teff) && f(r.params.logG) == f(p.logG)
    && r.linked && r.prepared(0) && r.ran(0) && r.ran(1) && r.prepared(2) && r.ran(2) && r.data.Some? && r.stores
  }

  lemma {:induction false} KeyIsPrinted(f: Printer, p: Params)
    ensures Key(f, p) == Printed(f, p)
    ensures Key(f, p)["teff"] == f(p.teff) && Key(f, p)["log_g"] == f(p.logG)
  {
  }

  lemma {:induction false} StoredUnderExactly(f: Printer, r: VegaRun, p: Params)
    ensures StoredUnder(f, r, Key(f, p)) <==> RanFor(f, r, p)
  {
    KeyIsPrinted(f, p);
    KeyIsPrinted(f, r.params);
    if StoredUnder(f, r, Key(f, p)) {
      assert Key(f, r.params)["teff"] == Key(f, p)["teff"] && Key(f, r.params)["log_g"] == Key(f, p)["log_g"];
    }
  }

  /** Over whole runs, in terms of the parameters: a lookup of p finds a row if and
      only if some run with the six decimals of both its parameters completed all
      three steps and stored. The row holds exactly those two values, the time of
      the first such run and the result of the last. */
  lemma {:induction false} ResultsAreOfRuns(f: Printer, rs: seq<VegaRun>, p: Params)
    ensures var row := Lookup(Table(f, rs), Printed(f, p));
            && (row.Some? <==> exists k | 0 <= k < |rs| :: RanFor(f, rs[k], p))
            && (row.Some? ==>
                  && row.value.params == map["log_g" := f(p.logG), "teff" := f(p.teff)]
                  && (exists a | 0 <= a < |rs| :: RanFor(f, rs[a], p) && row.value.createdAt == rs[a].now &&
                        forall i | 0 <= i < a :: !RanFor(f, rs[i], p))
                  && (exists b | 0 <= b < |rs| :: RanFor(f, rs[b], p) && row.value.results == rs[b].data.value &&
                        forall i | b < i < |rs| :: !RanFor(f, rs[i], p)))
  {
    var q := Key(f, p);
    RowsComeFromRuns(f, rs, p);
    KeyIsPrinted(f, p);
    forall k | 0 <= k < |rs|
      ensures StoredUnder(f, rs[k], q) <==> RanFor(f, rs[k], p)
    {
      StoredUnderExactly(f, rs[k], p);
    }
    var row := Lookup(Table(f, rs), q);
    if row.Some? {
      var a: nat :| FirstRun(f, rs, q, a) && row.value.createdAt == rs[a].now;
      assert RanFor(f, rs[a], p);
      var b: nat :| LastRun(f, rs, q, b) && row.value.results == rs[b].data.value;
      assert RanFor(f, rs[b], p);
    }
  }

  lemma {:induction false} StoredHere(f: Printer, rs: seq<VegaRun>, p: Params)
    requires rs != [] && StoredUnder(f, rs[|rs| - 1], Key(f, p))
    requires Explained(f, rs[..|rs| - 1], Key(f, p), Lookup(Table(f, rs[..|rs| - 1]), Key(f, p)))
    ensures Explained(f, rs, Key(f, p), Lookup(Table(f, rs), Key(f, p)))
  {
    var q, n := Key(f, p), |rs| - 1;
    var before := rs[..n];
    var rows := Table(f, before);
    StoreThenLookup(rows, q, rs[n].data.value, rs[n].now, q);
    assert Table(f, rs) == Stored(rows, q, rs[n].data.value, rs[n].now);
    assert LastRun(f, rs, q, n);
    if Lookup(rows, q).Some? {
      var a: nat :| FirstRun(f, before, q, a) && Lookup(rows, q).value.createdAt == before[a].now;
      assert FirstRun(f, rs, q, a);
    } else {
      assert FirstRun(f, rs, q, n);
    }
  }

  lemma {:induction false} StoredElsewhere(f: Printer, rs: seq<VegaRun>, p: Params)
    requires rs != [] && !StoredUnder(f, rs[|rs| - 1], Key(f, p))
    requires Explained(f, rs[..|rs| - 1], Key(f, p), Lookup(Table(f, rs[..|rs| - 1]), Key(f, p)))
    ensures Explained(f, rs, Key(f, p), Lookup(Table(f, rs), Key(f, p)))
  {
    var q, before := Key(f, p), rs[..|rs| - 1];
    var row := Lookup(Table(f, before), q);
    LookupUnchanged(f, rs, p);
    if row.Some? {
      var a: nat :| FirstRun(f, before, q, a) && row.value.createdAt == before[a].now;
      assert FirstRun(f, rs, q, a);
      var b: nat :| LastRun(f, before, q, b) && row.value.results == before[b].data.value;
      assert LastRun(f, rs, q, b);
    }
  }

  lemma {:induction false} LookupUnchanged(f: Printer, rs: seq<VegaRun>, p: Params)
    requires rs != [] && !StoredUnder(f, rs[|rs| - 1], Key(f, p))
    ensures Lookup(Table(f, rs), Key(f, p)) == Lookup(Table(f, rs[..|rs| - 1]), Key(f, p))
  {
    var r, before := rs[|rs| - 1], Table(f, rs[..|rs| - 1]);
    TableKeyed(f, rs[..|rs| - 1]);
    if Stores(r) {
      StoreThenLookup(before, Key(f, r.params), r.data.value, r.now, Key(f, p));
      StoredKeyed(before, {"teff", "log_g"}, Key(f, r.params), r.data.value, r.now);
      SameRowSameParams(Table(f, rs), {"teff", "log_g"}, Key(f, r.params), Key(f, p));
    }
  }

  // ----- pkg/dispatcher/bulks/controller.go: marking cached entries -----

  // The creation time goes over the wire as RFC 3339, in whole seconds.
  function WholeSeconds(t: int): int {
    t / 1_000_000_000 * 1_000_000_000
  }

  predicate OldEnough(row: Option<Row>, bulkTime: int) {
    row.Some? && WholeSeconds(row.value.createdAt) <= bulkTime
  }

  // A call to the store: it answers with the row, if there is one, or not found;
  // it fails; it returns nothing; or the creation time in the answer is garbled.
  datatype Call = Answers | Fails | Silent | Garbled

  function Marked(f: Printer, rows: seq<Row>, calcs: map<string, BulkCalc>, bulkTime: int, call: string -> Call): map<string, BulkCalc> {
    map k | k in calcs ::
      if call(k).Answers? && OldEnough(Lookup(rows, Key(f, calcs[k].params)), bulkTime)
      then calcs[k].(phase := Cached) else calcs[k]
  }

  // Entries whose call failed, or whose row came with a time that cannot be read.
  function Reported(f: Printer, rows: seq<Row>, calcs: map<string, BulkCalc>, call: string -> Call): set<string> {
    set k | k in calcs && (call(k).Fails? || (call(k).Garbled? && Lookup(rows, Key(f, calcs[k].params)).Some?))
  }

  /** reconcileCalculations over the map passed in, in any order. `call(k)` is how
      the call for entry k goes; one that does not answer leaves the entry as it is. */
  method ReconcileCalculations(store: CalculationResultsStore, f: Printer, calcs: map<string, BulkCalc>, bulkTime: int, call: string -> Call)
    returns (marked: map<string, BulkCalc>, errs: set<string>)
    ensures marked == Marked(f, store.rows, calcs, bulkTime, call)
    ensures errs == Reported(f, store.rows, calcs, call)
  {
    marked := calcs;
    errs := {};
    var rest := calcs.Keys;
    while rest != {}
      invariant rest <= calcs.Keys && marked.Keys == calcs.Keys
      invariant forall k | k in rest :: marked[k] == calcs[k]
      invariant forall k | k in calcs && k !in rest :: marked[k] == Marked(f, store.rows, calcs, bulkTime, call)[k]
      invariant errs == set k | k in Reported(f, store.rows, calcs, call) && k !in rest
    {
      var key :| key in rest;
      rest := rest - {key};
      if call(key).Fails? {
        errs := errs + {key};
        continue;
      }
      var _, row := store.GetData(Key(f, calcs[key].params));
      if row.None? || call(key).Silent? {
        continue;
      }
      if call(key).Garbled? {
        errs := errs + {key};
        continue;
      }
      if WholeSeconds(row.value.createdAt) > bulkTime {
        continue;
      }
      marked := marked[key := calcs[key].(phase := Cached)];
    }
  }

  /** Whole seconds: what is left of a time when its fraction of a second is cut. */
  lemma {:induction false} WholeSecondsExactly(t: int)
    ensures WholeSeconds(t) % 1_000_000_000 == 0 && WholeSeconds(t) <= t < WholeSeconds(t) + 1_000_000_000
  {
  }

  /** Cache soundness over whole runs: whatever runs filled the table, an entry
      becomes Cached exactly when the store answers and the first run that
      completed all three steps with the same six decimals of both parameters, and
      stored, is not newer than the bulk, in whole seconds. Nothing else of the
      entry changes, and no other entry. */
  lemma {:induction false} CachedMeansRun(f: Printer, rs: seq<VegaRun>, calcs: map<string, BulkCalc>, bulkTime: int, call: string -> Call, k: string)
    requires k in calcs
    ensures var marked := Marked(f, Table(f, rs), calcs, bulkTime, call);
            && marked.Keys == calcs.Keys
            && marked[k] == calcs[k].(phase :=
                 if call(k) == Answers && exists a | 0 <= a < |rs| ::
                      && RanFor(f, rs[a], calcs[k].params)
                      && (forall i | 0 <= i < a :: !RanFor(f, rs[i], calcs[k].params))
                      && rs[a].now / 1_000_000_000 * 1_000_000_000 <= bulkTime
                 then Cached else calcs[k].phase)
  {
    var p := calcs[k].params;
    ResultsAreOfRuns(f, rs, p);
    KeyIsPrinted(f, p);
    var row := Lookup(Table(f, rs), Printed(f, p));
    if row.Some? {
      var a :| 0 <= a < |rs| && RanFor(f, rs[a], p) && row.value.createdAt == rs[a].now && forall i | 0 <= i < a :: !RanFor(f, rs[i], p);
      forall b | 0 <= b < |rs| && RanFor(f, rs[b], p) && forall i | 0 <= i < b :: !RanFor(f, rs[i], p)
        ensures b == a
      {
        assert !(a < b) && !(b < a);
      }
    }
  }

  /** An entry marked Cached is never handed to a worker from the marked map. */
  lemma {:induction false} CachedNotAssigned(f: Printer, rows: seq<Row>, bulkName: string, bulk: Bulk, pool: Pool, h: Namer, addr: string -> nat, call: string -> Call)
    ensures var marked := bulk.(calcs := Marked(f, rows, bulk.calcs, bulk.created, call));
            && Pending(marked.calcs) ==
                 set e | e in Pending(bulk.calcs) && !(call(e).Answers? && OldEnough(Lookup(rows, Key(f, bulk.calcs[e].params)), bulk.created))
            && forall c | c in Assignment(bulkName, marked, pool, h, addr) ::
                 c.labels.entry.Some? && c.labels.entry.value in bulk.calcs &&
                 marked.calcs[c.labels.entry.value].phase == Unset
  {
    AssignmentIsMatching(bulkName, bulk.(calcs := Marked(f, rows, bulk.calcs, bulk.created, call)), pool, h, addr);
  }
}
