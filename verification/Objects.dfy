/** The API objects, with the fields the controllers read or write. */
module Objects {
  import opened Phases

  datatype Option<+T> = None | Some(value: T)

  datatype Params = Params(logG: real, teff: real)

  datatype Step = Step(command: string, args: seq<string>, status: Phase)

  datatype InputFiles = InputFiles(files: seq<string>, symlink: bool)

  const VEGA := "vega"

  // An entry of a bulk.
  datatype BulkCalc = BulkCalc(
    pipeline: string,
    params: Params,
    steps: seq<Step>,
    phase: Phase,
    inputFiles: Option<InputFiles>
  )

  datatype Bulk = Bulk(
    rootFolder: string,
    workerPool: string,
    outputFilesRegex: string,
    calcs: map<string, BulkCalc>,
    post: Option<BulkCalc>,
    created: int                    // nanoseconds
  )

  // None is a label that is not there.
  datatype Labels = Labels(
    bulk: Option<string>,
    entry: Option<string>,
    post: bool,
    rootFolder: Option<string>,
    assign: Option<string>
  )

  datatype Calculation = Calculation(
    name: string,
    labels: Labels,
    assign: string,
    workerPool: string,
    pipeline: string,
    params: Params,
    steps: seq<Step>,
    inputFiles: Option<InputFiles>,
    outputFilesRegex: string,
    phase: Phase
  )

  datatype WorkerState = NoState | Available | Reserved | Busy | Unknown

  datatype Worker = Worker(name: string, node: string, state: WorkerState)

  // Keyed by node name.
  type Pool = map<string, Worker>

  function Statuses(steps: seq<Step>): (r: seq<Phase>)
    ensures |r| == |steps| && forall i | 0 <= i < |r| :: r[i] == steps[i].status
  {
    seq(|steps|, i requires 0 <= i < |steps| => steps[i].status)
  }

  // The name of a Calculation is a hash of the printed entry. When the entry
  // has input files the printed form holds an address, here `addr`.
  type Namer = (BulkCalc, nat) -> string

  ghost predicate HashesContent(h: Namer) {
    forall c: BulkCalc, a: nat, b: nat :: c.inputFiles.None? ==> h(c, a) == h(c, b)
  }
}
