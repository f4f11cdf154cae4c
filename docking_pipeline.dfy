/**
 * run_docking_job (zeropain/docking/pipeline.py): validate, route, lay out
 * the run directory, generate the poses, write scores.csv and
 * telemetry.json, and assemble the result. The filesystem writes are
 * returned as a list of effects in the order they happen; the clock
 * reading, the core count, the router and the float formatting are
 * parameters.
 */
module DockingPipeline {
  import opened Wrappers
  import opened Numeric
  import opened OrderedDict
  import opened Json
  import opened Text
  import opened DockingTypes
  import opened DockingBackends
  import opened DockingIo
  import opened HardwareRouting

  datatype Effect =
    | MakeDir(path: seq<string>)
    | WriteJson(path: seq<string>, content: Json)
    | WriteCsv(path: seq<string>, rows: seq<seq<string>>)

  /** BACKEND_IMPL.get(backend, python_ref.run) */
  function Implementation(backend: string): Scoring
  {
    if backend == "mocked" then Mocked else Reference
  }

  /** The seeded stream each implementation draws from. */
  function StreamOf(s: Scoring, mockedStream: Stream, referenceStream: Stream): Stream
  {
    match s
    case Mocked => mockedStream
    case Reference => referenceStream
  }

  const CsvHeader: seq<string> := ["ligand_id", "pose_id", "score", "backend", "device", "rank"]

  function CsvRow(p: DockingPose, formatFloat: real -> string): seq<string>
  {
    [p.ligandId, IntToString(p.poseId), formatFloat(p.score), p.backend, p.device, IntToString(p.rank)]
  }

  /** The rows of scores.csv: the header, then one row per pose in pose order. */
  function CsvRows(poses: seq<DockingPose>, formatFloat: real -> string): (rows: seq<seq<string>>)
    ensures |rows| == |poses| + 1 && rows[0] == CsvHeader
    ensures forall k :: 0 <= k < |poses| ==> rows[k + 1] == CsvRow(poses[k], formatFloat)
  {
    [CsvHeader] + seq(|poses|, k requires 0 <= k < |poses| => CsvRow(poses[k], formatFloat))
  }

  /** The csv.writer loop. */
  method WriteScores(poses: seq<DockingPose>, formatFloat: real -> string) returns (rows: seq<seq<string>>)
    ensures rows == CsvRows(poses, formatFloat)
  {
    rows := [CsvHeader];
    for k := 0 to |poses|
      invariant |rows| == k + 1 && rows[0] == CsvHeader
      invariant forall t :: 0 <= t < k ==> rows[t + 1] == CsvRow(poses[t], formatFloat)
    {
      rows := rows + [CsvRow(poses[k], formatFloat)];
    }
  }

  function ScoresPath(job: DockingJobSpec): seq<string> { RunDir(job) + ["scores.csv"] }

  function TelemetryPath(job: DockingJobSpec): seq<string> { RunDir(job) + ["telemetry.json"] }

  function ManifestPath(job: DockingJobSpec): seq<string> { InputsDir(job) + ["manifest.json"] }

  function Telemetry(job: DockingJobSpec, sel: Selection, poses: seq<DockingPose>, elapsed: real): (d: Dict<string, Json>)
    ensures Keys(d) == ["backend", "device", "ligands", "poses", "elapsed_sec", "routing"]
  {
    Dict([("backend", JStr(sel.backend)), ("device", JStr(sel.device)), ("ligands", JInt(|job.ligands|)),
          ("poses", JInt(|poses|)), ("elapsed_sec", JNum(elapsed)), ("routing", JObj(sel.routingMeta))])
  }

  function Artifacts(job: DockingJobSpec): (d: Dict<string, string>)
    ensures Keys(d) == ["scores_csv", "telemetry", "inputs_manifest"]
  {
    Dict([("scores_csv", PathString(ScoresPath(job))), ("telemetry", PathString(TelemetryPath(job))),
          ("inputs_manifest", PathString(ManifestPath(job)))])
  }

  /** The selection run_docking_job makes: the detected profile is passed on to select_backend. */
  function JobSelection(job: DockingJobSpec, cpuCount: Option<int>, router: Option<Router>): Selection
  {
    var profile := DetectHardwareProfile(cpuCount, router.Some?);
    SelectBackend(job, Some(profile), router, profile)
  }

  /** The poses of a job on the implementation chosen for the selected backend. */
  function SelectedPoses(job: DockingJobSpec, sel: Selection, mockedStream: Stream, referenceStream: Stream): seq<DockingPose>
  {
    var impl := Implementation(sel.backend);
    JobPoses(impl, StreamOf(impl, mockedStream, referenceStream), job, sel.device)
  }

  function JobResult(job: DockingJobSpec, sel: Selection, poses: seq<DockingPose>, elapsed: real): DockingResult
  {
    DockingResult(job.jobId, "success", sel.backend, sel.device, poses, Artifacts(job), Telemetry(job, sel, poses, elapsed), [])
  }

  function JobEffects(job: DockingJobSpec, sel: Selection, poses: seq<DockingPose>, elapsed: real,
                      formatFloat: real -> string): seq<Effect>
  {
    [MakeDir(RunDir(job)), MakeDir(InputsDir(job)), WriteJson(ManifestPath(job), Manifest(job)),
     WriteCsv(ScoresPath(job), CsvRows(poses, formatFloat)), WriteJson(TelemetryPath(job), JObj(Telemetry(job, sel, poses, elapsed)))]
  }

  /**
   * run_docking_job(job). An invalid job fails before anything is written;
   * a valid one writes the run directory, the manifest, the scores and the
   * telemetry, in that order, and yields a successful result.
   */
  method RunDockingJob(job: DockingJobSpec, cpuCount: Option<int>, router: Option<Router>,
                       mockedStream: Stream, referenceStream: Stream, elapsed: real, formatFloat: real -> string)
    returns (r: Result<DockingResult, string>, effects: seq<Effect>)
    ensures ValidateInputs(job).Invalid? ==> r == Err(ValidateInputs(job).message) && effects == []
    ensures ValidateInputs(job).Valid? ==>
      var sel := JobSelection(job, cpuCount, router);
      var poses := SelectedPoses(job, sel, mockedStream, referenceStream);
      r == Ok(JobResult(job, sel, poses, elapsed)) && effects == JobEffects(job, sel, poses, elapsed, formatFloat)
  {
    var v := ValidateInputs(job);
    if v.Invalid? {
      return Err(v.message), [];
    }
    var profile := DetectHardwareProfile(cpuCount, router.Some?);
    var sel := SelectBackend(job, Some(profile), router, profile);
    effects := [MakeDir(RunDir(job)), MakeDir(InputsDir(job)), WriteJson(ManifestPath(job), Manifest(job))];
    var poses;
    if sel.backend == "mocked" {
      poses := RunMocked(job, sel.device, mockedStream);
    } else {
      poses := RunPythonRef(job, sel.device, referenceStream);
    }
    var rows := WriteScores(poses, formatFloat);
    effects := effects + [WriteCsv(ScoresPath(job), rows)];
    var telemetry := Telemetry(job, sel, poses, elapsed);
    effects := effects + [WriteJson(TelemetryPath(job), JObj(telemetry))];
    r := Ok(DockingResult(job.jobId, "success", sel.backend, sel.device, poses, Artifacts(job), telemetry, []));
  }

  /**
   * The run directory layout: the three artifacts are distinct files under
   * `run_dir/job_id/docking`, the manifest inside its `inputs` directory, and
   * jobs with different ids write to different directories.
   */
  lemma ArtifactLayout(job: DockingJobSpec, other: DockingJobSpec)
    ensures RunDir(job) == [job.runDir, job.jobId, "docking"] && InputsDir(job) == RunDir(job) + ["inputs"]
    ensures ScoresPath(job)[..3] == RunDir(job) && TelemetryPath(job)[..3] == RunDir(job) && ManifestPath(job)[..4] == InputsDir(job)
    ensures ScoresPath(job) != TelemetryPath(job) && ScoresPath(job) != ManifestPath(job) && TelemetryPath(job) != ManifestPath(job)
    ensures job.jobId != other.jobId ==> RunDir(job) != RunDir(other)
  {
    assert RunDir(job)[1] == job.jobId;
    assert RunDir(other)[1] == other.jobId;
  }

  /** A valid job docks every one of its ligands: the max_ligands cut never drops one. */
  lemma ValidJobDocksAll(job: DockingJobSpec, s: Scoring, stream: Stream, device: string)
    requires ValidateInputs(job).Valid?
    ensures |JobPoses(s, stream, job, device)| == |job.ligands| * PoseCount(job.posesPerLigand)
  {
    assert LigandSlice(job.ligands, job.maxLigands) == job.ligands;
  }

  /**
   * The result of a valid job: status success, the selected backend and
   * device reported even when the backend has no implementation of its own
   * (its poses then come from python_ref and carry that name), and telemetry
   * counting the job's ligands and the poses returned.
   */
  lemma ResultFacts(job: DockingJobSpec, sel: Selection, mockedStream: Stream, referenceStream: Stream, elapsed: real)
    requires ValidateInputs(job).Valid?
    ensures var poses := SelectedPoses(job, sel, mockedStream, referenceStream);
      var res := JobResult(job, sel, poses, elapsed);
      res.status == "success" && res.backend == sel.backend && res.device == sel.device && res.errors == [] &&
      |res.poses| == |job.ligands| * PoseCount(job.posesPerLigand) &&
      Field(JObj(res.telemetry), "poses") == Some(JInt(|res.poses|)) &&
      Field(JObj(res.telemetry), "ligands") == Some(JInt(|job.ligands|)) &&
      Field(JObj(res.telemetry), "device") == Some(JStr(sel.device)) &&
      (forall k :: 0 <= k < |res.poses| ==>
         res.poses[k].backend == (if sel.backend == "mocked" then "mocked" else "python_ref"))
  {
    var impl := Implementation(sel.backend);
    var stream := StreamOf(impl, mockedStream, referenceStream);
    var poses := SelectedPoses(job, sel, mockedStream, referenceStream);
    ValidJobDocksAll(job, impl, stream, sel.device);
    var es := Telemetry(job, sel, poses, elapsed).entries;
    FieldAt(es, 1, "device");
    FieldAt(es, 2, "ligands");
    FieldAt(es, 3, "poses");
    forall k | 0 <= k < |poses|
      ensures poses[k].backend == BackendName(impl)
    {
      PoseFacts(impl, stream, LigandSlice(job.ligands, job.maxLigands), PoseCount(job.posesPerLigand), sel.device, k);
    }
  }

  /**
   * Without the router and with no backend named, a valid job runs on the
   * reference backend on the CPU.
   */
  lemma WithoutRouterRunsReference(job: DockingJobSpec, cpuCount: Option<int>)
    requires !Explicit(job)
    ensures JobSelection(job, cpuCount, None) == Selection("python_ref", "CPU", Empty())
  {
    NoRouterSelectsReference(job, cpuCount);
  }

  /** A mocked job of two ligands with two poses each yields four poses on the CPU, whatever the router says. */
  lemma MockedJobExample(jobId: string, runDir: string, cpuCount: Option<int>, router: Option<Router>,
                         mockedStream: Stream, referenceStream: Stream)
    ensures var job := DockingJobSpec(receptor := "test-receptor", ligands := ["CCO", "CCN"], backend := Some("mocked"),
                                      hardware := Some("CPU"), posesPerLigand := 2, jobId := jobId, runDir := runDir);
      var sel := JobSelection(job, cpuCount, router);
      ValidateInputs(job).Valid? && sel.backend == "mocked" && sel.device == "CPU" &&
      |SelectedPoses(job, sel, mockedStream, referenceStream)| == 4
  {
    var job := DockingJobSpec(receptor := "test-receptor", ligands := ["CCO", "CCN"], backend := Some("mocked"),
                              hardware := Some("CPU"), posesPerLigand := 2, jobId := jobId, runDir := runDir);
    ResultFacts(job, JobSelection(job, cpuCount, router), mockedStream, referenceStream, 0.0);
  }
}
