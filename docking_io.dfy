/**
 * Input checks, the run directory layout and the input manifest of a docking
 * job (zeropain/docking/io.py). Paths are sequences of components; the
 * directories and files themselves are written by the pipeline.
 */
module DockingIo {
  import opened Wrappers
  import opened OrderedDict
  import opened Json
  import opened Text
  import opened DockingTypes

  /** validate_inputs returns normally, or raises ValidationError with a message. */
  datatype Validation = Valid | Invalid(message: string)

  /**
   * validate_inputs(job): no ligands, then too many ligands, then no
   * receptor; a job passing all three is valid. Exactly max_ligands
   * ligands are accepted.
   */
  function ValidateInputs(job: DockingJobSpec): (v: Validation)
    ensures v.Valid? <==> 0 < |job.ligands| <= job.maxLigands && |job.receptor| > 0
    ensures |job.ligands| == 0 ==> v == Invalid("No ligands provided")
    ensures 0 < |job.ligands| && job.maxLigands < |job.ligands| ==>
      v == Invalid("Too many ligands (" + NatToString(|job.ligands|) + " > " + IntToString(job.maxLigands) + ")")
    ensures 0 < |job.ligands| <= job.maxLigands && |job.receptor| == 0 ==> v == Invalid("Receptor not specified")
  {
    if |job.ligands| == 0 then Invalid("No ligands provided")
    else if |job.ligands| > job.maxLigands then
      Invalid("Too many ligands (" + NatToString(|job.ligands|) + " > " + IntToString(job.maxLigands) + ")")
    else if |job.receptor| == 0 then Invalid("Receptor not specified")
    else Valid
  }

  /** Path(job.run_dir) / job.job_id / "docking", as made by prepare_run_dir. */
  function RunDir(job: DockingJobSpec): (p: seq<string>)
    ensures |p| == 3 && p[..2] == [job.runDir, job.jobId] && p[2] == "docking"
  {
    [job.runDir, job.jobId, "docking"]
  }

  /** run_dir / "inputs": one level below the run directory. */
  function InputsDir(job: DockingJobSpec): (p: seq<string>)
    ensures |p| == |RunDir(job)| + 1 && p[..|RunDir(job)|] == RunDir(job) && p[|p| - 1] == "inputs"
  {
    RunDir(job) + ["inputs"]
  }

  /** str(path) */
  function PathString(path: seq<string>): string
  {
    Join(path, '/')
  }

  function OptionalString(s: Option<string>): Json
  {
    match s
    case None => JNull
    case Some(x) => JStr(x)
  }

  function OptionalObject(d: Option<Dict<string, Json>>): Json
  {
    match d
    case None => JNull
    case Some(x) => JObj(x)
  }

  /** The job fields persist_inputs writes. */
  datatype JobInputs = JobInputs(
    receptor: string, ligands: seq<string>, grid: Option<Dict<string, Json>>, backend: Option<string>,
    hardware: Option<string>, posesPerLigand: int, maxLigands: int)

  function InputsOf(job: DockingJobSpec): JobInputs
  {
    JobInputs(job.receptor, job.ligands, job.grid, job.backend, job.hardware, job.posesPerLigand, job.maxLigands)
  }

  const ManifestKeys: seq<string> :=
    ["receptor", "ligands", "grid", "backend", "hardware", "poses_per_ligand", "max_ligands"]

  /** The manifest persist_inputs writes to inputs/manifest.json: exactly seven keys, in this order. */
  function Manifest(job: DockingJobSpec): (m: Json)
    ensures m.JObj? && Keys(m.fields) == ManifestKeys
  {
    Obj([("receptor", JStr(job.receptor)),
         ("ligands", Strings(job.ligands)),
         ("grid", OptionalObject(job.grid)),
         ("backend", OptionalString(job.backend)),
         ("hardware", OptionalString(job.hardware)),
         ("poses_per_ligand", JInt(job.posesPerLigand)),
         ("max_ligands", JInt(job.maxLigands))])
  }

  function ReadOptionalString(j: Option<Json>): Option<Option<string>>
  {
    match j
    case Some(JNull) => Some(None)
    case Some(JStr(s)) => Some(Some(s))
    case _ => None
  }

  function ReadOptionalObject(j: Option<Json>): Option<Option<Dict<string, Json>>>
  {
    match j
    case Some(JNull) => Some(None)
    case Some(JObj(d)) => Some(Some(d))
    case _ => None
  }

  function ReadInt(j: Option<Json>): Option<int>
  {
    match j
    case Some(JInt(i)) => Some(i)
    case _ => None
  }

  /** The job inputs a manifest records, if it has the shape persist_inputs writes. */
  function ReadManifest(m: Json): Option<JobInputs>
  {
    var receptor := Field(m, "receptor");
    var ligands := if Field(m, "ligands").Some? then AsStrings(Field(m, "ligands").value) else None;
    var grid := ReadOptionalObject(Field(m, "grid"));
    var backend := ReadOptionalString(Field(m, "backend"));
    var hardware := ReadOptionalString(Field(m, "hardware"));
    var poses := ReadInt(Field(m, "poses_per_ligand"));
    var maxLigands := ReadInt(Field(m, "max_ligands"));
    if receptor.Some? && receptor.value.JStr? && ligands.Some? && grid.Some? && backend.Some? && hardware.Some? &&
       poses.Some? && maxLigands.Some?
    then Some(JobInputs(receptor.value.s, ligands.value, grid.value, backend.value, hardware.value, poses.value, maxLigands.value))
    else None
  }

  /** The manifest records every input field of the job, and only those. */
  lemma ManifestRoundTrip(job: DockingJobSpec)
    ensures ReadManifest(Manifest(job)) == Some(InputsOf(job))
  {
    var es := Manifest(job).fields.entries;
    FieldAt(es, 0, "receptor");
    FieldAt(es, 1, "ligands");
    FieldAt(es, 2, "grid");
    FieldAt(es, 3, "backend");
    FieldAt(es, 4, "hardware");
    FieldAt(es, 5, "poses_per_ligand");
    FieldAt(es, 6, "max_ligands");
    StringsRoundTrip(job.ligands);
  }
}
