/**
 * The records of the docking pipeline (zeropain/docking/types.py): a job
 * specification with its defaults, one scored pose, and the result of a run.
 */
module DockingTypes {
  import opened Wrappers
  import opened OrderedDict
  import opened Json
  import opened Text

  /**
   * DockingJobSpec. Python's truthiness of the optional strings matters to
   * the routing: an empty backend or hardware name counts as unset.
   */
  datatype DockingJobSpec = DockingJobSpec(
    receptor: string,
    ligands: seq<string>,
    grid: Option<Dict<string, Json>> := None,
    backend: Option<string> := None,
    hardware: Option<string> := None,
    posesPerLigand: int := 5,
    maxLigands: int := 500,
    timeoutSec: int := 300,
    jobId: string,
    runDir: string := "runs")

  datatype DockingPose = DockingPose(ligandId: string, poseId: int, score: real, backend: string, device: string, rank: int)

  datatype DockingResult = DockingResult(
    jobId: string,
    status: string,
    backend: string,
    device: string,
    poses: seq<DockingPose> := [],
    artifacts: Dict<string, string> := Empty(),
    telemetry: Dict<string, Json> := Empty(),
    errors: seq<string> := [])

  /** `x or default` for an optional string. */
  function OrElse(x: Option<string>, default: string): string
  {
    if x.Some? && |x.value| > 0 then x.value else default
  }

  /** s[:n] for n >= 0. */
  function Prefix(s: string, n: nat): (p: string)
    ensures |p| == if |s| <= n then |s| else n
  {
    if |s| <= n then s else s[..n]
  }

  /** f"dock-{int(time.time())}-{uuid.uuid4().hex[:8]}", the clock and the uuid given. */
  function JobId(seconds: int, uuidHex: string): (id: string)
    ensures |id| > 6 && id[..5] == "dock-"
    ensures var hex := Prefix(uuidHex, 8); |id| > |hex| && id[|id| - |hex|..] == hex && id[|id| - |hex| - 1] == '-'
  {
    "dock-" + IntToString(seconds) + "-" + Prefix(uuidHex, 8)
  }

  /** A job built with every field but the receptor and ligands left to its default. */
  function NewJob(receptor: string, ligands: seq<string>, seconds: int, uuidHex: string): (job: DockingJobSpec)
    ensures job.receptor == receptor && job.ligands == ligands
    ensures job.grid.None? && job.backend.None? && job.hardware.None?
    ensures job.posesPerLigand == 5 && job.maxLigands == 500 && job.timeoutSec == 300
    ensures job.runDir == "runs" && job.jobId == JobId(seconds, uuidHex)
  {
    DockingJobSpec(receptor := receptor, ligands := ligands, jobId := JobId(seconds, uuidHex))
  }

  /**
   * A default job id splits at its dashes into "dock", the decimal seconds
   * and the first eight characters of the uuid's hex form.
   */
  lemma JobIdShape(seconds: nat, uuidHex: string)
    requires |uuidHex| >= 8 && forall i :: 0 <= i < |uuidHex| ==> IsHexDigit(uuidHex[i])
    ensures Split(JobId(seconds, uuidHex), '-') == ["dock", NatToString(seconds), uuidHex[..8]]
    ensures |JobId(seconds, uuidHex)| == 14 + |NatToString(seconds)|
  {
    var digits := NatToString(seconds);
    var hex := uuidHex[..8];
    assert '-' !in digits by {
      forall i | 0 <= i < |digits| ensures digits[i] != '-' {
        assert IsDigit(digits[i]);
      }
    }
    assert '-' !in hex by {
      forall i | 0 <= i < |hex| ensures hex[i] != '-' {
        assert IsHexDigit(uuidHex[i]);
      }
    }
    var tail := digits + ['-'] + hex;
    assert JobId(seconds, uuidHex) == "dock" + (['-'] + tail);
    SplitPrefix("dock", ['-'] + tail, '-');
    assert (['-'] + tail)[1..] == tail;
    SplitAround(digits, hex, '-');
  }
}
