/**
 * The two pose generators (zeropain/docking/backends/mocked.py and
 * python_ref.py). Both walk the first max_ligands ligands and, for each,
 * poses_per_ligand pose ids, appending one pose per step whose rank is the
 * number of poses so far; they differ only in the backend name and the
 * score. Each score takes one value of a generator seeded with a constant
 * (1234 for mocked, 42 for python_ref); the stream of values that generator
 * yields is a parameter, so pose k uses its k-th value.
 */
module DockingBackends {
  import opened Numeric
  import opened DockingTypes

  datatype Scoring = Mocked | Reference

  function BackendName(s: Scoring): string
  {
    match s
    case Mocked => "mocked"
    case Reference => "python_ref"
  }

  /** The successive values of random.Random(seed).random(). */
  type Stream = nat -> real

  ghost predicate UnitStream(stream: Stream)
  {
    forall k: nat :: 0.0 <= stream(k) < 1.0
  }

  /** -5.0 - 0.01 * pose_id + 0.1 * random() for mocked, -7.0 + random() for python_ref. */
  function Score(s: Scoring, stream: Stream, poseId: nat, rank: nat): real
  {
    match s
    case Mocked => -5.0 - 0.01 * poseId as real + 0.1 * stream(rank)
    case Reference => -7.0 + stream(rank)
  }

  /** job.ligands[: job.max_ligands], where a negative bound drops that many ligands from the end. */
  function LigandSlice(ligands: seq<string>, bound: int): (s: seq<string>)
    ensures |s| <= |ligands| && s == ligands[..|s|]
    ensures bound >= 0 ==> |s| == MinInt(|ligands|, bound)
    ensures bound < 0 ==> |s| == MaxInt(0, |ligands| + bound)
  {
    if bound >= 0 then ligands[..MinInt(|ligands|, bound)] else ligands[..MaxInt(0, |ligands| + bound)]
  }

  /** range(poses_per_ligand): empty for a negative count. */
  function PoseCount(posesPerLigand: int): nat
  {
    if posesPerLigand > 0 then posesPerLigand else 0
  }

  function PoseAt(s: Scoring, stream: Stream, ligand: string, poseId: nat, rank: nat, device: string): DockingPose
  {
    DockingPose(ligand, poseId, Score(s, stream, poseId, rank), BackendName(s), device, rank)
  }

  /** The first count poses of one ligand whose first pose has rank start. */
  function LigandPoses(s: Scoring, stream: Stream, ligand: string, count: nat, start: nat, device: string): (ps: seq<DockingPose>)
    ensures |ps| == count
    ensures forall j :: 0 <= j < count ==> ps[j] == PoseAt(s, stream, ligand, j, start + j, device)
  {
    seq(count, j requires 0 <= j < count => PoseAt(s, stream, ligand, j, start + j, device))
  }

  /** The poses of the given ligands, ligand by ligand, perLigand each. */
  function Poses(s: Scoring, stream: Stream, ligands: seq<string>, perLigand: nat, device: string): (ps: seq<DockingPose>)
    ensures |ps| == |ligands| * perLigand
    decreases |ligands|
  {
    if |ligands| == 0 then []
    else
      var n := |ligands| - 1;
      Poses(s, stream, ligands[..n], perLigand, device) + LigandPoses(s, stream, ligands[n], perLigand, n * perLigand, device)
  }

  /** The poses a job yields on a backend. */
  function JobPoses(s: Scoring, stream: Stream, job: DockingJobSpec, device: string): (ps: seq<DockingPose>)
    ensures |ps| == |LigandSlice(job.ligands, job.maxLigands)| * PoseCount(job.posesPerLigand)
    ensures job.posesPerLigand <= 0 || job.maxLigands == 0 ==> ps == []
  {
    Poses(s, stream, LigandSlice(job.ligands, job.maxLigands), PoseCount(job.posesPerLigand), device)
  }

  /** The nested loop of run(job, device). */
  method Generate(s: Scoring, stream: Stream, job: DockingJobSpec, device: string) returns (poses: seq<DockingPose>)
    ensures poses == JobPoses(s, stream, job, device)
  {
    var ligands := LigandSlice(job.ligands, job.maxLigands);
    var per := PoseCount(job.posesPerLigand);
    poses := [];
    for i := 0 to |ligands|
      invariant poses == Poses(s, stream, ligands[..i], per, device)
    {
      ghost var before := poses;
      for j := 0 to per
        invariant poses == before + LigandPoses(s, stream, ligands[i], j, i * per, device)
      {
        assert LigandPoses(s, stream, ligands[i], j + 1, i * per, device) ==
          LigandPoses(s, stream, ligands[i], j, i * per, device) + [PoseAt(s, stream, ligands[i], j, i * per + j, device)];
        poses := poses + [PoseAt(s, stream, ligands[i], j, |poses|, device)];
      }
      assert ligands[..i + 1][..i] == ligands[..i];
    }
    assert ligands[..|ligands|] == ligands;
  }

  /** mocked.run(job, device) */
  method RunMocked(job: DockingJobSpec, device: string, stream: Stream) returns (poses: seq<DockingPose>)
    ensures poses == JobPoses(Mocked, stream, job, device)
  {
    poses := Generate(Mocked, stream, job, device);
  }

  /** python_ref.run(job, device) */
  method RunPythonRef(job: DockingJobSpec, device: string, stream: Stream) returns (poses: seq<DockingPose>)
    ensures poses == JobPoses(Reference, stream, job, device)
  {
    poses := Generate(Reference, stream, job, device);
  }

  /** Pose j of ligand i sits at index i * perLigand + j. */
  lemma {:induction false} PosesLayout(s: Scoring, stream: Stream, ligands: seq<string>, perLigand: nat, device: string,
                                       i: nat, j: nat)
    requires i < |ligands| && j < perLigand
    ensures i * perLigand + j < |Poses(s, stream, ligands, perLigand, device)|
    ensures Poses(s, stream, ligands, perLigand, device)[i * perLigand + j] ==
      PoseAt(s, stream, ligands[i], j, i * perLigand + j, device)
    decreases |ligands|
  {
    var n := |ligands| - 1;
    MulMonotone(i + 1, n + 1, perLigand);
    if i < n {
      MulMonotone(i + 1, n, perLigand);
      PosesLayout(s, stream, ligands[..n], perLigand, device, i, j);
    }
  }

  /**
   * Every pose k has rank k, the backend's name, the given device, a pose
   * id below perLigand, one of the ligands and the score of its pose id and
   * rank; on a stream of values in [0, 1) a mocked score lies in
   * [-5 - 0.01 * pose_id, -4.9 - 0.01 * pose_id) and a python_ref score in
   * [-7, -6).
   */
  lemma {:induction false} PoseFacts(s: Scoring, stream: Stream, ligands: seq<string>, perLigand: nat, device: string, k: nat)
    requires k < |Poses(s, stream, ligands, perLigand, device)|
    ensures var p := Poses(s, stream, ligands, perLigand, device)[k];
      p.rank == k && p.backend == BackendName(s) && p.device == device &&
      0 <= p.poseId < perLigand && p.ligandId in ligands && p.score == Score(s, stream, p.poseId, k)
    ensures var p := Poses(s, stream, ligands, perLigand, device)[k];
      UnitStream(stream) ==>
        (s == Mocked ==> -5.0 - 0.01 * p.poseId as real <= p.score < -4.9 - 0.01 * p.poseId as real) &&
        (s == Reference ==> -7.0 <= p.score < -6.0)
    decreases |ligands|
  {
    var n := |ligands| - 1;
    var front := Poses(s, stream, ligands[..n], perLigand, device);
    if k < |front| {
      PoseFacts(s, stream, ligands[..n], perLigand, device, k);
    } else {
      assert Poses(s, stream, ligands, perLigand, device)[k] == LigandPoses(s, stream, ligands[n], perLigand, n * perLigand, device)[k - |front|];
    }
  }
}
