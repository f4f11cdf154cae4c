/**
 * Choosing the docking backend and device (zeropain/docking/hardware_routing.py).
 * Whether the external workload router could be imported, and what it
 * answers for a request, are parameters: a router value stands for an
 * importable router, and its route function for route_workload.
 */
module HardwareRouting {
  import opened Wrappers
  import opened Numeric
  import opened OrderedDict
  import opened Json
  import opened Text
  import opened DockingTypes

  datatype DockingHardwareProfile = DockingHardwareProfile(
    cpuCores: int := 0, avx2: bool := false, arcGpu: bool := false, npuAvailable: bool := false,
    routerReady: bool := false)

  /**
   * detect_hardware_profile(): psutil's logical core count (None when psutil
   * is missing or reports nothing), 0 otherwise; no accelerator is ever
   * reported.
   */
  function DetectHardwareProfile(cpuCount: Option<int>, routerAvailable: bool): (p: DockingHardwareProfile)
    ensures !p.avx2 && !p.arcGpu && !p.npuAvailable
    ensures p.routerReady == routerAvailable
    ensures p.cpuCores == if cpuCount.Some? then cpuCount.value else 0
  {
    DockingHardwareProfile(cpuCount.GetOr(0), false, false, false, routerAvailable)
  }

  datatype WorkloadRequest = WorkloadRequest(
    workloadId: string, workloadType: string, modelName: string, batchSize: int, inputShape: seq<int>,
    securityLayer: int, framework: string, quantization: string)

  /**
   * _build_request(job): None without the router; otherwise a request sized
   * by the ligands that will be docked times the poses per ligand, at least 1.
   */
  function BuildRequest(job: DockingJobSpec, routerAvailable: bool): (r: Option<WorkloadRequest>)
    ensures r.None? <==> !routerAvailable
    ensures r.Some? ==> r.value.batchSize >= 1
    ensures r.Some? ==> r.value.batchSize == MaxInt(1, MinInt(job.maxLigands, |job.ligands|) * job.posesPerLigand)
    ensures r.Some? ==> r.value.inputShape == [r.value.batchSize] && r.value.workloadId == job.jobId
    ensures r.Some? ==> r.value.modelName == OrElse(job.backend, "docking")
  {
    if !routerAvailable then None
    else
      var batch := MaxInt(1, MinInt(job.maxLigands, |job.ligands|) * job.posesPerLigand);
      Some(WorkloadRequest(job.jobId, "CNN_CLASSIFICATION", OrElse(job.backend, "docking"), batch, [batch], 3,
                           "native", "fp32"))
  }

  /** A routing decision: the accelerator's name and the two optional estimates. */
  datatype Decision = Decision(accelerator: string, estimatedLatencyMs: Json, powerImpactW: Json)

  /** What route_workload does with a request: returns no decision, a decision, or raises. */
  datatype RouteOutcome = NoDecision | Decided(decision: Decision) | Raised(message: string)

  datatype Router = Router(route: WorkloadRequest -> RouteOutcome)

  /** (backend, device, routing_meta) */
  datatype Selection = Selection(backend: string, device: string, routingMeta: Dict<string, Json>)

  /** The router path's mapping of an accelerator name. */
  function FromAccelerator(accel: string, meta: Dict<string, Json>): (s: Selection)
    ensures s.routingMeta == meta
    ensures (s.backend == "openvino_ml" && s.device == "NPU") <==> Contains(Upper(accel), "NPU")
    ensures (s.backend == "c_native" && s.device == "GPU") <==>
      !Contains(Upper(accel), "NPU") && (Contains(Upper(accel), "GPU") || Contains(Upper(accel), "ARC"))
    ensures (s.backend == "python_ref" && s.device == "CPU") <==>
      !Contains(Upper(accel), "NPU") && !Contains(Upper(accel), "GPU") && !Contains(Upper(accel), "ARC")
  {
    var up := Upper(accel);
    if Contains(up, "NPU") then Selection("openvino_ml", "NPU", meta)
    else if Contains(up, "GPU") || Contains(up, "ARC") then Selection("c_native", "GPU", meta)
    else Selection("python_ref", "CPU", meta)
  }

  /** The heuristic fallback: the native GPU backend exactly when an Arc GPU is reported. */
  function Heuristic(profile: DockingHardwareProfile, meta: Dict<string, Json>): (s: Selection)
    ensures s.routingMeta == meta
    ensures (s.backend == "c_native" && s.device == "GPU") <==> profile.arcGpu
    ensures (s.backend == "python_ref" && s.device == "CPU") <==> !profile.arcGpu
  {
    if profile.arcGpu then Selection("c_native", "GPU", meta) else Selection("python_ref", "CPU", meta)
  }

  /** The routing meta recorded for a decision. */
  function DecisionMeta(d: Decision): (m: Dict<string, Json>)
    ensures Keys(m) == ["accelerator", "estimated_latency_ms", "power_impact_w"]
  {
    Dict([("accelerator", JStr(d.accelerator)), ("estimated_latency_ms", d.estimatedLatencyMs),
          ("power_impact_w", d.powerImpactW)])
  }

  /** `if job.backend:` */
  predicate Explicit(job: DockingJobSpec)
  {
    job.backend.Some? && |job.backend.value| > 0
  }

  /**
   * select_backend(job, profile): an explicit backend wins; otherwise the
   * router's decision, when there is one; otherwise the heuristic on the
   * given profile (or the detected one), with a router exception recorded
   * in the meta.
   */
  function SelectBackend(job: DockingJobSpec, profile: Option<DockingHardwareProfile>, router: Option<Router>,
                         detected: DockingHardwareProfile): (s: Selection)
    ensures Explicit(job) ==> s.backend == job.backend.value && s.routingMeta == Empty()
    ensures Explicit(job) ==> s.device == if job.backend.value == "mocked" then "CPU" else OrElse(job.hardware, "AUTO")
    ensures !Explicit(job) ==> s.backend in ["openvino_ml", "c_native", "python_ref"]
    ensures !Explicit(job) && router.None? ==> s == Heuristic(profile.GetOr(detected), Empty())
    ensures !Explicit(job) && router.Some? && router.value.route(BuildRequest(job, true).value).NoDecision? ==>
      s == Heuristic(profile.GetOr(detected), Empty())
    ensures !Explicit(job) && router.Some? && router.value.route(BuildRequest(job, true).value).Decided? ==>
      var d := router.value.route(BuildRequest(job, true).value).decision;
      s == FromAccelerator(d.accelerator, DecisionMeta(d))
    ensures !Explicit(job) && router.Some? && router.value.route(BuildRequest(job, true).value).Raised? ==>
      s == Heuristic(profile.GetOr(detected),
                     Dict([("router_error", JStr(router.value.route(BuildRequest(job, true).value).message))]))
  {
    if Explicit(job) then
      Selection(job.backend.value, if job.backend.value != "mocked" then OrElse(job.hardware, "AUTO") else "CPU", Empty())
    else
      var prof := profile.GetOr(detected);
      match router
      case None => Heuristic(prof, Empty())
      case Some(r) =>
        match r.route(BuildRequest(job, true).value)
        case NoDecision => Heuristic(prof, Empty())
        case Decided(d) => FromAccelerator(d.accelerator, DecisionMeta(d))
        case Raised(e) => Heuristic(prof, Dict([("router_error", JStr(e))]))
  }

  /**
   * Without the router, and with no backend named, the detected profile
   * always leads to the pure-Python reference backend on the CPU.
   */
  lemma NoRouterSelectsReference(job: DockingJobSpec, cpuCount: Option<int>)
    requires !Explicit(job)
    ensures SelectBackend(job, None, None, DetectHardwareProfile(cpuCount, false)) == Selection("python_ref", "CPU", Empty())
  {
  }
}
