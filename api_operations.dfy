/**
 * The operational routes' pure core (zeropain/api/routes/operations.py):
 * the bounds of a simulation request, the metrics derived from it, the
 * metadata a run's detail page merges, and the readers of a run's JSON
 * files. Whether a file is present, its lines and json.loads are parameters.
 */
module Operations {
  import opened Wrappers
  import opened Numeric
  import opened OrderedDict
  import opened Json
  import opened ApiAuth

  datatype SimulationRequest = SimulationRequest(
    runId: Option<string> := None, patientCount: int := 5000, backend: string := "local", resume: bool := true,
    batchSize: int := 256, ageMean: real := 45.0, ageStd: real := 15.0, sexRatioFemale: real := 0.5,
    medicationPrevalence: real := 0.2, baselineTolerance: real := 0.1, receptorTarget: string := "MOR")

  /** The field constraints the request model declares. */
  predicate ValidRequest(p: SimulationRequest)
  {
    1 <= p.patientCount <= 500000 && p.backend in ["local", "ray", "dask"] && 1 <= p.batchSize <= 10000 &&
    0.0 <= p.ageMean <= 110.0 && 0.0 <= p.ageStd <= 40.0 && 0.0 <= p.sexRatioFemale <= 1.0 &&
    0.0 <= p.medicationPrevalence <= 1.0 && 0.0 <= p.baselineTolerance <= 1.0
  }

  function Flag(bad: bool, field: string): (r: seq<string>)
    ensures |r| == (if bad then 1 else 0) && forall x :: x in r ==> x == field
  {
    if bad then [field] else []
  }

  /** The fields validation rejects, in declaration order; validation passes exactly when there are none. */
  function ValidationErrors(p: SimulationRequest): (errs: seq<string>)
    ensures |errs| == 0 <==> ValidRequest(p)
    ensures "patient_count" in errs <==> !(1 <= p.patientCount <= 500000)
    ensures "backend" in errs <==> p.backend !in ["local", "ray", "dask"]
  {
    var rest :=
      Flag(!(1 <= p.batchSize <= 10000), "batch_size") +
      Flag(!(0.0 <= p.ageMean <= 110.0), "age_mean") +
      Flag(!(0.0 <= p.ageStd <= 40.0), "age_std") +
      Flag(!(0.0 <= p.sexRatioFemale <= 1.0), "sex_ratio_female") +
      Flag(!(0.0 <= p.medicationPrevalence <= 1.0), "medication_prevalence") +
      Flag(!(0.0 <= p.baselineTolerance <= 1.0), "baseline_tolerance");
    assert forall x :: x in rest ==> |x| != |"patient_count"| && (|x| == |"backend"| ==> x[0] != "backend"[0]);
    Flag(!(1 <= p.patientCount <= 500000), "patient_count") +
    Flag(p.backend !in ["local", "ray", "dask"], "backend") +
    rest
  }

  /** The request with every field left at its default is valid. */
  lemma DefaultRequestValid()
    ensures ValidationErrors(SimulationRequest()) == []
  {
  }

  datatype SimulationMetrics = SimulationMetrics(
    analgesiaScore: real, sideEffectRisk: real, receptorOccupancy: real, medicationExposure: real,
    throughputPerBatch: real)

  function Occupancy(p: SimulationRequest): real
  {
    Min(1.0, (p.patientCount as real / 50000.0) * (0.35 + p.medicationPrevalence * 0.25))
  }

  function Analgesia(p: SimulationRequest): real
  {
    Min(1.0, 0.45 + p.medicationPrevalence * 0.2 + p.baselineTolerance * 0.25 + Occupancy(p) * 0.2)
  }

  function SideEffects(p: SimulationRequest): real
  {
    Min(1.0, 0.25 + (1.0 - p.sexRatioFemale) * 0.05 + p.ageMean / 200.0 + p.baselineTolerance * 0.3)
  }

  /** batch_size / max(age_std, 1), the divisor never below 1. */
  function BatchRate(p: SimulationRequest): real
  {
    p.batchSize as real / Max(p.ageStd, 1.0)
  }

  /**
   * _derive_sim_metrics(payload): the three scores capped at 1 and rounded
   * to 3 places, the exposure the prevalence rounded to 3 places, the
   * throughput the batch rate rounded to 2.
   */
  function DeriveSimMetrics(p: SimulationRequest): (m: SimulationMetrics)
    ensures m.analgesiaScore <= 1.0 && m.sideEffectRisk <= 1.0 && m.receptorOccupancy <= 1.0
    ensures p.patientCount >= 1 && p.medicationPrevalence >= 0.0 ==> m.receptorOccupancy >= 0.0
    ensures m.medicationExposure == RoundHalfEven(p.medicationPrevalence, 3)
    ensures m.throughputPerBatch == RoundHalfEven(BatchRate(p), 2)
  {
    RoundAtMostOne(Analgesia(p), 3);
    RoundAtMostOne(SideEffects(p), 3);
    RoundAtMostOne(Occupancy(p), 3);
    assert p.patientCount >= 1 && p.medicationPrevalence >= 0.0 ==> RoundHalfEven(Occupancy(p), 3) >= 0.0 by {
      if p.patientCount >= 1 && p.medicationPrevalence >= 0.0 {
        OccupancyNonNegative(p);
        RoundNonNegative(Occupancy(p), 3);
      }
    }
    SimulationMetrics(RoundHalfEven(Analgesia(p), 3), RoundHalfEven(SideEffects(p), 3), RoundHalfEven(Occupancy(p), 3),
                      RoundHalfEven(p.medicationPrevalence, 3), RoundHalfEven(BatchRate(p), 2))
  }

  lemma OccupancyNonNegative(p: SimulationRequest)
    requires p.patientCount >= 1 && p.medicationPrevalence >= 0.0
    ensures Occupancy(p) >= 0.0
  {
    var a := p.patientCount as real / 50000.0;
    var b := 0.35 + p.medicationPrevalence * 0.25;
    assert a >= 0.0 && b >= 0.0;
    assert a * b >= 0.0;
  }

  /**
   * For a valid request every score, the occupancy and the exposure lie in
   * [0, 1], and the throughput is non-negative.
   */
  lemma ValidMetricsBounded(p: SimulationRequest)
    requires ValidRequest(p)
    ensures var m := DeriveSimMetrics(p);
      0.0 <= m.analgesiaScore <= 1.0 && 0.0 <= m.sideEffectRisk <= 1.0 && 0.0 <= m.receptorOccupancy <= 1.0 &&
      0.0 <= m.medicationExposure <= 1.0 && 0.0 <= m.throughputPerBatch
  {
    OccupancyNonNegative(p);
    RoundUnitInterval(Occupancy(p), 3);
    assert 0.0 <= p.medicationPrevalence * 0.2 && 0.0 <= p.baselineTolerance * 0.25 && 0.0 <= Occupancy(p) * 0.2;
    RoundUnitInterval(Analgesia(p), 3);
    assert 0.0 <= (1.0 - p.sexRatioFemale) * 0.05 && 0.0 <= p.baselineTolerance * 0.3;
    RoundUnitInterval(SideEffects(p), 3);
    RoundUnitInterval(p.medicationPrevalence, 3);
    assert BatchRate(p) >= 0.0;
    RoundNonNegative(BatchRate(p), 2);
  }

  /** {k: v for k, v in d.items() if k not in ex}, on the entries. */
  function EntriesNotIn(e: seq<(string, Json)>, ex: Dict<string, Json>): (r: seq<(string, Json)>)
    ensures |r| <= |e|
  {
    if |e| == 0 then []
    else if HasKey(ex, e[0].0) then EntriesNotIn(e[1..], ex)
    else [e[0]] + EntriesNotIn(e[1..], ex)
  }

  lemma {:induction false} EntriesNotInFind(e: seq<(string, Json)>, ex: Dict<string, Json>, k: string)
    ensures Find(EntriesNotIn(e, ex), k) == if HasKey(ex, k) then None else Find(e, k)
  {
    if |e| > 0 {
      EntriesNotInFind(e[1..], ex, k);
    }
  }

  lemma {:induction false} EntriesNotInKeys(e: seq<(string, Json)>, ex: Dict<string, Json>)
    ensures KeysOf(EntriesNotIn(e, ex)) == KeysNotIn(KeysOf(e), Keys(ex))
  {
    if |e| > 0 {
      EntriesNotInKeys(e[1..], ex);
      assert KeysOf(e)[1..] == KeysOf(e[1..]);
      if !HasKey(ex, e[0].0) {
        assert KeysOf(EntriesNotIn(e, ex)) == [e[0].0] + KeysOf(EntriesNotIn(e[1..], ex));
      }
    }
  }

  lemma {:induction false} EntriesNotInDistinct(e: seq<(string, Json)>, ex: Dict<string, Json>)
    requires DistinctKeys(e)
    ensures DistinctKeys(EntriesNotIn(e, ex))
  {
    if |e| > 0 {
      assert DistinctKeys(e[1..]);
      EntriesNotInDistinct(e[1..], ex);
      var t := EntriesNotIn(e[1..], ex);
      if !HasKey(ex, e[0].0) {
        forall i | 0 <= i < |t| ensures t[i].0 != e[0].0 {
          EntriesNotInFind(e[1..], ex, t[i].0);
          FindSomeIffKey(t, t[i].0);
          assert KeysOf(t)[i] == t[i].0;
          FindSomeIffKey(e[1..], t[i].0);
          var m :| 0 <= m < |e[1..]| && KeysOf(e[1..])[m] == t[i].0;
          assert e[m + 1].0 == t[i].0;
        }
      }
    }
  }

  /** {**meta, **{k: v for k, v in config.items() if k not in meta}} */
  function MergedMeta(meta: Dict<string, Json>, config: Dict<string, Json>): (m: Dict<string, Json>)
    requires Wf(config)
    ensures forall k :: Get(m, k) == if HasKey(meta, k) then Get(meta, k) else Get(config, k)
    ensures Keys(m) == Keys(meta) + KeysNotIn(Keys(config), Keys(meta))
  {
    var extra := Dict(EntriesNotIn(config.entries, meta));
    EntriesNotInDistinct(config.entries, meta);
    forall k ensures Get(Merge(meta, extra), k) == if HasKey(meta, k) then Get(meta, k) else Get(config, k) {
      MergeGet(meta, extra, k);
      EntriesNotInFind(config.entries, meta, k);
      GetSomeIffKey(extra, k);
      GetSomeIffKey(meta, k);
    }
    MergeKeys(meta, extra);
    EntriesNotInKeys(config.entries, meta);
    KeysNotInIdempotent(Keys(config), Keys(meta));
    Merge(meta, extra)
  }

  lemma {:induction false} KeysNotInIdempotent(ks: seq<string>, ex: seq<string>)
    ensures KeysNotIn(KeysNotIn(ks, ex), ex) == KeysNotIn(ks, ex)
  {
    if |ks| > 0 {
      KeysNotInIdempotent(ks[1..], ex);
      if ks[0] !in ex {
        assert ([ks[0]] + KeysNotIn(ks[1..], ex))[1..] == KeysNotIn(ks[1..], ex);
      }
    }
  }

  /**
   * The merged metadata reads like {**config, **meta}: meta always wins and
   * config only fills in what meta lacks (the order of keys differs).
   */
  lemma MergedMetaMetaWins(meta: Dict<string, Json>, config: Dict<string, Json>, k: string)
    requires Wf(meta) && Wf(config)
    ensures Get(MergedMeta(meta, config), k) == Get(Merge(config, meta), k)
  {
    MergeGet(config, meta, k);
    GetSomeIffKey(meta, k);
  }

  /** Python truthiness of a JSON value. */
  predicate Truthy(j: Json)
  {
    match j
    case JNull => false
    case JBool(b) => b
    case JInt(i) => i != 0
    case JNum(r) => r != 0.0
    case JInf => true
    case JStr(s) => |s| > 0
    case JArr(items) => |items| > 0
    case JObj(fields) => |fields.entries| > 0
  }

  /** _read_json(path): the parsed file, or {} when it is missing or does not parse. */
  function ReadJson(present: bool, text: string, parse: string -> Option<Json>): (j: Json)
    ensures !present ==> j == JObj(Empty())
    ensures present && parse(text).None? ==> j == JObj(Empty())
    ensures present && parse(text).Some? ==> j == parse(text).value
  {
    if !present then JObj(Empty())
    else match parse(text)
      case None => JObj(Empty())
      case Some(v) => v
  }

  /** The rows of the lines that parse, in line order. */
  function ParsedLines(lines: seq<string>, parse: string -> Option<Json>): (rows: seq<Json>)
    ensures |rows| <= |lines|
    decreases |lines|
  {
    if |lines| == 0 then []
    else
      var n := |lines| - 1;
      ParsedLines(lines[..n], parse) + (match parse(lines[n]) case Some(j) => [j] case None => [])
  }

  /** _read_json_lines(path): [] for a missing file, else every line that parses, in order. */
  method ReadJsonLines(present: bool, lines: seq<string>, parse: string -> Option<Json>) returns (rows: seq<Json>)
    ensures rows == if present then ParsedLines(lines, parse) else []
  {
    if !present {
      return [];
    }
    rows := [];
    for i := 0 to |lines|
      invariant rows == ParsedLines(lines[..i], parse)
    {
      assert lines[..i + 1][..i] == lines[..i];
      var row := parse(lines[i]);
      if row.Some? {
        rows := rows + [row.value];
      }
    }
    assert lines[..|lines|] == lines;
  }

  /** Reading two runs of lines one after the other gives their rows one after the other. */
  lemma {:induction false} ParsedLinesAppend(a: seq<string>, b: seq<string>, parse: string -> Option<Json>)
    ensures ParsedLines(a + b, parse) == ParsedLines(a, parse) + ParsedLines(b, parse)
    decreases |b|
  {
    if |b| == 0 {
      assert a + b == a;
    } else {
      var n := |b| - 1;
      assert (a + b)[..|a + b| - 1] == a + b[..n];
      ParsedLinesAppend(a, b[..n], parse);
    }
  }

  /** When every line parses, there is one row per line, in line order. */
  lemma {:induction false} ParsedLinesAll(lines: seq<string>, parse: string -> Option<Json>)
    requires forall i :: 0 <= i < |lines| ==> parse(lines[i]).Some?
    ensures |ParsedLines(lines, parse)| == |lines|
    ensures forall i :: 0 <= i < |lines| ==> ParsedLines(lines, parse)[i] == parse(lines[i]).value
    decreases |lines|
  {
    if |lines| > 0 {
      var n := |lines| - 1;
      ParsedLinesAll(lines[..n], parse);
    }
  }

  /** A line that does not parse contributes nothing. */
  lemma ParsedLinesSkip(before: seq<string>, bad: string, after: seq<string>, parse: string -> Option<Json>)
    requires parse(bad).None?
    ensures ParsedLines(before + [bad] + after, parse) == ParsedLines(before + after, parse)
  {
    ParsedLinesAppend(before + [bad], after, parse);
    ParsedLinesAppend(before, [bad], parse);
    ParsedLinesAppend(before, after, parse);
    assert ParsedLines([bad], parse) == ParsedLines([], parse) + [];
  }

  datatype RunSummary = RunSummary(
    runId: string, createdUtc: Option<string>, backend: Option<string>, signatureValid: bool, signatureStatus: string)

  datatype RunDetail = RunDetail(summary: RunSummary, metadata: Dict<string, Json>, metrics: seq<Json>, audit: seq<Json>)

  /** An exception the route does not catch: the framework answers 500. */
  const InternalError := HttpError(500, "Internal Server Error")

  /** `config or {}`, then `.items()`: a falsy value counts as {}; a truthy non-object has no items. */
  function ConfigItems(config: Json): (r: Option<Dict<string, Json>>)
    ensures !Truthy(config) ==> r == Some(Empty())
    ensures config.JObj? ==> r == Some(config.fields)
    ensures r.None? <==> Truthy(config) && !config.JObj?
  {
    if !Truthy(config) then Some(Empty())
    else if config.JObj? then Some(config.fields)
    else None
  }

  /** A value the model's Optional[str] field accepts: missing, null or a string. */
  predicate OptionalStr(v: Option<Json>)
  {
    v.None? || v.value.JNull? || v.value.JStr?
  }

  /** The Optional[str] field's value: None for missing or null. */
  function OptionalStrValue(v: Option<Json>): (r: Option<string>)
    requires OptionalStr(v)
    ensures r.Some? <==> v.Some? && v.value.JStr?
    ensures r.Some? ==> v == Some(JStr(r.value))
  {
    if v.Some? && v.value.JStr? then Some(v.value.s) else None
  }

  /** Rows a List[Dict[str, Any]] field accepts: every row is an object. */
  predicate AllObjects(rows: seq<Json>)
  {
    forall i :: 0 <= i < |rows| ==> rows[i].JObj?
  }

  /**
   * get_run(run_id): the get_current_user dependency runs first, so a caller
   * it rejects gets its 401 whatever the run; then 404 for a missing run; otherwise the summary read from
   * the metadata, the merged metadata, and the metrics and audit rows. A
   * metadata file that holds no object fails on meta.get, a truthy config
   * that is no object fails on .items(), and the response models reject a
   * created_utc or backend that is neither null nor a string and a metrics
   * or audit row that is no object; each of those is an uncaught exception.
   */
  function GetRun(caller: Result<User, HttpError>, runId: string, runExists: bool, meta: Json, config: Json,
                  audit: seq<Json>, metrics: seq<Json>, signatureValid: bool, signatureStatus: string)
    : (r: Result<RunDetail, HttpError>)
    requires meta.JObj? ==> Wf(meta.fields)
    requires config.JObj? ==> Wf(config.fields)
    ensures caller.Err? ==> r == Err(caller.error)
    ensures caller.Ok? && !runExists ==> r == Err(HttpError(NotFound, "Run not found"))
    ensures caller.Ok? && runExists && r.Err? ==> r == Err(InternalError)
    ensures r.Ok? <==>
      caller.Ok? && runExists && meta.JObj? && ConfigItems(config).Some? &&
      OptionalStr(Get(meta.fields, "created_utc")) && OptionalStr(Get(meta.fields, "backend")) &&
      AllObjects(metrics) && AllObjects(audit)
    ensures r.Ok? ==>
      r.value.summary == RunSummary(runId, OptionalStrValue(Get(meta.fields, "created_utc")),
                                    OptionalStrValue(Get(meta.fields, "backend")), signatureValid, signatureStatus)
    ensures r.Ok? ==> forall k ::
      Get(r.value.metadata, k) == if HasKey(meta.fields, k) then Get(meta.fields, k) else Get(ConfigItems(config).value, k)
    ensures r.Ok? ==> r.value.metrics == metrics && r.value.audit == audit
  {
    if caller.Err? then Err(caller.error)
    else if !runExists then Err(HttpError(NotFound, "Run not found"))
    else if !meta.JObj? then Err(InternalError)
    else
      var created := Get(meta.fields, "created_utc");
      var backend := Get(meta.fields, "backend");
      if !OptionalStr(created) || !OptionalStr(backend) then Err(InternalError)
      else match ConfigItems(config)
        case None => Err(InternalError)
        case Some(items) =>
          if !AllObjects(metrics) || !AllObjects(audit) then Err(InternalError)
          else
            var summary := RunSummary(runId, OptionalStrValue(created), OptionalStrValue(backend),
                                      signatureValid, signatureStatus);
            Ok(RunDetail(summary, MergedMeta(meta.fields, items), metrics, audit))
  }

  /** A run without a config file shows its metadata as it is. */
  lemma MissingConfigKeepsMeta(user: User, runId: string, meta: Dict<string, Json>, audit: seq<Json>, metrics: seq<Json>,
                               signatureValid: bool, signatureStatus: string, parse: string -> Option<Json>)
    requires Wf(meta) && OptionalStr(Get(meta, "created_utc")) && OptionalStr(Get(meta, "backend"))
    requires AllObjects(metrics) && AllObjects(audit)
    ensures var r := GetRun(Ok(user), runId, true, JObj(meta), ReadJson(false, "", parse), audit, metrics, signatureValid, signatureStatus);
      r.Ok? && Keys(r.value.metadata) == Keys(meta) && forall k :: Get(r.value.metadata, k) == Get(meta, k)
  {
    var r := GetRun(Ok(user), runId, true, JObj(meta), ReadJson(false, "", parse), audit, metrics, signatureValid, signatureStatus);
    assert KeysNotIn(Keys(Empty<string, Json>()), Keys(meta)) == [];
    forall k ensures Get(r.value.metadata, k) == Get(meta, k) {
      GetSomeIffKey(meta, k);
    }
  }
}
