/**
 * Scenario templates and cohort specifications of src/scenarios.py:
 * parsing a cohort string such as "n=200,age=60±10,renal=0.3,seed=42",
 * turning a cohort into a patient generation config, and the scenario
 * template lookup.
 *
 * Python's float() and int() on a string are parameters (string parsing of
 * numbers is not modelled); each returns None where Python raises
 * ValueError.
 */
module Scenarios {
  import opened Wrappers
  import opened Numeric
  import opened OrderedDict
  import opened Json
  import opened Text
  import opened PatientGeneration

  datatype CohortSpec = CohortSpec(
    n: int := 200,
    ageMean: real := 60.0,
    ageStd: real := 10.0,
    weightMean: real := 80.0,
    weightStd: real := 15.0,
    sexRatioMale: real := 0.5,
    renalImpairedRate: real := 0.1,
    hepaticImpairedRate: real := 0.05,
    baselineTolerance: real := 0.05,
    seed: Option<int> := None)

  /** float(s) and int(s) on a string. */
  datatype NumberParsers = NumberParsers(parseFloat: string -> Option<real>, parseInt: string -> Option<int>)

  /** The character between a mean and its spread. */
  const PlusMinus: char := '\U{00B1}'

  // ---------------------------------------------------------------------------
  // Parsing a cohort string

  /** [p.strip() for p in spec.split(",") if p.strip()] */
  function Parts(spec: string): (parts: seq<string>)
    ensures forall i :: 0 <= i < |parts| ==> parts[i] != ""
  {
    NonBlank(Split(spec, ','))
  }

  function NonBlank(pieces: seq<string>): (parts: seq<string>)
    ensures |parts| <= |pieces|
    ensures forall i :: 0 <= i < |parts| ==> parts[i] != ""
  {
    if |pieces| == 0 then []
    else (if Strip(pieces[0]) != "" then [Strip(pieces[0])] else []) + NonBlank(pieces[1..])
  }

  /** What the loop has gathered: the params dict and the seed. */
  datatype Parsed = Parsed(params: Dict<string, real>, seed: Option<int>)

  /** The tuple unpacking `a, b = s.split(c)`: exactly two pieces, or a ValueError. */
  function Unpack2(s: string, c: char): Result<(string, string), string>
  {
    var pieces := Split(s, c);
    if |pieces| != 2 then Err(UnpackError(|pieces|)) else Ok((pieces[0], pieces[1]))
  }

  /** The ValueError of unpacking a split into two names. */
  function UnpackError(pieces: nat): string
  {
    if pieces > 2 then "ValueError: too many values to unpack (expected 2)"
    else "ValueError: not enough values to unpack (expected 2, got 1)"
  }

  /** One part of the cohort string applied to what has been gathered so far. */
  function ParsePart(acc: Parsed, part: string, num: NumberParsers): Result<Parsed, string>
  {
    if PlusMinus in part then
      match Unpack2(part, '=')
      case Err(e) => Err(e)
      case Ok((key, rest)) =>
        match Unpack2(rest, PlusMinus)
        case Err(e) => Err(e)
        case Ok((mean, std)) =>
          match (num.parseFloat(mean), num.parseFloat(std))
          case (Some(m), Some(s)) =>
            Ok(acc.(params := Set(Set(acc.params, key + "_mean", m), key + "_std", s)))
          case _ => Err("ValueError: could not convert string to float")
    else if '=' in part then
      match Unpack2(part, '=')
      case Err(e) => Err(e)
      case Ok((key, val)) =>
        if key == "seed" then
          match num.parseInt(val)
          case None => Err("ValueError: invalid literal for int()")
          case Some(v) => Ok(acc.(seed := Some(v)))
        else
          match num.parseFloat(val)
          case None => Err("ValueError: could not convert string to float")
          case Some(v) => Ok(acc.(params := Set(acc.params, key, v)))
    else Ok(acc)
  }

  /** The state after the first n parts; the first failing part ends parsing. */
  function ParseUpTo(parts: seq<string>, n: nat, num: NumberParsers): Result<Parsed, string>
    requires n <= |parts|
  {
    if n == 0 then Ok(Parsed(Empty(), None))
    else
      match ParseUpTo(parts, n - 1, num)
      case Err(e) => Err(e)
      case Ok(acc) => ParsePart(acc, parts[n - 1], num)
  }

  /** params.get(key, default) */
  function ParamOr(params: Dict<string, real>, key: string, default: real): real
  {
    Get(params, key).GetOr(default)
  }

  /** The CohortSpec(...) call closing parse_cohort_spec; n goes through int(), which truncates. */
  function CohortOf(acc: Parsed): CohortSpec
  {
    var ps := acc.params;
    CohortSpec(
      n := Trunc(ParamOr(ps, "n", 200.0)),
      ageMean := ParamOr(ps, "age_mean", 60.0),
      ageStd := ParamOr(ps, "age_std", 10.0),
      weightMean := ParamOr(ps, "weight_mean", 80.0),
      weightStd := ParamOr(ps, "weight_std", 15.0),
      sexRatioMale := ParamOr(ps, "sex_ratio_male", 0.5),
      renalImpairedRate := ParamOr(ps, "renal", 0.1),
      hepaticImpairedRate := ParamOr(ps, "hepatic", 0.05),
      baselineTolerance := ParamOr(ps, "baseline_tolerance", 0.05),
      seed := acc.seed)
  }

  /** parse_cohort_spec(spec) as a value. */
  function CohortSpecOf(spec: string, num: NumberParsers): Result<CohortSpec, string>
  {
    var parts := Parts(spec);
    match ParseUpTo(parts, |parts|, num)
    case Err(e) => Err(e)
    case Ok(acc) => Ok(CohortOf(acc))
  }

  /** An error at some part is the outcome of every longer prefix. */
  lemma {:induction false} ErrorSticks(parts: seq<string>, i: nat, j: nat, num: NumberParsers)
    requires i <= j <= |parts| && ParseUpTo(parts, i, num).Err?
    ensures ParseUpTo(parts, j, num) == ParseUpTo(parts, i, num)
    decreases j
  {
    if j > i {
      ErrorSticks(parts, i, j - 1, num);
    }
  }

  /** parse_cohort_spec: the loop over the parts fills params and seed, then builds the cohort. */
  method ParseCohortSpec(spec: string, num: NumberParsers) returns (r: Result<CohortSpec, string>)
    ensures r == CohortSpecOf(spec, num)
  {
    var parsed := ReadParts(Parts(spec), num);
    match parsed
    case Err(e) => r := Err(e);
    case Ok(acc) => r := Ok(CohortOf(acc));
  }

  /** The loop over the parts; the first part that fails ends it with its error. */
  method ReadParts(parts: seq<string>, num: NumberParsers) returns (r: Result<Parsed, string>)
    ensures r == ParseUpTo(parts, |parts|, num)
  {
    var params: Dict<string, real> := Empty();
    var seed: Option<int> := None;
    for i := 0 to |parts|
      invariant ParseUpTo(parts, i, num) == Ok(Parsed(params, seed))
    {
      var step := ReadPart(params, seed, parts[i], num);
      if step.Err? {
        ErrorSticks(parts, i + 1, |parts|, num);
        return Err(step.error);
      }
      params, seed := step.value.params, step.value.seed;
    }
    r := Ok(Parsed(params, seed));
  }

  /** The body of the loop over the parts: one part read into params or seed. */
  method ReadPart(params: Dict<string, real>, seed: Option<int>, part: string, num: NumberParsers)
    returns (r: Result<Parsed, string>)
    ensures r == ParsePart(Parsed(params, seed), part, num)
  {
    r := Ok(Parsed(params, seed));
    if PlusMinus in part {
      var kv := Split(part, '=');
      if |kv| != 2 {
        return Err(UnpackError(|kv|));
      }
      var ms := Split(kv[1], PlusMinus);
      if |ms| != 2 {
        return Err(UnpackError(|ms|));
      }
      var mean := num.parseFloat(ms[0]);
      var std := num.parseFloat(ms[1]);
      if mean.None? || std.None? {
        return Err("ValueError: could not convert string to float");
      }
      var updated := Set(params, kv[0] + "_mean", mean.value);
      updated := Set(updated, kv[0] + "_std", std.value);
      r := Ok(Parsed(updated, seed));
    } else if '=' in part {
      var kv := Split(part, '=');
      if |kv| != 2 {
        return Err(UnpackError(|kv|));
      }
      if kv[0] == "seed" {
        var v := num.parseInt(kv[1]);
        if v.None? {
          return Err("ValueError: invalid literal for int()");
        }
        r := Ok(Parsed(params, Some(v.value)));
      } else {
        var v := num.parseFloat(kv[1]);
        if v.None? {
          return Err("ValueError: could not convert string to float");
        }
        r := Ok(Parsed(Set(params, kv[0], v.value), seed));
      }
    }
  }

  // ---------------------------------------------------------------------------
  // Properties of parsing

  /** A part the parser accepts: a well-formed "k=m±s", a well-formed "k=v", or one with neither '=' nor '±'. */
  predicate PartOk(part: string, num: NumberParsers)
  {
    if PlusMinus in part then
      Count(part, '=') == 1 &&
      var rest := Split(part, '=')[1];
      Count(rest, PlusMinus) == 1 &&
      num.parseFloat(Split(rest, PlusMinus)[0]).Some? && num.parseFloat(Split(rest, PlusMinus)[1]).Some?
    else if '=' in part then
      Count(part, '=') == 1 &&
      var kv := Split(part, '=');
      if kv[0] == "seed" then num.parseInt(kv[1]).Some? else num.parseFloat(kv[1]).Some?
    else true
  }

  lemma PartOkIff(acc: Parsed, part: string, num: NumberParsers)
    ensures ParsePart(acc, part, num).Ok? <==> PartOk(part, num)
  {
  }

  lemma {:induction false} ParseUpToOkIff(parts: seq<string>, n: nat, num: NumberParsers)
    requires n <= |parts|
    ensures ParseUpTo(parts, n, num).Ok? <==> forall i :: 0 <= i < n ==> PartOk(parts[i], num)
    decreases n
  {
    if n > 0 {
      ParseUpToOkIff(parts, n - 1, num);
      match ParseUpTo(parts, n - 1, num)
      case Err(_) =>
      case Ok(acc) => PartOkIff(acc, parts[n - 1], num);
    }
  }

  /**
   * The cohort string parses exactly when every part is well formed: in
   * particular any part with more than one '=' raises ValueError.
   */
  lemma CohortSpecOkIff(spec: string, num: NumberParsers)
    ensures CohortSpecOf(spec, num).Ok? <==> forall i :: 0 <= i < |Parts(spec)| ==> PartOk(Parts(spec)[i], num)
    ensures (exists i :: 0 <= i < |Parts(spec)| && Count(Parts(spec)[i], '=') > 1) ==> CohortSpecOf(spec, num).Err?
  {
    ParseUpToOkIff(Parts(spec), |Parts(spec)|, num);
    forall i | 0 <= i < |Parts(spec)| && Count(Parts(spec)[i], '=') > 1
      ensures !PartOk(Parts(spec)[i], num)
    {
      CountIn(Parts(spec)[i], '=');
    }
  }

  /** Parts with neither '=' nor '±' are ignored: such a string gives the default cohort. */
  lemma {:induction false} NoAssignmentsKeepsState(parts: seq<string>, n: nat, num: NumberParsers)
    requires n <= |parts|
    requires forall i :: 0 <= i < n ==> '=' !in parts[i] && PlusMinus !in parts[i]
    ensures ParseUpTo(parts, n, num) == Ok(Parsed(Empty(), None))
    decreases n
  {
    if n > 0 {
      NoAssignmentsKeepsState(parts, n - 1, num);
    }
  }

  lemma DefaultCohort(spec: string, num: NumberParsers)
    requires forall i :: 0 <= i < |Parts(spec)| ==> '=' !in Parts(spec)[i] && PlusMinus !in Parts(spec)[i]
    ensures CohortSpecOf(spec, num) == Ok(CohortSpec())
  {
    NoAssignmentsKeepsState(Parts(spec), |Parts(spec)|, num);
    assert Trunc(200.0) == 200;
  }

  /** A string free of commas, neither starting nor ending with whitespace, is the only part. */
  lemma SinglePart(s: string)
    requires ',' !in s && s != "" && !IsSpace(s[0]) && !IsSpace(s[|s| - 1])
    ensures Parts(s) == [s]
  {
    SplitFree(s, ',');
    assert StripLeft(s) == s;
    assert StripRight(s) == s;
    assert NonBlank([s]) == [s] + NonBlank([]);
  }

  /** A cohort string of one part is that part read into an empty state. */
  lemma OnePart(s: string, num: NumberParsers, acc: Parsed)
    requires ',' !in s && s != "" && !IsSpace(s[0]) && !IsSpace(s[|s| - 1])
    requires ParsePart(Parsed(Empty(), None), s, num) == Ok(acc)
    ensures CohortSpecOf(s, num) == Ok(CohortOf(acc))
  {
    SinglePart(s);
    assert ParseUpTo([s], 0, num) == Ok(Parsed(Empty(), None));
    assert [s][0] == s;
  }

  /** A part "key=val" stores float(val) under key; a later one for the same key overrides an earlier one. */
  lemma AssignmentPart(acc: Parsed, key: string, val: string, num: NumberParsers, v: real)
    requires key != "seed" && '=' !in key && PlusMinus !in key && '=' !in val && PlusMinus !in val
    requires num.parseFloat(val) == Some(v)
    ensures ParsePart(acc, key + "=" + val, num) == Ok(acc.(params := Set(acc.params, key, v)))
    ensures Get(ParsePart(acc, key + "=" + val, num).value.params, key) == Some(v)
  {
    var part := key + "=" + val;
    assert part == key + ['='] + val;
    SplitAround(key, val, '=');
    assert PlusMinus !in part;
    assert '=' in part by { assert part[|key|] == '='; }
    SetGet(acc.params, key, v, key);
  }

  /** A part "key=m±s" stores float(m) under key_mean and float(s) under key_std. */
  lemma SpreadPart(acc: Parsed, key: string, mean: string, std: string, num: NumberParsers, m: real, sd: real)
    requires '=' !in key && PlusMinus !in key && '=' !in mean && PlusMinus !in mean && '=' !in std && PlusMinus !in std
    requires num.parseFloat(mean) == Some(m) && num.parseFloat(std) == Some(sd)
    ensures ParsePart(acc, key + "=" + mean + [PlusMinus] + std, num) ==
      Ok(acc.(params := Set(Set(acc.params, key + "_mean", m), key + "_std", sd)))
  {
    var rest := mean + [PlusMinus] + std;
    var part := key + ['='] + rest;
    assert key + "=" + mean + [PlusMinus] + std == part;
    assert '=' !in rest;
    SplitAround(key, rest, '=');
    SplitAround(mean, std, PlusMinus);
    assert PlusMinus in part by { assert part[|key| + 1 + |mean|] == PlusMinus; }
  }

  /** A number written in a cohort string: no separator of the format and no surrounding whitespace. */
  predicate PlainNumber(x: string)
  {
    x != "" && ',' !in x && '=' !in x && PlusMinus !in x && !IsSpace(x[|x| - 1])
  }

  /**
   * "age=v" without a spread stores "age", a key the cohort never reads,
   * so the age mean keeps its default: the cohort is the default one.
   */
  lemma AgeWithoutSpread(val: string, num: NumberParsers)
    requires PlainNumber(val) && num.parseFloat(val).Some?
    ensures CohortSpecOf("age=" + val, num) == Ok(CohortSpec())
  {
    var s := "age" + "=" + val;
    assert s == "age=" + val;
    assert s[0] == 'a' && s[|s| - 1] == val[|val| - 1];
    assert ',' !in s;
    var v := num.parseFloat(val).value;
    AssignmentPart(Parsed(Empty(), None), "age", val, num, v);
    var acc := Parsed(Set(Empty(), "age", v), None);
    OnePart(s, num, acc);
    SetGet(Empty(), "age", v, "age_mean");
    SetGet(Empty(), "age", v, "age_std");
    SetGet(Empty(), "age", v, "n");
    SetGet(Empty(), "age", v, "weight_mean");
    SetGet(Empty(), "age", v, "weight_std");
    SetGet(Empty(), "age", v, "sex_ratio_male");
    SetGet(Empty(), "age", v, "renal");
    SetGet(Empty(), "age", v, "hepatic");
    SetGet(Empty(), "age", v, "baseline_tolerance");
    assert Trunc(200.0) == 200;
  }

  /** "age=m±s" sets the age mean to float(m) and the age spread to float(s). */
  lemma AgeWithSpread(mean: string, std: string, num: NumberParsers, m: real, sd: real)
    requires PlainNumber(mean) && PlainNumber(std)
    requires num.parseFloat(mean) == Some(m) && num.parseFloat(std) == Some(sd)
    ensures var r := CohortSpecOf("age=" + mean + [PlusMinus] + std, num);
      r.Ok? && r.value.ageMean == m && r.value.ageStd == sd
  {
    var s := "age" + "=" + mean + [PlusMinus] + std;
    assert s == "age=" + mean + [PlusMinus] + std;
    assert s[0] == 'a' && s[|s| - 1] == std[|std| - 1];
    assert ',' !in s;
    SpreadPart(Parsed(Empty(), None), "age", mean, std, num, m, sd);
    assert "age" + "_mean" == "age_mean" && "age" + "_std" == "age_std";
    var once := Set(Empty(), "age_mean", m);
    var acc := Parsed(Set(once, "age_std", sd), None);
    OnePart(s, num, acc);
    SetGet(once, "age_std", sd, "age_mean");
    SetGet(Empty(), "age_mean", m, "age_mean");
    SetGet(once, "age_std", sd, "age_std");
  }

  // ---------------------------------------------------------------------------
  // The generation config

  /** AgeDistribution(alpha=2.0, beta=3.0, min_age=18, max_age=90). */
  const CohortAges: AgeDistribution := AgeDistribution(2.0, 3.0, 18, 90)

  /** The weight distribution of a cohort: men 5 kg above its mean, women 5 kg below but at least 45. */
  function CohortWeights(cohort: CohortSpec): (w: WeightDistribution)
    ensures w.maleMean == cohort.weightMean + 5.0
    ensures w.femaleMean >= 45.0 && (cohort.weightMean - 5.0 >= 45.0 ==> w.femaleMean == cohort.weightMean - 5.0)
    ensures w.maleStd == cohort.weightStd && w.femaleStd == cohort.weightStd
    ensures w.minWeight == 45.0 && w.maxWeight == 140.0
  {
    WeightDistribution(cohort.weightMean + 5.0, cohort.weightStd, Max(45.0, cohort.weightMean - 5.0),
                       cohort.weightStd, 45.0, 140.0)
  }

  /**
   * build_generation_config(cohort): the generator seeded with the cohort's
   * seed rejects a negative one; otherwise the config is built, then the
   * kidney and liver prevalences of its comorbidity dict are replaced.
   * Apart from those two entries it is PatientGenerationConfig called with
   * the cohort's size, sex ratio, ages and weights.
   */
  method BuildGenerationConfig(cohort: CohortSpec) returns (r: Result<PatientGenerationConfig, string>)
    ensures r.Err? <==> cohort.seed.Some? && cohort.seed.value < 0
    ensures r.Err? ==> r.error == NegativeSeedError
    ensures r.Ok? ==> r.value.populationSize == Some(cohort.n) && r.value.sexRatioMale == cohort.sexRatioMale
    ensures r.Ok? ==> r.value.ageDistribution == CohortAges && r.value.weightDistribution == CohortWeights(cohort)
    ensures r.Ok? ==> Get(r.value.comorbidityPrevalence, "kidney_disease") == Some(cohort.renalImpairedRate)
    ensures r.Ok? ==> Get(r.value.comorbidityPrevalence, "liver_disease") == Some(cohort.hepaticImpairedRate)
    ensures r.Ok? ==>
      forall k :: k != "kidney_disease" && k != "liver_disease" ==>
        Get(r.value.comorbidityPrevalence, k) == Get(DefaultComorbidities, k)
    ensures r.Ok? ==> Keys(r.value.comorbidityPrevalence) == Keys(DefaultComorbidities)
    ensures r.Ok? ==>
      r.value.(comorbidityPrevalence := DefaultComorbidities) ==
      PatientGenerationConfig(populationSize := Some(cohort.n), sexRatioMale := cohort.sexRatioMale,
                              ageDistribution := CohortAges, weightDistribution := CohortWeights(cohort))
  {
    if cohort.seed.Some? && cohort.seed.value < 0 {
      return Err(NegativeSeedError);
    }
    var cfg := PatientGenerationConfig(
      populationSize := Some(cohort.n),
      sexRatioMale := cohort.sexRatioMale,
      ageDistribution := CohortAges,
      weightDistribution := CohortWeights(cohort));
    DefaultImpairmentKeys();
    ImpairmentsFacts(cfg.comorbidityPrevalence, cohort.renalImpairedRate, cohort.hepaticImpairedRate);
    var prevalence := cfg.comorbidityPrevalence;
    prevalence := Set(prevalence, "kidney_disease", cohort.renalImpairedRate);
    prevalence := Set(prevalence, "liver_disease", cohort.hepaticImpairedRate);
    r := Ok(cfg.(comorbidityPrevalence := prevalence));
  }

  /** The two replacements of build_generation_config, one after the other. */
  function WithImpairments(d: Dict<string, real>, renal: real, hepatic: real): Dict<string, real>
  {
    Set(Set(d, "kidney_disease", renal), "liver_disease", hepatic)
  }

  /**
   * On a dict that already holds both keys, the replacements keep its keys
   * and their order, set the two prevalences, and leave every other entry.
   */
  lemma ImpairmentsFacts(d: Dict<string, real>, renal: real, hepatic: real)
    requires HasKey(d, "kidney_disease") && HasKey(d, "liver_disease")
    ensures Keys(WithImpairments(d, renal, hepatic)) == Keys(d)
    ensures Get(WithImpairments(d, renal, hepatic), "kidney_disease") == Some(renal)
    ensures Get(WithImpairments(d, renal, hepatic), "liver_disease") == Some(hepatic)
    ensures forall k :: k != "kidney_disease" && k != "liver_disease" ==>
      Get(WithImpairments(d, renal, hepatic), k) == Get(d, k)
  {
    var once := Set(d, "kidney_disease", renal);
    SetKeys(d, "kidney_disease", renal);
    SetKeys(once, "liver_disease", hepatic);
    SetGet(d, "kidney_disease", renal, "kidney_disease");
    SetGet(once, "liver_disease", hepatic, "kidney_disease");
    SetGet(once, "liver_disease", hepatic, "liver_disease");
    forall k | k != "kidney_disease" && k != "liver_disease"
      ensures Get(WithImpairments(d, renal, hepatic), k) == Get(d, k)
    {
      SetGet(d, "kidney_disease", renal, k);
      SetGet(once, "liver_disease", hepatic, k);
    }
  }

  /** The default comorbidity dict lists both kidney and liver disease. */
  lemma DefaultImpairmentKeys()
    ensures HasKey(DefaultComorbidities, "kidney_disease") && HasKey(DefaultComorbidities, "liver_disease")
  {
    assert Keys(DefaultComorbidities)[6] == "kidney_disease";
    assert Keys(DefaultComorbidities)[7] == "liver_disease";
  }

  // ---------------------------------------------------------------------------
  // Scenario templates

  function Objectives(painControl: real, toleranceCap: real, withdrawalRisk: real): Json
  {
    Obj([("pain_control", JNum(painControl)), ("tolerance_cap", JNum(toleranceCap)),
         ("withdrawal_risk", JNum(withdrawalRisk))])
  }

  function Template(horizonDays: int, taper: bool, monitorDays: int, objectives: Json): Json
  {
    Obj([("horizon_days", JInt(horizonDays)), ("taper", JBool(taper)), ("monitor_days", JInt(monitorDays)),
         ("objectives", objectives)])
  }

  /** SCENARIO_TEMPLATES */
  const ScenarioTemplates: Dict<string, Json> := Dict([
    ("perioperative", Template(14, true, 1, Objectives(0.8, 0.2, 0.0))),
    ("chronic", Template(90, false, 7, Objectives(0.7, 0.3, 0.05))),
    ("breakthrough", Template(30, true, 3, Objectives(0.85, 0.25, 0.02)))])

  /** scenario_defaults(scenario_id): the template of a known scenario, an empty dict otherwise. */
  function ScenarioDefaults(scenarioId: string): (t: Json)
    ensures t.JObj?
    ensures scenarioId !in {"perioperative", "chronic", "breakthrough"} ==> t == JObj(Empty())
    ensures scenarioId == "perioperative" ==>
      Field(t, "horizon_days") == Some(JInt(14)) && Field(t, "taper") == Some(JBool(true)) &&
      Field(t, "monitor_days") == Some(JInt(1))
    ensures scenarioId == "chronic" ==>
      Field(t, "horizon_days") == Some(JInt(90)) && Field(t, "taper") == Some(JBool(false)) &&
      Field(t, "monitor_days") == Some(JInt(7))
    ensures scenarioId == "breakthrough" ==>
      Field(t, "horizon_days") == Some(JInt(30)) && Field(t, "taper") == Some(JBool(true)) &&
      Field(t, "monitor_days") == Some(JInt(3))
  {
    Get(ScenarioTemplates, scenarioId).GetOr(JObj(Empty()))
  }
}
