/**
 * The virtual population of src/patient_simulation_100k.py: the age and
 * weight samplers, the generation config with its default comorbidity and
 * medication tables, and PatientGenerator.
 *
 * NumPy's Generator is replaced by the values it yields: a PatientDraws
 * record per generator, obtained from a DrawSource by the generator's seed
 * (seed + patient_id), or by the patient id when no seed is given and the
 * generator is seeded from OS entropy. The Beta and log-normal draws are
 * values of the record; the distribution parameters of the config only
 * shape them.
 */
module PatientGeneration {
  import opened Wrappers
  import opened Numeric
  import opened OrderedDict

  datatype AgeDistribution = AgeDistribution(
    alpha: real := 2.0, beta: real := 3.0, minAge: int := 18, maxAge: int := 85)

  /** sample(rng), b being the Beta(alpha, beta) draw in [0, 1]. */
  function SampleAge(d: AgeDistribution, b: real): (age: int)
    ensures 0.0 <= b <= 1.0 && d.minAge <= d.maxAge ==> d.minAge <= age <= d.maxAge
  {
    var span := (d.maxAge - d.minAge) as real;
    var x := d.minAge as real + b * span;
    if 0.0 <= b <= 1.0 && d.minAge <= d.maxAge then
      ScaleUnit(b, span);
      TruncWithin(x, d.minAge, d.maxAge);
      Trunc(x)
    else Trunc(x)
  }

  datatype WeightDistribution = WeightDistribution(
    maleMean: real := 82.0, maleStd: real := 15.0,
    femaleMean: real := 70.0, femaleStd: real := 13.0,
    minWeight: real := 45.0, maxWeight: real := 120.0)

  /** sample(rng, sex): normal(mean, std) is mean + std * z for the standard normal draw z, then clipped. */
  function SampleWeight(d: WeightDistribution, z: real, sex: string): (w: real)
    ensures d.minWeight <= d.maxWeight ==> d.minWeight <= w <= d.maxWeight
    ensures sex == "M" && d.minWeight <= d.maleMean + d.maleStd * z <= d.maxWeight ==>
      w == d.maleMean + d.maleStd * z
    ensures sex != "M" && d.minWeight <= d.femaleMean + d.femaleStd * z <= d.maxWeight ==>
      w == d.femaleMean + d.femaleStd * z
  {
    var weight := if sex == "M" then d.maleMean + d.maleStd * z else d.femaleMean + d.femaleStd * z;
    Clamp(weight, d.minWeight, d.maxWeight)
  }

  datatype MedicationProfile = MedicationProfile(
    name: string,
    prevalence: real,
    metabolismMultiplier: real := 1.0,
    sensitivityMultiplier: real := 1.0,
    analgesiaBonus: real := 0.0,
    sideEffectBias: real := 0.0,
    baselineTolerance: real := 0.0)

  const DefaultComorbidities: Dict<string, real> := Dict([
    ("hypertension", 0.18), ("diabetes", 0.12), ("depression", 0.11), ("anxiety", 0.14),
    ("arthritis", 0.16), ("COPD", 0.08), ("kidney_disease", 0.07), ("liver_disease", 0.06)])

  const DefaultMedications: Dict<string, MedicationProfile> := Dict([
    ("ssri_snri", MedicationProfile("SSRI/SNRI", 0.18, sensitivityMultiplier := 1.05, sideEffectBias := 0.05)),
    ("benzodiazepine", MedicationProfile("Benzodiazepine", 0.08, sensitivityMultiplier := 0.95,
                                         sideEffectBias := 0.08, baselineTolerance := 0.05)),
    ("gabapentinoid", MedicationProfile("Gabapentinoid", 0.15, analgesiaBonus := 0.06,
                                        sensitivityMultiplier := 1.02)),
    ("nsaid", MedicationProfile("NSAID", 0.25, analgesiaBonus := 0.04)),
    ("stimulant", MedicationProfile("Stimulant", 0.06, metabolismMultiplier := 1.08, sideEffectBias := 0.03)),
    ("cannabis", MedicationProfile("Cannabis", 0.10, sensitivityMultiplier := 0.98, analgesiaBonus := 0.02,
                                   baselineTolerance := 0.02))])

  datatype PatientGenerationConfig = PatientGenerationConfig(
    populationSize: Option<int> := None,
    sexRatioMale: real := 0.5,
    ageDistribution: AgeDistribution := AgeDistribution(),
    weightDistribution: WeightDistribution := WeightDistribution(),
    comorbidityPrevalence: Dict<string, real> := DefaultComorbidities,
    painAlpha: real := 3.0,
    painBeta: real := 2.0,
    sensitivityMean: real := 0.0,
    sensitivitySigma: real := 0.3,
    metabolismSigma: real := 0.25,
    preExistingMedications: Dict<string, MedicationProfile> := DefaultMedications)

  /** PatientGenerationConfig() with every field at its default. */
  const DefaultConfig: PatientGenerationConfig := PatientGenerationConfig()

  datatype PatientProfile = PatientProfile(
    patientId: int,
    age: int,
    weight: real,
    sex: string,
    metabolismRate: real,
    sensitivity: real,
    painSeverity: real,
    comorbidities: seq<string> := [],
    medications: seq<string> := [],
    baselineTolerance: real := 0.0,
    medicationEffects: Dict<string, real> := Empty())

  /**
   * What one patient's generator yields, in the order generate_patient asks:
   * the Beta draw for age, the uniform for sex, the standard normal behind
   * the weight, the log-normal metabolism and sensitivity draws, the Beta
   * draw for pain, then one uniform per medication and one per condition.
   */
  datatype PatientDraws = PatientDraws(
    ageBeta: real, sexU: real, weightZ: real, metabolismLn: real, sensitivityLn: real, painBeta: real,
    medicationU: nat -> real, comorbidityU: nat -> real)

  /** Beta draws lie in [0, 1]. */
  predicate DrawsValid(d: PatientDraws)
  {
    0.0 <= d.ageBeta <= 1.0 && 0.0 <= d.painBeta <= 1.0
  }

  /** default_rng(seed) by its non-negative seed, and default_rng(None) for the patient with this id. */
  datatype DrawSource = DrawSource(seeded: nat -> PatientDraws, unseeded: int -> PatientDraws)

  /** The ValueError numpy's default_rng raises for a negative seed. */
  const NegativeSeedError := "ValueError: expected non-negative integer"

  /** default_rng(seed + patient_id) refuses the seed: it is given and the sum is negative. */
  predicate SeedRejected(patientId: int, seed: Option<int>)
  {
    seed.Some? && seed.value + patientId < 0
  }

  /** default_rng(seed + patient_id if seed is not None else None), for a seed it accepts. */
  function DrawsFor(src: DrawSource, patientId: int, seed: Option<int>): PatientDraws
    requires !SeedRejected(patientId, seed)
  {
    if seed.Some? then src.seeded(seed.value + patientId) else src.unseeded(patientId)
  }

  // ---------------------------------------------------------------------------
  // Specification of generate_patient

  /** The medications drawn so far and their combined effects. */
  datatype MedicationAccumulator = MedicationAccumulator(
    names: seq<string>, metabolism: real, sensitivity: real,
    analgesiaBonus: real, sideEffectBias: real, baselineTolerance: real)

  const NoMedications := MedicationAccumulator([], 1.0, 1.0, 0.0, 0.0, 0.0)

  /** Adding medication m: its name appended, multipliers multiplied in, additive effects added. */
  function Absorb(a: MedicationAccumulator, m: MedicationProfile): MedicationAccumulator
  {
    MedicationAccumulator(
      a.names + [m.name], a.metabolism * m.metabolismMultiplier, a.sensitivity * m.sensitivityMultiplier,
      a.analgesiaBonus + m.analgesiaBonus, a.sideEffectBias + m.sideEffectBias,
      a.baselineTolerance + m.baselineTolerance)
  }

  /** Medication i is taken when its uniform falls below its prevalence. */
  predicate Taken(meds: seq<MedicationProfile>, u: nat -> real, i: nat)
    requires i < |meds|
  {
    u(i) < meds[i].prevalence
  }

  /** The medications of meds that are taken absorbed in order. */
  function Accumulate(meds: seq<MedicationProfile>, u: nat -> real): MedicationAccumulator
  {
    if |meds| == 0 then NoMedications
    else
      var a := Accumulate(meds[..|meds| - 1], u);
      if Taken(meds, u, |meds| - 1) then Absorb(a, meds[|meds| - 1]) else a
  }

  /** How many of meds are taken. */
  function TakenCount(meds: seq<MedicationProfile>, u: nat -> real): nat
  {
    if |meds| == 0 then 0
    else TakenCount(meds[..|meds| - 1], u) + (if Taken(meds, u, |meds| - 1) then 1 else 0)
  }

  /**
   * One name per taken medication; with none taken every effect is neutral;
   * with positive multipliers the products are positive; with non-negative
   * baseline tolerances their sum is non-negative.
   */
  lemma {:induction false} AccumulateFacts(meds: seq<MedicationProfile>, u: nat -> real)
    ensures |Accumulate(meds, u).names| == TakenCount(meds, u)
    ensures TakenCount(meds, u) == 0 ==> Accumulate(meds, u) == NoMedications
    ensures (forall i :: 0 <= i < |meds| ==> meds[i].metabolismMultiplier > 0.0) ==>
      Accumulate(meds, u).metabolism > 0.0
    ensures (forall i :: 0 <= i < |meds| ==> meds[i].sensitivityMultiplier > 0.0) ==>
      Accumulate(meds, u).sensitivity > 0.0
    ensures (forall i :: 0 <= i < |meds| ==> meds[i].baselineTolerance >= 0.0) ==>
      Accumulate(meds, u).baselineTolerance >= 0.0
  {
    if |meds| > 0 {
      var init := meds[..|meds| - 1];
      AccumulateFacts(init, u);
      assert forall i :: 0 <= i < |init| ==> init[i] == meds[i];
      var a := Accumulate(init, u);
      var m := meds[|meds| - 1];
      if Taken(meds, u, |meds| - 1) {
        if (forall i :: 0 <= i < |meds| ==> meds[i].metabolismMultiplier > 0.0) {
          assert a.metabolism * m.metabolismMultiplier > 0.0;
        }
        if (forall i :: 0 <= i < |meds| ==> meds[i].sensitivityMultiplier > 0.0) {
          assert a.sensitivity * m.sensitivityMultiplier > 0.0;
        }
      }
    }
  }

  /** A condition's chance: min(1, prevalence * (1 + max(0, age - 50) * 0.01)). */
  function ConditionChance(prevalence: real, age: int): (c: real)
    ensures c <= 1.0
    ensures 0.0 <= prevalence <= 1.0 ==> prevalence <= c
  {
    var ageFactor := 1.0 + MaxInt(0, age - 50) as real * 0.01;
    if 0.0 <= prevalence <= 1.0 then
      ScaleUnit(prevalence, ageFactor - 1.0);
      assert prevalence * ageFactor - prevalence == prevalence * (ageFactor - 1.0);
      Min(1.0, prevalence * ageFactor)
    else Min(1.0, prevalence * ageFactor)
  }

  /** Key j is a comorbidity when its uniform falls below its chance. */
  predicate HasCondition(keys: seq<string>, prevalence: Dict<string, real>, u: nat -> real, age: int, j: nat)
    requires j < |keys|
  {
    u(j) < ConditionChance(Get(prevalence, keys[j]).GetOr(0.0), age)
  }

  /** The conditions among keys that are drawn, in order. */
  function Conditions(keys: seq<string>, prevalence: Dict<string, real>, u: nat -> real, age: int): (cs: seq<string>)
    ensures forall c :: c in cs ==> c in keys
  {
    if |keys| == 0 then []
    else
      var cs := Conditions(keys[..|keys| - 1], prevalence, u, age);
      if HasCondition(keys, prevalence, u, age, |keys| - 1) then cs + [keys[|keys| - 1]] else cs
  }

  /** With distinct keys, a key is among the conditions exactly when its draw falls below its chance. */
  lemma {:induction false} ConditionsExactly(keys: seq<string>, prevalence: Dict<string, real>, u: nat -> real, age: int)
    requires forall i, j :: 0 <= i < j < |keys| ==> keys[i] != keys[j]
    ensures forall j :: 0 <= j < |keys| ==>
      (keys[j] in Conditions(keys, prevalence, u, age) <==> HasCondition(keys, prevalence, u, age, j))
  {
    if |keys| > 0 {
      var init := keys[..|keys| - 1];
      ConditionsExactly(init, prevalence, u, age);
      var last := keys[|keys| - 1];
      assert last !in init;
      forall j | 0 <= j < |init|
        ensures HasCondition(init, prevalence, u, age, j) == HasCondition(keys, prevalence, u, age, j)
      {
        assert init[j] == keys[j];
      }
    }
  }

  /** x *= factor. */
  function Scale(x: real, factor: real): real
  {
    x * factor
  }

  /** Metabolism scaled by age: by 0.8 above 65, by 1.2 below 25. */
  function AgeScaled(x: real, age: int): (r: real)
    ensures x > 0.0 ==> r > 0.0
  {
    if age > 65 then x * 0.8 else if age < 25 then x * 1.2 else x
  }

  /** Metabolism scaled by 0.6 for liver disease, then by 0.7 for kidney disease. */
  function DiseaseScaled(x: real, conditions: seq<string>): (r: real)
    ensures x > 0.0 ==> r > 0.0
  {
    var y := if "liver_disease" in conditions then x * 0.6 else x;
    if "kidney_disease" in conditions then y * 0.7 else y
  }

  const EffectNames: seq<string> :=
    ["metabolism_multiplier", "sensitivity_multiplier", "analgesia_bonus", "side_effect_bias", "baseline_tolerance"]

  /** The medication_effects dict. */
  function EffectsDict(a: MedicationAccumulator): (d: Dict<string, real>)
    ensures Keys(d) == EffectNames
    ensures Get(d, "metabolism_multiplier") == Some(a.metabolism)
    ensures Get(d, "sensitivity_multiplier") == Some(a.sensitivity)
    ensures Get(d, "analgesia_bonus") == Some(a.analgesiaBonus)
    ensures Get(d, "side_effect_bias") == Some(a.sideEffectBias)
    ensures Get(d, "baseline_tolerance") == Some(a.baselineTolerance)
  {
    var e := [("metabolism_multiplier", a.metabolism), ("sensitivity_multiplier", a.sensitivity),
              ("analgesia_bonus", a.analgesiaBonus), ("side_effect_bias", a.sideEffectBias),
              ("baseline_tolerance", a.baselineTolerance)];
    assert DistinctKeys(e);
    FindAt(e, 0); FindAt(e, 1); FindAt(e, 2); FindAt(e, 3); FindAt(e, 4);
    Dict(e)
  }

  /** The log-normal metabolism draw scaled by age, by the medications and by liver and kidney disease. */
  function MetabolismRate(cfg: PatientGenerationConfig, d: PatientDraws, age: int,
                          meds: MedicationAccumulator, conditions: seq<string>): real
  {
    DiseaseScaled(Scale(AgeScaled(d.metabolismLn, age), meds.metabolism), conditions)
  }

  /** The log-normal sensitivity draw scaled by the medications. */
  function Sensitivity(cfg: PatientGenerationConfig, d: PatientDraws, meds: MedicationAccumulator): real
  {
    Scale(d.sensitivityLn, meds.sensitivity)
  }

  /** The patient generate_patient builds from the draws d. */
  function PatientFrom(patientId: int, cfg: PatientGenerationConfig, d: PatientDraws): (p: PatientProfile)
    ensures p.patientId == patientId
  {
    var age := SampleAge(cfg.ageDistribution, d.ageBeta);
    var sex := if d.sexU < cfg.sexRatioMale then "M" else "F";
    var meds := Accumulate(Values(cfg.preExistingMedications), d.medicationU);
    var conditions := Conditions(Keys(cfg.comorbidityPrevalence), cfg.comorbidityPrevalence, d.comorbidityU, age);
    PatientProfile(
      patientId, age, SampleWeight(cfg.weightDistribution, d.weightZ, sex), sex,
      MetabolismRate(cfg, d, age, meds, conditions), Sensitivity(cfg, d, meds),
      d.painBeta * 10.0, conditions, meds.names, meds.baselineTolerance, EffectsDict(meds))
  }

  /**
   * generate_patient(patient_id, seed, config): config None means the
   * defaults; the generator raises before any field is drawn when
   * seed + patient_id is negative.
   */
  function PatientOf(patientId: int, seed: Option<int>, config: Option<PatientGenerationConfig>,
                     src: DrawSource): (r: Result<PatientProfile, string>)
    ensures r.Err? <==> SeedRejected(patientId, seed)
    ensures r.Err? ==> r.error == NegativeSeedError
    ensures r.Ok? ==> r.value.patientId == patientId
  {
    if SeedRejected(patientId, seed) then Err(NegativeSeedError)
    else Ok(PatientFrom(patientId, config.GetOr(DefaultConfig), DrawsFor(src, patientId, seed)))
  }

  /** The ranges a generated patient lies in. */
  lemma PatientBounds(patientId: int, cfg: PatientGenerationConfig, d: PatientDraws)
    requires DrawsValid(d)
    ensures var p := PatientFrom(patientId, cfg, d);
      p.patientId == patientId &&
      (p.sex == "M" || p.sex == "F") &&
      (cfg.ageDistribution.minAge <= cfg.ageDistribution.maxAge ==>
         cfg.ageDistribution.minAge <= p.age <= cfg.ageDistribution.maxAge) &&
      (cfg.weightDistribution.minWeight <= cfg.weightDistribution.maxWeight ==>
         cfg.weightDistribution.minWeight <= p.weight <= cfg.weightDistribution.maxWeight) &&
      0.0 <= p.painSeverity <= 10.0 &&
      (forall c :: c in p.comorbidities ==> c in Keys(cfg.comorbidityPrevalence))
  {
  }

  /** The patient's medication entries: the drawn names and their five combined effects. */
  lemma PatientMedications(patientId: int, cfg: PatientGenerationConfig, d: PatientDraws)
    ensures var p := PatientFrom(patientId, cfg, d);
            var meds := Values(cfg.preExistingMedications);
      |p.medications| == TakenCount(meds, d.medicationU) &&
      Keys(p.medicationEffects) == EffectNames &&
      Get(p.medicationEffects, "baseline_tolerance") == Some(p.baselineTolerance) &&
      Get(p.medicationEffects, "analgesia_bonus") == Some(Accumulate(meds, d.medicationU).analgesiaBonus) &&
      Get(p.medicationEffects, "side_effect_bias") == Some(Accumulate(meds, d.medicationU).sideEffectBias)
  {
    AccumulateFacts(Values(cfg.preExistingMedications), d.medicationU);
  }

  /** A patient's metabolism is positive as long as its log-normal draw and every medication multiplier are. */
  lemma MetabolismPositive(patientId: int, cfg: PatientGenerationConfig, d: PatientDraws)
    requires d.metabolismLn > 0.0
    requires forall m :: m in Values(cfg.preExistingMedications) ==> m.metabolismMultiplier > 0.0
    ensures PatientFrom(patientId, cfg, d).metabolismRate > 0.0
  {
    var meds := Values(cfg.preExistingMedications);
    AccumulateFacts(meds, d.medicationU);
    assert forall i :: 0 <= i < |meds| ==> meds[i] in meds;
    var age := SampleAge(cfg.ageDistribution, d.ageBeta);
    var x := AgeScaled(d.metabolismLn, age);
    assert Scale(x, Accumulate(meds, d.medicationU).metabolism) > 0.0;
    var conditions := Conditions(Keys(cfg.comorbidityPrevalence), cfg.comorbidityPrevalence, d.comorbidityU, age);
    assert MetabolismRate(cfg, d, age, Accumulate(meds, d.medicationU), conditions) > 0.0;
  }

  /** Patient i under seed s + j is patient i + j under seed s, apart from its id: each draws from seed + id. */
  lemma SeedPlusId(i: int, j: int, s: int, cfg: PatientGenerationConfig, src: DrawSource)
    requires s + j + i >= 0
    ensures PatientFrom(i, cfg, DrawsFor(src, i, Some(s + j)))
         == PatientFrom(i + j, cfg, DrawsFor(src, i + j, Some(s))).(patientId := i)
  {
    assert DrawsFor(src, i, Some(s + j)) == DrawsFor(src, i + j, Some(s));
  }

  // ---------------------------------------------------------------------------
  // PatientGenerator

  /** The medication loop: draws each configured medication in order and accumulates its effects. */
  method DrawMedications(meds: seq<MedicationProfile>, u: nat -> real) returns (a: MedicationAccumulator)
    ensures a == Accumulate(meds, u)
  {
    var names: seq<string> := [];
    var metabolism, sensitivity, analgesiaBonus, sideEffectBias, baselineTolerance := 1.0, 1.0, 0.0, 0.0, 0.0;
    var i := 0;
    while i < |meds|
      invariant 0 <= i <= |meds|
      invariant MedicationAccumulator(names, metabolism, sensitivity, analgesiaBonus, sideEffectBias, baselineTolerance)
             == Accumulate(meds[..i], u)
    {
      assert meds[..i + 1][..i] == meds[..i];
      var m := meds[i];
      if u(i) < m.prevalence {
        names := names + [m.name];
        metabolism := metabolism * m.metabolismMultiplier;
        sensitivity := sensitivity * m.sensitivityMultiplier;
        analgesiaBonus := analgesiaBonus + m.analgesiaBonus;
        sideEffectBias := sideEffectBias + m.sideEffectBias;
        baselineTolerance := baselineTolerance + m.baselineTolerance;
      }
      i := i + 1;
    }
    assert meds[..i] == meds;
    a := MedicationAccumulator(names, metabolism, sensitivity, analgesiaBonus, sideEffectBias, baselineTolerance);
  }

  /** The comorbidity loop over the configured conditions in order. */
  method DrawConditions(prevalence: Dict<string, real>, u: nat -> real, age: int) returns (conditions: seq<string>)
    ensures conditions == Conditions(Keys(prevalence), prevalence, u, age)
  {
    var keys := Keys(prevalence);
    conditions := [];
    var j := 0;
    while j < |keys|
      invariant 0 <= j <= |keys|
      invariant conditions == Conditions(keys[..j], prevalence, u, age)
    {
      var prefix := keys[..j + 1];
      assert prefix[..j] == keys[..j] && prefix[j] == keys[j];
      var chance := ConditionChance(Get(prevalence, keys[j]).GetOr(0.0), age);
      if u(j) < chance {
        conditions := conditions + [keys[j]];
      }
      j := j + 1;
    }
    assert keys[..j] == keys;
  }

  /** PatientGenerator.generate_patient. */
  method GeneratePatient(patientId: int, seed: Option<int>, config: Option<PatientGenerationConfig>,
                         src: DrawSource) returns (r: Result<PatientProfile, string>)
    ensures r == PatientOf(patientId, seed, config, src)
  {
    var cfg := config.GetOr(DefaultConfig);
    if seed.Some? && seed.value + patientId < 0 {
      return Err(NegativeSeedError);
    }
    var d := DrawsFor(src, patientId, seed);
    var p := BuildPatient(patientId, cfg, d);
    return Ok(p);
  }

  /** The body of generate_patient once the config is chosen and the generator is seeded. */
  method BuildPatient(patientId: int, cfg: PatientGenerationConfig, d: PatientDraws)
    returns (p: PatientProfile)
    ensures p == PatientFrom(patientId, cfg, d)
  {
    var age := SampleAge(cfg.ageDistribution, d.ageBeta);
    var sex := if d.sexU < cfg.sexRatioMale then "M" else "F";
    var weight := SampleWeight(cfg.weightDistribution, d.weightZ, sex);
    var baseMetabolism := AgeScaled(d.metabolismLn, age);
    var sensitivity := d.sensitivityLn;
    var painSeverity := d.painBeta * 10.0;
    var meds := DrawMedications(Values(cfg.preExistingMedications), d.medicationU);
    baseMetabolism := Scale(baseMetabolism, meds.metabolism);
    sensitivity := Scale(sensitivity, meds.sensitivity);
    var conditions := DrawConditions(cfg.comorbidityPrevalence, d.comorbidityU, age);
    baseMetabolism := DiseaseScaled(baseMetabolism, conditions);
    PatientFromParts(patientId, cfg, d, age, sex, meds, conditions);
    p := PatientProfile(patientId, age, weight, sex, baseMetabolism, sensitivity, painSeverity,
                        conditions, meds.names, meds.baselineTolerance, EffectsDict(meds));
  }

  /** PatientFrom in terms of its intermediate values. */
  lemma PatientFromParts(patientId: int, cfg: PatientGenerationConfig, d: PatientDraws, age: int, sex: string,
                         meds: MedicationAccumulator, conditions: seq<string>)
    requires age == SampleAge(cfg.ageDistribution, d.ageBeta)
    requires sex == if d.sexU < cfg.sexRatioMale then "M" else "F"
    requires meds == Accumulate(Values(cfg.preExistingMedications), d.medicationU)
    requires conditions == Conditions(Keys(cfg.comorbidityPrevalence), cfg.comorbidityPrevalence, d.comorbidityU, age)
    ensures PatientFrom(patientId, cfg, d) ==
      PatientProfile(patientId, age, SampleWeight(cfg.weightDistribution, d.weightZ, sex), sex,
                     MetabolismRate(cfg, d, age, meds, conditions), Sensitivity(cfg, d, meds),
                     d.painBeta * 10.0, conditions, meds.names, meds.baselineTolerance, EffectsDict(meds))
  {
  }

  /** population_size, or n_patients when it is unset or 0. */
  function PopulationTotal(nPatients: int, cfg: PatientGenerationConfig): int
  {
    if cfg.populationSize.None? || cfg.populationSize.value == 0 then nPatients else cfg.populationSize.value
  }

  /**
   * Patients 0 .. n-1 of one seed and config, or the error of the first
   * patient whose generator refuses its seed: patient 0's, when the seed is
   * negative.
   */
  function Population(n: nat, seed: Option<int>, cfg: PatientGenerationConfig, src: DrawSource)
    : (r: Result<seq<PatientProfile>, string>)
    ensures r.Err? <==> seed.Some? && seed.value < 0 && n > 0
    ensures r.Err? ==> r.error == NegativeSeedError
    ensures r.Ok? ==> |r.value| == n
  {
    if seed.Some? && seed.value < 0 && n > 0 then Err(NegativeSeedError)
    else Ok(seq(n, i requires 0 <= i < n => PatientOf(i, seed, Some(cfg), src).value))
  }

  /** The population fails exactly when one of its patients does. */
  lemma PopulationFails(n: nat, seed: Option<int>, cfg: PatientGenerationConfig, src: DrawSource)
    ensures Population(n, seed, cfg, src).Err? <==> exists i :: 0 <= i < n && PatientOf(i, seed, Some(cfg), src).Err?
  {
    if Population(n, seed, cfg, src).Err? {
      assert PatientOf(0, seed, Some(cfg), src).Err?;
    }
  }

  /** Entry i of the population is patient i, generated from seed + i. */
  lemma PopulationAt(n: nat, seed: Option<int>, cfg: PatientGenerationConfig, src: DrawSource, i: nat)
    requires i < n && Population(n, seed, cfg, src).Ok?
    ensures PatientOf(i, seed, Some(cfg), src).Ok?
    ensures Population(n, seed, cfg, src).value[i] == PatientOf(i, seed, Some(cfg), src).value
    ensures Population(n, seed, cfg, src).value[i].patientId == i
  {
  }

  /** Generating one more patient appends it to the population. */
  lemma PopulationSnoc(n: nat, seed: Option<int>, cfg: PatientGenerationConfig, src: DrawSource)
    requires Population(n + 1, seed, cfg, src).Ok?
    ensures Population(n, seed, cfg, src).Ok? && PatientOf(n, seed, Some(cfg), src).Ok?
    ensures Population(n + 1, seed, cfg, src).value ==
            Population(n, seed, cfg, src).value + [PatientOf(n, seed, Some(cfg), src).value]
  {
    var longer, prev := Population(n + 1, seed, cfg, src).value, Population(n, seed, cfg, src).value;
    assert longer[..n] == prev;
    PopulationAt(n + 1, seed, cfg, src, n);
    assert longer == longer[..n] + [longer[n]];
  }

  /** PatientGenerator.generate_population: patients 0 .. total-1, patient i from seed + i. */
  method GeneratePopulation(nPatients: int, seed: Option<int>, config: Option<PatientGenerationConfig>,
                            src: DrawSource) returns (r: Result<seq<PatientProfile>, string>)
    ensures r == Population(MaxInt(0, PopulationTotal(nPatients, config.GetOr(DefaultConfig))), seed,
                            config.GetOr(DefaultConfig), src)
  {
    var cfg := config.GetOr(DefaultConfig);
    r := GenerateWith(PopulationTotal(nPatients, cfg), seed, cfg, src);
  }

  /** The loop of generate_population over one config. */
  method GenerateWith(total: int, seed: Option<int>, cfg: PatientGenerationConfig, src: DrawSource)
    returns (r: Result<seq<PatientProfile>, string>)
    ensures r == Population(MaxInt(0, total), seed, cfg, src)
  {
    var ps := [];
    var i := 0;
    while i < total
      invariant 0 <= i <= MaxInt(0, total)
      invariant Population(i, seed, cfg, src) == Ok(ps)
    {
      var p := GeneratePatient(i, seed, Some(cfg), src);
      if p.Err? {
        return Err(p.error);
      }
      PopulationSnoc(i, seed, cfg, src);
      ps := ps + [p.value];
      i := i + 1;
    }
    return Ok(ps);
  }
}
