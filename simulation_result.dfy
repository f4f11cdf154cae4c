/**
 * SimulationResult of src/patient_simulation_100k.py and the dictionary
 * forms of it and of PatientProfile: to_dict() writes every field under its
 * own name, from_dict() reads them back, with defaults for the last three.
 */
module SimulationResults {
  import opened Wrappers
  import opened OrderedDict
  import opened Json
  import opened PatientGeneration

  datatype SimulationResult = SimulationResult(
    patient: PatientProfile,
    success: bool,
    toleranceDeveloped: bool,
    addictionSigns: bool,
    withdrawalSymptoms: bool,
    adverseEvents: seq<string>,
    avgPainScore: real,
    avgAnalgesia: real,
    avgSideEffects: real,
    qualityOfLife: real,
    avgGActivation: real,
    avgBetaActivation: real,
    neurotransmitterRelease: Dict<string, real>)

  // ---------------------------------------------------------------------------
  // Dictionaries of floats

  /** A Dict[str, float] as a JSON object with the same keys in the same order. */
  function Reals(d: Dict<string, real>): (j: Json)
    ensures j.JObj? && Keys(j.fields) == Keys(d)
  {
    var e := d.entries;
    JObj(Dict(seq(|e|, i requires 0 <= i < |e| => (e[i].0, JNum(e[i].1)))))
  }

  /** An object whose values are all numbers, read as a Dict[str, float]. */
  function AsReals(j: Json): Option<Dict<string, real>>
  {
    if j.JObj? && forall i :: 0 <= i < |j.fields.entries| ==> AsReal(j.fields.entries[i].1).Some? then
      var e := j.fields.entries;
      Some(Dict(seq(|e|, i requires 0 <= i < |e| && AsReal(e[i].1).Some? => (e[i].0, AsReal(e[i].1).value))))
    else None
  }

  lemma RealsRoundTrip(d: Dict<string, real>)
    ensures AsReals(Reals(d)) == Some(d)
  {
    var e := Reals(d).fields.entries;
    assert forall i :: 0 <= i < |e| ==> e[i] == (d.entries[i].0, JNum(d.entries[i].1));
    var back := seq(|e|, i requires 0 <= i < |e| && AsReal(e[i].1).Some? => (e[i].0, AsReal(e[i].1).value));
    assert back == d.entries;
  }

  function AsInt(j: Json): Option<int>
  {
    if j.JInt? then Some(j.i) else None
  }

  // ---------------------------------------------------------------------------
  // PatientProfile

  /** PatientProfile's fields, in declaration order. */
  const PatientFieldNames: seq<string> := [
    "patient_id", "age", "weight", "sex", "metabolism_rate", "sensitivity", "pain_severity",
    "comorbidities", "medications", "baseline_tolerance", "medication_effects"]

  /** The first seven fields have no default. */
  const PatientRequiredCount: nat := 7

  lemma PatientFieldNamesDistinct()
    ensures forall i, j :: 0 <= i < j < |PatientFieldNames| ==> PatientFieldNames[i] != PatientFieldNames[j]
  {
  }

  /** PatientProfile.to_dict(): one entry per field, in declaration order. */
  function PatientToDict(p: PatientProfile): (j: Json)
    ensures j.JObj? && Keys(j.fields) == PatientFieldNames
  {
    Obj([
      ("patient_id", JInt(p.patientId)),
      ("age", JInt(p.age)),
      ("weight", JNum(p.weight)),
      ("sex", JStr(p.sex)),
      ("metabolism_rate", JNum(p.metabolismRate)),
      ("sensitivity", JNum(p.sensitivity)),
      ("pain_severity", JNum(p.painSeverity)),
      ("comorbidities", Strings(p.comorbidities)),
      ("medications", Strings(p.medications)),
      ("baseline_tolerance", JNum(p.baselineTolerance)),
      ("medication_effects", Reals(p.medicationEffects))])
  }

  /** A field of the keyword arguments that may be left out. */
  function Keyword<T>(data: Json, key: string, read: Json -> Option<T>, default: T): Option<T>
  {
    match Field(data, key)
    case None => Some(default)
    case Some(v) => read(v)
  }

  /** A field of the keyword arguments that must be given. */
  function Positional<T>(data: Json, key: string, read: Json -> Option<T>): Option<T>
  {
    match Field(data, key)
    case None => None
    case Some(v) => read(v)
  }

  function PatientReadFields(data: Json): Option<PatientProfile>
  {
    var id := Positional(data, "patient_id", AsInt);
    var age := Positional(data, "age", AsInt);
    var weight := Positional(data, "weight", AsReal);
    var sex := Positional(data, "sex", AsString);
    var metabolism := Positional(data, "metabolism_rate", AsReal);
    var sensitivity := Positional(data, "sensitivity", AsReal);
    var pain := Positional(data, "pain_severity", AsReal);
    var conditions := Keyword(data, "comorbidities", AsStrings, []);
    var meds := Keyword(data, "medications", AsStrings, []);
    var tolerance := Keyword(data, "baseline_tolerance", AsReal, 0.0);
    var effects := Keyword(data, "medication_effects", AsReals, Empty());
    if id.None? || age.None? || weight.None? || sex.None? || metabolism.None? ||
       sensitivity.None? || pain.None? || conditions.None? || meds.None? ||
       tolerance.None? || effects.None?
    then None
    else
      Some(PatientProfile(id.value, age.value, weight.value, sex.value, metabolism.value,
                          sensitivity.value, pain.value, conditions.value, meds.value,
                          tolerance.value, effects.value))
  }

  /** The keyword arguments of PatientProfile(**data) bind. */
  predicate PatientBinds(data: Json)
  {
    data.JObj? &&
    (forall k :: k in Keys(data.fields) ==> k in PatientFieldNames) &&
    (forall i :: 0 <= i < PatientRequiredCount ==> HasKey(data.fields, PatientFieldNames[i]))
  }

  /**
   * PatientProfile(**data): a mapping of field names with every field that
   * has no default present. The dataclass does not check value types; a
   * value this model cannot represent is an error.
   */
  function PatientFromDict(data: Json): (r: Result<PatientProfile, string>)
    ensures r.Ok? <==> PatientBinds(data) && PatientReadFields(data).Some?
  {
    if !data.JObj? then Err("TypeError: argument after ** must be a mapping")
    else if !(forall k :: k in Keys(data.fields) ==> k in PatientFieldNames) then
      Err("TypeError: unexpected keyword argument")
    else if !(forall i :: 0 <= i < PatientRequiredCount ==> HasKey(data.fields, PatientFieldNames[i])) then
      Err("TypeError: missing required argument")
    else
      match PatientReadFields(data)
      case None => Err("value of an unsupported type")
      case Some(p) => Ok(p)
  }

  lemma PatientToDictFields(p: PatientProfile)
    ensures Field(PatientToDict(p), "patient_id") == Some(JInt(p.patientId))
    ensures Field(PatientToDict(p), "age") == Some(JInt(p.age))
    ensures Field(PatientToDict(p), "weight") == Some(JNum(p.weight))
    ensures Field(PatientToDict(p), "sex") == Some(JStr(p.sex))
    ensures Field(PatientToDict(p), "metabolism_rate") == Some(JNum(p.metabolismRate))
    ensures Field(PatientToDict(p), "sensitivity") == Some(JNum(p.sensitivity))
    ensures Field(PatientToDict(p), "pain_severity") == Some(JNum(p.painSeverity))
    ensures Field(PatientToDict(p), "comorbidities") == Some(Strings(p.comorbidities))
    ensures Field(PatientToDict(p), "medications") == Some(Strings(p.medications))
    ensures Field(PatientToDict(p), "baseline_tolerance") == Some(JNum(p.baselineTolerance))
    ensures Field(PatientToDict(p), "medication_effects") == Some(Reals(p.medicationEffects))
  {
    var e := PatientToDict(p).fields.entries;
    PatientFieldNamesDistinct();
    assert DistinctKeys(e);
    FindAt(e, 0); FindAt(e, 1); FindAt(e, 2); FindAt(e, 3); FindAt(e, 4); FindAt(e, 5);
    FindAt(e, 6); FindAt(e, 7); FindAt(e, 8); FindAt(e, 9); FindAt(e, 10);
  }

  /** PatientProfile(**p.to_dict()) == p. */
  lemma PatientRoundTrip(p: PatientProfile)
    ensures PatientFromDict(PatientToDict(p)) == Ok(p)
  {
    PatientToDictFields(p);
    StringsRoundTrip(p.comorbidities);
    StringsRoundTrip(p.medications);
    RealsRoundTrip(p.medicationEffects);
    assert PatientReadFields(PatientToDict(p)) == Some(p);
    var ks := Keys(PatientToDict(p).fields);
    assert forall i :: 0 <= i < PatientRequiredCount ==> PatientFieldNames[i] in ks;
  }

  // ---------------------------------------------------------------------------
  // SimulationResult

  const ResultFieldNames: seq<string> := [
    "patient", "success", "tolerance_developed", "addiction_signs", "withdrawal_symptoms",
    "adverse_events", "avg_pain_score", "avg_analgesia", "avg_side_effects", "quality_of_life",
    "avg_g_activation", "avg_beta_activation", "neurotransmitter_release"]

  lemma ResultFieldNamesDistinct()
    ensures forall i, j :: 0 <= i < j < |ResultFieldNames| ==> ResultFieldNames[i] != ResultFieldNames[j]
  {
  }

  /** SimulationResult.to_dict(), with the patient as its own dictionary. */
  function ToDict(r: SimulationResult): (j: Json)
    ensures j.JObj? && Keys(j.fields) == ResultFieldNames
  {
    Obj([
      ("patient", PatientToDict(r.patient)),
      ("success", JBool(r.success)),
      ("tolerance_developed", JBool(r.toleranceDeveloped)),
      ("addiction_signs", JBool(r.addictionSigns)),
      ("withdrawal_symptoms", JBool(r.withdrawalSymptoms)),
      ("adverse_events", Strings(r.adverseEvents)),
      ("avg_pain_score", JNum(r.avgPainScore)),
      ("avg_analgesia", JNum(r.avgAnalgesia)),
      ("avg_side_effects", JNum(r.avgSideEffects)),
      ("quality_of_life", JNum(r.qualityOfLife)),
      ("avg_g_activation", JNum(r.avgGActivation)),
      ("avg_beta_activation", JNum(r.avgBetaActivation)),
      ("neurotransmitter_release", Reals(r.neurotransmitterRelease))])
  }

  /** payload[key]: a KeyError when it is missing. */
  function Item<T>(payload: Json, key: string, read: Json -> Option<T>): Result<T, string>
  {
    match Field(payload, key)
    case None => Err("KeyError: " + key)
    case Some(v) =>
      match read(v)
      case None => Err("value of an unsupported type")
      case Some(x) => Ok(x)
  }

  /** payload.get(key, default). */
  function ItemOr<T>(payload: Json, key: string, read: Json -> Option<T>, default: T): Result<T, string>
  {
    match Field(payload, key)
    case None => Ok(default)
    case Some(v) =>
      match read(v)
      case None => Err("value of an unsupported type")
      case Some(x) => Ok(x)
  }

  /**
   * SimulationResult.from_dict(payload): ten fields by subscript, the
   * patient through PatientProfile(**payload['patient']), and the last three
   * with .get() and defaults 0.0, 0.0 and {}.
   */
  function FromDict(payload: Json): (r: Result<SimulationResult, string>)
    ensures r.Ok? ==> Field(payload, "patient").Some? &&
                      PatientFromDict(Field(payload, "patient").value) == Ok(r.value.patient)
    ensures r.Ok? && Field(payload, "avg_g_activation").None? ==> r.value.avgGActivation == 0.0
    ensures r.Ok? && Field(payload, "avg_beta_activation").None? ==> r.value.avgBetaActivation == 0.0
    ensures r.Ok? && Field(payload, "neurotransmitter_release").None? ==> r.value.neurotransmitterRelease == Empty()
    ensures Field(payload, "success").None? ==> r.Err?
  {
    var patient :=
      match Field(payload, "patient")
      case None => Err("KeyError: patient")
      case Some(v) => PatientFromDict(v);
    var success := Item(payload, "success", AsBool);
    var tolerance := Item(payload, "tolerance_developed", AsBool);
    var addiction := Item(payload, "addiction_signs", AsBool);
    var withdrawal := Item(payload, "withdrawal_symptoms", AsBool);
    var events := Item(payload, "adverse_events", AsStrings);
    var pain := Item(payload, "avg_pain_score", AsReal);
    var analgesia := Item(payload, "avg_analgesia", AsReal);
    var side := Item(payload, "avg_side_effects", AsReal);
    var qol := Item(payload, "quality_of_life", AsReal);
    var g := ItemOr(payload, "avg_g_activation", AsReal, 0.0);
    var beta := ItemOr(payload, "avg_beta_activation", AsReal, 0.0);
    var nt := ItemOr(payload, "neurotransmitter_release", AsReals, Empty());
    if patient.Err? then Err(patient.error)
    else if success.Err? then Err(success.error)
    else if tolerance.Err? then Err(tolerance.error)
    else if addiction.Err? then Err(addiction.error)
    else if withdrawal.Err? then Err(withdrawal.error)
    else if events.Err? then Err(events.error)
    else if pain.Err? then Err(pain.error)
    else if analgesia.Err? then Err(analgesia.error)
    else if side.Err? then Err(side.error)
    else if qol.Err? then Err(qol.error)
    else if g.Err? then Err(g.error)
    else if beta.Err? then Err(beta.error)
    else if nt.Err? then Err(nt.error)
    else
      Ok(SimulationResult(patient.value, success.value, tolerance.value, addiction.value,
                          withdrawal.value, events.value, pain.value, analgesia.value, side.value,
                          qol.value, g.value, beta.value, nt.value))
  }

  lemma ToDictFields(r: SimulationResult)
    ensures Field(ToDict(r), "patient") == Some(PatientToDict(r.patient))
    ensures Field(ToDict(r), "success") == Some(JBool(r.success))
    ensures Field(ToDict(r), "tolerance_developed") == Some(JBool(r.toleranceDeveloped))
    ensures Field(ToDict(r), "addiction_signs") == Some(JBool(r.addictionSigns))
    ensures Field(ToDict(r), "withdrawal_symptoms") == Some(JBool(r.withdrawalSymptoms))
    ensures Field(ToDict(r), "adverse_events") == Some(Strings(r.adverseEvents))
    ensures Field(ToDict(r), "avg_pain_score") == Some(JNum(r.avgPainScore))
    ensures Field(ToDict(r), "avg_analgesia") == Some(JNum(r.avgAnalgesia))
    ensures Field(ToDict(r), "avg_side_effects") == Some(JNum(r.avgSideEffects))
    ensures Field(ToDict(r), "quality_of_life") == Some(JNum(r.qualityOfLife))
    ensures Field(ToDict(r), "avg_g_activation") == Some(JNum(r.avgGActivation))
    ensures Field(ToDict(r), "avg_beta_activation") == Some(JNum(r.avgBetaActivation))
    ensures Field(ToDict(r), "neurotransmitter_release") == Some(Reals(r.neurotransmitterRelease))
  {
    var e := ToDict(r).fields.entries;
    ResultFieldNamesDistinct();
    assert DistinctKeys(e);
    FindAt(e, 0); FindAt(e, 1); FindAt(e, 2); FindAt(e, 3); FindAt(e, 4); FindAt(e, 5);
    FindAt(e, 6); FindAt(e, 7); FindAt(e, 8); FindAt(e, 9); FindAt(e, 10); FindAt(e, 11);
    FindAt(e, 12);
  }

  /** SimulationResult.from_dict(r.to_dict()) == r. */
  lemma FromDictToDict(r: SimulationResult)
    ensures FromDict(ToDict(r)) == Ok(r)
  {
    var j := ToDict(r);
    ItemsToDict(r);
    PatientRoundTrip(r.patient);
    assert Item(j, "adverse_events", AsStrings) == Ok(r.adverseEvents) by {
      ToDictFields(r);
      StringsRoundTrip(r.adverseEvents);
    }
    assert ItemOr(j, "neurotransmitter_release", AsReals, Empty()) == Ok(r.neurotransmitterRelease) by {
      ToDictFields(r);
      RealsRoundTrip(r.neurotransmitterRelease);
    }
  }

  /** The flag and number fields of to_dict() read back. */
  lemma ItemsToDict(r: SimulationResult)
    ensures Field(ToDict(r), "patient") == Some(PatientToDict(r.patient))
    ensures Item(ToDict(r), "success", AsBool) == Ok(r.success)
    ensures Item(ToDict(r), "tolerance_developed", AsBool) == Ok(r.toleranceDeveloped)
    ensures Item(ToDict(r), "addiction_signs", AsBool) == Ok(r.addictionSigns)
    ensures Item(ToDict(r), "withdrawal_symptoms", AsBool) == Ok(r.withdrawalSymptoms)
    ensures Item(ToDict(r), "avg_pain_score", AsReal) == Ok(r.avgPainScore)
    ensures Item(ToDict(r), "avg_analgesia", AsReal) == Ok(r.avgAnalgesia)
    ensures Item(ToDict(r), "avg_side_effects", AsReal) == Ok(r.avgSideEffects)
    ensures Item(ToDict(r), "quality_of_life", AsReal) == Ok(r.qualityOfLife)
    ensures ItemOr(ToDict(r), "avg_g_activation", AsReal, 0.0) == Ok(r.avgGActivation)
    ensures ItemOr(ToDict(r), "avg_beta_activation", AsReal, 0.0) == Ok(r.avgBetaActivation)
  {
    ToDictFields(r);
  }
}
