/**
 * CompoundProfile of src/opioid_analysis_tools.py: the pharmacological
 * record of one compound, its dictionary form, its safety score and its
 * G-protein/beta-arrestin bias ratio.
 */
module CompoundProfiles {
  import opened Wrappers
  import opened OrderedDict
  import opened Json
  import opened Numeric

  /** A dissociation constant in nM; float('inf') means the compound does not bind that site. */
  datatype Ki = Finite(nm: real) | NoBinding

  /** A float that may be float('inf'). */
  datatype Extended = Value(v: real) | Infinity

  datatype CompoundProfile = CompoundProfile(
    name: string,
    kiOrthosteric: Ki,
    kiAllosteric1: Ki,
    kiAllosteric2: Ki,
    gProteinBias: real,
    betaArrestinBias: real,
    tHalf: real,
    bioavailability: real,
    intrinsicActivity: real,
    toleranceRate: real,
    preventsWithdrawal: bool := false,
    reversesTolerance: bool := false,
    receptorType: string := "MOR",
    pharmacologicalActivities: seq<string> := [],
    mechanismNotes: string := "")

  // ---------------------------------------------------------------------------
  // to_dict / from_dict

  function KiToJson(k: Ki): Json
  {
    match k
    case Finite(x) => JNum(x)
    case NoBinding => JInf
  }

  /** A Ki read back: a number, or float('inf'). */
  function KiFromJson(j: Json): (r: Option<Ki>)
  {
    if j.JInf? then Some(NoBinding)
    else match AsReal(j)
      case Some(x) => Some(Finite(x))
      case None => None
  }

  lemma KiRoundTrip(k: Ki)
    ensures KiFromJson(KiToJson(k)) == Some(k)
  {
  }

  /** The dataclass's fields, in declaration order. */
  const FieldNames: seq<string> := [
    "name", "ki_orthosteric", "ki_allosteric1", "ki_allosteric2", "g_protein_bias",
    "beta_arrestin_bias", "t_half", "bioavailability", "intrinsic_activity", "tolerance_rate",
    "prevents_withdrawal", "reverses_tolerance", "receptor_type", "pharmacological_activities",
    "mechanism_notes"]

  /** The first ten fields have no default. */
  const RequiredCount: nat := 10

  lemma FieldNamesDistinct()
    ensures forall i, j :: 0 <= i < j < |FieldNames| ==> FieldNames[i] != FieldNames[j]
  {
  }

  /** to_dict(): one entry per field, in declaration order. */
  function ToDict(c: CompoundProfile): (j: Json)
    ensures j.JObj? && Keys(j.fields) == FieldNames
  {
    Obj([
      ("name", JStr(c.name)),
      ("ki_orthosteric", KiToJson(c.kiOrthosteric)),
      ("ki_allosteric1", KiToJson(c.kiAllosteric1)),
      ("ki_allosteric2", KiToJson(c.kiAllosteric2)),
      ("g_protein_bias", JNum(c.gProteinBias)),
      ("beta_arrestin_bias", JNum(c.betaArrestinBias)),
      ("t_half", JNum(c.tHalf)),
      ("bioavailability", JNum(c.bioavailability)),
      ("intrinsic_activity", JNum(c.intrinsicActivity)),
      ("tolerance_rate", JNum(c.toleranceRate)),
      ("prevents_withdrawal", JBool(c.preventsWithdrawal)),
      ("reverses_tolerance", JBool(c.reversesTolerance)),
      ("receptor_type", JStr(c.receptorType)),
      ("pharmacological_activities", Strings(c.pharmacologicalActivities)),
      ("mechanism_notes", JStr(c.mechanismNotes))])
  }

  /** A field that may be left out: its value, the default, or a type error. */
  function Optional<T>(data: Json, key: string, read: Json -> Option<T>, default: T): Option<T>
  {
    match Field(data, key)
    case None => Some(default)
    case Some(v) => read(v)
  }

  /** A field that must be given. */
  function Required<T>(data: Json, key: string, read: Json -> Option<T>): Option<T>
  {
    match Field(data, key)
    case None => None
    case Some(v) => read(v)
  }

  /** The fields read one by one; None when one has the wrong type. */
  function ReadFields(data: Json): Option<CompoundProfile>
  {
    var name := Required(data, "name", AsString);
    var kiO := Required(data, "ki_orthosteric", KiFromJson);
    var kiA1 := Required(data, "ki_allosteric1", KiFromJson);
    var kiA2 := Required(data, "ki_allosteric2", KiFromJson);
    var g := Required(data, "g_protein_bias", AsReal);
    var beta := Required(data, "beta_arrestin_bias", AsReal);
    var tHalf := Required(data, "t_half", AsReal);
    var f := Required(data, "bioavailability", AsReal);
    var ia := Required(data, "intrinsic_activity", AsReal);
    var tol := Required(data, "tolerance_rate", AsReal);
    var pw := Optional(data, "prevents_withdrawal", AsBool, false);
    var rt := Optional(data, "reverses_tolerance", AsBool, false);
    var rType := Optional(data, "receptor_type", AsString, "MOR");
    var acts := Optional(data, "pharmacological_activities", AsStrings, []);
    var notes := Optional(data, "mechanism_notes", AsString, "");
    if name.None? || kiO.None? || kiA1.None? || kiA2.None? || g.None? || beta.None? ||
       tHalf.None? || f.None? || ia.None? || tol.None? ||
       pw.None? || rt.None? || rType.None? || acts.None? || notes.None?
    then None
    else
      Some(CompoundProfile(name.value, kiO.value, kiA1.value, kiA2.value, g.value, beta.value,
                           tHalf.value, f.value, ia.value, tol.value, pw.value, rt.value,
                           rType.value, acts.value, notes.value))
  }

  /** The keyword arguments of cls(**data) bind: no unknown name, no missing required one. */
  predicate Binds(data: Json)
  {
    data.JObj? &&
    (forall k :: k in Keys(data.fields) ==> k in FieldNames) &&
    (forall i :: 0 <= i < RequiredCount ==> HasKey(data.fields, FieldNames[i]))
  }

  /**
   * from_dict(data), that is cls(**data): a mapping whose keys are all field
   * names, with every field that has no default present. The dataclass does
   * not check value types; a value this model cannot represent is an error.
   */
  function FromDict(data: Json): (r: Result<CompoundProfile, string>)
    ensures r.Ok? <==> Binds(data) && ReadFields(data).Some?
    ensures r.Ok? ==> r.value.name == AsString(Field(data, "name").value).value
  {
    if !data.JObj? then Err("argument after ** must be a mapping")
    else if !(forall k :: k in Keys(data.fields) ==> k in FieldNames) then Err("unexpected keyword argument")
    else if !(forall i :: 0 <= i < RequiredCount ==> HasKey(data.fields, FieldNames[i])) then
      Err("missing required argument")
    else
      match ReadFields(data)
      case None => Err("value of an unsupported type")
      case Some(c) => Ok(c)
  }

  /** Every entry of to_dict() is found under its own key. */
  lemma ToDictFields(c: CompoundProfile)
    ensures Field(ToDict(c), "name") == Some(JStr(c.name))
    ensures Field(ToDict(c), "ki_orthosteric") == Some(KiToJson(c.kiOrthosteric))
    ensures Field(ToDict(c), "ki_allosteric1") == Some(KiToJson(c.kiAllosteric1))
    ensures Field(ToDict(c), "ki_allosteric2") == Some(KiToJson(c.kiAllosteric2))
    ensures Field(ToDict(c), "g_protein_bias") == Some(JNum(c.gProteinBias))
    ensures Field(ToDict(c), "beta_arrestin_bias") == Some(JNum(c.betaArrestinBias))
    ensures Field(ToDict(c), "t_half") == Some(JNum(c.tHalf))
    ensures Field(ToDict(c), "bioavailability") == Some(JNum(c.bioavailability))
    ensures Field(ToDict(c), "intrinsic_activity") == Some(JNum(c.intrinsicActivity))
    ensures Field(ToDict(c), "tolerance_rate") == Some(JNum(c.toleranceRate))
    ensures Field(ToDict(c), "prevents_withdrawal") == Some(JBool(c.preventsWithdrawal))
    ensures Field(ToDict(c), "reverses_tolerance") == Some(JBool(c.reversesTolerance))
    ensures Field(ToDict(c), "receptor_type") == Some(JStr(c.receptorType))
    ensures Field(ToDict(c), "pharmacological_activities") == Some(Strings(c.pharmacologicalActivities))
    ensures Field(ToDict(c), "mechanism_notes") == Some(JStr(c.mechanismNotes))
  {
    var e := ToDict(c).fields.entries;
    FieldNamesDistinct();
    assert DistinctKeys(e);
    FindAt(e, 0); FindAt(e, 1); FindAt(e, 2); FindAt(e, 3); FindAt(e, 4);
    FindAt(e, 5); FindAt(e, 6); FindAt(e, 7); FindAt(e, 8); FindAt(e, 9);
    FindAt(e, 10); FindAt(e, 11); FindAt(e, 12); FindAt(e, 13); FindAt(e, 14);
  }

  /** CompoundProfile.from_dict(c.to_dict()) == c. */
  lemma FromDictToDict(c: CompoundProfile)
    ensures FromDict(ToDict(c)) == Ok(c)
  {
    ReadFieldsToDict(c);
    BindsToDict(c);
  }

  lemma ReadFieldsToDict(c: CompoundProfile)
    ensures ReadFields(ToDict(c)) == Some(c)
  {
    ToDictFields(c);
    StringsRoundTrip(c.pharmacologicalActivities);
    KiRoundTrip(c.kiOrthosteric);
    KiRoundTrip(c.kiAllosteric1);
    KiRoundTrip(c.kiAllosteric2);
  }

  lemma BindsToDict(c: CompoundProfile)
    ensures Binds(ToDict(c))
  {
    var ks := Keys(ToDict(c).fields);
    assert ks == FieldNames;
    assert forall i :: 0 <= i < RequiredCount ==> FieldNames[i] in ks;
  }

  // ---------------------------------------------------------------------------
  // Safety score and bias ratio

  /** The sum of calculate_safety_score's adjustments to its starting 100. */
  function SafetyAdjustment(c: CompoundProfile): real
  {
    (if c.intrinsicActivity > 0.7 && c.gProteinBias < 5.0 then -20.0 else 0.0) +
    (if c.betaArrestinBias > 0.5 then -30.0 else 0.0) +
    (if c.gProteinBias > 10.0 then 10.0 else if c.gProteinBias > 5.0 then 5.0 else 0.0) +
    (if c.toleranceRate < 0.2 then 10.0 else 0.0) +
    (if c.reversesTolerance then 20.0 else 0.0) +
    (if c.preventsWithdrawal then 10.0 else 0.0) +
    (if c.bioavailability < 0.3 then -10.0 else 0.0) +
    (if c.tHalf < 2.0 then -10.0 else 0.0)
  }

  /** The score calculate_safety_score returns. */
  function SafetyScoreOf(c: CompoundProfile): real
  {
    Max(0.0, Min(100.0, 100.0 + SafetyAdjustment(c)))
  }

  /** calculate_safety_score(): the running score, adjusted rule by rule. */
  method SafetyScore(c: CompoundProfile) returns (score: real)
    ensures score == SafetyScoreOf(c)
    ensures 0.0 <= score <= 100.0
  {
    score := 100.0;
    if c.intrinsicActivity > 0.7 && c.gProteinBias < 5.0 {
      score := score - 20.0;
    }
    if c.betaArrestinBias > 0.5 {
      score := score - 30.0;
    }
    if c.gProteinBias > 10.0 {
      score := score + 10.0;
    } else if c.gProteinBias > 5.0 {
      score := score + 5.0;
    }
    if c.toleranceRate < 0.2 {
      score := score + 10.0;
    }
    if c.reversesTolerance {
      score := score + 20.0;
    }
    if c.preventsWithdrawal {
      score := score + 10.0;
    }
    if c.bioavailability < 0.3 {
      score := score - 10.0;
    }
    if c.tHalf < 2.0 {
      score := score - 10.0;
    }
    score := Max(0.0, Min(100.0, score));
  }

  /**
   * The penalties total at most 70, so the floor at 0 never applies and
   * every score is at least 30.
   */
  lemma SafetyScoreAtLeast30(c: CompoundProfile)
    ensures 30.0 <= SafetyScoreOf(c) <= 100.0
    ensures SafetyScoreOf(c) == Min(100.0, 100.0 + SafetyAdjustment(c))
  {
  }

  /** Setting reverses_tolerance or prevents_withdrawal never lowers the score. */
  lemma SafetyMonotone(c: CompoundProfile)
    ensures SafetyScoreOf(c) <= SafetyScoreOf(c.(reversesTolerance := true))
    ensures SafetyScoreOf(c) <= SafetyScoreOf(c.(preventsWithdrawal := true))
  {
  }

  /** get_bias_ratio(): infinity exactly when the beta-arrestin bias is zero. */
  function BiasRatio(c: CompoundProfile): (r: Extended)
    ensures r.Infinity? <==> c.betaArrestinBias == 0.0
    ensures r.Value? ==> r.v * c.betaArrestinBias == c.gProteinBias
  {
    if c.betaArrestinBias == 0.0 then Infinity else Value(c.gProteinBias / c.betaArrestinBias)
  }
}
