/**
 * The configuration and dosing side of src/pkpd_calibration.py: prior
 * specifications and their clamped samples, the linear covariate model,
 * reading and writing a PKPDConfig as a JSON-like dict, and the three
 * adaptive dosing policies.
 *
 * The log-normal draw of a prior is a parameter, and so are the float
 * formatting routines the policies use in their rationale strings.
 */
module PkpdCalibration {
  import opened Wrappers
  import opened Numeric
  import opened OrderedDict
  import opened Json
  import opened Text
  import opened SimulationResults

  // ---------------------------------------------------------------------------
  // Priors

  datatype PriorSpec = PriorSpec(mu: real, sigma: real, lower: Option<real> := None, upper: Option<real> := None)

  /**
   * sample(rng), draw being lognorm(s=sigma, scale=exp(mu)).rvs(): raised to
   * lower when one is set, then lowered to upper when one is set. A draw
   * inside the bounds is returned unchanged, and when the bounds cross the
   * upper one wins.
   */
  function Sample(p: PriorSpec, draw: real): (r: real)
    ensures p.lower.Some? && (p.upper.None? || p.lower.value <= p.upper.value) ==> r >= p.lower.value
    ensures p.upper.Some? ==> r <= p.upper.value
    ensures (p.lower.None? || p.lower.value <= draw) && (p.upper.None? || draw <= p.upper.value) ==> r == draw
    ensures p.lower.Some? && p.upper.Some? && p.lower.value > p.upper.value ==> r == p.upper.value
  {
    var raised := if p.lower.Some? then Max(draw, p.lower.value) else draw;
    if p.upper.Some? then Min(raised, p.upper.value) else raised
  }

  // ---------------------------------------------------------------------------
  // Covariates

  /** betas by covariate name, and interaction weights keyed by the tuple of names. */
  datatype CovariateMapping = CovariateMapping(
    betas: Dict<string, real> := Empty(),
    interactions: Dict<seq<string>, real> := Empty())

  /** covariates.get(name, 0.0) */
  function Covariate(covariates: Dict<string, real>, name: string): real
  {
    Get(covariates, name).GetOr(0.0)
  }

  /** The terms beta * x[name], in the order of the betas. */
  function LinearTerms(betas: seq<(string, real)>, covariates: Dict<string, real>): (ts: seq<real>)
    ensures |ts| == |betas|
    ensures forall i :: 0 <= i < |betas| ==> ts[i] == betas[i].1 * Covariate(covariates, betas[i].0)
  {
    seq(|betas|, i requires 0 <= i < |betas| => betas[i].1 * Covariate(covariates, betas[i].0))
  }

  /** The terms beta * x[a] * x[b], in the order of the interactions (0 for a key that is not a pair). */
  function InteractionTerms(inter: seq<(seq<string>, real)>, covariates: Dict<string, real>): (ts: seq<real>)
    ensures |ts| == |inter|
  {
    seq(|inter|, i requires 0 <= i < |inter| =>
      if |inter[i].0| == 2 then inter[i].1 * Covariate(covariates, inter[i].0[0]) * Covariate(covariates, inter[i].0[1])
      else 0.0)
  }

  /** Every interaction key unpacks into (a, b). */
  predicate PairKeys(inter: seq<(seq<string>, real)>)
  {
    forall i :: 0 <= i < |inter| ==> |inter[i].0| == 2
  }

  const UnpackInteraction: string := "ValueError: interaction key does not unpack into (a, b)"

  /** effect(covariates): eta = sum of beta * x[name] plus sum of beta * x[a] * x[b]. */
  function EffectOf(m: CovariateMapping, covariates: Dict<string, real>): Result<real, string>
  {
    if PairKeys(m.interactions.entries) then
      Ok(Sum(LinearTerms(m.betas.entries, covariates)) + Sum(InteractionTerms(m.interactions.entries, covariates)))
    else Err(UnpackInteraction)
  }

  /** effect(covariates): eta accumulated over the betas, then over the interactions. */
  method Effect(m: CovariateMapping, covariates: Dict<string, real>) returns (r: Result<real, string>)
    ensures r == EffectOf(m, covariates)
  {
    var eta := 0.0;
    var betas := m.betas.entries;
    for i := 0 to |betas|
      invariant eta == Sum(LinearTerms(betas, covariates)[..i])
    {
      SumPrefixStep(LinearTerms(betas, covariates), i);
      eta := eta + betas[i].1 * Covariate(covariates, betas[i].0);
    }
    assert LinearTerms(betas, covariates)[..|betas|] == LinearTerms(betas, covariates);
    ghost var linear := eta;
    var inter := m.interactions.entries;
    for j := 0 to |inter|
      invariant eta == linear + Sum(InteractionTerms(inter, covariates)[..j])
      invariant forall k :: 0 <= k < j ==> |inter[k].0| == 2
    {
      var key := inter[j].0;
      if |key| != 2 {
        return Err(UnpackInteraction);
      }
      SumPrefixStep(InteractionTerms(inter, covariates), j);
      eta := eta + inter[j].1 * Covariate(covariates, key[0]) * Covariate(covariates, key[1]);
    }
    assert InteractionTerms(inter, covariates)[..|inter|] == InteractionTerms(inter, covariates);
    r := Ok(eta);
  }

  /** An empty mapping has no effect. */
  lemma EffectOfEmpty(covariates: Dict<string, real>)
    ensures EffectOf(CovariateMapping(), covariates) == Ok(0.0)
  {
  }

  /** Missing covariates count as 0: with none given, the effect is 0. */
  lemma EffectWithoutCovariates(m: CovariateMapping)
    requires PairKeys(m.interactions.entries)
    ensures EffectOf(m, Empty()) == Ok(0.0)
  {
    var ls := LinearTerms(m.betas.entries, Empty());
    var its := InteractionTerms(m.interactions.entries, Empty());
    assert forall i :: 0 <= i < |ls| ==> ls[i] == 0.0;
    assert forall i :: 0 <= i < |its| ==> its[i] == 0.0;
    SumOfZeros(ls);
    SumOfZeros(its);
  }

  /** The names whose covariate values matter: the beta names and both names of every interaction. */
  predicate AgreeOnMentioned(m: CovariateMapping, c1: Dict<string, real>, c2: Dict<string, real>)
  {
    (forall i :: 0 <= i < |m.betas.entries| ==>
       Covariate(c1, m.betas.entries[i].0) == Covariate(c2, m.betas.entries[i].0)) &&
    (forall i, j :: 0 <= i < |m.interactions.entries| && 0 <= j < |m.interactions.entries[i].0| ==>
       Covariate(c1, m.interactions.entries[i].0[j]) == Covariate(c2, m.interactions.entries[i].0[j]))
  }

  /** The effect reads the covariates only at the names the mapping mentions. */
  lemma EffectLocal(m: CovariateMapping, c1: Dict<string, real>, c2: Dict<string, real>)
    requires AgreeOnMentioned(m, c1, c2)
    ensures EffectOf(m, c1) == EffectOf(m, c2)
  {
    var betas := m.betas.entries;
    forall i | 0 <= i < |betas|
      ensures LinearTerms(betas, c1)[i] == LinearTerms(betas, c2)[i]
    {
      assert Covariate(c1, betas[i].0) == Covariate(c2, betas[i].0);
    }
    assert LinearTerms(betas, c1) == LinearTerms(betas, c2);
    var inter := m.interactions.entries;
    forall i | 0 <= i < |inter|
      ensures InteractionTerms(inter, c1)[i] == InteractionTerms(inter, c2)[i]
    {
      if |inter[i].0| == 2 {
        assert Covariate(c1, inter[i].0[0]) == Covariate(c2, inter[i].0[0]);
        assert Covariate(c1, inter[i].0[1]) == Covariate(c2, inter[i].0[1]);
      }
    }
    assert InteractionTerms(inter, c1) == InteractionTerms(inter, c2);
  }

  // ---------------------------------------------------------------------------
  // The configuration as a dict

  datatype PkpdConfig = PkpdConfig(
    model: string := "one_compartment",
    priors: Dict<string, PriorSpec> := Empty(),
    covariates: Dict<string, CovariateMapping> := Empty(),
    useOffDiagonal: bool := false)

  /** A dict comprehension over payload items, each value converted in order; the first failure is the outcome. */
  function ReadEntries<V>(es: seq<(string, Json)>, read: Json -> Result<V, string>): (r: Result<seq<(string, V)>, string>)
    ensures r.Ok? ==> |r.value| == |es| && forall i :: 0 <= i < |es| ==> r.value[i].0 == es[i].0
  {
    if |es| == 0 then Ok([])
    else
      match read(es[0].1)
      case Err(e) => Err(e)
      case Ok(v) =>
        match ReadEntries(es[1..], read)
        case Err(e) => Err(e)
        case Ok(rest) => Ok([(es[0].0, v)] + rest)
  }

  /** {k: write(v) for k, v in d.items()} */
  function WriteEntries<V>(es: seq<(string, V)>, write: V -> Json): (r: seq<(string, Json)>)
    ensures |r| == |es| && forall i :: 0 <= i < |es| ==> r[i] == (es[i].0, write(es[i].1))
  {
    seq(|es|, i requires 0 <= i < |es| => (es[i].0, write(es[i].1)))
  }

  /** Reading back what was written gives the entries again when each value reads back. */
  lemma {:induction false} EntriesRoundTrip<V>(es: seq<(string, V)>, write: V -> Json, read: Json -> Result<V, string>)
    requires forall i :: 0 <= i < |es| ==> read(write(es[i].1)) == Ok(es[i].1)
    ensures ReadEntries(WriteEntries(es, write), read) == Ok(es)
    decreases |es|
  {
    if |es| > 0 {
      EntriesRoundTrip(es[1..], write, read);
      assert WriteEntries(es, write)[1..] == WriteEntries(es[1..], write);
      assert [(es[0].0, es[0].1)] + es[1..] == es;
    }
  }

  /** A dict's items: an AttributeError for anything else. */
  function ItemsOf(j: Json): Result<seq<(string, Json)>, string>
  {
    if j.JObj? then Ok(j.fields.entries) else Err("AttributeError: 'items'")
  }

  function ReadNumber(j: Json): Result<real, string>
  {
    match AsReal(j)
    case None => Err("TypeError: a number is required")
    case Some(x) => Ok(x)
  }

  /** spec.get(key): None for a missing key or a JSON null. */
  function ReadBound(spec: Json, key: string): Result<Option<real>, string>
  {
    match Field(spec, key)
    case None => Ok(None)
    case Some(JNull) => Ok(None)
    case Some(v) => if AsReal(v).Some? then Ok(AsReal(v)) else Err("TypeError: a number is required")
  }

  /** PriorSpec(mu=spec.get("mu", 0.0), sigma=spec.get("sigma", 0.5), lower=..., upper=...) */
  function ReadPrior(spec: Json): Result<PriorSpec, string>
  {
    if !spec.JObj? then Err("AttributeError: 'get'")
    else
      var mu := ItemOr(spec, "mu", AsReal, 0.0);
      var sigma := ItemOr(spec, "sigma", AsReal, 0.5);
      var lower := ReadBound(spec, "lower");
      var upper := ReadBound(spec, "upper");
      if mu.Err? then Err(mu.error)
      else if sigma.Err? then Err(sigma.error)
      else if lower.Err? then Err(lower.error)
      else if upper.Err? then Err(upper.error)
      else Ok(PriorSpec(mu.value, sigma.value, lower.value, upper.value))
  }

  /** {tuple(k.split("*")): v for k, v in interactions.items()} */
  function ReadInteractions(es: seq<(string, Json)>): (r: Result<seq<(seq<string>, real)>, string>)
    ensures r.Ok? ==> |r.value| == |es| && forall i :: 0 <= i < |es| ==> r.value[i].0 == Split(es[i].0, '*')
  {
    if |es| == 0 then Ok([])
    else
      match ReadNumber(es[0].1)
      case Err(e) => Err(e)
      case Ok(v) =>
        match ReadInteractions(es[1..])
        case Err(e) => Err(e)
        case Ok(rest) => Ok([(Split(es[0].0, '*'), v)] + rest)
  }

  /** CovariateMapping(betas=spec.get("betas", {}), interactions=...) */
  function ReadCovariate(spec: Json): Result<CovariateMapping, string>
  {
    if !spec.JObj? then Err("AttributeError: 'get'")
    else
      var betas := ItemsOf(Field(spec, "betas").GetOr(JObj(Empty())));
      var inter := ItemsOf(Field(spec, "interactions").GetOr(JObj(Empty())));
      if betas.Err? then Err(betas.error)
      else if inter.Err? then Err(inter.error)
      else
        match (ReadEntries(betas.value, ReadNumber), ReadInteractions(inter.value))
        case (Ok(bs), Ok(ins)) => Ok(CovariateMapping(Dict(bs), Dict(ins)))
        case (Err(e), _) => Err(e)
        case (_, Err(e)) => Err(e)
  }

  /** PKPDConfig.from_dict(payload) */
  function FromDict(payload: Json): (r: Result<PkpdConfig, string>)
    ensures r.Ok? && Field(payload, "model").None? ==> r.value.model == "one_compartment"
    ensures r.Ok? && Field(payload, "covariance").None? ==> !r.value.useOffDiagonal
    ensures r.Ok? ==> var items := ItemsOf(Field(payload, "priors").GetOr(JObj(Empty())));
      items.Ok? && |r.value.priors.entries| == |items.value| &&
      forall i :: 0 <= i < |items.value| ==> r.value.priors.entries[i].0 == items.value[i].0
  {
    if !payload.JObj? then Err("AttributeError: 'get'")
    else
      var priorItems := ItemsOf(Field(payload, "priors").GetOr(JObj(Empty())));
      var covariateItems := ItemsOf(Field(payload, "covariates").GetOr(JObj(Empty())));
      var model := ItemOr(payload, "model", AsString, "one_compartment");
      var covariance := Field(payload, "covariance").GetOr(JObj(Empty()));
      if priorItems.Err? then Err(priorItems.error)
      else if covariateItems.Err? then Err(covariateItems.error)
      else if model.Err? then Err(model.error)
      else if !covariance.JObj? then Err("AttributeError: 'get'")
      else
        var offDiagonal := ItemOr(covariance, "use_off_diagonal", AsBool, false);
        match (ReadEntries(priorItems.value, ReadPrior), ReadEntries(covariateItems.value, ReadCovariate))
        case (Ok(ps), Ok(cs)) =>
          if offDiagonal.Err? then Err(offDiagonal.error)
          else Ok(PkpdConfig(model.value, Dict(ps), Dict(cs), offDiagonal.value))
        case (Err(e), _) => Err(e)
        case (_, Err(e)) => Err(e)
  }

  /** An empty payload gives the default configuration. */
  lemma FromEmptyDict()
    ensures FromDict(JObj(Empty())) == Ok(PkpdConfig())
  {
  }

  function BoundJson(b: Option<real>): Json
  {
    match b
    case None => JNull
    case Some(x) => JNum(x)
  }

  /** {"mu": ..., "sigma": ..., "lower": ..., "upper": ...} */
  function PriorJson(p: PriorSpec): Json
  {
    Obj([("mu", JNum(p.mu)), ("sigma", JNum(p.sigma)), ("lower", BoundJson(p.lower)), ("upper", BoundJson(p.upper))])
  }

  /** f"{a}*{b}" for an interaction key (a, b). */
  function InteractionName(key: seq<string>): string
  {
    if |key| == 2 then key[0] + "*" + key[1] else ""
  }

  function WriteInteractions(es: seq<(seq<string>, real)>): (r: seq<(string, Json)>)
    ensures |r| == |es| && forall i :: 0 <= i < |es| ==> r[i] == (InteractionName(es[i].0), JNum(es[i].1))
  {
    seq(|es|, i requires 0 <= i < |es| => (InteractionName(es[i].0), JNum(es[i].1)))
  }

  /** {"betas": v.betas, "interactions": {...}} */
  function CovariateJson(m: CovariateMapping): Json
  {
    Obj([("betas", JObj(Dict(WriteEntries(m.betas.entries, x => JNum(x))))),
         ("interactions", JObj(Dict(WriteInteractions(m.interactions.entries))))])
  }

  /** Every interaction key of every covariate mapping unpacks into (a, b). */
  predicate PairedConfig(c: PkpdConfig)
  {
    forall i :: 0 <= i < |c.covariates.entries| ==> PairKeys(c.covariates.entries[i].1.interactions.entries)
  }

  /** _config_to_dict(config), which writes use_off_diagonal at the top level. */
  function ConfigToDict(c: PkpdConfig): (r: Result<Json, string>)
    ensures r.Ok? <==> PairedConfig(c)
  {
    if !PairedConfig(c) then Err(UnpackInteraction)
    else
      Ok(Obj([("model", JStr(c.model)),
              ("priors", JObj(Dict(WriteEntries(c.priors.entries, PriorJson)))),
              ("covariates", JObj(Dict(WriteEntries(c.covariates.entries, CovariateJson)))),
              ("use_off_diagonal", JBool(c.useOffDiagonal))]))
  }

  /** _config_to_dict with use_off_diagonal under "covariance", where from_dict reads it. */
  function ConfigToDictNested(c: PkpdConfig): (r: Result<Json, string>)
    ensures r.Ok? <==> PairedConfig(c)
  {
    if !PairedConfig(c) then Err(UnpackInteraction)
    else
      Ok(Obj([("model", JStr(c.model)),
              ("priors", JObj(Dict(WriteEntries(c.priors.entries, PriorJson)))),
              ("covariates", JObj(Dict(WriteEntries(c.covariates.entries, CovariateJson)))),
              ("covariance", Obj([("use_off_diagonal", JBool(c.useOffDiagonal))]))]))
  }

  /** Interaction names without '*' survive being joined with '*' and split again. */
  predicate StarFreeNames(c: PkpdConfig)
  {
    forall i, j, k ::
      (0 <= i < |c.covariates.entries| && 0 <= j < |c.covariates.entries[i].1.interactions.entries| &&
       0 <= k < |c.covariates.entries[i].1.interactions.entries[j].0|) ==>
      '*' !in c.covariates.entries[i].1.interactions.entries[j].0[k]
  }

  lemma PriorRoundTrip(p: PriorSpec)
    ensures ReadPrior(PriorJson(p)) == Ok(p)
  {
    var lo, hi := BoundJson(p.lower), BoundJson(p.upper);
    Field4("mu", JNum(p.mu), "sigma", JNum(p.sigma), "lower", lo, "upper", hi, "mu");
    Field4("mu", JNum(p.mu), "sigma", JNum(p.sigma), "lower", lo, "upper", hi, "sigma");
    Field4("mu", JNum(p.mu), "sigma", JNum(p.sigma), "lower", lo, "upper", hi, "lower");
    Field4("mu", JNum(p.mu), "sigma", JNum(p.sigma), "lower", lo, "upper", hi, "upper");
  }

  lemma {:induction false} InteractionsRoundTrip(es: seq<(seq<string>, real)>)
    requires PairKeys(es)
    requires forall j, k :: 0 <= j < |es| && 0 <= k < |es[j].0| ==> '*' !in es[j].0[k]
    ensures ReadInteractions(WriteInteractions(es)) == Ok(es)
    decreases |es|
  {
    if |es| > 0 {
      InteractionsRoundTrip(es[1..]);
      assert WriteInteractions(es)[1..] == WriteInteractions(es[1..]);
      var key := es[0].0;
      assert '*' !in key[0] && '*' !in key[1];
      assert key[0] + "*" + key[1] == key[0] + ['*'] + key[1];
      SplitAround(key[0], key[1], '*');
      assert [key[0], key[1]] == key;
      assert [(key, es[0].1)] + es[1..] == es;
    }
  }

  lemma CovariateRoundTrip(m: CovariateMapping)
    requires PairKeys(m.interactions.entries)
    requires forall j, k :: 0 <= j < |m.interactions.entries| && 0 <= k < |m.interactions.entries[j].0| ==>
      '*' !in m.interactions.entries[j].0[k]
    ensures ReadCovariate(CovariateJson(m)) == Ok(m)
  {
    EntriesRoundTrip(m.betas.entries, x => JNum(x), ReadNumber);
    InteractionsRoundTrip(m.interactions.entries);
    var bs := JObj(Dict(WriteEntries(m.betas.entries, x => JNum(x))));
    var ins := JObj(Dict(WriteInteractions(m.interactions.entries)));
    Field2("betas", bs, "interactions", ins, "betas");
    Field2("betas", bs, "interactions", ins, "interactions");
  }

  /** The priors and covariates of a written config read back unchanged. */
  lemma PartsRoundTrip(c: PkpdConfig)
    requires PairedConfig(c) && StarFreeNames(c)
    ensures ReadEntries(WriteEntries(c.priors.entries, PriorJson), ReadPrior) == Ok(c.priors.entries)
    ensures ReadEntries(WriteEntries(c.covariates.entries, CovariateJson), ReadCovariate) == Ok(c.covariates.entries)
  {
    forall i | 0 <= i < |c.priors.entries|
      ensures ReadPrior(PriorJson(c.priors.entries[i].1)) == Ok(c.priors.entries[i].1)
    {
      PriorRoundTrip(c.priors.entries[i].1);
    }
    EntriesRoundTrip(c.priors.entries, PriorJson, ReadPrior);
    forall i | 0 <= i < |c.covariates.entries|
      ensures ReadCovariate(CovariateJson(c.covariates.entries[i].1)) == Ok(c.covariates.entries[i].1)
    {
      CovariateRoundTrip(c.covariates.entries[i].1);
    }
    EntriesRoundTrip(c.covariates.entries, CovariateJson, ReadCovariate);
  }

  /**
   * As written, a config read back from _config_to_dict keeps its model,
   * priors and covariates (interaction keys included) but always has
   * use_off_diagonal False: the flag is written where from_dict does not
   * look. A config with the flag set does not survive the round trip.
   */
  lemma ConfigRoundTripDropsOffDiagonal(c: PkpdConfig)
    requires PairedConfig(c) && StarFreeNames(c)
    ensures FromDict(ConfigToDict(c).value) == Ok(c.(useOffDiagonal := false))
    ensures c.useOffDiagonal ==> FromDict(ConfigToDict(c).value) != Ok(c)
  {
    PartsRoundTrip(c);
    var ps := JObj(Dict(WriteEntries(c.priors.entries, PriorJson)));
    var cs := JObj(Dict(WriteEntries(c.covariates.entries, CovariateJson)));
    var flag := JBool(c.useOffDiagonal);
    Field4("model", JStr(c.model), "priors", ps, "covariates", cs, "use_off_diagonal", flag, "model");
    Field4("model", JStr(c.model), "priors", ps, "covariates", cs, "use_off_diagonal", flag, "priors");
    Field4("model", JStr(c.model), "priors", ps, "covariates", cs, "use_off_diagonal", flag, "covariates");
    Field4("model", JStr(c.model), "priors", ps, "covariates", cs, "use_off_diagonal", flag, "covariance");
  }

  /** With the flag written under "covariance" every such config survives the round trip. */
  lemma ConfigRoundTripNested(c: PkpdConfig)
    requires PairedConfig(c) && StarFreeNames(c)
    ensures FromDict(ConfigToDictNested(c).value) == Ok(c)
  {
    PartsRoundTrip(c);
    var ps := JObj(Dict(WriteEntries(c.priors.entries, PriorJson)));
    var cs := JObj(Dict(WriteEntries(c.covariates.entries, CovariateJson)));
    var cov := Obj([("use_off_diagonal", JBool(c.useOffDiagonal))]);
    Field4("model", JStr(c.model), "priors", ps, "covariates", cs, "covariance", cov, "model");
    Field4("model", JStr(c.model), "priors", ps, "covariates", cs, "covariance", cov, "priors");
    Field4("model", JStr(c.model), "priors", ps, "covariates", cs, "covariance", cov, "covariates");
    Field4("model", JStr(c.model), "priors", ps, "covariates", cs, "covariance", cov, "covariance");
  }

  // ---------------------------------------------------------------------------
  // Dosing policies

  datatype DoseDecision = DoseDecision(doseMg: real, rationale: string, policy: string)

  datatype DosingPolicy =
    | FixedDose(doseMg: real)
    | ExposureTarget(targetAuc: real, tolerance: real := 0.1, maxDose: real := 400.0)
    | ToxicityConstrained(maxToxicityProb: real := 0.05, stepMg: real := 10.0)

  /** str(x) and f"{x:.3f}" on floats. */
  datatype FloatFormats = FloatFormats(repr: real -> string, fixed3: real -> string)

  /** d.get(key, default) on a dict of floats. */
  function ValueOr(d: Dict<string, real>, key: string, default: real): real
  {
    Get(d, key).GetOr(default)
  }

  /** state.get("current_dose_mg", constraints.get("default_dose_mg", 100.0)) */
  function CurrentDose(state: Dict<string, real>, constraints: Dict<string, real>): real
  {
    ValueOr(state, "current_dose_mg", ValueOr(constraints, "default_dose_mg", 100.0))
  }

  /** propose_dose(state, pk_summary, pd_summary, constraints) */
  function ProposeDose(p: DosingPolicy, state: Dict<string, real>, pk: Dict<string, real>, pd: Dict<string, real>,
                       constraints: Dict<string, real>, fmt: FloatFormats): (d: DoseDecision)
    ensures p.FixedDose? ==> d == DoseDecision(p.doseMg, "fixed", "fixed")
    ensures p.ExposureTarget? ==> d.policy == "exposure_target"
    ensures p.ToxicityConstrained? ==> d.policy == "toxicity_constrained"
  {
    match p
    case FixedDose(dose) => DoseDecision(dose, "fixed", "fixed")
    case ExposureTarget(target, _, maxDose) =>
      var auc := ValueOr(pk, "auc", 0.0);
      var current := CurrentDose(state, constraints);
      if auc <= 0.0 then DoseDecision(current, "fallback_auc", "exposure_target")
      else
        var ratio := target / auc;
        var capped := Min(current * ratio, maxDose);
        DoseDecision(Max(capped, ValueOr(constraints, "min_dose_mg", 10.0)), "target_auc=" + fmt.repr(target),
                     "exposure_target")
    case ToxicityConstrained(limit, step) =>
      var tox := ValueOr(pd, "toxicity_prob", 0.0);
      var current := CurrentDose(state, constraints);
      if tox > limit then
        DoseDecision(Max(ValueOr(constraints, "min_dose_mg", 10.0), current - step),
                     "tox_prob=" + fmt.fixed3(tox) + " > " + fmt.repr(limit), "toxicity_constrained")
      else
        DoseDecision(Min(ValueOr(constraints, "max_dose_mg", 400.0), current + step),
                     "tox_prob=" + fmt.fixed3(tox) + " within limit", "toxicity_constrained")
  }

  /**
   * The exposure policy keeps the current dose when the AUC is missing or
   * not positive; otherwise it scales the dose by target/AUC, capped at
   * max_dose and then floored at min_dose (10 by default). A scaled dose
   * that needs neither bound brings the expected exposure, which grows in
   * proportion to the dose, to the target.
   */
  lemma ExposureTargetDose(p: DosingPolicy, state: Dict<string, real>, pk: Dict<string, real>, pd: Dict<string, real>,
                           constraints: Dict<string, real>, fmt: FloatFormats)
    requires p.ExposureTarget?
    ensures var d := ProposeDose(p, state, pk, pd, constraints, fmt);
      var auc := ValueOr(pk, "auc", 0.0);
      var current := CurrentDose(state, constraints);
      var minDose := ValueOr(constraints, "min_dose_mg", 10.0);
      (auc <= 0.0 ==> d.doseMg == current && d.rationale == "fallback_auc") &&
      (auc > 0.0 ==> d.doseMg >= minDose) &&
      (auc > 0.0 && minDose <= p.maxDose ==> d.doseMg <= p.maxDose) &&
      (auc > 0.0 && minDose <= current * p.targetAuc / auc <= p.maxDose ==> d.doseMg * auc == current * p.targetAuc)
  {
    var auc := ValueOr(pk, "auc", 0.0);
    if auc > 0.0 {
      var current := CurrentDose(state, constraints);
      assert current * (p.targetAuc / auc) == current * p.targetAuc / auc;
      assert current * p.targetAuc / auc * auc == current * p.targetAuc;
    }
  }

  /** Without an AUC in the summary the exposure policy keeps the current dose. */
  lemma ExposureTargetWithoutAuc(p: DosingPolicy, state: Dict<string, real>, pd: Dict<string, real>,
                                 constraints: Dict<string, real>, fmt: FloatFormats)
    requires p.ExposureTarget?
    ensures ProposeDose(p, state, Empty(), pd, constraints, fmt) ==
      DoseDecision(CurrentDose(state, constraints), "fallback_auc", "exposure_target")
  {
  }

  /**
   * The toxicity policy steps down by step_mg, not below min_dose, when the
   * toxicity probability exceeds the limit, and otherwise (equality
   * included) steps up by step_mg, not above max_dose (400 by default).
   */
  lemma ToxicityConstrainedDose(p: DosingPolicy, state: Dict<string, real>, pk: Dict<string, real>,
                                pd: Dict<string, real>, constraints: Dict<string, real>, fmt: FloatFormats)
    requires p.ToxicityConstrained? && p.stepMg >= 0.0
    ensures var d := ProposeDose(p, state, pk, pd, constraints, fmt);
      var tox := ValueOr(pd, "toxicity_prob", 0.0);
      var current := CurrentDose(state, constraints);
      var minDose := ValueOr(constraints, "min_dose_mg", 10.0);
      var maxDose := ValueOr(constraints, "max_dose_mg", 400.0);
      (tox > p.maxToxicityProb ==> d.doseMg >= minDose && (minDose <= current ==> d.doseMg <= current) &&
                                    (minDose <= current - p.stepMg ==> d.doseMg == current - p.stepMg)) &&
      (tox <= p.maxToxicityProb ==> d.doseMg <= maxDose && (current <= maxDose ==> d.doseMg >= current) &&
                                     (current + p.stepMg <= maxDose ==> d.doseMg == current + p.stepMg))
  {
  }
}
