/**
 * generate_population of the C Monte-Carlo engine (src/patient_sim_main.c):
 * every patient is drawn from one thread's generator and each continuous
 * field is clamped to a fixed range.
 */
module SimPopulation {
  import opened Numeric
  import opened SimTypes
  import opened SimRng

  /** The five pain types, the four risk categories, the four metabolizer types. */
  const PainTypeProbs: seq<real> := [0.2, 0.3, 0.15, 0.2, 0.15]
  const RiskProbs: seq<real> := [0.4, 0.35, 0.2, 0.05]
  const GeneticProbs: seq<real> := [0.7, 0.1, 0.15, 0.05]

  /** calloc's zero-filled record. */
  const ZeroPatient: PatientCharacteristics :=
    PatientCharacteristics(0, 0, 0, 0.0, 0.0, 0, 0.0, 0, false, 0.0, 0, false, false, false,
                           0.0, 0.0, 0, 0, false, false, 0.0)

  /** The ranges every generated patient lies in. */
  predicate PatientInBounds(p: PatientCharacteristics, k: SimConstants)
  {
    18 <= p.age <= 80 && (p.sex == 0 || p.sex == 1) &&
    40.0 <= p.weight <= 150.0 && 16.0 <= p.bmi <= 45.0 &&
    0 <= p.painType < |PainTypeProbs| &&
    1.0 <= p.baselinePainScore <= 10.0 &&
    1 <= p.painDurationMonths <= 121 &&
    (p.priorOpioidUse ==> 0.0 <= p.priorOpioidDoseMme <= 90.0) &&
    (!p.priorOpioidUse ==> p.priorOpioidDoseMme == 0.0) &&
    0 <= p.riskCategory < |RiskProbs| &&
    15.0 <= p.renalFunction <= 120.0 && 0.3 <= p.hepaticFunction <= 1.0 &&
    0 <= p.cyp2d6Phenotype < |GeneticProbs| && 0 <= p.cyp3a4Phenotype < |GeneticProbs| &&
    (p.painType == k.chronicCancer ==> 0.5 <= p.adherenceProbability <= 1.0) &&
    (p.painType != k.chronicCancer ==> 0.3 <= p.adherenceProbability <= 0.95)
  }

  // ---------------------------------------------------------------------------
  // Specification: each field as a function of the generator state

  /** Age, sex, weight and BMI drawn from state g, in the engine's order. */
  function DemographicsOf(g: RngState, entropy: bv64, m: Transcendentals): Drawn<(int, int, real, real)>
  {
    var u := UniformDraw(g, entropy);
    var s := UniformDraw(u.next, entropy);
    var w := NormalDraw(s.next, 25.0, 15.0, entropy, m);
    var b := NormalDraw(w.next, 6.0, 4.0, entropy, m);
    Drawn((18 + Trunc(u.value * 62.0), if s.value < 0.52 then 1 else 0,
           Clamp(50.0 + w.value, 40.0, 150.0), Clamp(18.5 + b.value, 16.0, 45.0)), b.next)
  }

  /** Pain type, baseline score, duration, prior use and prior dose drawn from state g. */
  function PainHistoryOf(g: RngState, entropy: bv64, m: Transcendentals): Drawn<(int, real, int, bool, real)>
  {
    var t := CategoricalDraw(g, PainTypeProbs, entropy);
    var b := NormalDraw(t.next, 2.5, 1.5, entropy, m);
    var u := UniformDraw(b.next, entropy);
    PainHistoryFrom(t.value, b.value, u.value, UniformDraw(u.next, entropy), entropy)
  }

  /** The pain history once the type, baseline, duration and prior-use draws are made. */
  function PainHistoryFrom(painType: int, b: real, u: real, v: Drawn<real>, entropy: bv64)
    : Drawn<(int, real, int, bool, real)>
  {
    var baseline, duration := Clamp(4.0 + b, 1.0, 10.0), 1 + Trunc(u * 120.0);
    if v.value < 0.3 then
      var d := UniformDraw(v.next, entropy);
      Drawn((painType, baseline, duration, true, d.value * 90.0), d.next)
    else
      Drawn((painType, baseline, duration, false, 0.0), v.next)
  }

  /** Risk category, the three risk flags, eGFR and hepatic function drawn from state g. */
  function RiskAndOrgansOf(g: RngState, age: int, entropy: bv64, m: Transcendentals)
    : Drawn<(int, bool, bool, bool, real, real)>
  {
    var c := CategoricalDraw(g, RiskProbs, entropy);
    var u1 := UniformDraw(c.next, entropy);
    var u2 := UniformDraw(u1.next, entropy);
    var u3 := UniformDraw(u2.next, entropy);
    var r := NormalDraw(u3.next, 0.0, 20.0, entropy, m);
    var h := NormalDraw(r.next, 0.0, 0.1, entropy, m);
    Drawn((c.value, u1.value < 0.1, u2.value < 0.25, u3.value < 0.12, Clamp(90.0 + r.value, 15.0, 120.0),
           Clamp(1.0 - (if age > 60 then 0.1 else 0.0) + h.value, 0.3, 1.0)), h.next)
  }

  /** The two phenotypes, the two variants and adherence drawn from state g. */
  function GeneticsOf(g: RngState, painType: int, entropy: bv64, m: Transcendentals, k: SimConstants)
    : Drawn<(int, int, bool, bool, real)>
  {
    var c1 := CategoricalDraw(g, GeneticProbs, entropy);
    var c2 := CategoricalDraw(c1.next, GeneticProbs, entropy);
    var u4 := UniformDraw(c2.next, entropy);
    var u5 := UniformDraw(u4.next, entropy);
    var cancer := painType == k.chronicCancer;
    var a := NormalDraw(u5.next, 0.0, if cancer then 0.1 else 0.15, entropy, m);
    var adherence := if cancer then Clamp(0.85 + a.value, 0.5, 1.0) else Clamp(0.7 + a.value, 0.3, 0.95);
    Drawn((c1.value, c2.value, u4.value < 0.15, u5.value < 0.25, adherence), a.next)
  }

  /**
   * Field group `part` of a patient record drawn from state g, in the order
   * the loop writes them: demographics, pain history, risk and organs (which
   * read the age), then genetics and adherence (which read the pain type).
   */
  function PartDraw(g: RngState, p: PatientCharacteristics, part: nat, entropy: bv64, m: Transcendentals,
                    k: SimConstants): Drawn<PatientCharacteristics>
  {
    if part == 0 then
      var d := DemographicsOf(g, entropy, m);
      Drawn(p.(age := d.value.0, sex := d.value.1, weight := d.value.2, bmi := d.value.3), d.next)
    else if part == 1 then
      var h := PainHistoryOf(g, entropy, m);
      Drawn(p.(painType := h.value.0, baselinePainScore := h.value.1, painDurationMonths := h.value.2,
               priorOpioidUse := h.value.3, priorOpioidDoseMme := h.value.4), h.next)
    else if part == 2 then
      var r := RiskAndOrgansOf(g, p.age, entropy, m);
      Drawn(p.(riskCategory := r.value.0, addictionHistory := r.value.1, mentalHealthComorbidity := r.value.2,
               respiratoryDisease := r.value.3, renalFunction := r.value.4, hepaticFunction := r.value.5), r.next)
    else
      var x := GeneticsOf(g, p.painType, entropy, m, k);
      Drawn(p.(cyp2d6Phenotype := x.value.0, cyp3a4Phenotype := x.value.1, oprm1Variant := x.value.2,
               comtVariant := x.value.3, adherenceProbability := x.value.4), x.next)
  }

  /**
   * The field groups from `part` on, drawn into p. PartsFrom and PartsThen
   * take turns, so that unfolding a patient draw does not unfold every group.
   */
  function PartsFrom(g: RngState, p: PatientCharacteristics, part: nat, entropy: bv64, m: Transcendentals,
                     k: SimConstants): Drawn<PatientCharacteristics>
    decreases 4 - part, 1
  {
    if part >= 4 then Drawn(p, g) else PartsThen(g, p, part, entropy, m, k)
  }

  /** Group `part`, then the groups after it. */
  function PartsThen(g: RngState, p: PatientCharacteristics, part: nat, entropy: bv64, m: Transcendentals,
                     k: SimConstants): Drawn<PatientCharacteristics>
    requires part < 4
    decreases 4 - part, 0
  {
    var s := PartDraw(g, p, part, entropy, m, k);
    PartsFrom(s.next, s.value, part + 1, entropy, m, k)
  }

  /**
   * Patient i drawn from state g: one iteration of generate_population's
   * loop, writing every field group into calloc's zeroed record.
   */
  function PatientDraw(g: RngState, i: int, entropy: bv64, m: Transcendentals, k: SimConstants)
    : Drawn<PatientCharacteristics>
  {
    PartsFrom(g, ZeroPatient.(patientId := i), 0, entropy, m, k)
  }

  /** Patients 0 .. n-1 drawn one after another from state g. */
  function PopulationDraw(g: RngState, n: nat, entropy: bv64, m: Transcendentals, k: SimConstants)
    : Drawn<seq<PatientCharacteristics>>
    decreases n, 0
  {
    if n == 0 then Drawn([], g)
    else
      var p := PatientAt(g, n - 1, entropy, m, k);
      Drawn(PopulationDraw(g, n - 1, entropy, m, k).value + [p.value], p.next)
  }

  /**
   * Patient i of a population. PatientAt and PatientFrom only name the
   * draw, so that unfolding PopulationDraw does not unfold PatientDraw.
   */
  function PatientAt(g: RngState, i: nat, entropy: bv64, m: Transcendentals, k: SimConstants)
    : Drawn<PatientCharacteristics>
    decreases i, 2
  {
    PatientFrom(g, i, entropy, m, k)
  }

  /** Patient i drawn from the state the first i patients leave. */
  function PatientFrom(g: RngState, i: nat, entropy: bv64, m: Transcendentals, k: SimConstants)
    : Drawn<PatientCharacteristics>
    decreases i, 1
  {
    PatientDraw(PopulationDraw(g, i, entropy, m, k).next, i, entropy, m, k)
  }

  /**
   * Uniform draws one patient consumes: thirteen for the uniform and
   * categorical fields, one more for a prior dose, and six for the six
   * normal draws, which use three fresh pairs whether or not a kept value
   * is waiting.
   */
  function DrawsPerPatient(prior: bool): nat
  {
    if prior then 20 else 19
  }

  // ---------------------------------------------------------------------------
  // Properties of the specification

  /** A patient draw is its four field groups drawn one after another. */
  lemma PatientDrawUnfold(g: RngState, i: int, entropy: bv64, m: Transcendentals, k: SimConstants)
    ensures var d := DemographicsOf(g, entropy, m);
      var h := PainHistoryOf(d.next, entropy, m);
      var r := RiskAndOrgansOf(h.next, d.value.0, entropy, m);
      var x := GeneticsOf(r.next, h.value.0, entropy, m, k);
      PatientDraw(g, i, entropy, m, k) ==
        Drawn(PatientCharacteristics(i, d.value.0, d.value.1, d.value.2, d.value.3, h.value.0, h.value.1,
                                     h.value.2, h.value.3, h.value.4, r.value.0, r.value.1, r.value.2, r.value.3,
                                     r.value.4, r.value.5, x.value.0, x.value.1, x.value.2, x.value.3, x.value.4),
              x.next)
  {
    var p0 := ZeroPatient.(patientId := i);
    var s0 := PartDraw(g, p0, 0, entropy, m, k);
    var s1 := PartDraw(s0.next, s0.value, 1, entropy, m, k);
    var s2 := PartDraw(s1.next, s1.value, 2, entropy, m, k);
    var s3 := PartDraw(s2.next, s2.value, 3, entropy, m, k);
    assert PartsFrom(g, p0, 0, entropy, m, k) == PartsFrom(s0.next, s0.value, 1, entropy, m, k);
    assert PartsFrom(s0.next, s0.value, 1, entropy, m, k) == PartsFrom(s1.next, s1.value, 2, entropy, m, k);
    assert PartsFrom(s1.next, s1.value, 2, entropy, m, k) == PartsFrom(s2.next, s2.value, 3, entropy, m, k);
    assert PartsFrom(s2.next, s2.value, 3, entropy, m, k) == Drawn(s3.value, s3.next);
  }

  lemma DemographicsBounds(g: RngState, entropy: bv64, m: Transcendentals)
    ensures var d := DemographicsOf(g, entropy, m).value;
      18 <= d.0 <= 80 && (d.1 == 0 || d.1 == 1) && 40.0 <= d.2 <= 150.0 && 16.0 <= d.3 <= 45.0
  {
    var u := UniformDraw(g, entropy).value;
    ScaleUnit(u, 62.0);
    TruncWithin(u * 62.0, 0, 62);
  }

  lemma PainHistoryBounds(g: RngState, entropy: bv64, m: Transcendentals)
    ensures var h := PainHistoryOf(g, entropy, m).value;
      0 <= h.0 < |PainTypeProbs| && 1.0 <= h.1 <= 10.0 && 1 <= h.2 <= 121 &&
      (h.3 ==> 0.0 <= h.4 <= 90.0) && (!h.3 ==> h.4 == 0.0)
  {
    var t := CategoricalDraw(g, PainTypeProbs, entropy);
    var b := NormalDraw(t.next, 2.5, 1.5, entropy, m);
    var u := UniformDraw(b.next, entropy);
    var v := UniformDraw(u.next, entropy);
    assert PainHistoryOf(g, entropy, m) == PainHistoryFrom(t.value, b.value, u.value, v, entropy);
    PainHistoryFromBounds(t.value, b.value, u.value, v, entropy);
  }

  lemma PainHistoryFromBounds(painType: int, b: real, u: real, v: Drawn<real>, entropy: bv64)
    requires 0 <= painType < |PainTypeProbs| && 0.0 <= u <= 1.0
    ensures var h := PainHistoryFrom(painType, b, u, v, entropy).value;
      h.0 == painType && 1.0 <= h.1 <= 10.0 && 1 <= h.2 <= 121 &&
      (h.3 ==> 0.0 <= h.4 <= 90.0) && (!h.3 ==> h.4 == 0.0)
  {
    ScaleUnit(u, 120.0);
    TruncWithin(u * 120.0, 0, 120);
    ScaleUnit(UniformDraw(v.next, entropy).value, 90.0);
  }

  lemma RiskAndOrgansBounds(g: RngState, age: int, entropy: bv64, m: Transcendentals)
    ensures var r := RiskAndOrgansOf(g, age, entropy, m).value;
      0 <= r.0 < |RiskProbs| && 15.0 <= r.4 <= 120.0 && 0.3 <= r.5 <= 1.0
  {
  }

  lemma GeneticsBounds(g: RngState, painType: int, entropy: bv64, m: Transcendentals, k: SimConstants)
    ensures var x := GeneticsOf(g, painType, entropy, m, k).value;
      0 <= x.0 < |GeneticProbs| && 0 <= x.1 < |GeneticProbs| &&
      (painType == k.chronicCancer ==> 0.5 <= x.4 <= 1.0) &&
      (painType != k.chronicCancer ==> 0.3 <= x.4 <= 0.95)
  {
  }

  /** Every drawn patient carries its index and lies within the engine's ranges. */
  lemma PatientDrawInBounds(g: RngState, i: int, entropy: bv64, m: Transcendentals, k: SimConstants)
    ensures PatientDraw(g, i, entropy, m, k).value.patientId == i
    ensures PatientInBounds(PatientDraw(g, i, entropy, m, k).value, k)
  {
    PatientDrawUnfold(g, i, entropy, m, k);
    var d := DemographicsOf(g, entropy, m);
    DemographicsBounds(g, entropy, m);
    var h := PainHistoryOf(d.next, entropy, m);
    PainHistoryBounds(d.next, entropy, m);
    var r := RiskAndOrgansOf(h.next, d.value.0, entropy, m);
    RiskAndOrgansBounds(h.next, d.value.0, entropy, m);
    GeneticsBounds(r.next, h.value.0, entropy, m, k);
  }

  /** The demographics take four uniforms and leave the kept-value flag as it was. */
  lemma DemographicsCount(g: RngState, entropy: bv64, m: Transcendentals)
    ensures var r := DemographicsOf(g, entropy, m).next;
      r.initialized && r.seed == Seeded(g, entropy).seed && r.hasSpare == g.hasSpare &&
      r.drawn == Seeded(g, entropy).drawn + 4
  {
    var u := UniformDraw(g, entropy);
    var s := UniformDraw(u.next, entropy);
    var w := NormalDraw(s.next, 25.0, 15.0, entropy, m);
    assert w.next.seed == Seeded(g, entropy).seed;
  }

  /** The pain history takes three uniforms, one more for a prior dose, and a pair unless a value is kept. */
  lemma PainHistoryCount(g: RngState, entropy: bv64, m: Transcendentals)
    ensures var r := PainHistoryOf(g, entropy, m);
      r.next.initialized && r.next.seed == Seeded(g, entropy).seed && r.next.hasSpare == !g.hasSpare &&
      r.next.drawn == Seeded(g, entropy).drawn + 3 + (if r.value.3 then 1 else 0) + (if g.hasSpare then 0 else 2)
  {
    var t := CategoricalDraw(g, PainTypeProbs, entropy);
    var b := NormalDraw(t.next, 2.5, 1.5, entropy, m);
    assert b.next.seed == Seeded(g, entropy).seed;
    assert b.next.drawn == Seeded(g, entropy).drawn + 1 + (if g.hasSpare then 0 else 2);
  }

  /** The risk fields and organ values take six uniforms and leave the flag as it was. */
  lemma RiskAndOrgansCount(g: RngState, age: int, entropy: bv64, m: Transcendentals)
    ensures var r := RiskAndOrgansOf(g, age, entropy, m).next;
      r.initialized && r.seed == Seeded(g, entropy).seed && r.hasSpare == g.hasSpare &&
      r.drawn == Seeded(g, entropy).drawn + 6
  {
    var c := CategoricalDraw(g, RiskProbs, entropy);
    var u1 := UniformDraw(c.next, entropy);
    var u2 := UniformDraw(u1.next, entropy);
    var u3 := UniformDraw(u2.next, entropy);
    assert u3.next.drawn == Seeded(g, entropy).drawn + 4;
    var r := NormalDraw(u3.next, 0.0, 20.0, entropy, m);
    assert r.next.seed == Seeded(g, entropy).seed;
  }

  /** The genetics and adherence take four uniforms and a pair unless a value is kept. */
  lemma GeneticsCount(g: RngState, painType: int, entropy: bv64, m: Transcendentals, k: SimConstants)
    ensures var r := GeneticsOf(g, painType, entropy, m, k).next;
      r.initialized && r.seed == Seeded(g, entropy).seed && r.hasSpare == !g.hasSpare &&
      r.drawn == Seeded(g, entropy).drawn + 4 + (if g.hasSpare then 0 else 2)
  {
    var c1 := CategoricalDraw(g, GeneticProbs, entropy);
    var c2 := CategoricalDraw(c1.next, GeneticProbs, entropy);
    var u4 := UniformDraw(c2.next, entropy);
    var u5 := UniformDraw(u4.next, entropy);
    assert u5.next.drawn == Seeded(g, entropy).drawn + 4;
  }

  /**
   * One patient keeps the seed once seeded, leaves the kept-value flag as it
   * found it, and advances the stream by DrawsPerPatient.
   */
  lemma PatientDrawCount(g: RngState, i: int, entropy: bv64, m: Transcendentals, k: SimConstants)
    ensures var r := PatientDraw(g, i, entropy, m, k);
      r.next.initialized && r.next.seed == Seeded(g, entropy).seed && r.next.hasSpare == g.hasSpare &&
      r.next.drawn == Seeded(g, entropy).drawn + DrawsPerPatient(r.value.priorOpioidUse)
  {
    PatientDrawUnfold(g, i, entropy, m, k);
    var d := DemographicsOf(g, entropy, m);
    DemographicsCount(g, entropy, m);
    var h := PainHistoryOf(d.next, entropy, m);
    PainHistoryCount(d.next, entropy, m);
    var r := RiskAndOrgansOf(h.next, d.value.0, entropy, m);
    RiskAndOrgansCount(h.next, d.value.0, entropy, m);
    GeneticsCount(r.next, h.value.0, entropy, m, k);
  }

  /** Drawing one more patient appends it to the population. */
  lemma PopulationDrawNext(g: RngState, n: nat, entropy: bv64, m: Transcendentals, k: SimConstants)
    ensures var prev := PopulationDraw(g, n, entropy, m, k);
      var p := PatientDraw(prev.next, n, entropy, m, k);
      PopulationDraw(g, n + 1, entropy, m, k) == Drawn(prev.value + [p.value], p.next)
  {
    assert PatientFrom(g, n, entropy, m, k) == PatientDraw(PopulationDraw(g, n, entropy, m, k).next, n, entropy, m, k);
  }

  /**
   * Patient n of a population has id n and lies in range; the population
   * keeps its first n patients, and the seed and the kept-value flag stay.
   */
  lemma PopulationDrawStep(g: RngState, n: nat, entropy: bv64, m: Transcendentals, k: SimConstants)
    ensures var prev := PopulationDraw(g, n, entropy, m, k);
      var r := PopulationDraw(g, n + 1, entropy, m, k);
      |r.value| == |prev.value| + 1 && r.value[..|prev.value|] == prev.value &&
      r.value[|prev.value|].patientId == n && PatientInBounds(r.value[|prev.value|], k) &&
      r.next.initialized && r.next.seed == Seeded(prev.next, entropy).seed && r.next.hasSpare == prev.next.hasSpare
  {
    var before := PopulationDraw(g, n, entropy, m, k).next;
    assert PatientFrom(g, n, entropy, m, k) == PatientDraw(before, n, entropy, m, k);
    PatientDrawInBounds(before, n, entropy, m, k);
    PatientDrawCount(before, n, entropy, m, k);
  }

  /** A drawn population has n patients, patient i with id i and in range, all from one seed. */
  lemma {:induction false} PopulationDrawFacts(g: RngState, n: nat, entropy: bv64, m: Transcendentals,
                                               k: SimConstants)
    ensures var r := PopulationDraw(g, n, entropy, m, k);
      |r.value| == n && r.next.hasSpare == g.hasSpare &&
      (n > 0 ==> r.next.initialized && r.next.seed == Seeded(g, entropy).seed) &&
      forall i :: 0 <= i < n ==> r.value[i].patientId == i && PatientInBounds(r.value[i], k)
  {
    if n > 0 {
      var prev := PopulationDraw(g, n - 1, entropy, m, k);
      PopulationDrawFacts(g, n - 1, entropy, m, k);
      PopulationDrawStep(g, n - 1, entropy, m, k);
      var r := PopulationDraw(g, n, entropy, m, k);
      assert Seeded(prev.next, entropy).seed == Seeded(g, entropy).seed;
      forall i | 0 <= i < n
        ensures r.value[i].patientId == i && PatientInBounds(r.value[i], k)
      {
        if i < n - 1 {
          assert r.value[i] == r.value[..n - 1][i] == prev.value[i];
        }
      }
    }
  }

  // Each part's value in terms of its single draws, for the methods below.

  lemma DemographicsOfDraws(g: RngState, entropy: bv64, m: Transcendentals,
                            du: Drawn<real>, ds: Drawn<real>, dw: Drawn<real>, db: Drawn<real>,
                            age: int, sex: int, weight: real, bmi: real)
    requires du == UniformDraw(g, entropy) && ds == UniformDraw(du.next, entropy)
    requires dw == NormalDraw(ds.next, 25.0, 15.0, entropy, m) && db == NormalDraw(dw.next, 6.0, 4.0, entropy, m)
    requires age == 18 + Trunc(du.value * 62.0) && sex == (if ds.value < 0.52 then 1 else 0)
    requires weight == Clamp(50.0 + dw.value, 40.0, 150.0) && bmi == Clamp(18.5 + db.value, 16.0, 45.0)
    ensures DemographicsOf(g, entropy, m) == Drawn((age, sex, weight, bmi), db.next)
  {
  }

  lemma PainHistoryOfDraws(g: RngState, entropy: bv64, m: Transcendentals,
                           dt: Drawn<int>, db: Drawn<real>, du: Drawn<real>, dv: Drawn<real>,
                           b: real, u: real, d: real, painType: int, baseline: real, duration: int, prior: bool,
                           priorDose: real, next: RngState)
    requires dt == CategoricalDraw(g, PainTypeProbs, entropy) && db == NormalDraw(dt.next, 2.5, 1.5, entropy, m)
    requires du == UniformDraw(db.next, entropy) && dv == UniformDraw(du.next, entropy)
    requires b == db.value && u == du.value && painType == dt.value && baseline == Clamp(4.0 + b, 1.0, 10.0)
    requires duration == 1 + Trunc(u * 120.0) && prior == (dv.value < 0.3)
    requires prior ==> d == UniformDraw(dv.next, entropy).value && priorDose == d * 90.0 &&
                       next == UniformDraw(dv.next, entropy).next
    requires !prior ==> priorDose == 0.0 && next == dv.next
    ensures PainHistoryOf(g, entropy, m) == Drawn((painType, baseline, duration, prior, priorDose), next)
  {
    assert PainHistoryOf(g, entropy, m) == PainHistoryFrom(painType, b, u, dv, entropy);
  }

  lemma RiskAndOrgansOfDraws(g: RngState, age: int, entropy: bv64, m: Transcendentals, dc: Drawn<int>,
                             d1: Drawn<real>, d2: Drawn<real>, d3: Drawn<real>, dr: Drawn<real>, dh: Drawn<real>,
                             risk: int, addiction: bool, mental: bool, respiratory: bool,
                             r: real, h: real, renal: real, hepatic: real)
    requires dc == CategoricalDraw(g, RiskProbs, entropy) && d1 == UniformDraw(dc.next, entropy)
    requires d2 == UniformDraw(d1.next, entropy) && d3 == UniformDraw(d2.next, entropy)
    requires dr == NormalDraw(d3.next, 0.0, 20.0, entropy, m) && dh == NormalDraw(dr.next, 0.0, 0.1, entropy, m)
    requires risk == dc.value && addiction == (d1.value < 0.1) && mental == (d2.value < 0.25)
    requires respiratory == (d3.value < 0.12) && r == dr.value && h == dh.value
    requires renal == Clamp(90.0 + r, 15.0, 120.0) && hepatic == Clamp(1.0 - (if age > 60 then 0.1 else 0.0) + h, 0.3, 1.0)
    ensures RiskAndOrgansOf(g, age, entropy, m) ==
      Drawn((risk, addiction, mental, respiratory, renal, hepatic), dh.next)
  {
  }

  lemma GeneticsOfDraws(g: RngState, painType: int, entropy: bv64, m: Transcendentals, k: SimConstants,
                        c1: Drawn<int>, c2: Drawn<int>, d4: Drawn<real>, d5: Drawn<real>, da: Drawn<real>,
                        oprm1: bool, comt: bool, a: real, adherence: real)
    requires c1 == CategoricalDraw(g, GeneticProbs, entropy) && c2 == CategoricalDraw(c1.next, GeneticProbs, entropy)
    requires d4 == UniformDraw(c2.next, entropy) && d5 == UniformDraw(d4.next, entropy)
    requires oprm1 == (d4.value < 0.15) && comt == (d5.value < 0.25) && a == da.value
    requires painType == k.chronicCancer ==>
      da == NormalDraw(d5.next, 0.0, 0.1, entropy, m) && adherence == Clamp(0.85 + a, 0.5, 1.0)
    requires painType != k.chronicCancer ==>
      da == NormalDraw(d5.next, 0.0, 0.15, entropy, m) && adherence == Clamp(0.7 + a, 0.3, 0.95)
    ensures GeneticsOf(g, painType, entropy, m, k) == Drawn((c1.value, c2.value, oprm1, comt, adherence), da.next)
  {
  }

  lemma PatientDrawParts(g: RngState, i: int, entropy: bv64, m: Transcendentals, k: SimConstants,
                         d: Drawn<(int, int, real, real)>, h: Drawn<(int, real, int, bool, real)>,
                         r: Drawn<(int, bool, bool, bool, real, real)>, x: Drawn<(int, int, bool, bool, real)>,
                         age: int, sex: int, weight: real, bmi: real,
                         painType: int, baseline: real, duration: int, prior: bool, priorDose: real,
                         risk: int, addiction: bool, mental: bool, respiratory: bool, renal: real, hepatic: real,
                         cyp2d6: int, cyp3a4: int, oprm1: bool, comt: bool, adherence: real)
    requires d == DemographicsOf(g, entropy, m) && (age, sex, weight, bmi) == d.value
    requires h == PainHistoryOf(d.next, entropy, m) && (painType, baseline, duration, prior, priorDose) == h.value
    requires r == RiskAndOrgansOf(h.next, age, entropy, m)
    requires (risk, addiction, mental, respiratory, renal, hepatic) == r.value
    requires x == GeneticsOf(r.next, painType, entropy, m, k) && (cyp2d6, cyp3a4, oprm1, comt, adherence) == x.value
    ensures PatientDraw(g, i, entropy, m, k) ==
      Drawn(PatientCharacteristics(i, age, sex, weight, bmi, painType, baseline, duration, prior, priorDose,
                                   risk, addiction, mental, respiratory, renal, hepatic, cyp2d6, cyp3a4,
                                   oprm1, comt, adherence), x.next)
  {
    PatientDrawUnfold(g, i, entropy, m, k);
  }

  /** Writing slot i and taking i + 1 elements appends the new value to the first i. */
  lemma TakeUpdate<T>(s: seq<T>, i: nat, x: T)
    requires i < |s|
    ensures s[i := x][..i + 1] == s[..i] + [x]
  {
  }

  // ---------------------------------------------------------------------------
  // The engine's methods

  /** Age, sex, weight and BMI of one patient. */
  method Demographics(rng: ThreadRng, entropy: bv64, m: Transcendentals)
    returns (age: int, sex: int, weight: real, bmi: real)
    requires rng.Valid()
    modifies rng
    ensures rng.Valid()
    ensures 18 <= age <= 80 && (sex == 0 || sex == 1)
    ensures 40.0 <= weight <= 150.0 && 16.0 <= bmi <= 45.0
    ensures (age, sex, weight, bmi) == DemographicsOf(old(rng.Model()), entropy, m).value
    ensures rng.Model() == DemographicsOf(old(rng.Model()), entropy, m).next
  {
    ghost var g0 := rng.Model();
    var u := rng.Uniform(entropy);
    ghost var du := UniformDraw(g0, entropy);
    assert u == du.value && rng.Model() == du.next;
    ScaleUnit(u, 62.0);
    TruncWithin(u * 62.0, 0, 62);
    age := 18 + Trunc(u * 62.0);
    var s := rng.Uniform(entropy);
    ghost var ds := UniformDraw(du.next, entropy);
    assert s == ds.value && rng.Model() == ds.next;
    sex := if s < 0.52 then 1 else 0;
    var w := rng.Normal(25.0, 15.0, entropy, m);
    ghost var dw := NormalDraw(ds.next, 25.0, 15.0, entropy, m);
    assert w == dw.value && rng.Model() == dw.next;
    weight := Clamp(50.0 + w, 40.0, 150.0);
    var b := rng.Normal(6.0, 4.0, entropy, m);
    ghost var db := NormalDraw(dw.next, 6.0, 4.0, entropy, m);
    assert b == db.value && rng.Model() == db.next;
    bmi := Clamp(18.5 + b, 16.0, 45.0);
    DemographicsOfDraws(g0, entropy, m, du, ds, dw, db, age, sex, weight, bmi);
  }

  /** Pain type, baseline score, duration and prior opioid use. */
  method PainHistory(rng: ThreadRng, entropy: bv64, m: Transcendentals)
    returns (painType: int, baseline: real, duration: int, prior: bool, priorDose: real)
    requires rng.Valid()
    modifies rng
    ensures rng.Valid()
    ensures 0 <= painType < |PainTypeProbs| && 1.0 <= baseline <= 10.0 && 1 <= duration <= 121
    ensures prior ==> 0.0 <= priorDose <= 90.0
    ensures !prior ==> priorDose == 0.0
    ensures (painType, baseline, duration, prior, priorDose) == PainHistoryOf(old(rng.Model()), entropy, m).value
    ensures rng.Model() == PainHistoryOf(old(rng.Model()), entropy, m).next
  {
    ghost var g0 := rng.Model();
    painType := rng.Categorical(PainTypeProbs, entropy);
    ghost var dt := CategoricalDraw(g0, PainTypeProbs, entropy);
    assert painType == dt.value && rng.Model() == dt.next;
    var b := rng.Normal(2.5, 1.5, entropy, m);
    ghost var db := NormalDraw(dt.next, 2.5, 1.5, entropy, m);
    assert b == db.value && rng.Model() == db.next;
    baseline := Clamp(4.0 + b, 1.0, 10.0);
    var u := rng.Uniform(entropy);
    ghost var du := UniformDraw(db.next, entropy);
    assert u == du.value && rng.Model() == du.next;
    ScaleUnit(u, 120.0);
    TruncWithin(u * 120.0, 0, 120);
    duration := 1 + Trunc(u * 120.0);
    var v := rng.Uniform(entropy);
    ghost var dv := UniformDraw(du.next, entropy);
    assert v == dv.value && rng.Model() == dv.next;
    prior := v < 0.3;
    var d := 0.0;
    if prior {
      d := rng.Uniform(entropy);
      ghost var dd := UniformDraw(dv.next, entropy);
      assert d == dd.value && rng.Model() == dd.next;
      ScaleUnit(d, 90.0);
      priorDose := d * 90.0;
    } else {
      priorDose := 0.0;
    }
    PainHistoryOfDraws(g0, entropy, m, dt, db, du, dv, b, u, d, painType, baseline, duration, prior, priorDose,
                       rng.Model());
  }

  /** Risk category, the three risk flags and the organ function values. */
  method RiskAndOrgans(rng: ThreadRng, age: int, entropy: bv64, m: Transcendentals)
    returns (risk: int, addiction: bool, mental: bool, respiratory: bool, renal: real, hepatic: real)
    requires rng.Valid()
    modifies rng
    ensures rng.Valid()
    ensures 0 <= risk < |RiskProbs| && 15.0 <= renal <= 120.0 && 0.3 <= hepatic <= 1.0
    ensures (risk, addiction, mental, respiratory, renal, hepatic) == RiskAndOrgansOf(old(rng.Model()), age, entropy, m).value
    ensures rng.Model() == RiskAndOrgansOf(old(rng.Model()), age, entropy, m).next
  {
    ghost var g0 := rng.Model();
    risk := rng.Categorical(RiskProbs, entropy);
    ghost var dc := CategoricalDraw(g0, RiskProbs, entropy);
    assert risk == dc.value && rng.Model() == dc.next;
    var u1 := rng.Uniform(entropy);
    ghost var d1 := UniformDraw(dc.next, entropy);
    assert u1 == d1.value && rng.Model() == d1.next;
    var u2 := rng.Uniform(entropy);
    ghost var d2 := UniformDraw(d1.next, entropy);
    assert u2 == d2.value && rng.Model() == d2.next;
    var u3 := rng.Uniform(entropy);
    ghost var d3 := UniformDraw(d2.next, entropy);
    assert u3 == d3.value && rng.Model() == d3.next;
    addiction, mental, respiratory := u1 < 0.1, u2 < 0.25, u3 < 0.12;
    var r := rng.Normal(0.0, 20.0, entropy, m);
    ghost var dr := NormalDraw(d3.next, 0.0, 20.0, entropy, m);
    assert r == dr.value && rng.Model() == dr.next;
    renal := Clamp(90.0 + r, 15.0, 120.0);
    var h := rng.Normal(0.0, 0.1, entropy, m);
    ghost var dh := NormalDraw(dr.next, 0.0, 0.1, entropy, m);
    assert h == dh.value && rng.Model() == dh.next;
    hepatic := Clamp(1.0 - (if age > 60 then 0.1 else 0.0) + h, 0.3, 1.0);
    RiskAndOrgansOfDraws(g0, age, entropy, m, dc, d1, d2, d3, dr, dh, risk, addiction, mental, respiratory,
                         r, h, renal, hepatic);
  }

  /** The two CYP phenotypes, the two variants, and adherence. */
  method GeneticsAndAdherence(rng: ThreadRng, painType: int, entropy: bv64, m: Transcendentals, k: SimConstants)
    returns (cyp2d6: int, cyp3a4: int, oprm1: bool, comt: bool, adherence: real)
    requires rng.Valid()
    modifies rng
    ensures rng.Valid()
    ensures 0 <= cyp2d6 < |GeneticProbs| && 0 <= cyp3a4 < |GeneticProbs|
    ensures painType == k.chronicCancer ==> 0.5 <= adherence <= 1.0
    ensures painType != k.chronicCancer ==> 0.3 <= adherence <= 0.95
    ensures (cyp2d6, cyp3a4, oprm1, comt, adherence) == GeneticsOf(old(rng.Model()), painType, entropy, m, k).value
    ensures rng.Model() == GeneticsOf(old(rng.Model()), painType, entropy, m, k).next
  {
    ghost var g0 := rng.Model();
    cyp2d6 := rng.Categorical(GeneticProbs, entropy);
    ghost var c1 := CategoricalDraw(g0, GeneticProbs, entropy);
    assert cyp2d6 == c1.value && rng.Model() == c1.next;
    cyp3a4 := rng.Categorical(GeneticProbs, entropy);
    ghost var c2 := CategoricalDraw(c1.next, GeneticProbs, entropy);
    assert cyp3a4 == c2.value && rng.Model() == c2.next;
    var u4 := rng.Uniform(entropy);
    ghost var d4 := UniformDraw(c2.next, entropy);
    assert u4 == d4.value && rng.Model() == d4.next;
    var u5 := rng.Uniform(entropy);
    ghost var d5 := UniformDraw(d4.next, entropy);
    assert u5 == d5.value && rng.Model() == d5.next;
    oprm1, comt := u4 < 0.15, u5 < 0.25;
    if painType == k.chronicCancer {
      var a := rng.Normal(0.0, 0.1, entropy, m);
      ghost var da := NormalDraw(d5.next, 0.0, 0.1, entropy, m);
      assert a == da.value && rng.Model() == da.next;
      adherence := Clamp(0.85 + a, 0.5, 1.0);
      GeneticsOfDraws(g0, painType, entropy, m, k, c1, c2, d4, d5, da, oprm1, comt, a, adherence);
    } else {
      var a := rng.Normal(0.0, 0.15, entropy, m);
      ghost var da := NormalDraw(d5.next, 0.0, 0.15, entropy, m);
      assert a == da.value && rng.Model() == da.next;
      adherence := Clamp(0.7 + a, 0.3, 0.95);
      GeneticsOfDraws(g0, painType, entropy, m, k, c1, c2, d4, d5, da, oprm1, comt, a, adherence);
    }
  }

  /**
   * One iteration of generate_population's loop: the fields of patient i in
   * the order the engine draws them.
   */
  method GeneratePatient(rng: ThreadRng, i: int, entropy: bv64, m: Transcendentals, k: SimConstants)
    returns (p: PatientCharacteristics)
    requires rng.Valid()
    modifies rng
    ensures rng.Valid()
    ensures p.patientId == i
    ensures PatientInBounds(p, k)
    ensures p == PatientDraw(old(rng.Model()), i, entropy, m, k).value
    ensures rng.Model() == PatientDraw(old(rng.Model()), i, entropy, m, k).next
  {
    ghost var g0 := rng.Model();
    var age, sex, weight, bmi := Demographics(rng, entropy, m);
    ghost var d := DemographicsOf(g0, entropy, m);
    assert (age, sex, weight, bmi) == d.value && rng.Model() == d.next;
    var painType, baseline, duration, prior, priorDose := PainHistory(rng, entropy, m);
    ghost var h := PainHistoryOf(d.next, entropy, m);
    assert (painType, baseline, duration, prior, priorDose) == h.value && rng.Model() == h.next;
    var risk, addiction, mental, respiratory, renal, hepatic := RiskAndOrgans(rng, age, entropy, m);
    ghost var r := RiskAndOrgansOf(h.next, age, entropy, m);
    assert (risk, addiction, mental, respiratory, renal, hepatic) == r.value && rng.Model() == r.next;
    var cyp2d6, cyp3a4, oprm1, comt, adherence := GeneticsAndAdherence(rng, painType, entropy, m, k);
    ghost var x := GeneticsOf(r.next, painType, entropy, m, k);
    assert (cyp2d6, cyp3a4, oprm1, comt, adherence) == x.value && rng.Model() == x.next;
    p := PatientCharacteristics(i, age, sex, weight, bmi, painType, baseline, duration, prior, priorDose,
                                risk, addiction, mental, respiratory, renal, hepatic, cyp2d6, cyp3a4,
                                oprm1, comt, adherence);
    PatientDrawParts(g0, i, entropy, m, k, d, h, r, x, age, sex, weight, bmi, painType, baseline, duration, prior,
                     priorDose, risk, addiction, mental, respiratory, renal, hepatic, cyp2d6, cyp3a4, oprm1, comt,
                     adherence);
  }

  /**
   * Patient i of the population drawn from g0, given that the generator is
   * where the first i patients leave it.
   */
  method NextPatient(rng: ThreadRng, i: nat, entropy: bv64, m: Transcendentals, k: SimConstants,
                     ghost g0: RngState) returns (p: PatientCharacteristics)
    requires rng.Valid() && rng.Model() == PopulationDraw(g0, i, entropy, m, k).next
    modifies rng
    ensures rng.Valid()
    ensures p == PatientAt(g0, i, entropy, m, k).value && rng.Model() == PatientAt(g0, i, entropy, m, k).next
  {
    p := GeneratePatient(rng, i, entropy, m, k);
    assert PatientAt(g0, i, entropy, m, k) == PatientFrom(g0, i, entropy, m, k);
  }

  /**
   * generate_population(n): a fresh zero-filled array whose slot i is patient
   * i. A negative n makes calloc fail, and the engine exits; that is the null
   * result here.
   */
  method GeneratePopulation(n: int, rng: ThreadRng, entropy: bv64, m: Transcendentals, k: SimConstants)
    returns (patients: array?<PatientCharacteristics>)
    requires rng.Valid()
    modifies rng
    ensures rng.Valid()
    ensures n < 0 <==> patients == null
    ensures patients != null ==> fresh(patients) && patients.Length == n
    ensures patients != null ==>
      forall i :: 0 <= i < patients.Length ==> patients[i].patientId == i && PatientInBounds(patients[i], k)
    ensures patients != null ==> patients[..] == PopulationDraw(old(rng.Model()), n, entropy, m, k).value
    ensures patients != null ==> rng.Model() == PopulationDraw(old(rng.Model()), n, entropy, m, k).next
    ensures patients == null ==> rng.Model() == old(rng.Model())
  {
    if n < 0 {
      return null;
    }
    ghost var g0 := rng.Model();
    patients := new PatientCharacteristics[n](_ => ZeroPatient);
    var i := 0;
    while i < n
      invariant 0 <= i <= n
      invariant rng.Valid()
      invariant patients[..i] == PopulationDraw(g0, i, entropy, m, k).value
      invariant rng.Model() == PopulationDraw(g0, i, entropy, m, k).next
    {
      ghost var whole := patients[..];
      var p := NextPatient(rng, i, entropy, m, k, g0);
      patients[i] := p;
      assert patients[..] == whole[i := p];
      TakeUpdate(whole, i, p);
      i := i + 1;
    }
    assert patients[..] == patients[..n];
    PopulationDrawFacts(g0, n, entropy, m, k);
  }
}
