/**
 * The straight-line pharmacology of the C engine (src/patient_sim_main.c):
 * the patient's clearance factor, the one-compartment concentration, and
 * the receptor response of the three-compound protocol.
 */
module SimPharmacology {
  import opened Numeric
  import opened SimTypes
  import opened SimRng

  /** 1% less clearance per year of age over 65. */
  function AgeClearanceFactor(age: int): (f: real)
    ensures age <= 65 ==> f == 1.0
    ensures age > 65 ==> f < 1.0
  {
    if age > 65 then 1.0 - 0.01 * (age - 65) as real else 1.0
  }

  /** The CYP2D6 switch: poor 0.3, rapid 1.5, ultra-rapid 2.0, any other code 1.0. */
  function GeneticClearanceFactor(phenotype: int, k: SimConstants): (f: real)
    requires k.Valid()
    ensures f > 0.0
    ensures phenotype == k.poorMetabolizer <==> f == 0.3
    ensures phenotype == k.rapidMetabolizer <==> f == 1.5
    ensures phenotype == k.ultraRapidMetabolizer <==> f == 2.0
    ensures f == 1.0 <==> phenotype !in {k.poorMetabolizer, k.rapidMetabolizer, k.ultraRapidMetabolizer}
  {
    if phenotype == k.poorMetabolizer then 0.3
    else if phenotype == k.rapidMetabolizer then 1.5
    else if phenotype == k.ultraRapidMetabolizer then 2.0
    else 1.0
  }

  /** The product of the age, renal, hepatic, genetic and allometric factors. */
  function UnclampedClearance(p: PatientCharacteristics, k: SimConstants, m: Transcendentals): real
    requires k.Valid()
  {
    AgeClearanceFactor(p.age) * (p.renalFunction / 90.0) * p.hepaticFunction
      * GeneticClearanceFactor(p.cyp2d6Phenotype, k) * m.pow(p.weight / 70.0, 0.75)
  }

  /** calculate_clearance_factor: the product clamped to [0.2, 3.0]. */
  function ClearanceFactor(p: PatientCharacteristics, k: SimConstants, m: Transcendentals): (cl: real)
    requires k.Valid()
    ensures 0.2 <= cl <= 3.0
    ensures 0.2 <= UnclampedClearance(p, k, m) <= 3.0 ==> cl == UnclampedClearance(p, k, m)
    ensures UnclampedClearance(p, k, m) < 0.2 ==> cl == 0.2
    ensures UnclampedClearance(p, k, m) > 3.0 ==> cl == 3.0
  {
    Clamp(UnclampedClearance(p, k, m), 0.2, 3.0)
  }

  /**
   * calculate_concentration: first-order absorption (ka = 2/h) when the
   * bioavailability is below 1, a decaying bolus otherwise, floored at 0.
   * When ka equals ke the single-precision division yields NaN or an
   * infinity times zero, which fmaxf turns into 0.
   */
  function Concentration(dose: real, tHalf: real, bioavail: real, cl: real, t: real, m: Transcendentals): (c: real)
    requires tHalf > 0.0 && cl > 0.0
    ensures c >= 0.0
    ensures bioavail < 1.0 && 0.693 / (tHalf / cl) == 2.0 ==> c == 0.0
  {
    var ke := 0.693 / (tHalf / cl);
    var ka := 2.0;
    var raw :=
      if bioavail < 1.0 then
        if ka == ke then 0.0
        else dose * bioavail * ka / (ka - ke) * (m.exp(-ke * t) - m.exp(-ka * t))
      else dose * m.exp(-ke * t);
    Max(raw, 0.0)
  }

  /** The bound fraction c / (ki + c). */
  function Binding(c: real, ki: real): (b: real)
    requires c >= 0.0 && ki > 0.0
    ensures 0.0 <= b < 1.0
    ensures b > 0.0 <==> c > 0.0
  {
    c / (ki + c)
  }

  /**
   * The co-administration discount on SR-14968's effect: 1 - 0.3 times
   * SR-17018's share of the weighted concentration.
   */
  function CompetitionDiscount(c17: real, c14: real): (f: real)
    requires c17 > 0.0 && c14 >= 0.0
    ensures 0.7 <= f < 1.0
  {
    var competition := c17 / (c17 + c14 * 10.0);
    ShareWithin(c17, c17 + c14 * 10.0);
    1.0 - 0.3 * competition
  }

  lemma ShareWithin(a: real, total: real)
    requires 0.0 < a <= total
    ensures 0.0 < a / total <= 1.0
  {
  }

  /** SR-14968's effect after the discount, applied when both SR compounds bind. */
  function Sr14968Effect(k: SimConstants, c17: real, c14: real): (e: real)
    requires k.Valid() && c17 >= 0.0 && c14 >= 0.0
    ensures c17 > 0.0 && c14 > 0.0 ==>
      e == Binding(c14, k.sr14968.kiAllosteric1) * k.sr14968.intrinsicActivity * k.sr14968.gProteinBias
        * CompetitionDiscount(c17, c14)
    ensures c17 == 0.0 || c14 == 0.0 ==>
      e == Binding(c14, k.sr14968.kiAllosteric1) * k.sr14968.intrinsicActivity * k.sr14968.gProteinBias
  {
    var b17 := Binding(c17, k.sr17018.kiAllosteric1);
    var b14 := Binding(c14, k.sr14968.kiAllosteric1);
    var e14 := b14 * k.sr14968.intrinsicActivity * k.sr14968.gProteinBias;
    if b17 > 0.0 && b14 > 0.0 then e14 * CompetitionDiscount(c17, c14) else e14
  }

  /** The summed activation of the three compounds before tolerance. */
  function Activation(k: SimConstants, c17: real, c14: real, cd: real): real
    requires k.Valid() && c17 >= 0.0 && c14 >= 0.0 && cd >= 0.0
  {
    Binding(c17, k.sr17018.kiAllosteric1) * k.sr17018.intrinsicActivity * k.sr17018.gProteinBias
      + Sr14968Effect(k, c17, c14)
      + Binding(cd, k.dpp26.kiOrthosteric) * k.dpp26.intrinsicActivity
  }

  /** Tolerance growth per unit of DPP-26 binding, less SR-17018's reversal above 30% binding. */
  function ToleranceRate(k: SimConstants, c17: real, cd: real): real
    requires k.Valid() && c17 >= 0.0 && cd >= 0.0
  {
    var b17 := Binding(c17, k.sr17018.kiAllosteric1);
    var rate := k.dpp26.toleranceRate * Binding(cd, k.dpp26.kiOrthosteric);
    if b17 > 0.3 then rate - b17 * 0.02 else rate
  }

  /** Compound records whose activities and biases are non-negative. */
  predicate NonNegativeEffects(k: SimConstants)
  {
    k.sr17018.intrinsicActivity >= 0.0 && k.sr17018.gProteinBias >= 0.0 &&
    k.sr14968.intrinsicActivity >= 0.0 && k.sr14968.gProteinBias >= 0.0 &&
    k.dpp26.intrinsicActivity >= 0.0 &&
    k.dpp26.betaArrestinBias >= 0.0 && k.sr14968.betaArrestinBias >= 0.0
  }

  /** calculate_receptor_dynamics */
  function ReceptorDynamics(k: SimConstants, c17: real, c14: real, cd: real, tolPrev: real): (r: ReceptorState)
    requires k.Valid() && c17 >= 0.0 && c14 >= 0.0 && cd >= 0.0 && tolPrev >= 0.0
    ensures r.toleranceLevel >= 0.0
    ensures r.toleranceLevel == Max(0.0, tolPrev + ToleranceRate(k, c17, cd) * 0.01)
    ensures Binding(c17, k.sr17018.kiAllosteric1) <= 0.3 && k.dpp26.toleranceRate >= 0.0 ==>
      r.toleranceLevel >= tolPrev
    ensures r.muReceptorActivity * (1.0 + tolPrev) == Activation(k, c17, c14, cd)
    ensures NonNegativeEffects(k) ==> r.muReceptorActivity >= 0.0 && r.betaArrestinSignal >= 0.0
  {
    var activity := Activation(k, c17, c14, cd) / (1.0 + tolPrev);
    var beta := Binding(cd, k.dpp26.kiOrthosteric) * k.dpp26.betaArrestinBias
      + Binding(c14, k.sr14968.kiAllosteric1) * k.sr14968.betaArrestinBias * 0.1;
    var tol := Max(0.0, tolPrev + ToleranceRate(k, c17, cd) * 0.01);
    NonNegativeActivation(k, c17, c14, cd);
    ReceptorState(activity, tol, beta)
  }

  /**
   * The beta-arrestin signal is DPP-26's bound fraction times its bias plus
   * a tenth of SR-14968's, so it is zero when both are absent.
   */
  lemma BetaArrestinSignal(k: SimConstants, c17: real, c14: real, cd: real, tolPrev: real)
    requires k.Valid() && c17 >= 0.0 && c14 >= 0.0 && cd >= 0.0 && tolPrev >= 0.0
    ensures ReceptorDynamics(k, c17, c14, cd, tolPrev).betaArrestinSignal ==
            Binding(cd, k.dpp26.kiOrthosteric) * k.dpp26.betaArrestinBias
              + Binding(c14, k.sr14968.kiAllosteric1) * k.sr14968.betaArrestinBias * 0.1
    ensures c14 == 0.0 && cd == 0.0 ==> ReceptorDynamics(k, c17, c14, cd, tolPrev).betaArrestinSignal == 0.0
  {
    var bd := Binding(cd, k.dpp26.kiOrthosteric);
    var b14 := Binding(c14, k.sr14968.kiAllosteric1);
    assert ReceptorDynamics(k, c17, c14, cd, tolPrev).betaArrestinSignal ==
           bd * k.dpp26.betaArrestinBias + b14 * k.sr14968.betaArrestinBias * 0.1;
    if c14 == 0.0 && cd == 0.0 {
      assert bd == 0.0 && b14 == 0.0;
    }
  }

  /** The beta-arrestin signal depends on neither SR-17018 nor the previous tolerance. */
  lemma BetaArrestinIndependent(k: SimConstants, c17: real, c14: real, cd: real, tolPrev: real,
                                c17': real, tolPrev': real)
    requires k.Valid() && c17 >= 0.0 && c14 >= 0.0 && cd >= 0.0 && tolPrev >= 0.0
    requires c17' >= 0.0 && tolPrev' >= 0.0
    ensures ReceptorDynamics(k, c17, c14, cd, tolPrev).betaArrestinSignal ==
            ReceptorDynamics(k, c17', c14, cd, tolPrev').betaArrestinSignal
  {
    BetaArrestinSignal(k, c17, c14, cd, tolPrev);
    BetaArrestinSignal(k, c17', c14, cd, tolPrev');
  }

  lemma NonNegativeActivation(k: SimConstants, c17: real, c14: real, cd: real)
    requires k.Valid() && c17 >= 0.0 && c14 >= 0.0 && cd >= 0.0
    ensures NonNegativeEffects(k) ==> Activation(k, c17, c14, cd) >= 0.0
  {
    if NonNegativeEffects(k) {
      var b17 := Binding(c17, k.sr17018.kiAllosteric1);
      var b14 := Binding(c14, k.sr14968.kiAllosteric1);
      var bd := Binding(cd, k.dpp26.kiOrthosteric);
      ProductNonNegative(b17, k.sr17018.intrinsicActivity, k.sr17018.gProteinBias);
      ProductNonNegative(b14, k.sr14968.intrinsicActivity, k.sr14968.gProteinBias);
      ProductNonNegative(bd, k.dpp26.intrinsicActivity, 1.0);
    }
  }

  lemma ProductNonNegative(a: real, b: real, c: real)
    requires a >= 0.0 && b >= 0.0 && c >= 0.0
    ensures a * b * c >= 0.0 && a * b >= 0.0
  {
  }

  /** The doses after the 25% DPP-26 reduction for age over 70 or eGFR below 30. */
  function AdjustedDoses(p: PatientCharacteristics, protocol: Protocol): (d: Protocol)
    ensures d.sr17018Dose == protocol.sr17018Dose && d.sr14968Dose == protocol.sr14968Dose
    ensures p.age > 70 || p.renalFunction < 30.0 ==> d.dpp26Dose == 0.75 * protocol.dpp26Dose
    ensures p.age <= 70 && p.renalFunction >= 30.0 ==> d.dpp26Dose == protocol.dpp26Dose
  {
    if p.age > 70 || p.renalFunction < 30.0 then protocol.(dpp26Dose := protocol.dpp26Dose * 0.75)
    else protocol
  }

  /** Genetic modulation of activity into analgesia; the result is not clamped. */
  function Analgesia(activity: real, p: PatientCharacteristics): real
  {
    var a := if p.oprm1Variant then activity * 0.8 else activity;
    if p.comtVariant then a * 1.1 else a
  }

  /** The timestep's pain score: baseline reduced by 70% of the analgesia, clamped to [0, 10]. */
  function PainScore(baseline: real, analgesia: real): (pain: real)
    ensures 0.0 <= pain <= 10.0
    ensures 0.0 <= baseline * (1.0 - analgesia * 0.7) <= 10.0 ==> pain == baseline * (1.0 - analgesia * 0.7)
  {
    Clamp(baseline * (1.0 - analgesia * 0.7), 0.0, 10.0)
  }

  /** fmodf(x, y) for x >= 0 and y > 0. */
  function FMod(x: real, y: real): (r: real)
    requires x >= 0.0 && y > 0.0
    ensures 0.0 <= r < y
  {
    var q := x / y;
    assert q * y == x;
    Remainder(x, y, q, q.Floor as real);
    x - q.Floor as real * y
  }

  lemma Remainder(x: real, y: real, q: real, fl: real)
    requires y > 0.0 && q * y == x && fl <= q < fl + 1.0
    ensures 0.0 <= x - fl * y < y
  {
    var f := q - fl;
    assert f * y < y by {
      assert y - f * y == (1.0 - f) * y;
      assert (1.0 - f) * y > 0.0;
    }
    assert x - fl * y == f * y by {
      assert f * y == q * y - fl * y;
    }
  }

  /** The hour of timestep ts on day d. */
  function Hour(k: SimConstants, day: nat, ts: nat): real
    requires k.timestepsPerDay >= 1
  {
    day as real * 24.0 + ts as real * k.Dt()
  }

  /** The once-a-day SR-14968 clock resets exactly at the first timestep of each day. */
  lemma DailyResetAtMidnight(k: SimConstants, day: nat, ts: nat)
    requires k.timestepsPerDay >= 1 && ts < k.timestepsPerDay
    ensures Hour(k, day, ts) >= 0.0
    ensures FMod(Hour(k, day, ts), 24.0) < k.Dt() <==> ts == 0
  {
    var n := k.timestepsPerDay as real;
    var f := ts as real * k.Dt();
    assert f == 24.0 * (ts as real / n);
    assert 0.0 <= ts as real / n < 1.0;
    var h := Hour(k, day, ts);
    assert h / 24.0 == day as real + ts as real / n;
    assert (h / 24.0).Floor == day;
    assert FMod(h, 24.0) == f;
    assert k.Dt() > 0.0;
    if ts >= 1 {
      ScaleAtLeast(ts as real, k.Dt());
      assert f >= k.Dt();
      assert FMod(h, 24.0) >= k.Dt();
    } else {
      assert FMod(h, 24.0) == 0.0;
    }
  }

  lemma ScaleAtLeast(a: real, b: real)
    requires a >= 1.0 && b >= 0.0
    ensures a * b >= b
  {
    assert a * b - b == (a - 1.0) * b;
  }
}
