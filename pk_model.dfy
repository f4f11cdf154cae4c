/**
 * PharmacokineticModel of src/opioid_analysis_tools.py (its static PK/PD
 * helpers) and CompoundAnalyzer._calculate_therapeutic_window.
 *
 * np.exp is a parameter. Python float division by zero raises
 * ZeroDivisionError; those cases are the Err results.
 */
module PkModel {
  import opened Wrappers
  import opened Numeric
  import opened CompoundProfiles

  /** The initial concentration (dose * F * 1000) / Vd. */
  function InitialConcentration(dose: real, f: real, vd: real): real
    requires vd != 0.0
  {
    (dose * f * 1000.0) / vd
  }

  /** calculate_concentration(dose, time, t_half, bioavailability, volume_dist=50.0). */
  function Concentration(exp: real -> real, dose: real, time: real, tHalf: real, f: real,
                         vd: real := 50.0): (r: Result<real, string>)
    ensures r.Err? <==> tHalf == 0.0 || vd == 0.0
  {
    if tHalf == 0.0 || vd == 0.0 then Err("ZeroDivisionError")
    else
      var ke := 0.693 / tHalf;
      Ok(InitialConcentration(dose, f, vd) * exp(-ke * time))
  }

  /** One half-life later the concentration has halved, for an exponential with exp(-0.693) = 0.5. */
  lemma ConcentrationHalves(exp: real -> real, dose: real, time: real, tHalf: real, f: real, vd: real)
    requires tHalf != 0.0 && vd != 0.0
    requires forall a, b :: exp(a + b) == exp(a) * exp(b)
    requires exp(-0.693) == 0.5
    ensures Concentration(exp, dose, time + tHalf, tHalf, f, vd).value
         == Concentration(exp, dose, time, tHalf, f, vd).value * 0.5
  {
    var ke := 0.693 / tHalf;
    assert ke * tHalf == 0.693;
    assert -ke * (time + tHalf) == -ke * time + -0.693;
    assert exp(-ke * (time + tHalf)) == exp(-ke * time) * exp(-0.693);
  }

  /** With a positive exponential and non-negative dose data the concentration is non-negative; at t = 0 it is C0. */
  lemma ConcentrationFacts(exp: real -> real, dose: real, time: real, tHalf: real, f: real, vd: real)
    requires tHalf != 0.0 && vd > 0.0 && dose >= 0.0 && f >= 0.0
    requires forall x :: exp(x) > 0.0
    ensures Concentration(exp, dose, time, tHalf, f, vd).Ok?
    ensures Concentration(exp, dose, time, tHalf, f, vd).value >= 0.0
    ensures exp(0.0) == 1.0 ==>
      Concentration(exp, dose, 0.0, tHalf, f, vd).value == InitialConcentration(dose, f, vd)
  {
    assert dose * f >= 0.0;
    assert dose * f * 1000.0 >= 0.0;
    var c0 := InitialConcentration(dose, f, vd);
    assert c0 >= 0.0;
    var e := exp(-(0.693 / tHalf) * time);
    assert c0 * e >= 0.0;
    assert -(0.693 / tHalf) * 0.0 == 0.0;
  }

  /**
   * calculate_receptor_occupancy(concentration, ki, intrinsic_activity):
   * zero for a site the compound does not bind, else the bound fraction
   * times the intrinsic activity.
   */
  function ReceptorOccupancy(c: real, ki: Ki, ia: real): (r: Result<real, string>)
    ensures ki.NoBinding? ==> r == Ok(0.0)
    ensures ki.Finite? ==> (r.Err? <==> c + ki.nm == 0.0)
    ensures ki.Finite? && c >= 0.0 && ki.nm > 0.0 && ia >= 0.0 ==> r.Ok? && 0.0 <= r.value <= ia
    ensures ki.Finite? && c >= 0.0 && ki.nm > 0.0 && ia < 0.0 ==> r.Ok? && ia <= r.value <= 0.0
  {
    match ki
    case NoBinding => Ok(0.0)
    case Finite(x) =>
      if c + x == 0.0 then Err("ZeroDivisionError")
      else
        var occupancy := c / (c + x);
        if c >= 0.0 && x > 0.0 then
          FractionWithin(c, x);
          ScaledWithin(occupancy, ia);
          Ok(occupancy * ia)
        else Ok(occupancy * ia)
  }

  lemma FractionWithin(c: real, x: real)
    requires c >= 0.0 && x > 0.0
    ensures 0.0 <= c / (c + x) < 1.0
  {
  }

  lemma ScaledWithin(q: real, ia: real)
    requires 0.0 <= q <= 1.0
    ensures ia >= 0.0 ==> 0.0 <= q * ia <= ia
    ensures ia < 0.0 ==> ia <= q * ia <= 0.0
  {
    if ia >= 0.0 {
      assert ia - q * ia == (1.0 - q) * ia;
    } else {
      assert q * ia - ia == (1.0 - q) * (-ia);
    }
  }

  /** calculate_analgesia(g_activation, tolerance=0.0). */
  function Analgesia(g: real, tolerance: real := 0.0): real
  {
    g * (1.0 - tolerance)
  }

  /** Tolerance in [0, 1] scales a non-negative activation down; none leaves it whole. */
  lemma AnalgesiaWithin(g: real, tolerance: real)
    requires g >= 0.0 && 0.0 <= tolerance <= 1.0
    ensures 0.0 <= Analgesia(g, tolerance) <= g
    ensures Analgesia(g) == g
  {
    assert g - Analgesia(g, tolerance) == g * tolerance;
  }

  /** More tolerance never gives more analgesia. */
  lemma AnalgesiaMonotone(g: real, t1: real, t2: real)
    requires g >= 0.0 && t1 <= t2
    ensures Analgesia(g, t2) <= Analgesia(g, t1)
  {
    assert Analgesia(g, t1) - Analgesia(g, t2) == g * (t2 - t1);
  }

  datatype SideEffects = SideEffects(respiratoryDepression: real, constipation: real, nausea: real, sedation: real)

  /** calculate_side_effects(beta_activation). */
  function CalculateSideEffects(beta: real): (s: SideEffects)
    ensures beta >= 0.0 ==>
      0.0 <= s.respiratoryDepression <= s.nausea <= s.sedation <= s.constipation <= beta
  {
    SideEffects(beta * 0.3, beta * 0.6, beta * 0.4, beta * 0.5)
  }

  datatype Neurotransmitters = Neurotransmitters(
    endorphins: real, dopamine: real, serotonin: real, norepinephrine: real, substanceP: real)

  /** calculate_neurotransmitter_release(g_activation, beta_activation). */
  function NeurotransmitterRelease(g: real, beta: real): (n: Neurotransmitters)
    ensures 0.0 <= n.endorphins <= 120.0 && 0.0 <= n.dopamine <= 75.0
    ensures 0.0 <= n.serotonin <= 60.0 && 0.0 <= n.norepinephrine <= 40.0
    ensures 0.0 <= n.substanceP <= 20.0
    ensures n.endorphins + n.substanceP * 6.0 == 120.0
  {
    var gAct := Max(0.0, Min(1.0, g));
    var betaAct := Max(0.0, Min(1.0, beta));
    Neurotransmitters(
      gAct * 120.0,
      gAct * 60.0 + betaAct * 15.0,
      gAct * 25.0 + betaAct * 35.0,
      betaAct * 40.0,
      Max(0.0, 20.0 * (1.0 - gAct)))
  }

  /** Inputs already in [0, 1] are used as given. */
  lemma NeurotransmittersUnclamped(g: real, beta: real)
    requires 0.0 <= g <= 1.0 && 0.0 <= beta <= 1.0
    ensures NeurotransmitterRelease(g, beta).endorphins == g * 120.0
    ensures NeurotransmitterRelease(g, beta).norepinephrine == beta * 40.0
  {
  }

  // ---------------------------------------------------------------------------
  // Therapeutic window

  /** |s[i] - target| for every i, as np.abs(s - target). */
  function Distances(s: seq<real>, target: real): (d: seq<real>)
    ensures |d| == |s|
    ensures forall i :: 0 <= i < |s| ==> d[i] == (if s[i] >= target then s[i] - target else target - s[i])
  {
    seq(|s|, i requires 0 <= i < |s| => if s[i] >= target then s[i] - target else target - s[i])
  }

  /** np.argmin: the first index of a least element. */
  function ArgMin(s: seq<real>): (r: nat)
    requires |s| > 0
    ensures r < |s|
    ensures forall j :: 0 <= j < |s| ==> s[r] <= s[j]
    ensures forall j :: 0 <= j < r ==> s[j] > s[r]
  {
    if |s| == 1 then 0
    else
      var best := ArgMin(s[..|s| - 1]);
      assert forall j :: 0 <= j < |s| - 1 ==> s[..|s| - 1][j] == s[j];
      if s[|s| - 1] < s[best] then |s| - 1 else best
  }

  /**
   * _calculate_therapeutic_window(analgesia, side_effects): infinity when
   * the ED50 index is past the side-effect array or is 0, else the ratio of
   * the TD50 index to the ED50 index. np.argmin of an empty array raises.
   */
  function TherapeuticWindow(analgesia: seq<real>, sideEffects: seq<real>): (r: Result<Extended, string>)
    ensures r.Err? <==> |analgesia| == 0
    ensures r.Ok? && r.value.Value? ==> |sideEffects| > 0 && r.value.v >= 0.0
  {
    if |analgesia| == 0 then Err("attempt to get argmin of an empty sequence")
    else
      var ed50 := ArgMin(Distances(analgesia, 0.5));
      if ed50 >= |sideEffects| then Ok(Infinity)
      else
        var td50 := ArgMin(Distances(sideEffects, 0.5));
        if ed50 == 0 then Ok(Infinity)
        else Ok(Value(td50 as real / MaxInt(ed50, 1) as real))
  }

  /** A finite window is the TD50 index over the ED50 index, both first minimisers of the distance to 0.5. */
  lemma TherapeuticWindowIndices(analgesia: seq<real>, sideEffects: seq<real>)
    requires |analgesia| > 0
    requires TherapeuticWindow(analgesia, sideEffects).Ok?
    requires TherapeuticWindow(analgesia, sideEffects).value.Value?
    ensures var da := Distances(analgesia, 0.5);
            var ds := Distances(sideEffects, 0.5);
            var e := ArgMin(da);
            |ds| > 0 && 0 < e < |ds| &&
            (forall j :: 0 <= j < |da| ==> da[e] <= da[j]) &&
            TherapeuticWindow(analgesia, sideEffects).value.v == ArgMin(ds) as real / e as real
  {
    var da := Distances(analgesia, 0.5);
    var e := ArgMin(da);
    assert 0 < e < |sideEffects|;
    var ds := Distances(sideEffects, 0.5);
    var t := ArgMin(ds);
    assert MaxInt(e, 1) == e;
    assert TherapeuticWindow(analgesia, sideEffects).value.v == t as real / e as real;
  }
}
