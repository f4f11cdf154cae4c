/**
 * The state-keeping pieces of src/zeropain_control_panel.cpp: the
 * intensity of the mercury-arc indicator, the metrics a CompoundData
 * record derives for itself, and the bounded histories of the live
 * simulation monitor.
 *
 * Floats are reals. The clock's elapsed time and sin are parameters.
 */
module ControlPanel {
  import opened Numeric

  // ---------------------------------------------------------------------------
  // MercuryArcRectifier

  /** M_PI, as a double. */
  const Pi: real := 3.141592653589793

  /** One smoothing step: nine tenths of the old intensity plus a tenth of the target. */
  function Smoothed(intensity: real, target: real): (r: real)
    ensures 0.0 <= intensity <= 1.0 && 0.0 <= target <= 1.0 ==> 0.0 <= r <= 1.0
    ensures r - target == 0.9 * (intensity - target)
    ensures intensity <= target ==> intensity <= r <= target
    ensures target <= intensity ==> target <= r <= intensity
  {
    intensity * 0.9 + target * 0.1
  }

  /** k smoothing steps towards a fixed target leave 0.9^k of the distance. */
  function SmoothedTimes(intensity: real, target: real, k: nat): real
  {
    if k == 0 then intensity else Smoothed(SmoothedTimes(intensity, target, k - 1), target)
  }

  function PowNine(k: nat): (p: real)
    ensures 0.0 < p <= 1.0
  {
    if k == 0 then 1.0 else 0.9 * PowNine(k - 1)
  }

  lemma {:induction false} SmoothedTimesDistance(intensity: real, target: real, k: nat)
    ensures SmoothedTimes(intensity, target, k) - target == PowNine(k) * (intensity - target)
    decreases k
  {
    if k > 0 {
      SmoothedTimesDistance(intensity, target, k - 1);
      assert SmoothedTimes(intensity, target, k) - target
          == 0.9 * (SmoothedTimes(intensity, target, k - 1) - target);
    }
  }

  class MercuryArcRectifier {
    var intensity: real
    var targetIntensity: real
    var glowPhase: real
    var arcFlicker: real

    /** Both intensities in [0, 1]. */
    predicate Valid()
      reads this
    {
      0.0 <= intensity <= 1.0 && 0.0 <= targetIntensity <= 1.0
    }

    constructor()
      ensures Valid()
      ensures intensity == 0.0 && targetIntensity == 0.0 && glowPhase == 0.0 && arcFlicker == 0.0
    {
      intensity := 0.0;
      targetIntensity := 0.0;
      glowPhase := 0.0;
      arcFlicker := 0.0;
    }

    /** SetIntensity: the target is the argument clamped to [0, 1]. */
    method SetIntensity(x: real)
      modifies this
      ensures targetIntensity == Clamp(x, 0.0, 1.0)
      ensures intensity == old(intensity) && glowPhase == old(glowPhase) && arcFlicker == old(arcFlicker)
      ensures old(0.0 <= intensity <= 1.0) ==> Valid()
    {
      targetIntensity := Clamp(x, 0.0, 1.0);
    }

    /**
     * Update(), with dt the seconds since the previous update: the smoothing
     * step, the glow phase advanced by 2 dt and wrapped once past 2 pi, and
     * the flicker of a lit arc.
     */
    method Update(dt: real, sin: real -> real)
      modifies this
      ensures intensity == Smoothed(old(intensity), old(targetIntensity))
      ensures targetIntensity == old(targetIntensity)
      ensures glowPhase == (if old(glowPhase) + dt * 2.0 > 2.0 * Pi
                            then old(glowPhase) + dt * 2.0 - 2.0 * Pi else old(glowPhase) + dt * 2.0)
      ensures arcFlicker == (if intensity > 0.1
                             then 0.95 + 0.05 * sin(glowPhase * 10.0) + 0.02 * sin(glowPhase * 37.0) else 0.0)
      ensures old(Valid()) ==> Valid()
    {
      intensity := intensity * 0.9 + targetIntensity * 0.1;
      glowPhase := glowPhase + dt * 2.0;
      if glowPhase > 2.0 * Pi {
        glowPhase := glowPhase - 2.0 * Pi;
      }
      if intensity > 0.1 {
        arcFlicker := 0.95 + 0.05 * sin(glowPhase * 10.0) + 0.02 * sin(glowPhase * 37.0);
      } else {
        arcFlicker := 0.0;
      }
    }
  }

  // ---------------------------------------------------------------------------
  // CompoundData

  datatype SafetyColor = SuccessGreen | WarningAmber | DangerRed

  /** The seven adjustments to the base score of 100. */
  function SafetyAdjustment(intrinsicActivity: real, gProteinBias: real, betaArrestinBias: real,
                            toleranceRate: real, reversesTolerance: bool, bioavailability: real,
                            tHalf: real): real
  {
    (if intrinsicActivity > 0.7 && gProteinBias < 5.0 then -20.0 else 0.0)
    + (if betaArrestinBias > 0.5 then -30.0 else 0.0)
    + (if gProteinBias > 10.0 then 10.0 else 0.0)
    + (if toleranceRate < 0.2 then 10.0 else 0.0)
    + (if reversesTolerance then 20.0 else 0.0)
    + (if bioavailability < 0.3 then -10.0 else 0.0)
    + (if tHalf < 2.0 then -10.0 else 0.0)
  }

  /** The adjustments together lie in [-70, 40], so a score below 30 or above 140 cannot arise before clamping. */
  lemma SafetyAdjustmentRange(ia: real, g: real, beta: real, tol: real, rev: bool, f: real, tHalf: real)
    ensures -70.0 <= SafetyAdjustment(ia, g, beta, tol, rev, f, tHalf) <= 40.0
    ensures g > 10.0 && tol < 0.2 && rev && beta <= 0.5 && f >= 0.3 && tHalf >= 2.0 ==>
      SafetyAdjustment(ia, g, beta, tol, rev, f, tHalf) == 40.0
  {
  }

  /** The colour of a score: green above 80, amber above 60, red otherwise. */
  function ColorOf(score: real): (c: SafetyColor)
    ensures c == SuccessGreen <==> score > 80.0
    ensures c == WarningAmber <==> 60.0 < score <= 80.0
    ensures c == DangerRed <==> score <= 60.0
  {
    if score > 80.0 then SuccessGreen
    else if score > 60.0 then WarningAmber
    else DangerRed
  }

  class CompoundData {
    var name: string
    var kiOrthosteric: real
    var kiAllosteric1: real
    var kiAllosteric2: real
    var gProteinBias: real
    var betaArrestinBias: real
    var tHalf: real
    var bioavailability: real
    var intrinsicActivity: real
    var toleranceRate: real
    var preventsWithdrawal: bool
    var reversesTolerance: bool
    var safetyScore: real
    var biasRatio: real
    var safetyColor: SafetyColor

    constructor(name: string, kiOrthosteric: real, kiAllosteric1: real, kiAllosteric2: real,
                gProteinBias: real, betaArrestinBias: real, tHalf: real, bioavailability: real,
                intrinsicActivity: real, toleranceRate: real, preventsWithdrawal: bool, reversesTolerance: bool)
      ensures this.name == name && this.kiOrthosteric == kiOrthosteric
      ensures this.kiAllosteric1 == kiAllosteric1 && this.kiAllosteric2 == kiAllosteric2
      ensures this.gProteinBias == gProteinBias && this.betaArrestinBias == betaArrestinBias
      ensures this.tHalf == tHalf && this.bioavailability == bioavailability
      ensures this.intrinsicActivity == intrinsicActivity && this.toleranceRate == toleranceRate
      ensures this.preventsWithdrawal == preventsWithdrawal && this.reversesTolerance == reversesTolerance
    {
      this.name := name;
      this.kiOrthosteric := kiOrthosteric;
      this.kiAllosteric1 := kiAllosteric1;
      this.kiAllosteric2 := kiAllosteric2;
      this.gProteinBias := gProteinBias;
      this.betaArrestinBias := betaArrestinBias;
      this.tHalf := tHalf;
      this.bioavailability := bioavailability;
      this.intrinsicActivity := intrinsicActivity;
      this.toleranceRate := toleranceRate;
      this.preventsWithdrawal := preventsWithdrawal;
      this.reversesTolerance := reversesTolerance;
    }

    /** The score the record's own fields give: 100 adjusted, clamped to [0, 100]. */
    function Score(): real
      reads this
    {
      Clamp(100.0 + SafetyAdjustment(intrinsicActivity, gProteinBias, betaArrestinBias, toleranceRate,
                                     reversesTolerance, bioavailability, tHalf), 0.0, 100.0)
    }

    /**
     * CalculateMetrics(): the bias ratio g / (beta + 0.001), the score built
     * up one adjustment at a time and clamped, and its colour. Only the three
     * derived fields change.
     */
    method CalculateMetrics()
      requires betaArrestinBias + 0.001 != 0.0
      modifies this
      ensures name == old(name) && gProteinBias == old(gProteinBias) && betaArrestinBias == old(betaArrestinBias)
      ensures biasRatio == gProteinBias / (betaArrestinBias + 0.001)
      ensures safetyScore == Score() && 0.0 <= safetyScore <= 100.0
      ensures safetyColor == ColorOf(safetyScore)
      ensures kiOrthosteric == old(kiOrthosteric) && kiAllosteric1 == old(kiAllosteric1) && kiAllosteric2 == old(kiAllosteric2)
      ensures tHalf == old(tHalf) && bioavailability == old(bioavailability)
      ensures intrinsicActivity == old(intrinsicActivity) && toleranceRate == old(toleranceRate)
      ensures preventsWithdrawal == old(preventsWithdrawal) && reversesTolerance == old(reversesTolerance)
    {
      var ia, g, beta, tol, rev, f, th :=
        intrinsicActivity, gProteinBias, betaArrestinBias, toleranceRate, reversesTolerance, bioavailability, tHalf;
      biasRatio := g / (beta + 0.001);
      var score := 100.0;
      if ia > 0.7 && g < 5.0 { score := score - 20.0; }
      if beta > 0.5 { score := score - 30.0; }
      if g > 10.0 { score := score + 10.0; }
      if tol < 0.2 { score := score + 10.0; }
      if rev { score := score + 20.0; }
      if f < 0.3 { score := score - 10.0; }
      if th < 2.0 { score := score - 10.0; }
      assert score == 100.0 + SafetyAdjustment(ia, g, beta, tol, rev, f, th);
      var clamped := Clamp(score, 0.0, 100.0);
      safetyScore := clamped;
      safetyColor := ColorOf(clamped);
    }
  }

  /** LoadPresets' three records: SR-17018 and SR-14968 score 100 (green), buprenorphine 70 (amber). */
  lemma PresetScores()
    ensures Clamp(100.0 + SafetyAdjustment(0.38, 8.2, 0.01, 0.0, true, 0.7, 7.0), 0.0, 100.0) == 100.0
    ensures Clamp(100.0 + SafetyAdjustment(1.0, 10.0, 0.1, 0.8, false, 0.6, 12.0), 0.0, 100.0) == 100.0
    ensures Clamp(100.0 + SafetyAdjustment(0.3, 1.5, 0.8, 0.1, false, 0.15, 37.0), 0.0, 100.0) == 70.0
    ensures ColorOf(70.0) == WarningAmber && ColorOf(100.0) == SuccessGreen
  {
  }

  // ---------------------------------------------------------------------------
  // SimulationMonitor::LiveMetrics

  /** max_history. */
  const MaxHistory: nat := 100

  /** push_back, then pop_front once the deque is longer than max_history. */
  function Pushed(h: seq<real>, x: real): seq<real>
  {
    if |h + [x]| > MaxHistory then (h + [x])[1..] else h + [x]
  }

  /**
   * The new point is last; the earlier points are kept in order, less the
   * oldest when the history was full; the length never passes max_history.
   */
  lemma PushedFacts(h: seq<real>, x: real)
    ensures |h| <= MaxHistory ==> |Pushed(h, x)| <= MaxHistory
    ensures |Pushed(h, x)| > 0 && Pushed(h, x)[|Pushed(h, x)| - 1] == x
    ensures |h| < MaxHistory ==> Pushed(h, x) == h + [x]
    ensures |h| == MaxHistory ==> Pushed(h, x) == h[1..] + [x]
    ensures Pushed(h, x)[..|Pushed(h, x)| - 1] == (if |h| + 1 > MaxHistory then h[1..] else h)
  {
    var r := Pushed(h, x);
    if |h| + 1 > MaxHistory {
      assert r == h[1..] + [x];
    }
    assert r[..|r| - 1] == (if |h| + 1 > MaxHistory then h[1..] else h);
  }

  lemma PushedLength(h: seq<real>, x: real)
    ensures |h| <= MaxHistory ==> |Pushed(h, x)| <= MaxHistory
  {
  }

  /** One deque's push_back and pop_front. */
  method Push(h: seq<real>, x: real) returns (r: seq<real>)
    ensures r == Pushed(h, x)
  {
    r := h + [x];
    if |r| > MaxHistory {
      r := r[1..];
    }
  }

  class LiveMetrics {
    var analgesiaHistory: seq<real>
    var toleranceHistory: seq<real>
    var addictionHistory: seq<real>
    var successRateHistory: seq<real>
    var currentAnalgesia: real
    var currentTolerance: real
    var currentAddiction: real
    var currentSuccess: real
    var patientsProcessed: int
    var totalPatients: int

    /** No history holds more than max_history points. */
    predicate Valid()
      reads this
    {
      |analgesiaHistory| <= MaxHistory && |toleranceHistory| <= MaxHistory &&
      |addictionHistory| <= MaxHistory && |successRateHistory| <= MaxHistory
    }

    constructor()
      ensures Valid()
      ensures analgesiaHistory == [] && toleranceHistory == [] && addictionHistory == [] && successRateHistory == []
      ensures currentAnalgesia == 0.0 && currentTolerance == 0.0 && currentAddiction == 0.0 && currentSuccess == 0.0
      ensures patientsProcessed == 0 && totalPatients == 100000
    {
      analgesiaHistory := [];
      toleranceHistory := [];
      addictionHistory := [];
      successRateHistory := [];
      currentAnalgesia := 0.0;
      currentTolerance := 0.0;
      currentAddiction := 0.0;
      currentSuccess := 0.0;
      patientsProcessed := 0;
      totalPatients := 100000;
    }

    /** AddDataPoint: each value is pushed onto its history and becomes the current one; the counters are untouched. */
    method AddDataPoint(analgesia: real, tolerance: real, addiction: real, success: real)
      modifies this
      ensures analgesiaHistory == Pushed(old(analgesiaHistory), analgesia)
      ensures toleranceHistory == Pushed(old(toleranceHistory), tolerance)
      ensures addictionHistory == Pushed(old(addictionHistory), addiction)
      ensures successRateHistory == Pushed(old(successRateHistory), success)
      ensures currentAnalgesia == analgesia && currentTolerance == tolerance
      ensures currentAddiction == addiction && currentSuccess == success
      ensures patientsProcessed == old(patientsProcessed) && totalPatients == old(totalPatients)
      ensures old(Valid()) ==> Valid()
    {
      PushedLength(analgesiaHistory, analgesia);
      PushedLength(toleranceHistory, tolerance);
      PushedLength(addictionHistory, addiction);
      PushedLength(successRateHistory, success);
      var a := Push(analgesiaHistory, analgesia);
      var t := Push(toleranceHistory, tolerance);
      var d := Push(addictionHistory, addiction);
      var s := Push(successRateHistory, success);
      analgesiaHistory, toleranceHistory, addictionHistory, successRateHistory := a, t, d, s;
      currentAnalgesia := analgesia;
      currentTolerance := tolerance;
      currentAddiction := addiction;
      currentSuccess := success;
    }
  }

  /** Pushing k points onto an empty history keeps the last min(k, 100) of them, in order. */
  function PushedAll(h: seq<real>, xs: seq<real>): seq<real>
  {
    if |xs| == 0 then h else Pushed(PushedAll(h, xs[..|xs| - 1]), xs[|xs| - 1])
  }

  lemma {:induction false} PushedAllKeepsLast(xs: seq<real>)
    ensures PushedAll([], xs) == xs[|xs| - MinInt(|xs|, MaxHistory)..]
    decreases |xs|
  {
    if |xs| > 0 {
      var init := xs[..|xs| - 1];
      PushedAllKeepsLast(init);
      var h := PushedAll([], init);
      assert h == init[|init| - MinInt(|init|, MaxHistory)..];
      if |init| < MaxHistory {
        assert h == init;
        assert init + [xs[|xs| - 1]] == xs;
      } else {
        assert |h| == MaxHistory;
        assert h[1..] + [xs[|xs| - 1]] == xs[|xs| - MaxHistory..];
      }
    }
  }
}
