/**
 * PatientSimulator.simulate_patient of src/patient_simulation_100k.py: one
 * patient under a treatment protocol, in 15-minute steps over duration_days.
 *
 * ProtocolConfig and the PharmacokineticModel that simulate_patient calls
 * come from opioid_optimization_framework, which is not part of this model:
 * the protocol is a record of its three lists and the four model functions
 * are the fields of a FrameworkPk value. np.random.random() is a stream of
 * draws read from an index, and the f-string of an adverse event's day is a
 * parameter.
 *
 * The run is specified by After(run, t), the state after t timesteps; the
 * methods fill the arrays and are proved to agree with it.
 */
module PatientSimulation {
  import opened Wrappers
  import opened Numeric
  import opened OrderedDict
  import opened CompoundProfiles
  import opened CompoundDatabases
  import opened PatientGeneration
  import opened SimulationResults
  import PkModel

  type Neurotransmitters = PkModel.Neurotransmitters

  /** ProtocolConfig's compound names, doses and daily dose counts. */
  datatype ProtocolConfig = ProtocolConfig(compounds: seq<string>, doses: seq<real>, frequencies: seq<int>)

  /** The framework's calculate_concentration, calculate_receptor_occupancy, calculate_analgesia and calculate_neurotransmitter_release. */
  datatype FrameworkPk = FrameworkPk(
    concentration: (real, real, real, real, real) -> real,
    occupancy: (real, real, real) -> real,
    analgesia: (real, real) -> real,
    neurotransmitters: (real, real) -> Neurotransmitters)

  /** The global NumPy stream: draw k is u(k). */
  datatype Draws = Draws(u: nat -> real, formatDay: real -> string)

  // ---------------------------------------------------------------------------
  // Dosing schedule

  const HoursPerDay: real := 24.0
  const TimeStep: real := 0.25

  /** int(duration_days * 24 / 0.25). */
  function Timepoints(durationDays: int): int
  {
    durationDays * 96
  }

  /** t_hours % 24 at timestep t: t_hours = t / 4 is a multiple of 0.25, so this is (t mod 96) / 4. */
  function TimeOfDay(t: nat): (r: real)
    ensures 0.0 <= r < HoursPerDay
    ensures t < 96 ==> r == t as real * TimeStep
  {
    (t % 96) as real * TimeStep
  }

  /** The i-th of the freq dose times, i * (24 / freq). */
  function DoseTime(freq: int, i: int): real
    requires freq >= 1
  {
    i as real * (HoursPerDay / freq as real)
  }

  lemma DoseTimeWithin(freq: int, i: int)
    requires freq >= 1 && 0 <= i < freq
    ensures 0.0 <= DoseTime(freq, i) < HoursPerDay
  {
    var q := HoursPerDay / freq as real;
    assert q * freq as real == HoursPerDay;
    assert i as real * q <= (freq - 1) as real * q;
    assert (freq - 1) as real * q == HoursPerDay - q;
  }

  /** How long before time_of_day the dose at dt was taken, looking back over midnight. */
  function SinceDose(timeOfDay: real, dt: real): real
  {
    if timeOfDay >= dt then timeOfDay - dt else timeOfDay + HoursPerDay - dt
  }

  /** Python's min over a non-empty list. */
  function MinOf(s: seq<real>): real
    requires |s| > 0
  {
    if |s| == 1 then s[0]
    else
      var rest := MinOf(s[1..]);
      if s[0] <= rest then s[0] else rest
  }

  /** It is no larger than any element and is one of them. */
  lemma {:induction false} MinOfFacts(s: seq<real>)
    requires |s| > 0
    ensures forall i :: 0 <= i < |s| ==> MinOf(s) <= s[i]
    ensures exists i :: 0 <= i < |s| && MinOf(s) == s[i]
  {
    if |s| > 1 {
      MinOfFacts(s[1..]);
      assert forall i :: 1 <= i < |s| ==> s[1..][i - 1] == s[i];
      var k :| 0 <= k < |s[1..]| && MinOf(s[1..]) == s[1..][k];
      if MinOf(s) == s[0] {
        assert 0 <= 0 < |s| && MinOf(s) == s[0];
      } else {
        assert 0 <= k + 1 < |s| && MinOf(s) == s[k + 1];
      }
    } else {
      assert 0 <= 0 < |s| && MinOf(s) == s[0];
    }
  }

  /** The time since the most recent of the day's freq doses. */
  function TimeSinceDose(timeOfDay: real, freq: int): real
    requires freq >= 1
  {
    MinOf(seq(freq, i requires 0 <= i < freq => SinceDose(timeOfDay, DoseTime(freq, i))))
  }

  /** It is the least of the times since each dose, and lies in [0, 24) for a time of day in [0, 24). */
  lemma TimeSinceDoseBounds(timeOfDay: real, freq: int)
    requires freq >= 1
    ensures forall i :: 0 <= i < freq ==> TimeSinceDose(timeOfDay, freq) <= SinceDose(timeOfDay, DoseTime(freq, i))
    ensures exists i :: 0 <= i < freq && TimeSinceDose(timeOfDay, freq) == SinceDose(timeOfDay, DoseTime(freq, i))
    ensures 0.0 <= timeOfDay < HoursPerDay ==> 0.0 <= TimeSinceDose(timeOfDay, freq) < HoursPerDay
  {
    var candidates := seq(freq, i requires 0 <= i < freq => SinceDose(timeOfDay, DoseTime(freq, i)));
    var r := MinOf(candidates);
    MinOfFacts(candidates);
    assert forall i :: 0 <= i < freq ==> candidates[i] == SinceDose(timeOfDay, DoseTime(freq, i));
    if 0.0 <= timeOfDay < HoursPerDay {
      var i :| 0 <= i < freq && r == candidates[i];
      DoseTimeWithin(freq, i);
    }
  }

  // ---------------------------------------------------------------------------
  // One compound in one timestep

  /** A compound zipped with its dose and frequency. */
  datatype Dose = Dose(compound: CompoundProfile, dose: real, frequency: int)

  /** zip(compounds, protocol.doses, protocol.frequencies): as long as the shortest. */
  function Zip(compounds: seq<CompoundProfile>, doses: seq<real>, frequencies: seq<int>): (z: seq<Dose>)
    ensures |z| == MinInt(|compounds|, MinInt(|doses|, |frequencies|))
    ensures forall k :: 0 <= k < |z| ==> z[k] == Dose(compounds[k], doses[k], frequencies[k])
  {
    var n := MinInt(|compounds|, MinInt(|doses|, |frequencies|));
    seq(n, k requires 0 <= k < n => Dose(compounds[k], doses[k], frequencies[k]))
  }

  /** The orthosteric Ki, else the first allosteric one, else 50 nM. */
  function BindingKi(c: CompoundProfile): real
  {
    if c.kiOrthosteric.Finite? then c.kiOrthosteric.nm
    else if c.kiAllosteric1.Finite? then c.kiAllosteric1.nm
    else 50.0
  }

  /** The tolerance after a compound's step: it grows by rate * beta * 1e-4, or a reversing compound shrinks it by 0.05%. */
  function ToleranceAfter(tolerance: real, c: CompoundProfile, beta: real): real
  {
    if !c.reversesTolerance then tolerance + Scale(c.toleranceRate, beta) * 0.0001
    else if tolerance > 0.0 then tolerance * 0.9995
    else tolerance
  }

  lemma ToleranceAfterFacts(tolerance: real, c: CompoundProfile, beta: real)
    ensures !c.reversesTolerance ==> ToleranceAfter(tolerance, c, beta) - tolerance == c.toleranceRate * beta * 0.0001
    ensures c.reversesTolerance && tolerance >= 0.0 ==> 0.0 <= ToleranceAfter(tolerance, c, beta) <= tolerance
    ensures !c.reversesTolerance && tolerance >= 0.0 && c.toleranceRate >= 0.0 && beta >= 0.0 ==>
              ToleranceAfter(tolerance, c, beta) >= tolerance
  {
    if !c.reversesTolerance && c.toleranceRate >= 0.0 && beta >= 0.0 {
      assert Scale(c.toleranceRate, beta) >= 0.0;
    }
  }

  /**
   * The tolerance that analgesia sees: 30% of it for a reversing compound,
   * half for one that prevents withdrawal, all of it otherwise, and never
   * more than 0.95.
   */
  function EffectiveTolerance(tolerance: real, c: CompoundProfile): (e: real)
    ensures e <= 0.95
    ensures tolerance >= 0.0 ==> 0.0 <= e <= tolerance
    ensures tolerance <= 0.0 ==> e <= 0.0
    ensures c.reversesTolerance ==> e >= 0.0
  {
    var e :=
      if c.reversesTolerance then Max(0.0, tolerance * 0.3)
      else if c.preventsWithdrawal then tolerance * 0.5
      else tolerance;
    Min(e, 0.95)
  }

  /** The per-timestep sums, with the tolerance and neurotransmitter totals carried across timesteps. */
  datatype StepState = StepState(
    tolerance: real, analgesia: real, sideEffects: real, gSum: real, betaSum: real,
    neurotransmitters: Neurotransmitters)

  function AddNeurotransmitters(a: Neurotransmitters, b: Neurotransmitters): Neurotransmitters
  {
    PkModel.Neurotransmitters(a.endorphins + b.endorphins, a.dopamine + b.dopamine,
      a.serotonin + b.serotonin, a.norepinephrine + b.norepinephrine, a.substanceP + b.substanceP)
  }

  const NoNeurotransmitters: Neurotransmitters := PkModel.Neurotransmitters(0.0, 0.0, 0.0, 0.0, 0.0)

  /** What simulate_patient works with. */
  datatype Run = Run(pk: FrameworkPk, patient: PatientProfile, dosing: seq<Dose>, compoundCount: nat)

  /** Every zipped compound can be stepped: its frequency is at least 1 and the metabolism rate divides. */
  predicate Steppable(run: Run)
  {
    forall k :: 0 <= k < |run.dosing| ==> run.dosing[k].frequency >= 1 && run.patient.metabolismRate != 0.0
  }

  /**
   * The error the first timestep raises, at the first zipped compound that
   * fails: 24 / 0 for a zero frequency, min() of no dose times for a negative
   * one, t_half / 0 for a zero metabolism rate.
   */
  function DosingError(dosing: seq<Dose>, metabolismRate: real): (e: Option<string>)
    ensures e.None? <==> forall k :: 0 <= k < |dosing| ==> dosing[k].frequency >= 1 && metabolismRate != 0.0
    ensures |dosing| > 0 && dosing[0].frequency < 0 ==> e == Some("ValueError: min() arg is an empty sequence")
  {
    if |dosing| == 0 then None
    else if dosing[0].frequency == 0 then Some("ZeroDivisionError: division by zero")
    else if dosing[0].frequency < 0 then Some("ValueError: min() arg is an empty sequence")
    else if metabolismRate == 0.0 then Some("ZeroDivisionError: float division by zero")
    else
      var rest := DosingError(dosing[1..], metabolismRate);
      assert forall k :: 1 <= k < |dosing| ==> dosing[1..][k - 1] == dosing[k];
      rest
  }

  /** The G-protein and beta-arrestin activations of one compound in one timestep. */
  datatype Activation = Activation(g: real, beta: real)

  function ActivationOf(run: Run, timeOfDay: real, d: Dose): Activation
    requires d.frequency >= 1 && run.patient.metabolismRate != 0.0
  {
    var p := run.patient;
    var c := d.compound;
    var timeSinceDose := TimeSinceDose(timeOfDay, d.frequency);
    var concentration := run.pk.concentration(d.dose, timeSinceDose, c.tHalf / p.metabolismRate,
                                              c.bioavailability, p.weight * 0.7);
    var ki := BindingKi(c);
    Activation(run.pk.occupancy(Scale(concentration, p.sensitivity), ki, Scale(c.intrinsicActivity, c.gProteinBias)),
               run.pk.occupancy(Scale(concentration, p.sensitivity), ki, Scale(c.intrinsicActivity, c.betaArrestinBias)))
  }

  /** One compound's contribution to a timestep. */
  function CompoundStep(run: Run, timeOfDay: real, d: Dose, s: StepState): StepState
    requires d.frequency >= 1 && run.patient.metabolismRate != 0.0
  {
    var a := ActivationOf(run, timeOfDay, d);
    var tolerance := ToleranceAfter(s.tolerance, d.compound, a.beta);
    var analgesia := run.pk.analgesia(a.g, EffectiveTolerance(tolerance, d.compound));
    StepState(tolerance, s.analgesia + analgesia, s.sideEffects + a.beta, s.gSum + a.g, s.betaSum + a.beta,
              AddNeurotransmitters(s.neurotransmitters, run.pk.neurotransmitters(a.g, a.beta)))
  }

  /** The first n zipped compounds' contributions, in order. */
  function Contributions(run: Run, timeOfDay: real, n: nat, s: StepState): StepState
    requires Steppable(run) && n <= |run.dosing|
    decreases n, 1
  {
    if n == 0 then s else WithCompound(run, timeOfDay, n, s)
  }

  /**
   * The n-th zipped compound's step after those before it. It is a function
   * of its own, in the recursion with Contributions, so that a state after
   * a timestep unfolds one compound at a time.
   */
  function WithCompound(run: Run, timeOfDay: real, n: nat, s: StepState): StepState
    requires Steppable(run) && 1 <= n <= |run.dosing|
    decreases n, 0
  {
    CompoundStep(run, timeOfDay, run.dosing[n - 1], Contributions(run, timeOfDay, n - 1, s))
  }

  /** A timestep starts its sums from zero and carries the tolerance and neurotransmitter totals. */
  function Fresh(s: StepState): StepState
  {
    StepState(s.tolerance, 0.0, 0.0, 0.0, 0.0, s.neurotransmitters)
  }

  /** The state after t timesteps; its sums are those of timestep t - 1. */
  function After(run: Run, t: nat): StepState
    requires Steppable(run)
  {
    if t == 0 then StepState(Max(0.0, run.patient.baselineTolerance), 0.0, 0.0, 0.0, 0.0, NoNeurotransmitters)
    else Contributions(run, TimeOfDay(t - 1), |run.dosing|, Fresh(After(run, t - 1)))
  }

  lemma AfterStep(run: Run, t: nat)
    requires Steppable(run)
    ensures After(run, t + 1) == Contributions(run, TimeOfDay(t), |run.dosing|, Fresh(After(run, t)))
  {
  }

  // ---------------------------------------------------------------------------
  // Timestep outputs

  function AnalgesiaBonus(p: PatientProfile): real
  {
    Get(p.medicationEffects, "analgesia_bonus").GetOr(0.0)
  }

  function SideEffectBias(p: PatientProfile): real
  {
    Get(p.medicationEffects, "side_effect_bias").GetOr(0.0)
  }

  /** analgesia_levels[t]: the timestep's sum plus the medication bonus, capped at 1. */
  function AnalgesiaAt(run: Run, t: nat): real
    requires Steppable(run)
  {
    Min(After(run, t + 1).analgesia + AnalgesiaBonus(run.patient), 1.0)
  }

  /** side_effect_levels[t]: the timestep's beta sum plus the medication bias, capped at 1. */
  function SideEffectsAt(run: Run, t: nat): real
    requires Steppable(run)
  {
    Min(After(run, t + 1).sideEffects + SideEffectBias(run.patient), 1.0)
  }

  /** pain_scores[t]: the baseline pain less the relieved share, never below 0. */
  function PainAt(run: Run, t: nat): real
    requires Steppable(run)
  {
    Max(0.0, run.patient.painSeverity - Scale(AnalgesiaAt(run, t), run.patient.painSeverity))
  }

  function GActivationAt(run: Run, t: nat): real
    requires Steppable(run)
  {
    After(run, t + 1).gSum / MaxInt(run.compoundCount, 1) as real
  }

  function BetaActivationAt(run: Run, t: nat): real
    requires Steppable(run)
  {
    After(run, t + 1).betaSum / MaxInt(run.compoundCount, 1) as real
  }

  /** The events and the next stream index after the first t timesteps' side-effect checks. */
  datatype Adverse = Adverse(events: seq<string>, next: nat)

  /** A timestep whose side effects exceed 0.7 draws once and, with chance 0.001, logs the day. */
  function AdverseUpTo(run: Run, t: nat, draws: Draws, next: nat): (a: Adverse)
    requires Steppable(run)
    ensures next <= a.next <= next + t
    ensures |a.events| <= a.next - next
  {
    if t == 0 then Adverse([], next)
    else
      var a := AdverseUpTo(run, t - 1, draws, next);
      if SideEffectsAt(run, t - 1) > 0.7 then
        if draws.u(a.next) < 0.001 then
          Adverse(a.events + ["High side effects at day " + draws.formatDay((t - 1) as real * TimeStep / HoursPerDay)],
                  a.next + 1)
        else Adverse(a.events, a.next + 1)
      else a
  }

  // ---------------------------------------------------------------------------
  // Outcomes

  function Mean(s: seq<real>): real
    requires |s| > 0
  {
    Sum(s) / |s| as real
  }

  /** The success criteria: pain controlled, analgesia above half, side effects below 0.4, tolerance below 0.5. */
  predicate Success(avgPain: real, avgAnalgesia: real, avgSide: real, finalTolerance: real)
  {
    avgPain < 4.0 && avgAnalgesia > 0.5 && avgSide < 0.4 && finalTolerance < 0.5
  }

  /** A quarter of the mean side effects, raised by half for depression and by 30% for anxiety. */
  function AddictionRisk(avgSide: real, comorbidities: seq<string>): (r: real)
    ensures avgSide >= 0.0 ==> avgSide * 0.25 <= r <= avgSide * 0.4875
  {
    var r := avgSide * 0.25;
    var r := if "depression" in comorbidities then r * 1.5 else r;
    if "anxiety" in comorbidities then r * 1.3 else r
  }

  function WithdrawalRisk(protected: bool, finalTolerance: real): real
  {
    if protected then 0.02 else 0.15 + finalTolerance * 0.1
  }

  /** A protecting compound in the protocol lowers the withdrawal risk for any non-negative tolerance. */
  lemma ProtectionLowersWithdrawalRisk(finalTolerance: real)
    requires finalTolerance >= 0.0
    ensures WithdrawalRisk(true, finalTolerance) < WithdrawalRisk(false, finalTolerance)
    ensures finalTolerance <= 1.0 ==> 0.15 <= WithdrawalRisk(false, finalTolerance) <= 0.25
  {
  }

  function QualityOfLife(avgPain: real, avgSide: real): real
  {
    (10.0 - avgPain) / 10.0 * 0.6 + (1.0 - avgSide) * 0.4
  }

  /** A successful treatment has a quality of life above 0.6 and no tolerance development. */
  lemma SuccessQuality(avgPain: real, avgAnalgesia: real, avgSide: real, finalTolerance: real)
    requires Success(avgPain, avgAnalgesia, avgSide, finalTolerance)
    ensures QualityOfLife(avgPain, avgSide) > 0.6
    ensures !(finalTolerance > 0.5)
  {
  }

  function NeurotransmitterAverages(total: Neurotransmitters, n: nat): (d: Dict<string, real>)
    requires n >= 1
  {
    Dict([("endorphins", total.endorphins / n as real), ("dopamine", total.dopamine / n as real),
          ("serotonin", total.serotonin / n as real), ("norepinephrine", total.norepinephrine / n as real),
          ("substance_p", total.substanceP / n as real)])
  }

  /** The outcome and the next stream index of a run of n timesteps that cannot fail. */
  datatype Simulated = Simulated(result: SimulationResult, next: nat)

  /** What timestep t stores in the five arrays. */
  datatype Outputs = Outputs(pain: real, analgesia: real, sideEffects: real, gActivation: real, betaActivation: real)

  function OutputsAt(run: Run, t: nat): Outputs
    requires Steppable(run)
  {
    Outputs(PainAt(run, t), AnalgesiaAt(run, t), SideEffectsAt(run, t), GActivationAt(run, t), BetaActivationAt(run, t))
  }

  /** The outputs of the first n timesteps, in order. */
  function Timeline(run: Run, n: nat): (tl: seq<Outputs>)
    requires Steppable(run)
    ensures |tl| == n
  {
    if n == 0 then [] else Timeline(run, n - 1) + [OutputsAt(run, n - 1)]
  }

  lemma {:induction false} TimelineAt(run: Run, n: nat, j: nat)
    requires Steppable(run) && j < n
    ensures Timeline(run, n)[j] == OutputsAt(run, j)
  {
    if j < n - 1 {
      TimelineAt(run, n - 1, j);
    }
  }

  function PainLevels(run: Run, n: nat): (s: seq<real>)
    requires Steppable(run)
    ensures |s| == n
  {
    var tl := Timeline(run, n);
    seq(n, t requires 0 <= t < n => tl[t].pain)
  }

  function AnalgesiaLevels(run: Run, n: nat): (s: seq<real>)
    requires Steppable(run)
    ensures |s| == n
  {
    var tl := Timeline(run, n);
    seq(n, t requires 0 <= t < n => tl[t].analgesia)
  }

  function SideEffectLevels(run: Run, n: nat): (s: seq<real>)
    requires Steppable(run)
    ensures |s| == n
  {
    var tl := Timeline(run, n);
    seq(n, t requires 0 <= t < n => tl[t].sideEffects)
  }

  function GActivationLevels(run: Run, n: nat): (s: seq<real>)
    requires Steppable(run)
    ensures |s| == n
  {
    var tl := Timeline(run, n);
    seq(n, t requires 0 <= t < n => tl[t].gActivation)
  }

  function BetaActivationLevels(run: Run, n: nat): (s: seq<real>)
    requires Steppable(run)
    ensures |s| == n
  {
    var tl := Timeline(run, n);
    seq(n, t requires 0 <= t < n => tl[t].betaActivation)
  }

  function Outcome(run: Run, n: nat, protected: bool, draws: Draws, next: nat): Simulated
    requires Steppable(run) && n >= 1
  {
    Assess(run.patient, protected, draws, PainLevels(run, n), AnalgesiaLevels(run, n), SideEffectLevels(run, n),
           GActivationLevels(run, n), BetaActivationLevels(run, n), After(run, n), AdverseUpTo(run, n, draws, next))
  }

  /** The outcomes of the five level sequences, the last state and the adverse-event record. */
  function Assess(patient: PatientProfile, protected: bool, draws: Draws,
                  pain: seq<real>, analgesia: seq<real>, sideEffects: seq<real>,
                  gActivation: seq<real>, betaActivation: seq<real>, last: StepState, adverse: Adverse): Simulated
    requires |pain| >= 1 && |analgesia| >= 1 && |sideEffects| >= 1 && |gActivation| >= 1 && |betaActivation| >= 1
  {
    var avgPain := Mean(pain);
    var avgAnalgesia := Mean(analgesia);
    var avgSide := Mean(sideEffects);
    var addiction := draws.u(adverse.next) < AddictionRisk(avgSide, patient.comorbidities);
    var withdrawal := draws.u(adverse.next + 1) < WithdrawalRisk(protected, last.tolerance);
    var events := adverse.events
      + (if avgSide > 0.6 then ["Persistent side effects"] else [])
      + (if last.tolerance > 0.7 then ["Significant tolerance development"] else []);
    Simulated(
      SimulationResult(patient, Success(avgPain, avgAnalgesia, avgSide, last.tolerance),
                       last.tolerance > 0.5, addiction, withdrawal, events, avgPain, avgAnalgesia, avgSide,
                       QualityOfLife(avgPain, avgSide), Mean(gActivation), Mean(betaActivation),
                       NeurotransmitterAverages(last.neurotransmitters, |pain|)),
      adverse.next + 2)
  }

  /** The protocol's compounds found in the database, in protocol order. */
  function Resolve(db: CompoundDatabase, names: seq<string>): (cs: seq<CompoundProfile>)
    reads db
    ensures |cs| <= |names|
    ensures |cs| == 0 <==> forall i :: 0 <= i < |names| ==> db.GetCompound(names[i]).None?
  {
    if |names| == 0 then []
    else
      var rest := Resolve(db, names[..|names| - 1]);
      assert forall i :: 0 <= i < |names| - 1 ==> names[..|names| - 1][i] == names[i];
      match db.GetCompound(names[|names| - 1])
      case Some(c) => rest + [c]
      case None => rest
  }

  /** Some protocol compound in the database prevents withdrawal. */
  predicate WithdrawalProtection(db: CompoundDatabase, names: seq<string>)
    reads db
  {
    exists i :: 0 <= i < |names| && db.GetCompound(names[i]).Some? && db.GetCompound(names[i]).value.preventsWithdrawal
  }

  /** simulate_patient(patient, protocol, duration_days) from stream index next. */
  function Simulation(compounds: seq<CompoundProfile>, protected: bool, patient: PatientProfile,
                      protocol: ProtocolConfig, durationDays: int, pk: FrameworkPk, draws: Draws,
                      next: nat): (r: Result<Simulated, string>)
    ensures r.Ok? ==> |compounds| > 0 && durationDays > 0
    ensures |compounds| == 0 ==> r == Err("ValueError: No valid compounds in protocol")
    ensures |compounds| > 0 && durationDays < 0 ==> r == Err("ValueError: negative dimensions are not allowed")
    ensures |compounds| > 0 && durationDays == 0 ==> r == Err("ZeroDivisionError: float division by zero")
  {
    if |compounds| == 0 then Err("ValueError: No valid compounds in protocol")
    else if Timepoints(durationDays) < 0 then Err("ValueError: negative dimensions are not allowed")
    else if Timepoints(durationDays) == 0 then Err("ZeroDivisionError: float division by zero")
    else
      var run := Run(pk, patient, Zip(compounds, protocol.doses, protocol.frequencies), |compounds|);
      match DosingError(run.dosing, patient.metabolismRate)
      case Some(e) => Err(e)
      case None => Ok(Outcome(run, Timepoints(durationDays), protected, draws, next))
  }

  // ---------------------------------------------------------------------------
  // Properties of the run

  /** The framework's occupancy is non-negative for a non-negative intrinsic activity. */
  ghost predicate OccupancyNonNegative(pk: FrameworkPk)
  {
    forall c, ki, ia :: ia >= 0.0 ==> pk.occupancy(c, ki, ia) >= 0.0
  }

  /** A compound that raises tolerance does so at a non-negative rate through a non-negative beta activation. */
  predicate NonNegativeRates(c: CompoundProfile)
  {
    c.reversesTolerance || (c.toleranceRate >= 0.0 && c.intrinsicActivity >= 0.0 && c.betaArrestinBias >= 0.0)
  }

  ghost predicate ToleranceSafe(run: Run)
  {
    OccupancyNonNegative(run.pk) && forall k :: 0 <= k < |run.dosing| ==> NonNegativeRates(run.dosing[k].compound)
  }

  /** No zipped compound reverses tolerance. */
  predicate NoReversal(run: Run)
  {
    forall k :: 0 <= k < |run.dosing| ==> !run.dosing[k].compound.reversesTolerance
  }

  /** One compound's step keeps a non-negative tolerance non-negative, and one that does not reverse it never lowers it. */
  lemma CompoundStepTolerance(run: Run, timeOfDay: real, d: Dose, s: StepState)
    requires d.frequency >= 1 && run.patient.metabolismRate != 0.0
    requires OccupancyNonNegative(run.pk) && NonNegativeRates(d.compound) && s.tolerance >= 0.0
    ensures CompoundStep(run, timeOfDay, d, s).tolerance >= 0.0
    ensures !d.compound.reversesTolerance ==> CompoundStep(run, timeOfDay, d, s).tolerance >= s.tolerance
    ensures d.compound.reversesTolerance ==> CompoundStep(run, timeOfDay, d, s).tolerance <= s.tolerance
  {
    var c := d.compound;
    var a := ActivationOf(run, timeOfDay, d);
    if !c.reversesTolerance {
      var ia := Scale(c.intrinsicActivity, c.betaArrestinBias);
      assert ia >= 0.0;
      var conc := run.pk.concentration(d.dose, TimeSinceDose(timeOfDay, d.frequency),
                                       c.tHalf / run.patient.metabolismRate, c.bioavailability,
                                       run.patient.weight * 0.7);
      assert a.beta == run.pk.occupancy(Scale(conc, run.patient.sensitivity), BindingKi(c), ia);
    }
    ToleranceAfterFacts(s.tolerance, c, a.beta);
  }

  lemma {:induction false} ContributionsTolerance(run: Run, timeOfDay: real, n: nat, s: StepState)
    requires Steppable(run) && ToleranceSafe(run) && n <= |run.dosing| && s.tolerance >= 0.0
    ensures Contributions(run, timeOfDay, n, s).tolerance >= 0.0
    ensures NoReversal(run) ==> Contributions(run, timeOfDay, n, s).tolerance >= s.tolerance
  {
    if n > 0 {
      ContributionsTolerance(run, timeOfDay, n - 1, s);
      var prev := Contributions(run, timeOfDay, n - 1, s);
      CompoundStepTolerance(run, timeOfDay, run.dosing[n - 1], prev);
    }
  }

  /**
   * The tolerance starts at max(0, baseline_tolerance) and never goes
   * negative; when no compound reverses it, it never falls from one timestep
   * to the next.
   */
  lemma {:induction false} ToleranceNonNegative(run: Run, t: nat)
    requires Steppable(run) && ToleranceSafe(run)
    ensures After(run, 0).tolerance == Max(0.0, run.patient.baselineTolerance)
    ensures After(run, t).tolerance >= 0.0
    ensures NoReversal(run) ==> After(run, t).tolerance <= After(run, t + 1).tolerance
  {
    if t > 0 {
      ToleranceNonNegative(run, t - 1);
      AfterStep(run, t - 1);
      ContributionsTolerance(run, TimeOfDay(t - 1), |run.dosing|, Fresh(After(run, t - 1)));
    }
    AfterStep(run, t);
    ContributionsTolerance(run, TimeOfDay(t), |run.dosing|, Fresh(After(run, t)));
  }

  /**
   * Each timestep's analgesia and side effects are capped at 1, its pain is
   * never negative and never above the baseline, and full analgesia leaves
   * no pain.
   */
  lemma TimestepBounds(run: Run, t: nat)
    requires Steppable(run)
    ensures AnalgesiaAt(run, t) <= 1.0 && SideEffectsAt(run, t) <= 1.0
    ensures PainAt(run, t) >= 0.0
    ensures run.patient.painSeverity >= 0.0 && AnalgesiaAt(run, t) >= 0.0 ==>
              PainAt(run, t) <= run.patient.painSeverity
    ensures AnalgesiaAt(run, t) == 1.0 ==> PainAt(run, t) == 0.0
  {
    var a := AnalgesiaAt(run, t);
    var base := run.patient.painSeverity;
    if base >= 0.0 && a >= 0.0 {
      assert Scale(a, base) >= 0.0;
    }
    assert a == 1.0 ==> Scale(a, base) == base;
  }

  /** Every entry of the level sequences obeys those bounds. */
  lemma LevelsBounded(run: Run, n: nat)
    requires Steppable(run)
    ensures forall j :: 0 <= j < n ==> 0.0 <= PainLevels(run, n)[j]
    ensures forall j :: 0 <= j < n ==> AnalgesiaLevels(run, n)[j] <= 1.0
    ensures forall j :: 0 <= j < n ==> SideEffectLevels(run, n)[j] <= 1.0
    ensures run.patient.painSeverity >= 0.0 && (forall j :: 0 <= j < n ==> AnalgesiaLevels(run, n)[j] >= 0.0) ==>
              forall j :: 0 <= j < n ==> PainLevels(run, n)[j] <= run.patient.painSeverity
  {
    var severity := run.patient.painSeverity;
    forall j | 0 <= j < n
      ensures Timeline(run, n)[j] == OutputsAt(run, j)
      ensures OutputsAt(run, j).pain >= 0.0 && OutputsAt(run, j).analgesia <= 1.0
      ensures OutputsAt(run, j).sideEffects <= 1.0
      ensures severity >= 0.0 && OutputsAt(run, j).analgesia >= 0.0 ==> OutputsAt(run, j).pain <= severity
    {
      TimelineAt(run, n, j);
      TimestepBounds(run, j);
    }
    if severity >= 0.0 && forall j :: 0 <= j < n ==> AnalgesiaLevels(run, n)[j] >= 0.0 {
      forall j | 0 <= j < n
        ensures PainLevels(run, n)[j] <= severity
      {
        assert AnalgesiaLevels(run, n)[j] == OutputsAt(run, j).analgesia;
        assert PainLevels(run, n)[j] == OutputsAt(run, j).pain;
      }
    }
  }

  /** The mean of a non-empty sequence whose entries are at least lo is at least lo. */
  lemma MeanAtLeast(s: seq<real>, lo: real)
    requires |s| > 0 && forall i :: 0 <= i < |s| ==> lo <= s[i]
    ensures lo <= Mean(s)
  {
    SumAtLeast(s, lo);
    assert Mean(s) * |s| as real == Sum(s);
  }

  /** The mean of a non-empty sequence whose entries are at most hi is at most hi. */
  lemma MeanAtMost(s: seq<real>, hi: real)
    requires |s| > 0 && forall i :: 0 <= i < |s| ==> s[i] <= hi
    ensures Mean(s) <= hi
  {
    SumAtMost(s, hi);
    assert Mean(s) * |s| as real == Sum(s);
  }

  /**
   * The outcome of a run: success exactly under the four criteria, tolerance
   * developed exactly above 0.5, a withdrawal draw against 0.02 under
   * protection and 0.15 + 0.1 final tolerance otherwise, and the simulated
   * events followed by the two outcome events when they apply.
   */
  lemma AssessFacts(patient: PatientProfile, protected: bool, draws: Draws,
                    pain: seq<real>, analgesia: seq<real>, sideEffects: seq<real>,
                    gActivation: seq<real>, betaActivation: seq<real>, last: StepState, adverse: Adverse)
    requires |pain| >= 1 && |analgesia| >= 1 && |sideEffects| >= 1 && |gActivation| >= 1 && |betaActivation| >= 1
    ensures var o := Assess(patient, protected, draws, pain, analgesia, sideEffects, gActivation, betaActivation,
                            last, adverse);
            var r := o.result;
            var extra := r.adverseEvents[|adverse.events|..];
            r.patient == patient && o.next == adverse.next + 2 &&
            (r.success <==> r.avgPainScore < 4.0 && r.avgAnalgesia > 0.5 && r.avgSideEffects < 0.4 &&
                            last.tolerance < 0.5) &&
            (r.toleranceDeveloped <==> last.tolerance > 0.5) &&
            (r.withdrawalSymptoms <==>
               draws.u(adverse.next + 1) < (if protected then 0.02 else 0.15 + last.tolerance * 0.1)) &&
            |r.adverseEvents| >= |adverse.events| && r.adverseEvents[..|adverse.events|] == adverse.events &&
            ("Persistent side effects" in extra <==> r.avgSideEffects > 0.6) &&
            ("Significant tolerance development" in extra <==> last.tolerance > 0.7)
  {
    var o := Assess(patient, protected, draws, pain, analgesia, sideEffects, gActivation, betaActivation, last, adverse);
    var avgSide := Mean(sideEffects);
    var one: seq<string> := if avgSide > 0.6 then ["Persistent side effects"] else [];
    var two: seq<string> := if last.tolerance > 0.7 then ["Significant tolerance development"] else [];
    assert o.result.adverseEvents == adverse.events + one + two;
    assert o.result.adverseEvents[|adverse.events|..] == one + two;
    assert "Persistent side effects" != "Significant tolerance development";
  }

  /** The averages of a run lie where the timestep bounds put them. */
  lemma OutcomeAverages(run: Run, n: nat, protected: bool, draws: Draws, next: nat)
    requires Steppable(run) && n >= 1
    ensures var o := Outcome(run, n, protected, draws, next).result;
            o.avgPainScore >= 0.0 && o.avgAnalgesia <= 1.0 && o.avgSideEffects <= 1.0
  {
    LevelsBounded(run, n);
    var pain := PainLevels(run, n);
    var analgesia := AnalgesiaLevels(run, n);
    var side := SideEffectLevels(run, n);
    MeanAtLeast(pain, 0.0);
    MeanAtMost(analgesia, 1.0);
    MeanAtMost(side, 1.0);
  }

  /**
   * simulate_patient fails exactly when no protocol compound is known, the
   * duration gives no timepoints, or a zipped compound has a frequency below
   * 1 or the patient's metabolism rate is 0.
   */
  lemma SimulationFails(compounds: seq<CompoundProfile>, protected: bool, patient: PatientProfile,
                        protocol: ProtocolConfig, durationDays: int, pk: FrameworkPk, draws: Draws, next: nat)
    ensures var z := Zip(compounds, protocol.doses, protocol.frequencies);
            Simulation(compounds, protected, patient, protocol, durationDays, pk, draws, next).Ok? <==>
              |compounds| > 0 && durationDays > 0 &&
              forall k :: 0 <= k < |z| ==> protocol.frequencies[k] >= 1 && patient.metabolismRate != 0.0
    ensures |compounds| == 0 ==>
              Simulation(compounds, protected, patient, protocol, durationDays, pk, draws, next)
                == Err("ValueError: No valid compounds in protocol")
  {
  }

  /**
   * Unknown names are dropped before the zip, so a compound after an unknown
   * name takes the dose and frequency listed for the unknown one.
   */
  lemma UnknownNameShiftsDoses(db: CompoundDatabase, unknown: string, known: string, c: CompoundProfile,
                               doses: seq<real>, frequencies: seq<int>)
    requires db.GetCompound(unknown).None? && db.GetCompound(known) == Some(c)
    requires |doses| >= 1 && |frequencies| >= 1
    ensures Zip(Resolve(db, [unknown, known]), doses, frequencies) == [Dose(c, doses[0], frequencies[0])]
  {
    assert [unknown, known][..1] == [unknown];
    assert [unknown][..0] == [];
  }

  // ---------------------------------------------------------------------------
  // The simulation loops

  /** The loop over zip(compounds, doses, frequencies) inside one timestep. */
  method StepCompounds(run: Run, timeOfDay: real, start: StepState) returns (s: StepState)
    requires Steppable(run)
    ensures s == Contributions(run, timeOfDay, |run.dosing|, start)
  {
    s := start;
    for k := 0 to |run.dosing|
      invariant s == Contributions(run, timeOfDay, k, start)
    {
      s := StepCompound(run, timeOfDay, run.dosing[k], s);
    }
  }

  /** One pass of that loop: the compound's activations, the tolerance update and the sums. */
  method StepCompound(run: Run, timeOfDay: real, d: Dose, s: StepState) returns (s': StepState)
    requires d.frequency >= 1 && run.patient.metabolismRate != 0.0
    ensures s' == CompoundStep(run, timeOfDay, d, s)
  {
    var p := run.patient;
    var c := d.compound;
    var volumeDist := p.weight * 0.7;
    var toleranceLevel := s.tolerance;
    var timeSinceDose := TimeSinceDose(timeOfDay, d.frequency);
    var adjustedTHalf := c.tHalf / p.metabolismRate;
    var concentration := run.pk.concentration(d.dose, timeSinceDose, adjustedTHalf, c.bioavailability, volumeDist);
    var ki := BindingKi(c);
    var gActivation := run.pk.occupancy(Scale(concentration, p.sensitivity), ki,
                                        Scale(c.intrinsicActivity, c.gProteinBias));
    var betaActivation := run.pk.occupancy(Scale(concentration, p.sensitivity), ki,
                                           Scale(c.intrinsicActivity, c.betaArrestinBias));
    assert Activation(gActivation, betaActivation) == ActivationOf(run, timeOfDay, d);
    var neurotransmitterTotals := AddNeurotransmitters(s.neurotransmitters,
                                                       run.pk.neurotransmitters(gActivation, betaActivation));
    if !c.reversesTolerance {
      toleranceLevel := toleranceLevel + Scale(c.toleranceRate, betaActivation) * 0.0001;
    }
    if c.reversesTolerance && toleranceLevel > 0.0 {
      toleranceLevel := toleranceLevel * 0.9995;
    }
    var effectiveTolerance;
    if c.reversesTolerance {
      effectiveTolerance := Max(0.0, toleranceLevel * 0.3);
    } else if c.preventsWithdrawal {
      effectiveTolerance := toleranceLevel * 0.5;
    } else {
      effectiveTolerance := toleranceLevel;
    }
    effectiveTolerance := Min(effectiveTolerance, 0.95);
    assert toleranceLevel == ToleranceAfter(s.tolerance, c, betaActivation);
    assert effectiveTolerance == EffectiveTolerance(toleranceLevel, c);
    var analgesia := run.pk.analgesia(gActivation, effectiveTolerance);
    s' := StepState(toleranceLevel, s.analgesia + analgesia, s.sideEffects + betaActivation,
                    s.gSum + gActivation, s.betaSum + betaActivation, neurotransmitterTotals);
  }

  /**
   * The states, outputs and adverse-event records of the first |outs|
   * timesteps, as tables. An entry is tied to its definition by a fact that
   * fires only on a term naming that definition at the same index, so a
   * proof that only moves entries around does not unfold the run.
   */
  ghost predicate Tabulated(run: Run, draws: Draws, next: nat,
                            states: seq<StepState>, outs: seq<Outputs>, records: seq<Adverse>)
  {
    Steppable(run) && |states| == |outs| + 1 && |records| == |outs| + 1 &&
    (forall t {:trigger After(run, t)} :: 0 <= t < |states| ==> states[t] == After(run, t)) &&
    (forall t {:trigger OutputsAt(run, t)} :: 0 <= t < |outs| ==> outs[t] == OutputsAt(run, t)) &&
    (forall t {:trigger AdverseUpTo(run, t, draws, next)} :: 0 <= t < |records| ==>
       records[t] == AdverseUpTo(run, t, draws, next))
  }

  lemma Tabulate(run: Run, n: nat, draws: Draws, next: nat)
    returns (states: seq<StepState>, outs: seq<Outputs>, records: seq<Adverse>)
    requires Steppable(run)
    ensures Tabulated(run, draws, next, states, outs, records) && |outs| == n
  {
    states := seq(n + 1, t requires 0 <= t <= n => After(run, t));
    outs := Timeline(run, n);
    records := seq(n + 1, t requires 0 <= t <= n => AdverseUpTo(run, t, draws, next));
    forall t | 0 <= t < n
      ensures outs[t] == OutputsAt(run, t)
    {
      TimelineAt(run, n, t);
    }
  }

  /** The tables start from the initial state and no records. */
  lemma TabulatedStart(run: Run, draws: Draws, next: nat,
                       states: seq<StepState>, outs: seq<Outputs>, records: seq<Adverse>)
    requires Tabulated(run, draws, next, states, outs, records)
    ensures states[0] == StepState(Max(0.0, run.patient.baselineTolerance), 0.0, 0.0, 0.0, 0.0, NoNeurotransmitters)
    ensures records[0] == Adverse([], next)
  {
    assert states[0] == After(run, 0) && records[0] == AdverseUpTo(run, 0, draws, next);
  }

  /** The last entries are the state and the records after all the tabulated timesteps. */
  lemma TabulatedEnd(run: Run, draws: Draws, next: nat,
                     states: seq<StepState>, outs: seq<Outputs>, records: seq<Adverse>)
    requires Tabulated(run, draws, next, states, outs, records)
    ensures states[|outs|] == After(run, |outs|) && records[|outs|] == AdverseUpTo(run, |outs|, draws, next)
  {
  }

  /** Five sequences that hold the tabulated outputs field by field are the five level sequences. */
  lemma TabulatedLevels(run: Run, draws: Draws, next: nat,
                        states: seq<StepState>, outs: seq<Outputs>, records: seq<Adverse>,
                        pain: seq<real>, analgesia: seq<real>, sideEffects: seq<real>,
                        gActivation: seq<real>, betaActivation: seq<real>)
    requires Tabulated(run, draws, next, states, outs, records)
    requires |pain| == |analgesia| == |sideEffects| == |gActivation| == |betaActivation| == |outs|
    requires forall j :: 0 <= j < |outs| ==>
      Outputs(pain[j], analgesia[j], sideEffects[j], gActivation[j], betaActivation[j]) == outs[j]
    ensures pain == PainLevels(run, |outs|) && analgesia == AnalgesiaLevels(run, |outs|)
    ensures sideEffects == SideEffectLevels(run, |outs|)
    ensures gActivation == GActivationLevels(run, |outs|) && betaActivation == BetaActivationLevels(run, |outs|)
  {
    var n := |outs|;
    forall j | 0 <= j < n
      ensures Timeline(run, n)[j] == outs[j]
    {
      TimelineAt(run, n, j);
      assert outs[j] == OutputsAt(run, j);
    }
  }

  /** One pass of the timestep loop: the compounds, the caps, the pain score and the adverse-event draw. */
  method Timestep(run: Run, t: nat, state: StepState, analgesiaBonus: real, sideEffectBias: real,
                  draws: Draws, next: nat, adverseEvents: seq<string>, drawn: nat,
                  ghost states: seq<StepState>, ghost outs: seq<Outputs>, ghost records: seq<Adverse>)
    returns (state': StepState, out: Outputs, adverseEvents': seq<string>, drawn': nat)
    requires Tabulated(run, draws, next, states, outs, records) && t < |outs|
    requires state == states[t] && Adverse(adverseEvents, drawn) == records[t]
    requires analgesiaBonus == AnalgesiaBonus(run.patient) && sideEffectBias == SideEffectBias(run.patient)
    ensures state' == states[t + 1] && out == outs[t] && Adverse(adverseEvents', drawn') == records[t + 1]
  {
    assert state == After(run, t) && Adverse(adverseEvents, drawn) == AdverseUpTo(run, t, draws, next);
    var p := run.patient;
    var tHours := t as real * TimeStep;
    var tDays := tHours / HoursPerDay;
    var timeOfDay := TimeOfDay(t);
    state' := StepCompounds(run, timeOfDay, Fresh(state));
    AfterStep(run, t);
    var totalAnalgesia := Min(state'.analgesia + analgesiaBonus, 1.0);
    var totalSideEffects := Min(state'.sideEffects + sideEffectBias, 1.0);
    var gLevel := state'.gSum / MaxInt(run.compoundCount, 1) as real;
    var betaLevel := state'.betaSum / MaxInt(run.compoundCount, 1) as real;
    var baselinePain := p.painSeverity;
    var painRelief := Scale(totalAnalgesia, baselinePain);
    var currentPain := Max(0.0, baselinePain - painRelief);
    adverseEvents' := adverseEvents;
    drawn' := drawn;
    if totalSideEffects > 0.7 {
      var u := draws.u(drawn');
      drawn' := drawn' + 1;
      if u < 0.001 {
        adverseEvents' := adverseEvents' + ["High side effects at day " + draws.formatDay(tDays)];
      }
    }
    out := Outputs(currentPain, totalAnalgesia, totalSideEffects, gLevel, betaLevel);
    assert state' == After(run, t + 1) && out == OutputsAt(run, t);
    assert Adverse(adverseEvents', drawn') == AdverseUpTo(run, t + 1, draws, next);
  }

  /** The timestep loop: it fills the five arrays with the tabulated outputs and draws for adverse events. */
  method SimulateTimesteps(run: Run, n: nat, draws: Draws, next: nat,
                           ghost states: seq<StepState>, ghost outs: seq<Outputs>, ghost records: seq<Adverse>)
    returns (painScores: array<real>, analgesiaLevels: array<real>, sideEffectLevels: array<real>,
             gActivationLevels: array<real>, betaActivationLevels: array<real>,
             last: StepState, adverse: Adverse)
    requires Tabulated(run, draws, next, states, outs, records) && |outs| == n
    ensures fresh(painScores) && fresh(analgesiaLevels) && fresh(sideEffectLevels)
    ensures fresh(gActivationLevels) && fresh(betaActivationLevels)
    ensures painScores.Length == analgesiaLevels.Length == sideEffectLevels.Length == n
    ensures gActivationLevels.Length == betaActivationLevels.Length == n
    ensures forall j :: 0 <= j < n ==>
      Outputs(painScores[j], analgesiaLevels[j], sideEffectLevels[j], gActivationLevels[j], betaActivationLevels[j]) == outs[j]
    ensures last == states[n] && adverse == records[n]
  {
    painScores := new real[n];
    analgesiaLevels := new real[n];
    sideEffectLevels := new real[n];
    gActivationLevels := new real[n];
    betaActivationLevels := new real[n];
    var p := run.patient;
    var state := StepState(Max(0.0, p.baselineTolerance), 0.0, 0.0, 0.0, 0.0, NoNeurotransmitters);
    var adverseEvents: seq<string> := [];
    var drawn := next;
    var analgesiaBonus := AnalgesiaBonus(p);
    var sideEffectBias := SideEffectBias(p);
    TabulatedStart(run, draws, next, states, outs, records);
    for t := 0 to n
      invariant state == states[t] && Adverse(adverseEvents, drawn) == records[t]
      invariant forall j :: 0 <= j < t ==>
        Outputs(painScores[j], analgesiaLevels[j], sideEffectLevels[j], gActivationLevels[j], betaActivationLevels[j]) == outs[j]
    {
      var out;
      state, out, adverseEvents, drawn := Timestep(run, t, state, analgesiaBonus, sideEffectBias, draws, next,
                                                   adverseEvents, drawn, states, outs, records);
      painScores[t] := out.pain;
      analgesiaLevels[t] := out.analgesia;
      sideEffectLevels[t] := out.sideEffects;
      gActivationLevels[t] := out.gActivation;
      betaActivationLevels[t] := out.betaActivation;
    }
    last := state;
    adverse := Adverse(adverseEvents, drawn);
  }

  /** simulate_patient(patient, protocol, duration_days), drawing from stream index next. */
  method SimulatePatient(db: CompoundDatabase, patient: PatientProfile, protocol: ProtocolConfig,
                         durationDays: int, pk: FrameworkPk, draws: Draws, next: nat)
    returns (r: Result<Simulated, string>)
    ensures r == Simulation(Resolve(db, protocol.compounds), WithdrawalProtection(db, protocol.compounds),
                            patient, protocol, durationDays, pk, draws, next)
  {
    var compounds := Resolve(db, protocol.compounds);
    if |compounds| == 0 {
      return Err("ValueError: No valid compounds in protocol");
    }
    var n := Timepoints(durationDays);
    if n < 0 {
      return Err("ValueError: negative dimensions are not allowed");
    }
    if n == 0 {
      return Err("ZeroDivisionError: float division by zero");
    }
    var run := Run(pk, patient, Zip(compounds, protocol.doses, protocol.frequencies), |compounds|);
    var error := DosingError(run.dosing, patient.metabolismRate);
    if error.Some? {
      return Err(error.value);
    }
    ghost var states, outs, records := Tabulate(run, n, draws, next);
    var painScores, analgesiaLevels, sideEffectLevels, gActivationLevels, betaActivationLevels, last, adverse :=
      SimulateTimesteps(run, n, draws, next, states, outs, records);
    TabulatedLevels(run, draws, next, states, outs, records, painScores[..], analgesiaLevels[..],
                    sideEffectLevels[..], gActivationLevels[..], betaActivationLevels[..]);
    TabulatedEnd(run, draws, next, states, outs, records);
    var outcome := Conclude(patient, WithdrawalProtection(db, protocol.compounds), draws,
                            painScores[..], analgesiaLevels[..], sideEffectLevels[..], gActivationLevels[..],
                            betaActivationLevels[..], last, adverse);
    r := Ok(outcome);
  }

  /** The outcomes computed after the timestep loop. */
  method Conclude(patient: PatientProfile, protected: bool, draws: Draws,
                  painScores: seq<real>, analgesiaLevels: seq<real>, sideEffectLevels: seq<real>,
                  gActivationLevels: seq<real>, betaActivationLevels: seq<real>, last: StepState, adverse: Adverse)
    returns (outcome: Simulated)
    requires |painScores| >= 1 && |analgesiaLevels| >= 1 && |sideEffectLevels| >= 1
    requires |gActivationLevels| >= 1 && |betaActivationLevels| >= 1
    ensures outcome == Assess(patient, protected, draws, painScores, analgesiaLevels, sideEffectLevels,
                              gActivationLevels, betaActivationLevels, last, adverse)
  {
    var n := |painScores|;
    var avgPainScore := Mean(painScores);
    var avgAnalgesia := Mean(analgesiaLevels);
    var avgSideEffects := Mean(sideEffectLevels);
    var avgGActivation := Mean(gActivationLevels);
    var avgBetaActivation := Mean(betaActivationLevels);
    var avgNeurotransmitters := NeurotransmitterAverages(last.neurotransmitters, n);
    var finalTolerance := last.tolerance;
    var success := avgPainScore < 4.0 && avgAnalgesia > 0.5 && avgSideEffects < 0.4 && finalTolerance < 0.5;
    var toleranceDeveloped := finalTolerance > 0.5;
    var addictionRisk := avgSideEffects * 0.25;
    if "depression" in patient.comorbidities {
      addictionRisk := addictionRisk * 1.5;
    }
    if "anxiety" in patient.comorbidities {
      addictionRisk := addictionRisk * 1.3;
    }
    var addictionSigns := draws.u(adverse.next) < addictionRisk;
    var withdrawalRisk;
    if protected {
      withdrawalRisk := 0.02;
    } else {
      withdrawalRisk := 0.15 + finalTolerance * 0.1;
    }
    var withdrawalSymptoms := draws.u(adverse.next + 1) < withdrawalRisk;
    var painImpact := (10.0 - avgPainScore) / 10.0;
    var sideEffectImpact := 1.0 - avgSideEffects;
    var qualityOfLife := painImpact * 0.6 + sideEffectImpact * 0.4;
    var adverseEvents := adverse.events;
    if avgSideEffects > 0.6 {
      adverseEvents := adverseEvents + ["Persistent side effects"];
    }
    if finalTolerance > 0.7 {
      adverseEvents := adverseEvents + ["Significant tolerance development"];
    }
    var result := SimulationResult(patient, success, toleranceDeveloped, addictionSigns, withdrawalSymptoms,
                                   adverseEvents, avgPainScore, avgAnalgesia, avgSideEffects, qualityOfLife,
                                   avgGActivation, avgBetaActivation, avgNeurotransmitters);
    outcome := Simulated(result, adverse.next + 2);
  }
}
