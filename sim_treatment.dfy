/**
 * The day/timestep state machine of simulate_patient_treatment and its
 * sequential use over a population (src/patient_sim_main.c).
 *
 * Every random_uniform() call is read from an explicit stream of draws:
 * day d consumes the draws start + d*(T+1) .. start + d*(T+1) + T - 1 for
 * the adverse-event checks of its T timesteps, then one more for the
 * adherence check if that check is reached.
 */
module SimTreatment {
  import opened Numeric
  import opened SimTypes
  import opened SimRng
  import opened SimPharmacology

  /** The variables simulate_patient_treatment carries from timestep to timestep. */
  datatype RunState = RunState(
    tolerance: real,
    sinceSr17018: real,
    sinceSr14968: real,
    sinceDpp26: real,
    maxBetaArrestin: real,
    cumulativeAnalgesia: real,
    adverseEvents: nat)

  /** Index of the draw for the adverse-event check of day d, timestep ts. */
  function AdverseDrawIndex(k: SimConstants, start: nat, day: nat, ts: nat): nat
  {
    start + day * (k.timestepsPerDay + 1) + ts
  }

  /** Index of the draw for the adherence check of day d. */
  function AdherenceDrawIndex(k: SimConstants, start: nat, day: nat): nat
  {
    AdverseDrawIndex(k, start, day, k.timestepsPerDay)
  }

  /** The mean daily pain over the first n days. */
  function TrialMean(pain: seq<real>, n: nat): real
    requires 1 <= n <= |pain|
  {
    Sum(pain[..n]) / n as real
  }

  predicate PainControlled(k: SimConstants, pain: seq<real>, d: nat)
    requires d < |pain|
  {
    pain[d] <= k.painControlFailure
  }

  predicate Adherent(p: PatientCharacteristics, k: SimConstants, draws: nat -> real, start: nat, d: nat)
  {
    draws(AdherenceDrawIndex(k, start, d)) <= p.adherenceProbability
  }

  /** The trial evaluation, which only happens on day TRIAL_PERIOD_DAYS. */
  predicate TrialPassed(k: SimConstants, pain: seq<real>, d: nat)
    requires k.Valid() && d < |pain|
  {
    d != k.trialPeriodDays || TrialMean(pain, d) <= 5.0
  }

  /** Day d passed all three checks, so the treatment went on. */
  predicate DayPassed(p: PatientCharacteristics, k: SimConstants, pain: seq<real>, draws: nat -> real, start: nat, d: nat)
    requires k.Valid() && d < |pain|
  {
    PainControlled(k, pain, d) && Adherent(p, k, draws, start, d) && TrialPassed(k, pain, d)
  }

  /** Days on which the loop ran: all of them, or up to and including the stop day. */
  function DaysRun(k: SimConstants, stop: int): nat
  {
    if stop < 0 then k.simulationDays else stop + 1
  }

  /** Draws consumed: the adherence draw is skipped on a day stopped for pain. */
  function DrawsUsed(k: SimConstants, stop: int, reason: Reason): int
  {
    DaysRun(k, stop) * (k.timestepsPerDay + 1) - (if reason == InadequateAnalgesia then 1 else 0)
  }

  /** The recorded per-day arrays: one entry per day, pain in [0, 10]. */
  predicate OutcomeShape(p: PatientCharacteristics, k: SimConstants, o: TreatmentOutcome)
  {
    o.patientId == p.patientId &&
    |o.dailyPainScores| == k.simulationDays && |o.analgesiaAchieved| == k.simulationDays &&
    (forall d :: 0 <= d < |o.dailyPainScores| ==> 0.0 <= o.dailyPainScores[d] <= 10.0)
  }

  /**
   * The stop rule: every day before the stop day passed all checks, the stop
   * day failed the check its reason names (and passed the ones before it),
   * and the days after it were never recorded.
   */
  predicate StopRule(p: PatientCharacteristics, k: SimConstants, draws: nat -> real, start: nat,
                     o: TreatmentOutcome, stop: int)
    requires k.Valid() && OutcomeShape(p, k, o)
  {
    var pain := o.dailyPainScores;
    -1 <= stop < k.simulationDays &&
    (stop == -1 <==> o.discontinuationReason == NotDiscontinued) &&
    (forall d :: 0 <= d < k.simulationDays && (stop == -1 || d < stop) ==>
       DayPassed(p, k, pain, draws, start, d)) &&
    (o.discontinuationReason == InadequateAnalgesia ==> !PainControlled(k, pain, stop)) &&
    (o.discontinuationReason == NonAdherence ==>
       PainControlled(k, pain, stop) && !Adherent(p, k, draws, start, stop)) &&
    (o.discontinuationReason == TrialFailure ==>
       stop == k.trialPeriodDays && PainControlled(k, pain, stop) &&
       Adherent(p, k, draws, start, stop) && !TrialPassed(k, pain, stop)) &&
    (forall d :: DaysRun(k, stop) <= d < k.simulationDays ==>
       pain[d] == 0.0 && o.analgesiaAchieved[d] == 0.0)
  }

  /**
   * Finalisation: success and day (a break on day 0 is relabelled as
   * success), cost of the days run, mean analgesia over all S*T timesteps,
   * QALY over the days before the break, tolerance flag.
   */
  predicate Finalised(k: SimConstants, o: TreatmentOutcome, stop: int)
    requires k.Valid()
  {
    var S := k.simulationDays;
    (stop <= 0 ==> o.treatmentSuccess && o.discontinuationDay == S) &&
    (stop > 0 ==> !o.treatmentSuccess && o.discontinuationDay == stop) &&
    o.totalCost == DaysRun(k, stop) as real * k.costPerDayDpp26 &&
    o.avgPainReduction == Sum(o.analgesiaAchieved) / S as real &&
    o.qalyGained == ((if stop > 0 then stop else S) as real / k.daysPerYear)
                      * k.qalyUtilityGainFactor * o.avgPainReduction &&
    o.finalToleranceLevel >= 0.0 &&
    (o.toleranceDeveloped <==> o.finalToleranceLevel > k.toleranceThreshold) &&
    !o.withdrawalOccurred &&
    o.adverseEventCount <= DaysRun(k, stop) * k.timestepsPerDay
  }

  /**
   * What simulate_patient_treatment promises about an outcome o, the day
   * stop on which the loop broke (-1 when it ran to the end), and the draw
   * position next after the patient.
   */
  predicate TreatmentFacts(p: PatientCharacteristics, protocol: Protocol, k: SimConstants, m: Transcendentals,
                           draws: nat -> real, start: nat, o: TreatmentOutcome, next: nat, stop: int)
    requires k.Valid()
  {
    OutcomeShape(p, k, o) && StopRule(p, k, draws, start, o, stop) && Finalised(k, o, stop) &&
    DailyRecord(p, protocol, k, m, draws, start, o, stop) &&
    next == start + DrawsUsed(k, stop, o.discontinuationReason)
  }

  /**
   * The outcome holds what the timesteps computed: for every day run, the
   * day's mean pain and mean analgesia, and from the state after the last
   * day run the final tolerance, the adverse-event count and the addiction
   * flag (peak beta-arrestin signal above addiction_risk_threshold / 100).
   */
  predicate DailyRecord(p: PatientCharacteristics, protocol: Protocol, k: SimConstants, m: Transcendentals,
                        draws: nat -> real, start: nat, o: TreatmentOutcome, stop: int)
    requires k.Valid()
  {
    Recorded(k, m, p, AdjustedDoses(p, protocol), ClearanceFactor(p, k, m), draws, start, o, stop)
  }

  /** DailyRecord for given adjusted doses and clearance factor. */
  predicate Recorded(k: SimConstants, m: Transcendentals, p: PatientCharacteristics, doses: Protocol, cl: real,
                     draws: nat -> real, start: nat, o: TreatmentOutcome, stop: int)
    requires k.Valid() && cl > 0.0
  {
    var n := DaysRun(k, stop);
    var last := StateBefore(k, m, p, doses, cl, draws, start, n);
    n <= k.simulationDays &&
    |o.dailyPainScores| == k.simulationDays && |o.analgesiaAchieved| == k.simulationDays &&
    (forall d {:trigger DailyPain(k, m, p, doses, cl, draws, start, d)} :: 0 <= d < n ==>
       o.dailyPainScores[d] == DailyPain(k, m, p, doses, cl, draws, start, d) &&
       o.analgesiaAchieved[d] == DailyAnalgesia(k, m, p, doses, cl, draws, start, d)) &&
    o.finalToleranceLevel == last.tolerance && o.adverseEventCount == last.adverseEvents &&
    (o.addictionSigns <==> last.maxBetaArrestin > k.addictionRiskThreshold / 100.0)
  }

  /** The dosing clock of a compound restarts when fmodf(hour, period) < dt. */
  function ResetIfDue(since: real, hour: real, period: real, dt: real): real
    requires hour >= 0.0 && period > 0.0
  {
    if FMod(hour, period) < dt then 0.0 else since
  }

  /** The hour of a timestep is never negative. */
  lemma HourNonNegative(k: SimConstants, day: nat, ts: nat)
    requires k.timestepsPerDay >= 1
    ensures Hour(k, day, ts) >= 0.0
  {
    assert k.Dt() > 0.0;
    assert ts as real * k.Dt() >= 0.0;
  }

  /** One timestep's pain score, analgesia and carried state. */
  datatype StepResult = StepResult(pain: real, analgesia: real, state: RunState)

  /** The day's running pain and analgesia sums and the carried state. */
  datatype DayTotals = DayTotals(painSum: real, analgesiaSum: real, state: RunState)

  /** The start of simulate_patient_treatment: all variables zero. */
  const InitialState := RunState(0.0, 0.0, 0.0, 0.0, 0.0, 0.0, 0)

  /**
   * Timestep ts of day `day` from state st, with `draw` the uniform of its
   * adverse-event check: dosing clocks, the three concentrations, receptor
   * state, genetically modulated analgesia, clamped pain, the adverse event,
   * and the advanced clocks.
   */
  function Timestep(k: SimConstants, m: Transcendentals, p: PatientCharacteristics, doses: Protocol, cl: real,
                    day: nat, ts: nat, st: RunState, draw: real): (r: StepResult)
    requires k.Valid() && cl > 0.0 && st.tolerance >= 0.0
    ensures 0.0 <= r.pain <= 10.0 && r.state.tolerance >= 0.0
    ensures r.state.cumulativeAnalgesia == st.cumulativeAnalgesia + r.analgesia
    ensures st.adverseEvents <= r.state.adverseEvents <= st.adverseEvents + 1
    ensures r.state.maxBetaArrestin >= st.maxBetaArrestin
  {
    var dt := k.Dt();
    var hour := Hour(k, day, ts);
    HourNonNegative(k, day, ts);
    var t17 := ResetIfDue(st.sinceSr17018, hour, 12.0, dt);
    var t14 := ResetIfDue(st.sinceSr14968, hour, 24.0, dt);
    var tD := ResetIfDue(st.sinceDpp26, hour, 6.0, dt);
    var c17 := Concentration(doses.sr17018Dose, k.sr17018.tHalf, k.sr17018.bioavailability, cl, t17, m);
    var c14 := Concentration(doses.sr14968Dose, k.sr14968.tHalf, k.sr14968.bioavailability, cl, t14, m);
    var cD := Concentration(doses.dpp26Dose, k.dpp26.tHalf, k.dpp26.bioavailability, cl, tD, m);
    var receptor := ReceptorDynamics(k, c17, c14, cD, st.tolerance);
    var analgesia := Analgesia(receptor.muReceptorActivity, p);
    var pain := PainScore(p.baselinePainScore, analgesia);
    var adverse := if draw < 0.001 * receptor.betaArrestinSignal then st.adverseEvents + 1 else st.adverseEvents;
    StepResult(pain, analgesia,
      RunState(receptor.toleranceLevel, t17 + dt, t14 + dt, tD + dt,
               Max(st.maxBetaArrestin, receptor.betaArrestinSignal),
               st.cumulativeAnalgesia + analgesia, adverse))
  }

  /** SR-17018's bound fraction at timestep ts of day `day` from state st. */
  function Sr17018Binding(k: SimConstants, m: Transcendentals, doses: Protocol, cl: real,
                          day: nat, ts: nat, st: RunState): real
    requires k.Valid() && cl > 0.0
  {
    HourNonNegative(k, day, ts);
    var t17 := ResetIfDue(st.sinceSr17018, Hour(k, day, ts), 12.0, k.Dt());
    Binding(Concentration(doses.sr17018Dose, k.sr17018.tHalf, k.sr17018.bioavailability, cl, t17, m),
            k.sr17018.kiAllosteric1)
  }

  /**
   * The first n timesteps of day `day` from state s, whose adverse-event
   * draws start at `cursor`.
   */
  function DayPrefix(k: SimConstants, m: Transcendentals, p: PatientCharacteristics, doses: Protocol, cl: real,
                     day: nat, s: RunState, draws: nat -> real, cursor: nat, n: nat): (r: DayTotals)
    requires k.Valid() && cl > 0.0 && s.tolerance >= 0.0
    ensures 0.0 <= r.painSum <= 10.0 * n as real
    ensures r.state.tolerance >= 0.0
    ensures r.state.cumulativeAnalgesia == s.cumulativeAnalgesia + r.analgesiaSum
    ensures s.adverseEvents <= r.state.adverseEvents <= s.adverseEvents + n
    ensures r.state.maxBetaArrestin >= s.maxBetaArrestin
    decreases n, 0
  {
    if n == 0 then DayTotals(0.0, 0.0, s)
    else
      var prev := DayPrefix(k, m, p, doses, cl, day, s, draws, cursor, n - 1);
      var step := StepAt(k, m, p, doses, cl, day, s, draws, cursor, n - 1);
      DayTotals(prev.painSum + step.pain, prev.analgesiaSum + step.analgesia, step.state)
  }

  /**
   * Timestep ts of that day: the timestep taken from the state the first ts
   * timesteps reach, with the draw at cursor + ts.
   */
  function StepAt(k: SimConstants, m: Transcendentals, p: PatientCharacteristics, doses: Protocol, cl: real,
                  day: nat, s: RunState, draws: nat -> real, cursor: nat, ts: nat): StepResult
    requires k.Valid() && cl > 0.0 && s.tolerance >= 0.0
    decreases ts, 1
  {
    Timestep(k, m, p, doses, cl, day, ts, DayPrefix(k, m, p, doses, cl, day, s, draws, cursor, ts).state,
             draws(cursor + ts))
  }

  /** One more timestep extends the day's prefix. */
  lemma DayPrefixNext(k: SimConstants, m: Transcendentals, p: PatientCharacteristics, doses: Protocol, cl: real,
                      day: nat, s: RunState, draws: nat -> real, cursor: nat, n: nat)
    requires k.Valid() && cl > 0.0 && s.tolerance >= 0.0
    ensures var prev := DayPrefix(k, m, p, doses, cl, day, s, draws, cursor, n);
      var step := Timestep(k, m, p, doses, cl, day, n, prev.state, draws(cursor + n));
      DayPrefix(k, m, p, doses, cl, day, s, draws, cursor, n + 1) ==
        DayTotals(prev.painSum + step.pain, prev.analgesiaSum + step.analgesia, step.state)
  {
    assert StepAt(k, m, p, doses, cl, day, s, draws, cursor, n) ==
           Timestep(k, m, p, doses, cl, day, n, DayPrefix(k, m, p, doses, cl, day, s, draws, cursor, n).state,
                    draws(cursor + n));
  }

  /** The whole of day `day` from state s, reading its draws from `start`. */
  function Day(k: SimConstants, m: Transcendentals, p: PatientCharacteristics, doses: Protocol, cl: real,
               draws: nat -> real, start: nat, day: nat, s: RunState): (r: DayTotals)
    requires k.Valid() && cl > 0.0 && s.tolerance >= 0.0
    ensures r.state.tolerance >= 0.0
  {
    DayPrefix(k, m, p, doses, cl, day, s, draws, AdverseDrawIndex(k, start, day, 0), k.timestepsPerDay)
  }

  /** The state carried into day d when every earlier day was simulated. */
  function StateBefore(k: SimConstants, m: Transcendentals, p: PatientCharacteristics, doses: Protocol, cl: real,
                       draws: nat -> real, start: nat, d: nat): (s: RunState)
    requires k.Valid() && cl > 0.0
    ensures s.tolerance >= 0.0
  {
    if d == 0 then InitialState
    else Day(k, m, p, doses, cl, draws, start, d - 1, StateBefore(k, m, p, doses, cl, draws, start, d - 1)).state
  }

  /** daily_pain_scores[d]: the mean of day d's timestep pain scores. */
  function DailyPain(k: SimConstants, m: Transcendentals, p: PatientCharacteristics, doses: Protocol, cl: real,
                     draws: nat -> real, start: nat, d: nat): real
    requires k.Valid() && cl > 0.0
  {
    Day(k, m, p, doses, cl, draws, start, d, StateBefore(k, m, p, doses, cl, draws, start, d)).painSum
      / k.timestepsPerDay as real
  }

  /** analgesia_achieved[d]: the mean of day d's timestep analgesia. */
  function DailyAnalgesia(k: SimConstants, m: Transcendentals, p: PatientCharacteristics, doses: Protocol, cl: real,
                          draws: nat -> real, start: nat, d: nat): real
    requires k.Valid() && cl > 0.0
  {
    Day(k, m, p, doses, cl, draws, start, d, StateBefore(k, m, p, doses, cl, draws, start, d)).analgesiaSum
      / k.timestepsPerDay as real
  }

  /**
   * The T timesteps of one day: the running pain and analgesia sums and the
   * state after the last timestep are DayPrefix over the whole day.
   */
  method DayLoop(k: SimConstants, m: Transcendentals, p: PatientCharacteristics, doses: Protocol,
                 cl: real, day: nat, s: RunState, draws: nat -> real, cursor: nat)
    returns (painSum: real, analgesiaSum: real, st: RunState)
    requires k.Valid() && cl > 0.0 && s.tolerance >= 0.0
    ensures DayPrefix(k, m, p, doses, cl, day, s, draws, cursor, k.timestepsPerDay) ==
            DayTotals(painSum, analgesiaSum, st)
  {
    painSum := 0.0;
    analgesiaSum := 0.0;
    st := s;
    var ts := 0;
    while ts < k.timestepsPerDay
      invariant 0 <= ts <= k.timestepsPerDay
      invariant DayPrefix(k, m, p, doses, cl, day, s, draws, cursor, ts) == DayTotals(painSum, analgesiaSum, st)
    {
      var step := Timestep(k, m, p, doses, cl, day, ts, st, draws(cursor + ts));
      DayPrefixNext(k, m, p, doses, cl, day, s, draws, cursor, ts);
      painSum := painSum + step.pain;
      analgesiaSum := analgesiaSum + step.analgesia;
      st := step.state;
      ts := ts + 1;
    }
  }

  /**
   * One simulated day, computing Day: the day's mean pain and mean analgesia
   * over its T timesteps and the state carried into the next day.
   */
  method SimulateDay(k: SimConstants, m: Transcendentals, p: PatientCharacteristics, doses: Protocol,
                     cl: real, day: nat, s: RunState, draws: nat -> real, cursor: nat)
    returns (painMean: real, analgesiaMean: real, s': RunState)
    requires k.Valid() && cl > 0.0 && s.tolerance >= 0.0
    ensures var r := DayPrefix(k, m, p, doses, cl, day, s, draws, cursor, k.timestepsPerDay);
      painMean == r.painSum / k.timestepsPerDay as real &&
      analgesiaMean == r.analgesiaSum / k.timestepsPerDay as real && s' == r.state
    ensures 0.0 <= painMean <= 10.0
    ensures s'.tolerance >= 0.0
    ensures s'.cumulativeAnalgesia == s.cumulativeAnalgesia + k.timestepsPerDay as real * analgesiaMean
    ensures s.adverseEvents <= s'.adverseEvents <= s.adverseEvents + k.timestepsPerDay
    ensures s'.maxBetaArrestin >= s.maxBetaArrestin
  {
    var painSum, analgesiaSum, st := DayLoop(k, m, p, doses, cl, day, s, draws, cursor);
    MeanWithin(painSum, k.timestepsPerDay, 10.0);
    painMean := painSum / k.timestepsPerDay as real;
    analgesiaMean := analgesiaSum / k.timestepsPerDay as real;
    AddMean(k, s, st, analgesiaSum, analgesiaMean);
    s' := st;
  }

  /** Adding a day's analgesia total is adding T times its mean. */
  lemma AddMean(k: SimConstants, s: RunState, s': RunState, total: real, mean: real)
    requires k.timestepsPerDay >= 1 && s'.cumulativeAnalgesia == s.cumulativeAnalgesia + total
    requires mean == total / k.timestepsPerDay as real
    ensures s'.cumulativeAnalgesia == s.cumulativeAnalgesia + k.timestepsPerDay as real * mean
  {
    CountTimesMean(total, k.timestepsPerDay);
  }

  /**
   * With all three doses zero, every timestep of a day gives analgesia 0 and
   * pain PainScore(baseline, 0), and the tolerance stays where it was.
   */
  lemma {:induction false} ZeroDoseDayPrefix(k: SimConstants, m: Transcendentals, p: PatientCharacteristics,
                                             doses: Protocol, cl: real, day: nat, s: RunState,
                                             draws: nat -> real, cursor: nat, n: nat)
    requires k.Valid() && cl > 0.0 && s.tolerance >= 0.0
    requires doses == Protocol(0.0, 0.0, 0.0)
    ensures var r := DayPrefix(k, m, p, doses, cl, day, s, draws, cursor, n);
      r.analgesiaSum == 0.0 && r.painSum == Repeat(PainScore(p.baselinePainScore, 0.0), n) &&
      r.state.tolerance == s.tolerance
  {
    if n > 0 {
      ZeroDoseDayPrefix(k, m, p, doses, cl, day, s, draws, cursor, n - 1);
      var prev := DayPrefix(k, m, p, doses, cl, day, s, draws, cursor, n - 1);
      var step := Timestep(k, m, p, doses, cl, day, n - 1, prev.state, draws(cursor + n - 1));
      ZeroDoseStep(k, m, p, doses, cl, day, n - 1, prev.state, draws(cursor + n - 1));
      DayPrefixNext(k, m, p, doses, cl, day, s, draws, cursor, n - 1);
      assert DayPrefix(k, m, p, doses, cl, day, s, draws, cursor, n) ==
             DayTotals(prev.painSum + step.pain, prev.analgesiaSum + step.analgesia, step.state);
    }
  }

  lemma ZeroDoseStep(k: SimConstants, m: Transcendentals, p: PatientCharacteristics, doses: Protocol, cl: real,
                     day: nat, ts: nat, st: RunState, draw: real)
    requires k.Valid() && cl > 0.0 && st.tolerance >= 0.0
    requires doses == Protocol(0.0, 0.0, 0.0)
    ensures var r := Timestep(k, m, p, doses, cl, day, ts, st, draw);
      r.analgesia == 0.0 && r.pain == PainScore(p.baselinePainScore, 0.0) && r.state.tolerance == st.tolerance
  {
    var dt := k.Dt();
    var hour := Hour(k, day, ts);
    var t17 := ResetIfDue(st.sinceSr17018, hour, 12.0, dt);
    var t14 := ResetIfDue(st.sinceSr14968, hour, 24.0, dt);
    var tD := ResetIfDue(st.sinceDpp26, hour, 6.0, dt);
    ZeroDoseConcentration(k.sr17018.tHalf, k.sr17018.bioavailability, cl, t17, m);
    ZeroDoseConcentration(k.sr14968.tHalf, k.sr14968.bioavailability, cl, t14, m);
    ZeroDoseConcentration(k.dpp26.tHalf, k.dpp26.bioavailability, cl, tD, m);
    var receptor := ReceptorDynamics(k, 0.0, 0.0, 0.0, st.tolerance);
    assert Activation(k, 0.0, 0.0, 0.0) == 0.0;
    assert receptor.muReceptorActivity == 0.0;
    assert ToleranceRate(k, 0.0, 0.0) == 0.0;
  }

  lemma ZeroDoseConcentration(tHalf: real, bioavail: real, cl: real, t: real, m: Transcendentals)
    requires tHalf > 0.0 && cl > 0.0
    ensures Concentration(0.0, tHalf, bioavail, cl, t, m) == 0.0
  {
  }

  /** With all doses zero no tolerance builds: every day starts at tolerance 0. */
  lemma {:induction false} ZeroDoseTolerance(k: SimConstants, m: Transcendentals, p: PatientCharacteristics,
                                             cl: real, draws: nat -> real, start: nat, d: nat)
    requires k.Valid() && cl > 0.0
    ensures StateBefore(k, m, p, Protocol(0.0, 0.0, 0.0), cl, draws, start, d).tolerance == 0.0
  {
    if d > 0 {
      var doses := Protocol(0.0, 0.0, 0.0);
      ZeroDoseTolerance(k, m, p, cl, draws, start, d - 1);
      var prev := StateBefore(k, m, p, doses, cl, draws, start, d - 1);
      var cursor := AdverseDrawIndex(k, start, d - 1, 0);
      ZeroDoseDayPrefix(k, m, p, doses, cl, d - 1, prev, draws, cursor, k.timestepsPerDay);
      assert StateBefore(k, m, p, doses, cl, draws, start, d) ==
             DayPrefix(k, m, p, doses, cl, d - 1, prev, draws, cursor, k.timestepsPerDay).state;
    }
  }

  /**
   * With all doses zero, each simulated day's mean analgesia is 0 and its
   * mean pain is the baseline (clamped to [0, 10]), and no tolerance builds.
   */
  lemma ZeroDoseDays(k: SimConstants, m: Transcendentals, p: PatientCharacteristics, cl: real,
                     draws: nat -> real, start: nat, d: nat)
    requires k.Valid() && cl > 0.0
    ensures var doses := Protocol(0.0, 0.0, 0.0);
      DailyAnalgesia(k, m, p, doses, cl, draws, start, d) == 0.0 &&
      DailyPain(k, m, p, doses, cl, draws, start, d) == Clamp(p.baselinePainScore, 0.0, 10.0) &&
      StateBefore(k, m, p, doses, cl, draws, start, d).tolerance == 0.0
  {
    var doses := Protocol(0.0, 0.0, 0.0);
    ZeroDoseTolerance(k, m, p, cl, draws, start, d);
    var s := StateBefore(k, m, p, doses, cl, draws, start, d);
    ZeroDoseDayPrefix(k, m, p, doses, cl, d, s, draws, AdverseDrawIndex(k, start, d, 0), k.timestepsPerDay);
    var pz := PainScore(p.baselinePainScore, 0.0);
    assert pz == Clamp(p.baselinePainScore, 0.0, 10.0);
    RepeatMean(pz, k.timestepsPerDay);
  }

  /**
   * Without reversal: if SR-17018's binding never exceeds 0.3 over the first
   * n timesteps and DPP-26's tolerance rate is non-negative, tolerance does
   * not fall over them.
   */
  lemma {:induction false} NoReversalDayPrefix(k: SimConstants, m: Transcendentals, p: PatientCharacteristics,
                                               doses: Protocol, cl: real, day: nat, s: RunState,
                                               draws: nat -> real, cursor: nat, n: nat)
    requires k.Valid() && cl > 0.0 && s.tolerance >= 0.0 && k.dpp26.toleranceRate >= 0.0
    requires forall j :: 0 <= j < n ==>
      Sr17018Binding(k, m, doses, cl, day, j, DayPrefix(k, m, p, doses, cl, day, s, draws, cursor, j).state) <= 0.3
    ensures DayPrefix(k, m, p, doses, cl, day, s, draws, cursor, n).state.tolerance >= s.tolerance
  {
    if n > 0 {
      NoReversalDayPrefix(k, m, p, doses, cl, day, s, draws, cursor, n - 1);
      var prev := DayPrefix(k, m, p, doses, cl, day, s, draws, cursor, n - 1);
      assert Sr17018Binding(k, m, doses, cl, day, n - 1, prev.state) <= 0.3;
      NoReversalStep(k, m, p, doses, cl, day, n - 1, prev.state, draws(cursor + n - 1));
      var step := Timestep(k, m, p, doses, cl, day, n - 1, prev.state, draws(cursor + n - 1));
      DayPrefixNext(k, m, p, doses, cl, day, s, draws, cursor, n - 1);
      assert DayPrefix(k, m, p, doses, cl, day, s, draws, cursor, n).state == step.state;
      assert step.state.tolerance >= s.tolerance;
    }
  }

  /** A timestep whose SR-17018 binding is at most 0.3 does not lower tolerance. */
  lemma NoReversalStep(k: SimConstants, m: Transcendentals, p: PatientCharacteristics, doses: Protocol, cl: real,
                       day: nat, ts: nat, st: RunState, draw: real)
    requires k.Valid() && cl > 0.0 && st.tolerance >= 0.0 && k.dpp26.toleranceRate >= 0.0
    requires Sr17018Binding(k, m, doses, cl, day, ts, st) <= 0.3
    ensures Timestep(k, m, p, doses, cl, day, ts, st, draw).state.tolerance >= st.tolerance
  {
  }

  lemma NoSr17018Binding(k: SimConstants, m: Transcendentals, doses: Protocol, cl: real,
                         day: nat, ts: nat, st: RunState)
    requires k.Valid() && cl > 0.0 && doses.sr17018Dose == 0.0
    ensures Sr17018Binding(k, m, doses, cl, day, ts, st) == 0.0
  {
    var t17 := ResetIfDue(st.sinceSr17018, Hour(k, day, ts), 12.0, k.Dt());
    ZeroDoseConcentration(k.sr17018.tHalf, k.sr17018.bioavailability, cl, t17, m);
  }

  /**
   * Without SR-17018 there is no reversal, so with a non-negative DPP-26
   * tolerance rate the tolerance carried from day to day never falls.
   */
  lemma {:induction false} ToleranceMonotoneWithoutSr17018(k: SimConstants, m: Transcendentals,
                                                           p: PatientCharacteristics, doses: Protocol, cl: real,
                                                           draws: nat -> real, start: nat, d: nat)
    requires k.Valid() && cl > 0.0 && k.dpp26.toleranceRate >= 0.0 && doses.sr17018Dose == 0.0
    ensures StateBefore(k, m, p, doses, cl, draws, start, d).tolerance <=
            StateBefore(k, m, p, doses, cl, draws, start, d + 1).tolerance
  {
    var s := StateBefore(k, m, p, doses, cl, draws, start, d);
    var cursor := AdverseDrawIndex(k, start, d, 0);
    forall j | 0 <= j < k.timestepsPerDay
      ensures Sr17018Binding(k, m, doses, cl, d, j, DayPrefix(k, m, p, doses, cl, d, s, draws, cursor, j).state) <= 0.3
    {
      NoSr17018Binding(k, m, doses, cl, d, j, DayPrefix(k, m, p, doses, cl, d, s, draws, cursor, j).state);
    }
    NoReversalDayPrefix(k, m, p, doses, cl, d, s, draws, cursor, k.timestepsPerDay);
  }

  /** The trial-period loop: the mean of the first n daily pain scores. */
  method TrialAveragePain(pain: seq<real>, n: nat) returns (avg: real)
    requires 1 <= n <= |pain|
    ensures avg == TrialMean(pain, n)
  {
    avg := 0.0;
    var i := 0;
    while i < n
      invariant 0 <= i <= n
      invariant avg == Sum(pain[..i])
    {
      SumPrefixStep(pain, i);
      avg := avg + pain[i];
      i := i + 1;
    }
    avg := avg / n as real;
  }

  /**
   * The end-of-day checks in their order: pain control, then adherence
   * (one draw), then on day TRIAL_PERIOD_DAYS the mean of the earlier days.
   */
  method EndOfDayChecks(p: PatientCharacteristics, k: SimConstants, pain: seq<real>,
                        draws: nat -> real, start: nat, day: nat) returns (verdict: Reason)
    requires k.Valid() && day < |pain|
    ensures verdict == NotDiscontinued <==> DayPassed(p, k, pain, draws, start, day)
    ensures verdict == InadequateAnalgesia <==> !PainControlled(k, pain, day)
    ensures verdict == NonAdherence <==> PainControlled(k, pain, day) && !Adherent(p, k, draws, start, day)
    ensures verdict == TrialFailure <==>
      PainControlled(k, pain, day) && Adherent(p, k, draws, start, day) && !TrialPassed(k, pain, day)
  {
    if pain[day] > k.painControlFailure {
      return InadequateAnalgesia;
    }
    if draws(AdherenceDrawIndex(k, start, day)) > p.adherenceProbability {
      return NonAdherence;
    }
    if day == k.trialPeriodDays {
      var avgPain := TrialAveragePain(pain, k.trialPeriodDays);
      if avgPain > 5.0 {
        return TrialFailure;
      }
    }
    return NotDiscontinued;
  }

  /** The cumulative analgesia over S*T timesteps, as a mean of the daily means. */
  lemma AverageOfDays(total: real, t: nat, s: nat)
    requires t >= 1 && s >= 1
    ensures (t as real * total) / (s * t) as real == total / s as real
  {
    assert (s * t) as real == s as real * t as real;
  }

  /** cumulative_analgesia / (S*T): the mean of the daily mean analgesia. */
  function MeanOverTimesteps(cumulative: real, analgesia: seq<real>, s: nat, t: nat): (m: real)
    requires s >= 1 && t >= 1 && cumulative == t as real * Sum(analgesia)
    ensures m == Sum(analgesia) / s as real
  {
    AverageOfDays(Sum(analgesia), t, s);
    cumulative / (s * t) as real
  }

  /**
   * The outcome fields computed after the day loop from its final state;
   * stop is the day the loop broke on, or -1, and discontinuation_day is
   * still 0 when the loop did not break.
   */
  function Finalise(p: PatientCharacteristics, k: SimConstants, pain: seq<real>, analgesia: seq<real>,
                    st: RunState, totalCost: real, stop: int, reason: Reason): (o: TreatmentOutcome)
    requires k.Valid() && -1 <= stop < k.simulationDays && st.tolerance >= 0.0
    requires st.cumulativeAnalgesia == T(k) * Sum(analgesia)
    requires totalCost == DaysRun(k, stop) as real * k.costPerDayDpp26
    requires st.adverseEvents <= DaysRun(k, stop) * k.timestepsPerDay
    ensures o.dailyPainScores == pain && o.analgesiaAchieved == analgesia
    ensures o.patientId == p.patientId && o.discontinuationReason == reason
    ensures Finalised(k, o, stop)
    ensures o.finalToleranceLevel == st.tolerance && o.adverseEventCount == st.adverseEvents
    ensures o.addictionSigns <==> st.maxBetaArrestin > k.addictionRiskThreshold / 100.0
  {
    var S := k.simulationDays;
    var T := k.timestepsPerDay;
    var discontinuationDay := if stop < 0 then 0 else stop;
    var avgPainReduction := MeanOverTimesteps(st.cumulativeAnalgesia, analgesia, S, T);
    var qalyDays := if discontinuationDay > 0 then discontinuationDay as real else S as real;
    assert qalyDays == (if stop > 0 then stop else S) as real;
    var success := discontinuationDay == 0;
    var day := if discontinuationDay == 0 then S else discontinuationDay;
    assert success == (stop <= 0) && day == (if stop > 0 then stop else S);
    TreatmentOutcome(
      p.patientId, pain, analgesia, success, day, reason, avgPainReduction,
      st.tolerance > k.toleranceThreshold,
      st.maxBetaArrestin > k.addictionRiskThreshold / 100.0,
      false, st.adverseEvents, st.tolerance, totalCost,
      (qalyDays / k.daysPerYear) * k.qalyUtilityGainFactor * avgPainReduction)
  }

  /** Overwriting day `day` of the pain record keeps every earlier day's verdict. */
  lemma PassedDaysKept(p: PatientCharacteristics, k: SimConstants, before: seq<real>, after: seq<real>,
                       draws: nat -> real, start: nat, day: nat)
    requires k.Valid() && day < |before| == |after|
    requires forall i :: 0 <= i < day ==> before[i] == after[i]
    requires forall d :: 0 <= d < day ==> DayPassed(p, k, before, draws, start, d)
    ensures forall d :: 0 <= d < day ==> DayPassed(p, k, after, draws, start, d)
  {
    forall d | 0 <= d < day
      ensures DayPassed(p, k, after, draws, start, d)
    {
      assert DayPassed(p, k, before, draws, start, d);
      assert before[..d] == after[..d];
    }
  }

  /** The timesteps per day as a real. */
  function T(k: SimConstants): real
  {
    k.timestepsPerDay as real
  }

  /** Counting one more day in cost, timesteps and draws. */
  lemma DayCounts(k: SimConstants, day: nat)
    ensures (day + 1) as real * k.costPerDayDpp26 == day as real * k.costPerDayDpp26 + k.costPerDayDpp26
    ensures (day + 1) * k.timestepsPerDay == day * k.timestepsPerDay + k.timestepsPerDay
    ensures (day + 1) * (k.timestepsPerDay + 1) == day * (k.timestepsPerDay + 1) + k.timestepsPerDay + 1
  {
  }

  /** The state of the day loop after `day` days that all passed their checks. */
  predicate DaysSoFar(p: PatientCharacteristics, k: SimConstants, draws: nat -> real, start: nat, day: nat,
                      pain: seq<real>, analgesia: seq<real>, st: RunState, totalCost: real)
    requires k.Valid()
  {
    var S := k.simulationDays;
    day <= S && |pain| == S && |analgesia| == S &&
    (forall d :: 0 <= d < S ==> 0.0 <= pain[d] <= 10.0) &&
    (forall d :: day <= d < S ==> pain[d] == 0.0 && analgesia[d] == 0.0) &&
    (forall d :: 0 <= d < day ==> DayPassed(p, k, pain, draws, start, d)) &&
    totalCost == day as real * k.costPerDayDpp26 &&
    st.tolerance >= 0.0 &&
    st.cumulativeAnalgesia == T(k) * Sum(analgesia) &&
    st.adverseEvents <= day * k.timestepsPerDay
  }

  /**
   * The state when the day loop ends: on day breakDay for the failed check
   * named by reason, or after all days (breakDay == -1).
   */
  predicate DaysEnded(p: PatientCharacteristics, k: SimConstants, draws: nat -> real, start: nat,
                      pain: seq<real>, analgesia: seq<real>, st: RunState, totalCost: real,
                      breakDay: int, reason: Reason)
    requires k.Valid()
  {
    EndedRecord(p, k, draws, start, pain, analgesia, st, totalCost, breakDay, reason) &&
    EndedBy(p, k, draws, start, pain, breakDay, reason)
  }

  /** What the daily arrays, the cost and the run state hold when the loop ends. */
  predicate EndedRecord(p: PatientCharacteristics, k: SimConstants, draws: nat -> real, start: nat,
                        pain: seq<real>, analgesia: seq<real>, st: RunState, totalCost: real,
                        breakDay: int, reason: Reason)
    requires k.Valid()
  {
    var S := k.simulationDays;
    -1 <= breakDay < S &&
    (breakDay == -1 <==> reason == NotDiscontinued) &&
    |pain| == S && |analgesia| == S &&
    (forall d :: 0 <= d < S ==> 0.0 <= pain[d] <= 10.0) &&
    (forall d :: DaysRun(k, breakDay) <= d < S ==> pain[d] == 0.0 && analgesia[d] == 0.0) &&
    (forall d :: 0 <= d < S && (breakDay == -1 || d < breakDay) ==> DayPassed(p, k, pain, draws, start, d)) &&
    totalCost == DaysRun(k, breakDay) as real * k.costPerDayDpp26 &&
    st.tolerance >= 0.0 &&
    st.cumulativeAnalgesia == T(k) * Sum(analgesia) &&
    st.adverseEvents <= DaysRun(k, breakDay) * k.timestepsPerDay
  }

  /** The check that failed on the stop day, in the order the engine tests them. */
  predicate EndedBy(p: PatientCharacteristics, k: SimConstants, draws: nat -> real, start: nat,
                    pain: seq<real>, breakDay: int, reason: Reason)
    requires k.Valid()
  {
    match reason
    case NotDiscontinued => true
    case InadequateAnalgesia => 0 <= breakDay < |pain| && !PainControlled(k, pain, breakDay)
    case NonAdherence =>
      0 <= breakDay < |pain| && PainControlled(k, pain, breakDay) && !Adherent(p, k, draws, start, breakDay)
    case TrialFailure =>
      0 <= breakDay < |pain| && PainControlled(k, pain, breakDay) && Adherent(p, k, draws, start, breakDay) &&
      !TrialPassed(k, pain, breakDay)
  }

  /** Before the first day. */
  lemma NoDaysYet(p: PatientCharacteristics, k: SimConstants, draws: nat -> real, start: nat)
    requires k.Valid()
    ensures DaysSoFar(p, k, draws, start, 0, seq(k.simulationDays, _ => 0.0), seq(k.simulationDays, _ => 0.0),
                      InitialState, 0.0)
  {
    SumOfZeros(seq(k.simulationDays, _ => 0.0));
  }

  /** After all days passed, the loop ended without a break. */
  lemma AllDaysPassed(p: PatientCharacteristics, k: SimConstants, draws: nat -> real, start: nat,
                      pain: seq<real>, analgesia: seq<real>, st: RunState, totalCost: real)
    requires k.Valid() && DaysSoFar(p, k, draws, start, k.simulationDays, pain, analgesia, st, totalCost)
    ensures DaysEnded(p, k, draws, start, pain, analgesia, st, totalCost, -1, NotDiscontinued)
  {
  }

  /** The loop state once day `day` has been recorded, before its checks. */
  predicate DayRecorded(p: PatientCharacteristics, k: SimConstants, draws: nat -> real, start: nat, day: nat,
                        pain: seq<real>, analgesia: seq<real>, st: RunState, totalCost: real)
    requires k.Valid()
  {
    var S := k.simulationDays;
    day < S && |pain| == S && |analgesia| == S &&
    (forall d :: 0 <= d < S ==> 0.0 <= pain[d] <= 10.0) &&
    (forall d :: day < d < S ==> pain[d] == 0.0 && analgesia[d] == 0.0) &&
    (forall d :: 0 <= d < day ==> DayPassed(p, k, pain, draws, start, d)) &&
    totalCost == (day + 1) as real * k.costPerDayDpp26 &&
    st.tolerance >= 0.0 &&
    st.cumulativeAnalgesia == T(k) * Sum(analgesia) &&
    st.adverseEvents <= (day + 1) * k.timestepsPerDay
  }

  /** Writing the day's means and cost into a state that passed every earlier day. */
  lemma RecordDay(p: PatientCharacteristics, k: SimConstants, draws: nat -> real, start: nat, day: nat,
                  pain: seq<real>, analgesia: seq<real>, st: RunState, totalCost: real,
                  pm: real, am: real, st': RunState)
    requires k.Valid() && day < k.simulationDays
    requires DaysSoFar(p, k, draws, start, day, pain, analgesia, st, totalCost)
    requires 0.0 <= pm <= 10.0 && st'.tolerance >= 0.0
    requires st'.cumulativeAnalgesia == st.cumulativeAnalgesia + k.timestepsPerDay as real * am
    requires st'.adverseEvents <= st.adverseEvents + k.timestepsPerDay
    ensures DayRecorded(p, k, draws, start, day, pain[day := pm], analgesia[day := am], st',
                        totalCost + k.costPerDayDpp26)
  {
    SumOverwriteZero(analgesia, day, am);
    PassedDaysKept(p, k, pain, pain[day := pm], draws, start, day);
    DayCounts(k, day);
    assert T(k) * Sum(analgesia[day := am]) == T(k) * Sum(analgesia) + T(k) * am;
  }

  /** A recorded day that passes its checks extends the run. */
  lemma PassDay(p: PatientCharacteristics, k: SimConstants, draws: nat -> real, start: nat, day: nat,
                pain: seq<real>, analgesia: seq<real>, st: RunState, totalCost: real)
    requires k.Valid() && DayRecorded(p, k, draws, start, day, pain, analgesia, st, totalCost)
    requires DayPassed(p, k, pain, draws, start, day)
    ensures DaysSoFar(p, k, draws, start, day + 1, pain, analgesia, st, totalCost)
  {
  }

  /** A recorded day that fails a check ends the run on that day. */
  lemma FailDay(p: PatientCharacteristics, k: SimConstants, draws: nat -> real, start: nat, day: nat,
                pain: seq<real>, analgesia: seq<real>, st: RunState, totalCost: real, verdict: Reason)
    requires k.Valid() && DayRecorded(p, k, draws, start, day, pain, analgesia, st, totalCost)
    requires verdict != NotDiscontinued
    requires verdict == InadequateAnalgesia <==> !PainControlled(k, pain, day)
    requires verdict == NonAdherence <==> PainControlled(k, pain, day) && !Adherent(p, k, draws, start, day)
    requires verdict == TrialFailure <==>
      PainControlled(k, pain, day) && Adherent(p, k, draws, start, day) && !TrialPassed(k, pain, day)
    ensures DaysEnded(p, k, draws, start, pain, analgesia, st, totalCost, day, verdict)
  {
    FailDayRecord(p, k, draws, start, day, pain, analgesia, st, totalCost, verdict);
  }

  lemma FailDayRecord(p: PatientCharacteristics, k: SimConstants, draws: nat -> real, start: nat, day: nat,
                      pain: seq<real>, analgesia: seq<real>, st: RunState, totalCost: real, verdict: Reason)
    requires k.Valid() && DayRecorded(p, k, draws, start, day, pain, analgesia, st, totalCost)
    requires verdict != NotDiscontinued
    ensures EndedRecord(p, k, draws, start, pain, analgesia, st, totalCost, day, verdict)
  {
    assert DaysRun(k, day) == day + 1;
  }

  /**
   * The daily arrays and the run state after `days` simulated days: each
   * recorded day holds that day's means, and the state is the one carried
   * into day `days`. The state fact is quantified over the one value
   * n == days so that the verifier unfolds the days' timesteps only where a
   * proof names StateBefore(days).
   */
  predicate Traced(k: SimConstants, m: Transcendentals, p: PatientCharacteristics, doses: Protocol, cl: real,
                   draws: nat -> real, start: nat, days: nat, pain: seq<real>, analgesia: seq<real>, st: RunState)
    requires k.Valid() && cl > 0.0
  {
    days <= k.simulationDays && |pain| == k.simulationDays && |analgesia| == k.simulationDays &&
    (forall n {:trigger StateBefore(k, m, p, doses, cl, draws, start, n)} :: days <= n <= days ==>
       st == StateBefore(k, m, p, doses, cl, draws, start, n)) &&
    forall d {:trigger DailyPain(k, m, p, doses, cl, draws, start, d)} :: 0 <= d < days ==>
      pain[d] == DailyPain(k, m, p, doses, cl, draws, start, d) &&
      analgesia[d] == DailyAnalgesia(k, m, p, doses, cl, draws, start, d)
  }

  /** Recording a simulated day's means extends the trace by that day. */
  lemma TraceDay(k: SimConstants, m: Transcendentals, p: PatientCharacteristics, doses: Protocol, cl: real,
                 draws: nat -> real, start: nat, day: nat, pain: seq<real>, analgesia: seq<real>, st: RunState,
                 pm: real, am: real, st': RunState)
    requires k.Valid() && cl > 0.0 && day < k.simulationDays
    requires Traced(k, m, p, doses, cl, draws, start, day, pain, analgesia, st)
    requires var r := DayPrefix(k, m, p, doses, cl, day, StateBefore(k, m, p, doses, cl, draws, start, day),
                                draws, AdverseDrawIndex(k, start, day, 0), k.timestepsPerDay);
      pm == r.painSum / k.timestepsPerDay as real && am == r.analgesiaSum / k.timestepsPerDay as real &&
      st' == r.state
    ensures Traced(k, m, p, doses, cl, draws, start, day + 1, pain[day := pm], analgesia[day := am], st')
  {
    assert st' == StateBefore(k, m, p, doses, cl, draws, start, day + 1);
    assert pm == DailyPain(k, m, p, doses, cl, draws, start, day);
    assert am == DailyAnalgesia(k, m, p, doses, cl, draws, start, day);
    forall n | day + 1 <= n <= day + 1
      ensures st' == StateBefore(k, m, p, doses, cl, draws, start, n)
    {
      assert n == day + 1;
    }
    forall d | 0 <= d < day + 1
      ensures pain[day := pm][d] == DailyPain(k, m, p, doses, cl, draws, start, d)
      ensures analgesia[day := am][d] == DailyAnalgesia(k, m, p, doses, cl, draws, start, d)
    {
      if d < day {
        assert pain[d] == DailyPain(k, m, p, doses, cl, draws, start, d);
      } else {
        assert d == day;
      }
    }
  }

  /**
   * One iteration of the day loop: the day's timesteps, its entries in the
   * daily arrays, the day's cost, and the end-of-day checks.
   */
  method RunDay(k: SimConstants, m: Transcendentals, p: PatientCharacteristics, doses: Protocol, cl: real,
                draws: nat -> real, start: nat, day: nat,
                pain: seq<real>, analgesia: seq<real>, st: RunState, totalCost: real)
    returns (pain': seq<real>, analgesia': seq<real>, st': RunState, totalCost': real, verdict: Reason)
    requires k.Valid() && cl > 0.0 && day < k.simulationDays
    requires DaysSoFar(p, k, draws, start, day, pain, analgesia, st, totalCost)
    requires Traced(k, m, p, doses, cl, draws, start, day, pain, analgesia, st)
    ensures Traced(k, m, p, doses, cl, draws, start, day + 1, pain', analgesia', st')
    ensures verdict == NotDiscontinued ==>
      DaysSoFar(p, k, draws, start, day + 1, pain', analgesia', st', totalCost')
    ensures verdict != NotDiscontinued ==>
      DaysEnded(p, k, draws, start, pain', analgesia', st', totalCost', day, verdict)
  {
    var pm, am, s1 := SimulateDay(k, m, p, doses, cl, day, st, draws, AdverseDrawIndex(k, start, day, 0));
    RecordDay(p, k, draws, start, day, pain, analgesia, st, totalCost, pm, am, s1);
    TraceDay(k, m, p, doses, cl, draws, start, day, pain, analgesia, st, pm, am, s1);
    pain' := pain[day := pm];
    analgesia' := analgesia[day := am];
    st' := s1;
    totalCost' := totalCost + k.costPerDayDpp26;
    verdict := EndOfDayChecks(p, k, pain', draws, start, day);
    if verdict == NotDiscontinued {
      PassDay(p, k, draws, start, day, pain', analgesia', st', totalCost');
    } else {
      FailDay(p, k, draws, start, day, pain', analgesia', st', totalCost', verdict);
    }
  }

  /**
   * The day loop of simulate_patient_treatment: runs days until one fails
   * its checks or all S days have passed.
   */
  method RunDays(k: SimConstants, m: Transcendentals, p: PatientCharacteristics, doses: Protocol, cl: real,
                 draws: nat -> real, start: nat)
    returns (pain: seq<real>, analgesia: seq<real>, st: RunState, totalCost: real, breakDay: int, reason: Reason)
    requires k.Valid() && cl > 0.0
    ensures DaysEnded(p, k, draws, start, pain, analgesia, st, totalCost, breakDay, reason)
    ensures Traced(k, m, p, doses, cl, draws, start, DaysRun(k, breakDay), pain, analgesia, st)
  {
    var S := k.simulationDays;
    pain := seq(S, _ => 0.0);
    analgesia := seq(S, _ => 0.0);
    st := InitialState;
    totalCost := 0.0;
    NoDaysYet(p, k, draws, start);
    var day := 0;
    while day < S
      invariant 0 <= day <= S
      invariant DaysSoFar(p, k, draws, start, day, pain, analgesia, st, totalCost)
      invariant Traced(k, m, p, doses, cl, draws, start, day, pain, analgesia, st)
    {
      var verdict;
      pain, analgesia, st, totalCost, verdict := RunDay(k, m, p, doses, cl, draws, start, day, pain, analgesia, st, totalCost);
      if verdict != NotDiscontinued {
        breakDay := day;
        reason := verdict;
        return;
      }
      day := day + 1;
    }
    AllDaysPassed(p, k, draws, start, pain, analgesia, st, totalCost);
    breakDay := -1;
    reason := NotDiscontinued;
  }

  /** The loop's end state, recorded in an outcome, satisfies the stop rule. */
  lemma EndedStopRule(p: PatientCharacteristics, k: SimConstants, draws: nat -> real, start: nat,
                      pain: seq<real>, analgesia: seq<real>, st: RunState, totalCost: real,
                      breakDay: int, reason: Reason, o: TreatmentOutcome)
    requires k.Valid() && DaysEnded(p, k, draws, start, pain, analgesia, st, totalCost, breakDay, reason)
    requires o.dailyPainScores == pain && o.analgesiaAchieved == analgesia
    requires o.patientId == p.patientId && o.discontinuationReason == reason
    ensures OutcomeShape(p, k, o) && StopRule(p, k, draws, start, o, breakDay)
  {
  }

  /**
   * The day loop and the finalisation for given adjusted doses and clearance
   * factor: the outcome and the day the loop broke on (-1 when it did not).
   */
  method Treat(p: PatientCharacteristics, k: SimConstants, m: Transcendentals, doses: Protocol, cl: real,
               draws: nat -> real, start: nat)
    returns (o: TreatmentOutcome, breakDay: int)
    requires k.Valid() && cl > 0.0
    ensures OutcomeShape(p, k, o)
    ensures StopRule(p, k, draws, start, o, breakDay)
    ensures Finalised(k, o, breakDay)
    ensures Recorded(k, m, p, doses, cl, draws, start, o, breakDay)
  {
    var pain, analgesia, st, totalCost, stop, reason := RunDays(k, m, p, doses, cl, draws, start);
    o := Finalise(p, k, pain, analgesia, st, totalCost, stop, reason);
    EndedStopRule(p, k, draws, start, pain, analgesia, st, totalCost, stop, reason, o);
    TracedRecord(k, m, p, doses, cl, draws, start, pain, analgesia, st, stop, o);
    breakDay := stop;
  }

  /** An outcome that records the traced arrays and final state satisfies Recorded. */
  lemma TracedRecord(k: SimConstants, m: Transcendentals, p: PatientCharacteristics, doses: Protocol, cl: real,
                     draws: nat -> real, start: nat, pain: seq<real>, analgesia: seq<real>, st: RunState,
                     stop: int, o: TreatmentOutcome)
    requires k.Valid() && cl > 0.0
    requires Traced(k, m, p, doses, cl, draws, start, DaysRun(k, stop), pain, analgesia, st)
    requires o.dailyPainScores == pain && o.analgesiaAchieved == analgesia
    requires o.finalToleranceLevel == st.tolerance && o.adverseEventCount == st.adverseEvents
    requires o.addictionSigns <==> st.maxBetaArrestin > k.addictionRiskThreshold / 100.0
    ensures Recorded(k, m, p, doses, cl, draws, start, o, stop)
  {
  }

  /** simulate_patient_treatment */
  method SimulatePatientTreatment(p: PatientCharacteristics, protocol: Protocol, k: SimConstants,
                                  m: Transcendentals, draws: nat -> real, start: nat)
    returns (o: TreatmentOutcome, next: nat, ghost stop: int)
    requires k.Valid()
    ensures OutcomeShape(p, k, o)
    ensures StopRule(p, k, draws, start, o, stop)
    ensures Finalised(k, o, stop)
    ensures DailyRecord(p, protocol, k, m, draws, start, o, stop)
    ensures next == start + DrawsUsed(k, stop, o.discontinuationReason)
  {
    var cl := ClearanceFactor(p, k, m);
    var doses := AdjustedDoses(p, protocol);
    var breakDay;
    o, breakDay := Treat(p, k, m, doses, cl, draws, start);
    stop := breakDay;
    DrawsUsedNonNegative(k, breakDay, o.discontinuationReason);
    next := start + DrawsUsed(k, breakDay, o.discontinuationReason);
  }

  lemma DrawsUsedNonNegative(k: SimConstants, stop: int, reason: Reason)
    requires k.Valid() && -1 <= stop
    ensures DrawsUsed(k, stop, reason) >= 0
  {
    assert DaysRun(k, stop) >= 1;
    assert DaysRun(k, stop) * (k.timestepsPerDay + 1) >= 1;
  }

  /** The global processed_patients counter. */
  class Progress {
    var processedPatients: int

    constructor ()
      ensures processedPatients == 0
    {
      processedPatients := 0;
    }
  }

  /**
   * The sequential meaning of simulate_population_parallel: patient i is
   * simulated into outcomes[i], reading the draws where patient i-1 stopped,
   * and the counter ends at the number of patients.
   */
  method SimulatePopulation(patients: array<PatientCharacteristics>, protocol: Protocol,
                            outcomes: array<TreatmentOutcome>, n: int, k: SimConstants,
                            m: Transcendentals, draws: nat -> real, start: nat, progress: Progress)
    returns (next: nat, ghost starts: seq<nat>, ghost stops: seq<int>)
    requires k.Valid() && n <= patients.Length && n <= outcomes.Length
    modifies outcomes, progress
    ensures progress.processedPatients == MaxInt(n, 0)
    ensures |starts| == MaxInt(n, 0) + 1 && |stops| == MaxInt(n, 0)
    ensures starts[0] == start && starts[|starts| - 1] == next
    ensures forall i :: 0 <= i < n ==>
      TreatmentFacts(patients[i], protocol, k, m, draws, starts[i], outcomes[i], starts[i + 1], stops[i])
    ensures forall i :: MaxInt(n, 0) <= i < outcomes.Length ==> outcomes[i] == old(outcomes[i])
  {
    progress.processedPatients := 0;
    next := start;
    starts := [start];
    stops := [];
    var i := 0;
    while i < n
      invariant 0 <= i <= MaxInt(n, 0)
      invariant progress.processedPatients == i
      invariant |starts| == i + 1 && |stops| == i
      invariant starts[0] == start && starts[i] == next
      invariant forall j :: 0 <= j < i ==>
        TreatmentFacts(patients[j], protocol, k, m, draws, starts[j], outcomes[j], starts[j + 1], stops[j])
      invariant forall j :: i <= j < outcomes.Length ==> outcomes[j] == old(outcomes[j])
    {
      var o, after, stop := SimulatePatientTreatment(patients[i], protocol, k, m, draws, next);
      ghost var before, starts0, stops0 := outcomes[..], starts, stops;
      outcomes[i] := o;
      progress.processedPatients := progress.processedPatients + 1;
      starts := starts + [after];
      stops := stops + [stop];
      forall j | 0 <= j < i + 1
        ensures TreatmentFacts(patients[j], protocol, k, m, draws, starts[j], outcomes[j], starts[j + 1], stops[j])
      {
        if j < i {
          assert outcomes[j] == before[j] && starts[j] == starts0[j] && starts[j + 1] == starts0[j + 1];
          assert stops[j] == stops0[j];
        }
      }
      next := after;
      i := i + 1;
    }
  }

  /**
   * A protocol with all three doses zero gives no analgesia: every day run
   * records analgesia 0 and the baseline pain clamped to [0, 10], and the
   * final tolerance is 0.
   */
  lemma ZeroDoseOutcome(p: PatientCharacteristics, k: SimConstants, m: Transcendentals, draws: nat -> real,
                        start: nat, o: TreatmentOutcome, stop: int)
    requires k.Valid() && DailyRecord(p, Protocol(0.0, 0.0, 0.0), k, m, draws, start, o, stop)
    ensures forall d :: 0 <= d < DaysRun(k, stop) ==>
      o.analgesiaAchieved[d] == 0.0 && o.dailyPainScores[d] == Clamp(p.baselinePainScore, 0.0, 10.0)
    ensures o.finalToleranceLevel == 0.0
  {
    var cl := ClearanceFactor(p, k, m);
    assert AdjustedDoses(p, Protocol(0.0, 0.0, 0.0)) == Protocol(0.0, 0.0, 0.0);
    forall d | 0 <= d < DaysRun(k, stop)
      ensures o.analgesiaAchieved[d] == 0.0 && o.dailyPainScores[d] == Clamp(p.baselinePainScore, 0.0, 10.0)
    {
      ZeroDoseDays(k, m, p, cl, draws, start, d);
    }
    ZeroDoseTolerance(k, m, p, cl, draws, start, DaysRun(k, stop));
  }
}
