/**
 * Tolerance and withdrawal progression models of src/tolerance_models.py.
 *
 * The states are objects that an update changes in place and hands back;
 * the models are fixed once built, so they are values. exp(x) and log(2)
 * are parameters: the Python code takes them from the math module.
 */
module ToleranceModels {
  import opened Wrappers
  import opened Numeric
  import opened OrderedDict
  import opened Json
  import opened SimulationResults

  /** ToleranceState: level 0.0 and ceiling 3.0 by default. */
  class ToleranceState {
    var level: real
    var ceiling: real

    constructor(level: real := 0.0, ceiling: real := 3.0)
      ensures this.level == level && this.ceiling == ceiling
    {
      this.level := level;
      this.ceiling := ceiling;
    }
  }

  /** WithdrawalState: severity 0.0 and an onset delay of 2.0 days by default. */
  class WithdrawalState {
    var severity: real
    var onsetDelayDays: real

    constructor(severity: real := 0.0, onsetDelayDays: real := 2.0)
      ensures this.severity == severity && this.onsetDelayDays == onsetDelayDays
    {
      this.severity := severity;
      this.onsetDelayDays := onsetDelayDays;
    }
  }

  /** The smallest half-life or time constant a model accepts. */
  const MinTau: real := 0.001

  datatype ToleranceModel =
    | Linear(slope: real, ceiling: real)
    | Sigmoid(maxFactor: real, halfLifeDays: real)
    | Lagged(riseTau: real, decayTau: real, ceiling: real)

  /** What a state's ceiling is set to by an update. */
  function CeilingOf(m: ToleranceModel): real
  {
    match m
    case Linear(_, c) => c
    case Sigmoid(f, _) => f
    case Lagged(_, _, c) => c
  }

  /** max(x, 1e-3): a time constant is never below MinTau, and one at or above it is kept. */
  function FloorTau(x: real): (r: real)
    ensures r >= MinTau
    ensures x >= MinTau ==> r == x
    ensures x < MinTau ==> r == MinTau
  {
    Max(x, MinTau)
  }

  /** SigmoidTolerance(max_factor, half_life_days). */
  function MakeSigmoid(maxFactor: real := 3.0, halfLifeDays: real := 14.0): (m: ToleranceModel)
    ensures m.Sigmoid? && m.maxFactor == maxFactor && m.halfLifeDays == FloorTau(halfLifeDays)
  {
    Sigmoid(maxFactor, FloorTau(halfLifeDays))
  }

  /** LaggedTolerance(rise_tau, decay_tau, ceiling). */
  function MakeLagged(riseTau: real := 7.0, decayTau: real := 10.0, ceiling: real := 3.0): (m: ToleranceModel)
    ensures m.Lagged? && m.ceiling == ceiling
    ensures m.riseTau == FloorTau(riseTau) && m.decayTau == FloorTau(decayTau)
  {
    Lagged(FloorTau(riseTau), FloorTau(decayTau), ceiling)
  }

  /** A model as the constructors build it: its time constants are floored. */
  predicate Floored(m: ToleranceModel)
  {
    match m
    case Linear(_, _) => true
    case Sigmoid(_, h) => h >= MinTau
    case Lagged(r, d, _) => r >= MinTau && d >= MinTau
  }

  /** k = log(2) / half_life_days. */
  function SigmoidRate(m: ToleranceModel, ln2: real): real
    requires m.Sigmoid? && m.halfLifeDays > 0.0
  {
    ln2 / m.halfLifeDays
  }

  /** target = max_factor * (1 - exp(-k * exposure)). */
  function SigmoidTarget(m: ToleranceModel, exposure: real, exp: real -> real, ln2: real): real
    requires m.Sigmoid? && m.halfLifeDays > 0.0
  {
    m.maxFactor * (1.0 - exp(-SigmoidRate(m, ln2) * exposure))
  }

  /** The share of the remaining gap a step closes: 1 - exp(-k * dt) for the sigmoid model. */
  function SigmoidStep(m: ToleranceModel, dt: real, exp: real -> real, ln2: real): real
    requires m.Sigmoid? && m.halfLifeDays > 0.0
  {
    1.0 - exp(-SigmoidRate(m, ln2) * dt)
  }

  /** 1 - exp(-dt / tau) for the lagged model, the rise constant under exposure and the decay one otherwise. */
  function LaggedStep(m: ToleranceModel, exposure: real, dt: real, exp: real -> real): real
    requires m.Lagged? && Floored(m)
  {
    1.0 - exp(-dt / (if exposure > 0.0 then m.riseTau else m.decayTau))
  }

  /** The level an update leaves in the state. */
  function NextLevel(m: ToleranceModel, level: real, exposure: real, dt: real, exp: real -> real, ln2: real): real
    requires Floored(m)
  {
    match m
    case Linear(slope, c) =>
      Min(level + slope * exposure * dt, c)
    case Sigmoid(f, _) =>
      var delta := (SigmoidTarget(m, exposure, exp, ln2) - level) * SigmoidStep(m, dt, exp, ln2);
      Max(0.0, Min(level + delta, f))
    case Lagged(_, _, c) =>
      var delta := if exposure > 0.0 then (c - level) * LaggedStep(m, exposure, dt, exp)
                   else -level * LaggedStep(m, exposure, dt, exp);
      Max(0.0, Min(level + delta, c))
  }

  /** update(state, exposure, dt_days): the state is changed in place and the same object returned. */
  method UpdateTolerance(m: ToleranceModel, state: ToleranceState, exposure: real, dt: real,
                         exp: real -> real, ln2: real) returns (same: ToleranceState)
    requires Floored(m)
    modifies state
    ensures same == state
    ensures state.level == NextLevel(m, old(state.level), exposure, dt, exp, ln2)
    ensures state.ceiling == CeilingOf(m)
  {
    match m {
      case Linear(slope, c) =>
        var increment := slope * exposure * dt;
        state.level := Min(state.level + increment, c);
        state.ceiling := c;
      case Sigmoid(f, _) =>
        var target := SigmoidTarget(m, exposure, exp, ln2);
        var delta := (target - state.level) * SigmoidStep(m, dt, exp, ln2);
        state.level := Max(0.0, Min(state.level + delta, f));
        state.ceiling := f;
      case Lagged(_, _, c) =>
        var delta;
        if exposure > 0.0 {
          delta := (c - state.level) * LaggedStep(m, exposure, dt, exp);
        } else {
          delta := -state.level * LaggedStep(m, exposure, dt, exp);
        }
        state.level := Max(0.0, Min(state.level + delta, c));
        state.ceiling := c;
    }
    same := state;
  }

  // ---------------------------------------------------------------------------
  // Properties of the tolerance updates

  /**
   * The linear model adds slope * exposure * dt and caps the sum at the
   * ceiling: the new level never exceeds it, equals the sum when the sum is
   * below it, and does not fall when the increment is non-negative and the
   * level starts under the cap.
   */
  lemma LinearCapped(slope: real, c: real, level: real, exposure: real, dt: real, exp: real -> real, ln2: real)
    ensures var next := NextLevel(Linear(slope, c), level, exposure, dt, exp, ln2);
      next <= c &&
      (level + slope * exposure * dt <= c <==> next == level + slope * exposure * dt) &&
      (slope * exposure * dt >= 0.0 && level <= c ==> next >= level)
  {
  }

  /** d * f lies between 0 and d for a share f in [0, 1]. */
  lemma ScaleBetween(d: real, f: real)
    requires 0.0 <= f <= 1.0
    ensures d >= 0.0 ==> 0.0 <= d * f <= d
    ensures d <= 0.0 ==> d <= d * f <= 0.0
  {
    if d >= 0.0 {
      assert d * f <= d * 1.0;
    } else {
      assert d * f >= d * 1.0;
    }
  }

  /** The sigmoid and lagged levels stay within [0, ceiling] whatever exp returns. */
  lemma LevelWithinCeiling(m: ToleranceModel, level: real, exposure: real, dt: real, exp: real -> real, ln2: real)
    requires Floored(m) && !m.Linear? && CeilingOf(m) >= 0.0
    ensures 0.0 <= NextLevel(m, level, exposure, dt, exp, ln2) <= CeilingOf(m)
  {
  }

  /**
   * A sigmoid step moves the level toward the target max_factor * (1 -
   * exp(-k * exposure)) and does not overshoot it, provided the step share
   * 1 - exp(-k * dt) is in [0, 1] and both the level and the target are
   * within [0, max_factor].
   */
  lemma SigmoidTowardTarget(m: ToleranceModel, level: real, exposure: real, dt: real, exp: real -> real, ln2: real)
    requires m.Sigmoid? && Floored(m)
    requires 0.0 <= SigmoidStep(m, dt, exp, ln2) <= 1.0
    requires 0.0 <= level <= m.maxFactor
    requires 0.0 <= SigmoidTarget(m, exposure, exp, ln2) <= m.maxFactor
    ensures var next := NextLevel(m, level, exposure, dt, exp, ln2);
      var target := SigmoidTarget(m, exposure, exp, ln2);
      (level <= target ==> level <= next <= target) &&
      (target <= level ==> target <= next <= level)
  {
    var target := SigmoidTarget(m, exposure, exp, ln2);
    var f := SigmoidStep(m, dt, exp, ln2);
    var d := target - level;
    ScaleBetween(d, f);
    var next := level + d * f;
    assert NextLevel(m, level, exposure, dt, exp, ln2) == Max(0.0, Min(next, m.maxFactor));
    assert level <= target ==> next <= target;
    assert target <= level ==> target <= next;
  }

  /** With exposure the lagged level rises toward the ceiling and stays under it. */
  lemma LaggedRises(m: ToleranceModel, level: real, exposure: real, dt: real, exp: real -> real, ln2: real)
    requires m.Lagged? && Floored(m)
    requires exposure > 0.0 && 0.0 <= LaggedStep(m, exposure, dt, exp) <= 1.0
    requires 0.0 <= level <= m.ceiling
    ensures level <= NextLevel(m, level, exposure, dt, exp, ln2) <= m.ceiling
  {
    ScaleBetween(m.ceiling - level, LaggedStep(m, exposure, dt, exp));
  }

  /** Without exposure the lagged level decays toward zero and never rises. */
  lemma LaggedDecays(m: ToleranceModel, level: real, exposure: real, dt: real, exp: real -> real, ln2: real)
    requires m.Lagged? && Floored(m)
    requires exposure <= 0.0 && 0.0 <= LaggedStep(m, exposure, dt, exp) <= 1.0
    requires 0.0 <= level <= m.ceiling
    ensures 0.0 <= NextLevel(m, level, exposure, dt, exp, ln2) <= level
  {
    ScaleBetween(-level, LaggedStep(m, exposure, dt, exp));
  }

  // ---------------------------------------------------------------------------
  // Withdrawal

  /** SimpleWithdrawal(onset_delay_days, severity_scale). */
  datatype WithdrawalModel = SimpleWithdrawal(onsetDelayDays: real, severityScale: real)

  /** The severity an update leaves in the state. */
  function NextSeverity(m: WithdrawalModel, severity: real, abstinence: real, dt: real): real
  {
    if abstinence <= 0.0 then Max(0.0, severity - 0.1 * dt)
    else if abstinence > m.onsetDelayDays then Min(1.0, severity + 0.05 * m.severityScale * dt)
    else Max(0.0, severity - 0.05 * dt)
  }

  method UpdateWithdrawal(m: WithdrawalModel, state: WithdrawalState, abstinence: real, dt: real)
    returns (same: WithdrawalState)
    modifies state
    ensures same == state
    ensures state.severity == NextSeverity(m, old(state.severity), abstinence, dt)
    ensures state.onsetDelayDays == old(state.onsetDelayDays)
  {
    if abstinence <= 0.0 {
      state.severity := Max(0.0, state.severity - 0.1 * dt);
      return state;
    }
    if abstinence > m.onsetDelayDays {
      state.severity := Min(1.0, state.severity + 0.05 * m.severityScale * dt);
    } else {
      state.severity := Max(0.0, state.severity - 0.05 * dt);
    }
    same := state;
  }

  /** With non-negative dt and scale, a severity in [0, 1] stays in [0, 1]. */
  lemma SeverityInUnit(m: WithdrawalModel, severity: real, abstinence: real, dt: real)
    requires 0.0 <= severity <= 1.0 && dt >= 0.0 && m.severityScale >= 0.0
    ensures 0.0 <= NextSeverity(m, severity, abstinence, dt) <= 1.0
  {
    assert 0.05 * m.severityScale * dt >= 0.0;
  }

  /**
   * Severity grows only once abstinence is past the onset delay (and
   * positive): then it does not fall; otherwise it does not rise, recovering
   * at 0.1 per day while using and at 0.05 per day before the onset.
   */
  lemma SeverityDirection(m: WithdrawalModel, severity: real, abstinence: real, dt: real)
    requires 0.0 <= severity <= 1.0 && dt >= 0.0 && m.severityScale >= 0.0
    ensures abstinence > 0.0 && abstinence > m.onsetDelayDays ==> NextSeverity(m, severity, abstinence, dt) >= severity
    ensures !(abstinence > 0.0 && abstinence > m.onsetDelayDays) ==> NextSeverity(m, severity, abstinence, dt) <= severity
    ensures abstinence <= 0.0 && severity >= 0.1 * dt ==> NextSeverity(m, severity, abstinence, dt) == severity - 0.1 * dt
    ensures 0.0 < abstinence <= m.onsetDelayDays && severity >= 0.05 * dt ==>
      NextSeverity(m, severity, abstinence, dt) == severity - 0.05 * dt
  {
  }

  // ---------------------------------------------------------------------------
  // Factories

  /** The config names key with a value that is no number. */
  predicate NotNumber(config: Dict<string, Json>, key: string)
  {
    Get(config, key).Some? && AsReal(Get(config, key).value).None?
  }

  /** make_tolerance_model(config): "linear", "lagged", or a sigmoid model for any other (or no) name. */
  function MakeToleranceModel(config: Dict<string, Json>): (r: Result<ToleranceModel, string>)
    ensures r.Err? <==>
      if Get(config, "model") == Some(JStr("linear")) then NotNumber(config, "slope") || NotNumber(config, "max_factor")
      else if Get(config, "model") == Some(JStr("lagged")) then
        NotNumber(config, "rise_tau") || NotNumber(config, "decay_tau") || NotNumber(config, "max_factor")
      else NotNumber(config, "half_life_days") || NotNumber(config, "max_factor")
    ensures r.Ok? ==> Floored(r.value)
    ensures r.Ok? ==> (r.value.Linear? <==> Get(config, "model") == Some(JStr("linear")))
    ensures r.Ok? ==> (r.value.Lagged? <==> Get(config, "model") == Some(JStr("lagged")))
    ensures r.Ok? && Get(config, "model").None? ==> r.value.Sigmoid?
  {
    var c := JObj(config);
    var maxFactor := ItemOr(c, "max_factor", AsReal, 3.0);
    var name := Get(config, "model");
    if name == Some(JStr("linear")) then
      var slope := ItemOr(c, "slope", AsReal, 0.01);
      if slope.Err? then Err(slope.error)
      else if maxFactor.Err? then Err(maxFactor.error)
      else Ok(Linear(slope.value, maxFactor.value))
    else if name == Some(JStr("lagged")) then
      var rise := ItemOr(c, "rise_tau", AsReal, 7.0);
      var decay := ItemOr(c, "decay_tau", AsReal, 10.0);
      if rise.Err? then Err(rise.error)
      else if decay.Err? then Err(decay.error)
      else if maxFactor.Err? then Err(maxFactor.error)
      else Ok(MakeLagged(rise.value, decay.value, maxFactor.value))
    else
      var halfLife := ItemOr(c, "half_life_days", AsReal, 14.0);
      if maxFactor.Err? then Err(maxFactor.error)
      else if halfLife.Err? then Err(halfLife.error)
      else Ok(MakeSigmoid(maxFactor.value, halfLife.value))
  }

  /** An empty config gives the default sigmoid model: max factor 3.0 and a 14-day half-life. */
  lemma DefaultToleranceModel()
    ensures MakeToleranceModel(Empty()) == Ok(Sigmoid(3.0, 14.0))
  {
  }

  /** Parameters the config names are used as given (time constants floored). */
  lemma ToleranceModelParameters(config: Dict<string, Json>, x: real)
    ensures (Get(config, "model") == Some(JStr("linear")) && Get(config, "max_factor") == Some(JNum(x)) &&
             Get(config, "slope").None?) ==> MakeToleranceModel(config) == Ok(Linear(0.01, x))
    ensures (Get(config, "model") == Some(JStr("lagged")) && Get(config, "rise_tau") == Some(JNum(x)) &&
             Get(config, "decay_tau").None? && Get(config, "max_factor").None?) ==>
      MakeToleranceModel(config) == Ok(Lagged(FloorTau(x), 10.0, 3.0))
    ensures (Get(config, "model").None? && Get(config, "half_life_days") == Some(JNum(x)) &&
             Get(config, "max_factor").None?) ==> MakeToleranceModel(config) == Ok(Sigmoid(3.0, FloorTau(x)))
  {
  }

  /**
   * make_withdrawal_model(config): the "withdrawal" sub-dict (empty when
   * missing), onset 2.0 and scale 1.0 by default; a sub-value that is not a
   * dict has no .get and fails.
   */
  function MakeWithdrawalModel(config: Dict<string, Json>): (r: Result<WithdrawalModel, string>)
    ensures Get(config, "withdrawal").None? ==> r == Ok(SimpleWithdrawal(2.0, 1.0))
    ensures Get(config, "withdrawal").Some? && !Get(config, "withdrawal").value.JObj? ==> r.Err?
    ensures r.Ok? && Get(config, "withdrawal").Some? ==>
      var wd := Get(config, "withdrawal").value;
      (Field(wd, "onset_delay_days").None? ==> r.value.onsetDelayDays == 2.0) &&
      (Field(wd, "severity_scale").None? ==> r.value.severityScale == 1.0) &&
      (Field(wd, "onset_delay_days").Some? ==> AsReal(Field(wd, "onset_delay_days").value) == Some(r.value.onsetDelayDays)) &&
      (Field(wd, "severity_scale").Some? ==> AsReal(Field(wd, "severity_scale").value) == Some(r.value.severityScale))
  {
    var wd := match Get(config, "withdrawal")
      case None => JObj(Empty())
      case Some(v) => v;
    if !wd.JObj? then Err("AttributeError: 'get'")
    else
      var onset := ItemOr(wd, "onset_delay_days", AsReal, 2.0);
      var scale := ItemOr(wd, "severity_scale", AsReal, 1.0);
      if onset.Err? then Err(onset.error)
      else if scale.Err? then Err(scale.error)
      else Ok(SimpleWithdrawal(onset.value, scale.value))
  }
}
