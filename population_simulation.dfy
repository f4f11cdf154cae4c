/**
 * PopulationSimulation._aggregate_results of src/patient_simulation_100k.py:
 * the metrics dictionary of a population run. The five outcome rates and the
 * seven means come first, then one "med_<name>_rate" entry per medication
 * name in first-appearance order, then one "nt_<name>" mean per
 * neurotransmitter of the first result, then three standard deviations.
 *
 * np.mean is the arithmetic mean and np.std the population standard
 * deviation; its square root is a parameter. An empty result list divides
 * by zero.
 */
module PopulationSimulations {
  import opened Wrappers
  import opened OrderedDict
  import opened Numeric
  import opened Text
  import opened SimulationResults
  import opened PatientSimulation

  // ---------------------------------------------------------------------------
  // Counts and columns

  /** The five outcomes the rates count. */
  datatype Outcome = Succeeded | ToleranceDeveloped | AddictionSigns | WithdrawalSymptoms | HadAdverseEvent

  predicate Holds(r: SimulationResult, o: Outcome)
  {
    match o
    case Succeeded => r.success
    case ToleranceDeveloped => r.toleranceDeveloped
    case AddictionSigns => r.addictionSigns
    case WithdrawalSymptoms => r.withdrawalSymptoms
    case HadAdverseEvent => |r.adverseEvents| > 0
  }

  /** sum(1 for r in results if ...). */
  function CountWhere(results: seq<SimulationResult>, o: Outcome): nat
  {
    if |results| == 0 then 0
    else CountWhere(results[..|results| - 1], o) + (if Holds(results[|results| - 1], o) then 1 else 0)
  }

  /** The count is at most the number of results, is all of them iff every result has the outcome, and none of them iff none has it. */
  lemma {:induction false} CountWhereRange(results: seq<SimulationResult>, o: Outcome)
    ensures CountWhere(results, o) <= |results|
    ensures CountWhere(results, o) == |results| <==> forall i :: 0 <= i < |results| ==> Holds(results[i], o)
    ensures CountWhere(results, o) == 0 <==> forall i :: 0 <= i < |results| ==> !Holds(results[i], o)
    decreases |results|
  {
    if |results| > 0 {
      var init := results[..|results| - 1];
      CountWhereRange(init, o);
      assert forall i :: 0 <= i < |init| ==> init[i] == results[i];
    }
  }

  /** A count over n results as a fraction of n. */
  function Rate(count: nat, n: nat): real
    requires n > 0
  {
    count as real / n as real
  }

  lemma RateWithin(count: nat, n: nat)
    requires 0 < n && count <= n
    ensures 0.0 <= Rate(count, n) <= 1.0
    ensures Rate(count, n) == 1.0 <==> count == n
  {
    DivThenMul(count as real, n as real);
  }

  /** The seven per-result numbers that are averaged. */
  datatype Measure = PainScore | Analgesia | SideEffects | QualityOfLife | GActivation | BetaActivation | BaselineTolerance

  function Measured(r: SimulationResult, m: Measure): real
  {
    match m
    case PainScore => r.avgPainScore
    case Analgesia => r.avgAnalgesia
    case SideEffects => r.avgSideEffects
    case QualityOfLife => r.qualityOfLife
    case GActivation => r.avgGActivation
    case BetaActivation => r.avgBetaActivation
    case BaselineTolerance => r.patient.baselineTolerance
  }

  /** [r.<measure> for r in results]. */
  function Column(results: seq<SimulationResult>, m: Measure): (s: seq<real>)
    ensures |s| == |results|
    ensures forall i :: 0 <= i < |results| ==> s[i] == Measured(results[i], m)
  {
    seq(|results|, i requires 0 <= i < |results| => Measured(results[i], m))
  }

  /** r.neurotransmitter_release.get(k, 0.0). */
  function Released(r: SimulationResult, k: string): real
  {
    match Get(r.neurotransmitterRelease, k)
    case Some(v) => v
    case None => 0.0
  }

  function ReleaseColumn(results: seq<SimulationResult>, k: string): (s: seq<real>)
    ensures |s| == |results|
    ensures forall i :: 0 <= i < |results| ==> s[i] == Released(results[i], k)
  {
    seq(|results|, i requires 0 <= i < |results| => Released(results[i], k))
  }

  /** np.var: the mean squared deviation from the mean. */
  function Variance(s: seq<real>): real
    requires |s| > 0
  {
    var mu := Mean(s);
    Mean(seq(|s|, i requires 0 <= i < |s| => (s[i] - mu) * (s[i] - mu)))
  }

  /** np.std. */
  function Std(s: seq<real>, sqrt: real -> real): real
    requires |s| > 0
  {
    sqrt(Variance(s))
  }

  /** The variance is never negative, and is zero when every value is the same. */
  lemma VarianceFacts(s: seq<real>)
    requires |s| > 0
    ensures Variance(s) >= 0.0
    ensures (forall i :: 0 <= i < |s| ==> s[i] == s[0]) ==> Variance(s) == 0.0
  {
    var mu := Mean(s);
    var sq := seq(|s|, i requires 0 <= i < |s| => (s[i] - mu) * (s[i] - mu));
    assert Variance(s) == Mean(sq);
    assert Mean(sq) >= 0.0 by {
      forall i | 0 <= i < |sq|
        ensures 0.0 <= sq[i]
      {
        var d := s[i] - mu;
        assert sq[i] == d * d;
        if d < 0.0 { assert (-d) * (-d) == d * d; }
      }
      MeanAtLeast(sq, 0.0);
    }
    if forall i :: 0 <= i < |s| ==> s[i] == s[0] {
      assert Mean(sq) <= 0.0 by {
        MeanAtLeast(s, s[0]);
        MeanAtMost(s, s[0]);
        forall i | 0 <= i < |sq|
          ensures sq[i] <= 0.0
        {
          assert s[i] - mu == 0.0;
        }
        MeanAtMost(sq, 0.0);
      }
    }
  }

  // ---------------------------------------------------------------------------
  // Medication exposures

  /** Every medication name of every result's patient, result by result. */
  function AllMedications(results: seq<SimulationResult>): seq<string>
  {
    if |results| == 0 then []
    else AllMedications(results[..|results| - 1]) + results[|results| - 1].patient.medications
  }

  /** How many times m occurs in ms. */
  function Occurrences(ms: seq<string>, m: string): nat
  {
    if |ms| == 0 then 0
    else Occurrences(ms[..|ms| - 1], m) + (if ms[|ms| - 1] == m then 1 else 0)
  }

  /** It is the multiplicity of m in ms, and is zero exactly when m does not occur. */
  lemma {:induction false} OccurrencesMultiplicity(ms: seq<string>, m: string)
    ensures Occurrences(ms, m) == multiset(ms)[m]
    ensures Occurrences(ms, m) == 0 <==> m !in ms
    decreases |ms|
  {
    if |ms| > 0 {
      var init := ms[..|ms| - 1];
      assert ms == init + [ms[|ms| - 1]];
      OccurrencesMultiplicity(init, m);
    }
  }

  function CountOf(t: Dict<string, nat>, m: string): nat
  {
    match Get(t, m)
    case Some(c) => c
    case None => 0
  }

  /** medication_counts after counting the names ms one at a time. */
  function Tally(ms: seq<string>): Dict<string, nat>
  {
    if |ms| == 0 then Empty()
    else
      var t := Tally(ms[..|ms| - 1]);
      Set(t, ms[|ms| - 1], CountOf(t, ms[|ms| - 1]) + 1)
  }

  /** A name that occurs is stored under its number of occurrences; a name that does not is absent; keys are distinct. */
  lemma {:induction false} TallyCounts(ms: seq<string>, m: string)
    ensures Get(Tally(ms), m) == if m in ms then Some(Occurrences(ms, m)) else None
    ensures Wf(Tally(ms))
    decreases |ms|
  {
    if |ms| > 0 {
      var init := ms[..|ms| - 1];
      var x := ms[|ms| - 1];
      assert ms == init + [x];
      TallyCounts(init, m);
      TallyCounts(init, x);
      OccurrencesMultiplicity(init, x);
      var t := Tally(init);
      SetGet(t, x, CountOf(t, x) + 1, m);
      SetWf(t, x, CountOf(t, x) + 1);
    }
  }

  lemma TallyStep(ms: seq<string>, m: string)
    ensures Tally(ms + [m]) == Set(Tally(ms), m, CountOf(Tally(ms), m) + 1)
  {
    assert (ms + [m])[..|ms|] == ms;
  }

  /** The medication_counts loop: for each result, for each of its patient's medications, add one. */
  method CountMedications(results: seq<SimulationResult>) returns (counts: Dict<string, nat>)
    ensures counts == Tally(AllMedications(results))
  {
    counts := Empty();
    for i := 0 to |results|
      invariant counts == Tally(AllMedications(results[..i]))
    {
      counts := CountEach(counts, AllMedications(results[..i]), results[i].patient.medications);
      assert results[..i + 1][..i] == results[..i];
    }
    assert results[..|results|] == results;
  }

  /** The inner loop: one more for each name of meds. */
  method CountEach(d: Dict<string, nat>, ghost done: seq<string>, meds: seq<string>) returns (counts: Dict<string, nat>)
    requires d == Tally(done)
    ensures counts == Tally(done + meds)
  {
    counts := d;
    assert done + meds[..0] == done;
    for j := 0 to |meds|
      invariant counts == Tally(done + meds[..j])
    {
      assert done + meds[..j + 1] == (done + meds[..j]) + [meds[j]];
      TallyStep(done + meds[..j], meds[j]);
      counts := Set(counts, meds[j], CountOf(counts, meds[j]) + 1);
    }
    assert meds[..|meds|] == meds;
  }

  /** f"med_{med.lower().replace(' ', '_')}_rate". */
  function MedicationKey(m: string): (k: string)
    ensures |k| > 0 && k[0] == 'm'
  {
    "med_" + ReplaceChar(Lower(m), ' ', '_') + "_rate"
  }

  /** The metrics after writing each (name, count) entry's rate. */
  function WithRates(d: Dict<string, real>, e: seq<(string, nat)>, n: nat): Dict<string, real>
    requires n > 0
  {
    if |e| == 0 then d
    else Set(WithRates(d, e[..|e| - 1], n), MedicationKey(e[|e| - 1].0), Rate(e[|e| - 1].1, n))
  }

  /** Keys that are no medication key are left alone. */
  lemma {:induction false} WithRatesOther(d: Dict<string, real>, e: seq<(string, nat)>, n: nat, j: string)
    requires n > 0 && (|j| == 0 || j[0] != 'm')
    ensures Get(WithRates(d, e, n), j) == Get(d, j)
    decreases |e|
  {
    if |e| > 0 {
      WithRatesOther(d, e[..|e| - 1], n, j);
      SetGet(WithRates(d, e[..|e| - 1], n), MedicationKey(e[|e| - 1].0), Rate(e[|e| - 1].1, n), j);
    }
  }

  /** An entry whose key no other entry's name shares ends up stored under that key. */
  lemma {:induction false} WithRatesGet(d: Dict<string, real>, e: seq<(string, nat)>, n: nat, m: string, c: nat)
    requires n > 0 && DistinctKeys(e) && (m, c) in e
    requires forall i :: 0 <= i < |e| && MedicationKey(e[i].0) == MedicationKey(m) ==> e[i].0 == m
    ensures Get(WithRates(d, e, n), MedicationKey(m)) == Some(Rate(c, n))
    decreases |e|
  {
    var init := e[..|e| - 1];
    var last := e[|e| - 1];
    SetGet(WithRates(d, init, n), MedicationKey(last.0), Rate(last.1, n), MedicationKey(m));
    if last != (m, c) {
      assert (m, c) in init by {
        var i :| 0 <= i < |e| && e[i] == (m, c);
        assert i < |e| - 1;
        assert init[i] == e[i];
      }
      assert last.0 != m by {
        var i :| 0 <= i < |init| && init[i] == (m, c);
        assert e[i] == (m, c);
      }
      assert DistinctKeys(init) by {
        assert forall i :: 0 <= i < |init| ==> init[i] == e[i];
      }
      WithRatesGet(d, init, n, m, c);
    }
  }

  // ---------------------------------------------------------------------------
  // Neurotransmitter means

  /** The metrics after writing "nt_<k>" for each k of ks. */
  function WithReleases(d: Dict<string, real>, ks: seq<string>, results: seq<SimulationResult>): Dict<string, real>
    requires |results| > 0
  {
    if |ks| == 0 then d
    else Set(WithReleases(d, ks[..|ks| - 1], results), "nt_" + ks[|ks| - 1], Mean(ReleaseColumn(results, ks[|ks| - 1])))
  }

  lemma {:induction false} WithReleasesOther(d: Dict<string, real>, ks: seq<string>, results: seq<SimulationResult>, j: string)
    requires |results| > 0 && (|j| == 0 || j[0] != 'n')
    ensures Get(WithReleases(d, ks, results), j) == Get(d, j)
    decreases |ks|
  {
    if |ks| > 0 {
      var k := ks[|ks| - 1];
      WithReleasesOther(d, ks[..|ks| - 1], results, j);
      assert ("nt_" + k)[0] == 'n';
      SetGet(WithReleases(d, ks[..|ks| - 1], results), "nt_" + k, Mean(ReleaseColumn(results, k)), j);
    }
  }

  /** Each listed name's mean is stored under "nt_" and that name. */
  lemma {:induction false} WithReleasesGet(d: Dict<string, real>, ks: seq<string>, results: seq<SimulationResult>, k: string)
    requires |results| > 0 && k in ks
    ensures Get(WithReleases(d, ks, results), "nt_" + k) == Some(Mean(ReleaseColumn(results, k)))
    decreases |ks|
  {
    var init := ks[..|ks| - 1];
    var last := ks[|ks| - 1];
    SetGet(WithReleases(d, init, results), "nt_" + last, Mean(ReleaseColumn(results, last)), "nt_" + k);
    if last != k {
      assert k in init by {
        var i :| 0 <= i < |ks| && ks[i] == k;
        assert init[i] == ks[i];
      }
      assert ("nt_" + last)[3..] == last && ("nt_" + k)[3..] == k;
      WithReleasesGet(d, init, results, k);
    }
  }

  // ---------------------------------------------------------------------------
  // The metrics dictionary

  function RateKey(o: Outcome): string
  {
    match o
    case Succeeded => "success_rate"
    case ToleranceDeveloped => "tolerance_rate"
    case AddictionSigns => "addiction_rate"
    case WithdrawalSymptoms => "withdrawal_rate"
    case HadAdverseEvent => "adverse_event_rate"
  }

  function MeanKey(m: Measure): string
  {
    match m
    case PainScore => "avg_pain_score"
    case Analgesia => "avg_analgesia"
    case SideEffects => "avg_side_effects"
    case QualityOfLife => "avg_quality_of_life"
    case GActivation => "avg_g_activation"
    case BetaActivation => "avg_beta_activation"
    case BaselineTolerance => "avg_baseline_tolerance"
  }

  /** count / n_patients for one outcome. */
  function RateOf(results: seq<SimulationResult>, o: Outcome): real
    requires |results| > 0
  {
    Rate(CountWhere(results, o), |results|)
  }

  /** np.mean([...]) for one measure. */
  function MeanOf(results: seq<SimulationResult>, m: Measure): real
    requires |results| > 0
  {
    Mean(Column(results, m))
  }

  /** The dictionary literal: five rates, then seven means, under the keys above. */
  function BaseMetrics(results: seq<SimulationResult>): Dict<string, real>
    requires |results| > 0
  {
    Dict([
      (RateKey(Succeeded), RateOf(results, Succeeded)),
      (RateKey(ToleranceDeveloped), RateOf(results, ToleranceDeveloped)),
      (RateKey(AddictionSigns), RateOf(results, AddictionSigns)),
      (RateKey(WithdrawalSymptoms), RateOf(results, WithdrawalSymptoms)),
      (RateKey(HadAdverseEvent), RateOf(results, HadAdverseEvent)),
      (MeanKey(PainScore), MeanOf(results, PainScore)),
      (MeanKey(Analgesia), MeanOf(results, Analgesia)),
      (MeanKey(SideEffects), MeanOf(results, SideEffects)),
      (MeanKey(QualityOfLife), MeanOf(results, QualityOfLife)),
      (MeanKey(GActivation), MeanOf(results, GActivation)),
      (MeanKey(BetaActivation), MeanOf(results, BetaActivation)),
      (MeanKey(BaselineTolerance), MeanOf(results, BaselineTolerance))])
  }

  /** The three spreads, written last. */
  function WithSpreads(d: Dict<string, real>, results: seq<SimulationResult>, sqrt: real -> real): Dict<string, real>
    requires |results| > 0
  {
    var d1 := Set(d, "pain_score_std", Std(Column(results, PainScore), sqrt));
    var d2 := Set(d1, "analgesia_std", Std(Column(results, Analgesia), sqrt));
    Set(d2, "qol_std", Std(Column(results, QualityOfLife), sqrt))
  }

  /** The metrics of the medication and neurotransmitter sections on top of the literal. */
  function Sections(results: seq<SimulationResult>): Dict<string, real>
    requires |results| > 0
  {
    var withMeds := WithRates(BaseMetrics(results), Tally(AllMedications(results)).entries, |results|);
    var first := results[0].neurotransmitterRelease;
    if |first.entries| > 0 then WithReleases(withMeds, Keys(first), results) else withMeds
  }

  /** _aggregate_results(results). */
  function Aggregate(results: seq<SimulationResult>, sqrt: real -> real): (r: Result<Dict<string, real>, string>)
    ensures r.Err? <==> |results| == 0
    ensures r.Err? ==> r.error == "ZeroDivisionError: division by zero"
  {
    if |results| == 0 then Err("ZeroDivisionError: division by zero")
    else Ok(WithSpreads(Sections(results), results, sqrt))
  }

  // ---------------------------------------------------------------------------
  // What the dictionary holds

  /** The twelve keys of BaseMetrics, in order. */
  const BaseKeys: seq<string> :=
    [RateKey(Succeeded), RateKey(ToleranceDeveloped), RateKey(AddictionSigns), RateKey(WithdrawalSymptoms),
     RateKey(HadAdverseEvent), MeanKey(PainScore), MeanKey(Analgesia), MeanKey(SideEffects),
     MeanKey(QualityOfLife), MeanKey(GActivation), MeanKey(BetaActivation), MeanKey(BaselineTolerance)]

  lemma BaseKeysDistinct()
    ensures forall i, j :: 0 <= i < j < |BaseKeys| ==> BaseKeys[i] != BaseKeys[j]
  {
    // The twelve keys differ in their length or in their fifth character.
    var lengths := [12, 14, 14, 15, 18, 14, 13, 16, 19, 16, 19, 22];
    var fifth := "ercdrpasqgbb";
    assert forall i :: 0 <= i < |BaseKeys| ==> |BaseKeys[i]| == lengths[i] && BaseKeys[i][4] == fifth[i];
    forall i, j | 0 <= i < j < |BaseKeys|
      ensures BaseKeys[i] != BaseKeys[j]
    {
      assert lengths[i] != lengths[j] || fifth[i] != fifth[j];
    }
  }

  lemma BaseMetricsDistinct(results: seq<SimulationResult>)
    requires |results| > 0
    ensures DistinctKeys(BaseMetrics(results).entries)
  {
    var e := BaseMetrics(results).entries;
    assert |e| == |BaseKeys| && forall i :: 0 <= i < |e| ==> e[i].0 == BaseKeys[i];
    BaseKeysDistinct();
  }

  /** The spreads touch only their own three keys. */
  lemma SpreadsOther(d: Dict<string, real>, results: seq<SimulationResult>, sqrt: real -> real, j: string)
    requires |results| > 0 && j != "pain_score_std" && j != "analgesia_std" && j != "qol_std"
    ensures Get(WithSpreads(d, results, sqrt), j) == Get(d, j)
  {
    var d1 := Set(d, "pain_score_std", Std(Column(results, PainScore), sqrt));
    var d2 := Set(d1, "analgesia_std", Std(Column(results, Analgesia), sqrt));
    SetGet(d, "pain_score_std", Std(Column(results, PainScore), sqrt), j);
    SetGet(d1, "analgesia_std", Std(Column(results, Analgesia), sqrt), j);
    SetGet(d2, "qol_std", Std(Column(results, QualityOfLife), sqrt), j);
  }

  /** An entry of the literal keeps its value through the later sections, none of which writes its key. */
  lemma KeepsBase(results: seq<SimulationResult>, sqrt: real -> real, j: string, v: real)
    requires |results| > 0 && (j, v) in BaseMetrics(results).entries
    requires |j| > 0 && j[0] != 'm' && j[0] != 'n'
    requires j != "pain_score_std" && j != "analgesia_std" && j != "qol_std"
    ensures Get(Aggregate(results, sqrt).value, j) == Some(v)
  {
    var base := BaseMetrics(results);
    var i :| 0 <= i < |base.entries| && base.entries[i] == (j, v);
    BaseMetricsDistinct(results);
    FindAt(base.entries, i);
    var tally := Tally(AllMedications(results)).entries;
    var withMeds := WithRates(base, tally, |results|);
    WithRatesOther(base, tally, |results|, j);
    WithReleasesOther(withMeds, Keys(results[0].neurotransmitterRelease), results, j);
    SpreadsOther(Sections(results), results, sqrt, j);
  }

  lemma BaseRate(results: seq<SimulationResult>, o: Outcome)
    requires |results| > 0
    ensures (RateKey(o), RateOf(results, o)) in BaseMetrics(results).entries
  {
    var base := BaseMetrics(results);
    match o
    case Succeeded => assert base.entries[0] == (RateKey(o), RateOf(results, o));
    case ToleranceDeveloped => assert base.entries[1] == (RateKey(o), RateOf(results, o));
    case AddictionSigns => assert base.entries[2] == (RateKey(o), RateOf(results, o));
    case WithdrawalSymptoms => assert base.entries[3] == (RateKey(o), RateOf(results, o));
    case HadAdverseEvent => assert base.entries[4] == (RateKey(o), RateOf(results, o));
  }

  lemma BaseMean(results: seq<SimulationResult>, m: Measure)
    requires |results| > 0
    ensures (MeanKey(m), MeanOf(results, m)) in BaseMetrics(results).entries
  {
    var base := BaseMetrics(results);
    match m
    case PainScore => assert base.entries[5] == (MeanKey(m), MeanOf(results, m));
    case Analgesia => assert base.entries[6] == (MeanKey(m), MeanOf(results, m));
    case SideEffects => assert base.entries[7] == (MeanKey(m), MeanOf(results, m));
    case QualityOfLife => assert base.entries[8] == (MeanKey(m), MeanOf(results, m));
    case GActivation => assert base.entries[9] == (MeanKey(m), MeanOf(results, m));
    case BetaActivation => assert base.entries[10] == (MeanKey(m), MeanOf(results, m));
    case BaselineTolerance => assert base.entries[11] == (MeanKey(m), MeanOf(results, m));
  }

  /** Each outcome's rate is its count over the number of results, a fraction in [0, 1] that is 1 iff every result has it. */
  lemma AggregateRates(results: seq<SimulationResult>, sqrt: real -> real, o: Outcome)
    requires |results| > 0
    ensures Get(Aggregate(results, sqrt).value, RateKey(o)) == Some(Rate(CountWhere(results, o), |results|))
    ensures 0.0 <= Rate(CountWhere(results, o), |results|) <= 1.0
    ensures Rate(CountWhere(results, o), |results|) == 1.0 <==> forall i :: 0 <= i < |results| ==> Holds(results[i], o)
  {
    BaseRate(results, o);
    KeepsBase(results, sqrt, RateKey(o), RateOf(results, o));
    CountWhereRange(results, o);
    RateWithin(CountWhere(results, o), |results|);
  }

  /** A mean key starts with "avg" and is none of the three spread keys. */
  lemma MeanKeyShape(m: Measure)
    ensures |MeanKey(m)| > 0 && MeanKey(m)[0] == 'a'
    ensures MeanKey(m) != "pain_score_std" && MeanKey(m) != "analgesia_std" && MeanKey(m) != "qol_std"
  {
  }

  /** Each measure's entry is its mean over the results, between the least and the greatest value. */
  lemma AggregateMeans(results: seq<SimulationResult>, sqrt: real -> real, m: Measure, lo: real, hi: real)
    requires |results| > 0
    ensures Get(Aggregate(results, sqrt).value, MeanKey(m)) == Some(Mean(Column(results, m)))
    ensures (forall i :: 0 <= i < |results| ==> lo <= Measured(results[i], m) <= hi) ==>
      lo <= Mean(Column(results, m)) <= hi
  {
    assert Get(Aggregate(results, sqrt).value, MeanKey(m)) == Some(MeanOf(results, m)) by {
      BaseMean(results, m);
      MeanKeyShape(m);
      KeepsBase(results, sqrt, MeanKey(m), MeanOf(results, m));
    }
    if forall i :: 0 <= i < |results| ==> lo <= Measured(results[i], m) <= hi {
      MeanAtLeast(Column(results, m), lo);
      MeanAtMost(Column(results, m), hi);
    }
  }

  /**
   * A medication that occurs, and whose key no other occurring medication
   * shares, has its occurrence count over the number of results stored
   * under its key.
   */
  lemma AggregateMedicationRate(results: seq<SimulationResult>, sqrt: real -> real, med: string)
    requires |results| > 0 && med in AllMedications(results)
    requires forall other :: other in AllMedications(results) && MedicationKey(other) == MedicationKey(med) ==> other == med
    ensures Get(Aggregate(results, sqrt).value, MedicationKey(med))
         == Some(Rate(Occurrences(AllMedications(results), med), |results|))
  {
    var base := BaseMetrics(results);
    var tally := Tally(AllMedications(results)).entries;
    TallyEntry(AllMedications(results), med);
    WithRatesGet(base, tally, |results|, med, Occurrences(AllMedications(results), med));
    var withMeds := WithRates(base, tally, |results|);
    WithReleasesOther(withMeds, Keys(results[0].neurotransmitterRelease), results, MedicationKey(med));
    SpreadsOther(Sections(results), results, sqrt, MedicationKey(med));
  }

  /** A name that occurs has one entry, holding its count; no other entry shares its key when no other name does. */
  lemma TallyEntry(all: seq<string>, med: string)
    requires med in all
    requires forall other :: other in all && MedicationKey(other) == MedicationKey(med) ==> other == med
    ensures DistinctKeys(Tally(all).entries)
    ensures (med, Occurrences(all, med)) in Tally(all).entries
    ensures forall j :: 0 <= j < |Tally(all).entries| && MedicationKey(Tally(all).entries[j].0) == MedicationKey(med) ==>
      Tally(all).entries[j].0 == med
  {
    var tally := Tally(all);
    TallyCounts(all, med);
    FindSomeIffKey(tally.entries, med);
    var i :| 0 <= i < |tally.entries| && tally.entries[i].0 == med;
    FindAt(tally.entries, i);
    assert tally.entries[i] == (med, Occurrences(all, med));
    forall j | 0 <= j < |tally.entries| && MedicationKey(tally.entries[j].0) == MedicationKey(med)
      ensures tally.entries[j].0 == med
    {
      var other := tally.entries[j].0;
      FindSomeIffKey(tally.entries, other);
      TallyCounts(all, other);
    }
  }

  /** Every neurotransmitter of the first result gets the mean of its levels, a missing level counting as 0. */
  lemma AggregateRelease(results: seq<SimulationResult>, sqrt: real -> real, k: string)
    requires |results| > 0 && HasKey(results[0].neurotransmitterRelease, k)
    ensures Get(Aggregate(results, sqrt).value, "nt_" + k) == Some(Mean(ReleaseColumn(results, k)))
  {
    var first := results[0].neurotransmitterRelease;
    var withMeds := WithRates(BaseMetrics(results), Tally(AllMedications(results)).entries, |results|);
    WithReleasesGet(withMeds, Keys(first), results, k);
    assert ("nt_" + k)[0] == 'n';
    SpreadsOther(Sections(results), results, sqrt, "nt_" + k);
  }

  /** The three spreads are the square roots of the variances of their columns. */
  lemma AggregateSpreads(results: seq<SimulationResult>, sqrt: real -> real)
    requires |results| > 0
    ensures Get(Aggregate(results, sqrt).value, "pain_score_std") == Some(sqrt(Variance(Column(results, PainScore))))
    ensures Get(Aggregate(results, sqrt).value, "analgesia_std") == Some(sqrt(Variance(Column(results, Analgesia))))
    ensures Get(Aggregate(results, sqrt).value, "qol_std") == Some(sqrt(Variance(Column(results, QualityOfLife))))
  {
    var d := Sections(results);
    var d1 := Set(d, "pain_score_std", Std(Column(results, PainScore), sqrt));
    var d2 := Set(d1, "analgesia_std", Std(Column(results, Analgesia), sqrt));
    SetGet(d, "pain_score_std", Std(Column(results, PainScore), sqrt), "pain_score_std");
    SetGet(d1, "analgesia_std", Std(Column(results, Analgesia), sqrt), "pain_score_std");
    SetGet(d2, "qol_std", Std(Column(results, QualityOfLife), sqrt), "pain_score_std");
    SetGet(d1, "analgesia_std", Std(Column(results, Analgesia), sqrt), "analgesia_std");
    SetGet(d2, "qol_std", Std(Column(results, QualityOfLife), sqrt), "analgesia_std");
    SetGet(d2, "qol_std", Std(Column(results, QualityOfLife), sqrt), "qol_std");
  }

  // ---------------------------------------------------------------------------
  // The aggregation as the source runs it

  /** for med, count in medication_counts.items(): metrics[...] = count / n_patients */
  method WriteRates(d: Dict<string, real>, items: seq<(string, nat)>, n: nat) returns (metrics: Dict<string, real>)
    requires n > 0
    ensures metrics == WithRates(d, items, n)
  {
    metrics := d;
    for i := 0 to |items|
      invariant metrics == WithRates(d, items[..i], n)
    {
      assert items[..i + 1][..i] == items[..i];
      var (med, count) := items[i];
      metrics := Set(metrics, MedicationKey(med), count as real / n as real);
    }
    assert items[..|items|] == items;
  }

  /** for nt in results[0].neurotransmitter_release.keys(): metrics[f'nt_{nt}'] = np.mean(...) */
  method WriteReleases(d: Dict<string, real>, names: seq<string>, results: seq<SimulationResult>)
    returns (metrics: Dict<string, real>)
    requires |results| > 0
    ensures metrics == WithReleases(d, names, results)
  {
    metrics := d;
    for j := 0 to |names|
      invariant metrics == WithReleases(d, names[..j], results)
    {
      assert names[..j + 1][..j] == names[..j];
      var nt := names[j];
      metrics := Set(metrics, "nt_" + nt, Mean(ReleaseColumn(results, nt)));
    }
    assert names[..|names|] == names;
  }

  /** _aggregate_results: the literal, the medication loop, the neurotransmitter loop, the spreads. */
  method AggregateResults(results: seq<SimulationResult>, sqrt: real -> real)
    returns (r: Result<Dict<string, real>, string>)
    ensures r == Aggregate(results, sqrt)
  {
    var n := |results|;
    if n == 0 {
      return Err("ZeroDivisionError: division by zero");
    }
    var counts := CountMedications(results);
    var metrics := WriteRates(BaseMetrics(results), counts.entries, n);
    var first := results[0].neurotransmitterRelease;
    if |first.entries| > 0 {
      metrics := WriteReleases(metrics, Keys(first), results);
    }
    metrics := Set(metrics, "pain_score_std", Std(Column(results, PainScore), sqrt));
    metrics := Set(metrics, "analgesia_std", Std(Column(results, Analgesia), sqrt));
    metrics := Set(metrics, "qol_std", Std(Column(results, QualityOfLife), sqrt));
    return Ok(metrics);
  }
}
