# ZEROPAIN core in Dafny

ZEROPAIN evaluates multi-compound opioid dosing protocols on synthetic
patient populations. This project models its computational core and proves
properties of that model.

- **C Monte-Carlo engine** (`src/patient_sim_main.c`):
  - a per-thread xorshift64 generator with uniform, Box-Muller normal and categorical draws;
  - population generation with clamped clinical fields;
  - the clearance, concentration and receptor-dynamics formulas;
  - the day/timestep treatment loop with its stopping rule and outcome record;
  - the population driver.
- **Python population simulator** (`src/patient_simulation_100k.py`): the age and weight samplers, the patient generator, `simulate_patient` and the aggregation of results.
- **Compound tools** (`src/opioid_analysis_tools.py`): the compound record and its dictionary form, safety score and bias ratio, the compound database with its filters, the PK/PD helpers and the therapeutic window.
- **Modelling helpers**: tolerance and withdrawal models (`src/tolerance_models.py`), cohort specifications and scenario templates (`src/scenarios.py`), and the configuration and dosing policies of the PK/PD calibration (`src/pkpd_calibration.py`).
- **Batch runner** (`src/pipeline/distributed_runner.py`): batching with a checkpoint per batch.
- **Control panel state** (`src/zeropain_control_panel.cpp`): the indicator intensity, the per-compound metrics and the bounded live histories.
- **Docking pipeline** (`zeropain/docking/`): job records, input validation, backend and device selection, the two pose generators, the pipeline run and the message-bus stub consumer.
- **REST API** (`zeropain/api/`): token authentication and role guards, the user-management routes, the batch-docking job registry and the operational routes' pure core.

The model follows the code's structure:

- **One module per source file.** Big files are split by concern.
- **Arithmetic** is on exact reals and unbounded integers. The generator state is a `bv64`.
- **Python dictionaries** are insertion-ordered entry lists (module `OrderedDict`).
- **Python raises** become `Err` results.
- **Randomness, clocks, transcendental functions and external services** are parameters. Each module's header comment names them.
- **State changed in place** becomes a class: the C generator, the compound database, the control-panel records, the tolerance states, the batch runner, the user store and the job store. Each class method is proved against a function of the old state.
- **Loops** are methods. Their invariants tie them to a specification function.

Some behaviour of the code is surprising and is modelled as written:

- `random_normal` scales the cached spare by `stddev` a second time when it is returned.
- In the C treatment loop, a break on day 0 is finalised as a success on day `SIMULATION_DAYS`.
- The C analgesia value is never clamped.
- `simulate_patient` zips the compounds it found with the protocol's doses and frequencies. An unknown compound name therefore shifts later doses (`PatientSimulation.UnknownNameShiftsDoses`).
- The 404 branch of `change_password` cannot be reached (`AuthRoutes.ChangePasswordNeverNotFound`).

## Model

| member | source | states |
|---|---|---|
| CompoundProfiles.KiRoundTrip | src/opioid_analysis_tools.py:17-19 | a binding constant, finite or the `float('inf')` "no binding" value, reads back as itself from its serialised form |
| CompoundProfiles.FieldNamesDistinct | src/opioid_analysis_tools.py:32-50 | the fifteen keys `to_dict` writes are pairwise distinct |
| CompoundProfiles.ToDict | src/opioid_analysis_tools.py:32-50 | the dictionary is an object whose keys are exactly the fifteen field names in declaration order |
| CompoundProfiles.ToDictFields | src/opioid_analysis_tools.py:32-50 | each key maps to the value of the field of the same name |
| CompoundProfiles.FromDict | src/opioid_analysis_tools.py:52-55 | `cls(**data)` succeeds exactly when every key binds a field, every required field is present and every value is one the model represents (a number, a boolean, a string or a list of strings where the field declares it); on success the name comes from the `name` entry |
| CompoundProfiles.FromDictToDict | src/opioid_analysis_tools.py:32-55 | `from_dict(c.to_dict())` gives back `c` for every profile |
| CompoundProfiles.ReadFieldsToDict | src/opioid_analysis_tools.py:32-55 | reading the fields of `to_dict(c)` gives `c` |
| CompoundProfiles.BindsToDict | src/opioid_analysis_tools.py:32-55 | every key of `to_dict(c)` names a constructor parameter |
| CompoundProfiles.SafetyScore | src/opioid_analysis_tools.py:57-89 | the step-by-step score equals the specification score and lies in [0, 100] |
| CompoundProfiles.SafetyScoreAtLeast30 | src/opioid_analysis_tools.py:57-89 | the score is 100 plus the summed adjustments capped at 100, and never below 30 since the penalties add up to at most 70 |
| CompoundProfiles.SafetyMonotone | src/opioid_analysis_tools.py:75-78 | turning on tolerance reversal or withdrawal prevention never lowers the score |
| CompoundProfiles.BiasRatio | src/opioid_analysis_tools.py:91-95 | the ratio is infinite exactly when the beta-arrestin bias is 0, and otherwise multiplies back to the G-protein bias |
| CompoundDatabases.TableOf | src/opioid_analysis_tools.py:106-282 | the table holds the names paired with their profiles, in order |
| CompoundDatabases.TableOfWf | src/opioid_analysis_tools.py:106-282 | with distinct names the table is a well-formed dictionary whose keys are the names |
| CompoundDatabases.StandardNamesDistinct | src/opioid_analysis_tools.py:106-282 | the built-in compound names are pairwise distinct |
| CompoundDatabases.InitialCompoundsWf | src/opioid_analysis_tools.py:101-282 | the built-in table is well formed, keyed by the standard names in insertion order |
| CompoundDatabases.LookupFound | src/opioid_analysis_tools.py:288-292 | a lookup finds a compound exactly when the standard or the custom table holds the name |
| CompoundDatabases.AddThenLookup | src/opioid_analysis_tools.py:284-292 | after adding a custom compound its lookup returns it unless a standard compound has that name (standard wins); lookups of other names are unchanged |
| CompoundDatabases.ListNames | src/opioid_analysis_tools.py:294-302 | "all" lists as many names as both tables hold; an unknown category lists nothing |
| CompoundDatabases.ListedNamesResolve | src/opioid_analysis_tools.py:288-302 | every name listed under "all" can be looked up |
| CompoundDatabases.SelectKi | src/opioid_analysis_tools.py:304-323 | the selection keeps exactly the compounds whose Ki at the site is finite and in [ki_min, ki_max] |
| CompoundDatabases.SelectSafe | src/opioid_analysis_tools.py:325-329 | the selection keeps exactly the compounds whose safety score is at least the minimum |
| CompoundDatabases.SelectKiStep | src/opioid_analysis_tools.py:313-322 | one more loop iteration appends the next compound exactly when it is in range |
| CompoundDatabases.UnknownSiteSelectsNothing | src/opioid_analysis_tools.py:313-320 | a site other than the three known ones selects no compound |
| CompoundDatabases.MergedPrefersCustom | src/opioid_analysis_tools.py:308 | in the merged `{**compounds, **custom_compounds}` a custom entry overrides a standard one of the same name |
| CompoundDatabases.CompoundDatabase.constructor | src/opioid_analysis_tools.py:101-104 | a new database holds the built-in table and no custom compounds |
| CompoundDatabases.CompoundDatabase.AddCustomCompound | src/opioid_analysis_tools.py:284-286 | only `custom_compounds[name]` is inserted or overwritten; the standard table is unchanged |
| CompoundDatabases.CompoundDatabase.GetCompound | src/opioid_analysis_tools.py:288-292 | a compound is returned exactly when either table has the name; the standard entry is taken when there is one and the custom entry otherwise |
| CompoundDatabases.CompoundDatabase.ListCompounds | src/opioid_analysis_tools.py:294-302 | "all" lists the standard names then the custom names; every listed name resolves; an unknown category gives [] |
| CompoundDatabases.CompoundDatabase.FilterByKiRange | src/opioid_analysis_tools.py:304-323 | the loop's result keeps exactly the merged compounds whose Ki at the site lies in range, in order |
| CompoundDatabases.CompoundDatabase.FilterBySafety | src/opioid_analysis_tools.py:325-329 | the result keeps exactly the merged compounds scoring at least the minimum |
| PkModel.Concentration | src/opioid_analysis_tools.py:387-395 | the concentration is defined except on a zero half-life or volume, where Python raises ZeroDivisionError |
| PkModel.ConcentrationHalves | src/opioid_analysis_tools.py:387-395 | when exp is exponential with exp(-0.693) = 1/2, one half-life later the concentration has halved |
| PkModel.ConcentrationFacts | src/opioid_analysis_tools.py:387-395 | for non-negative dose and bioavailability and a positive volume the concentration is defined and non-negative, and at time 0 it is dose·F/Vd |
| PkModel.ReceptorOccupancy | src/opioid_analysis_tools.py:397-406 | occupancy is 0 for an infinite Ki, fails only when c + Ki = 0, and lies between 0 and the intrinsic activity for c ≥ 0 and Ki > 0 |
| PkModel.AnalgesiaWithin | src/opioid_analysis_tools.py:408-411 | `g·(1 - t)` lies in [0, g] for tolerance in [0, 1] and equals g at the default tolerance 0 |
| PkModel.AnalgesiaMonotone | src/opioid_analysis_tools.py:408-411 | more tolerance never gives more analgesia |
| PkModel.CalculateSideEffects | src/opioid_analysis_tools.py:413-421 | for non-negative beta-arrestin activation the four risks are ordered respiratory ≤ nausea ≤ sedation ≤ constipation ≤ beta |
| PkModel.NeurotransmitterRelease | src/opioid_analysis_tools.py:423-443 | with both activations clamped to [0, 1], the five releases lie in their ranges and are non-negative, and endorphins and substance P move in opposite directions |
| PkModel.NeurotransmittersUnclamped | src/opioid_analysis_tools.py:423-443 | activations already in [0, 1] are used as they are |
| PkModel.ArgMin | src/opioid_analysis_tools.py:527-544 | `np.argmin` returns the first index of a minimal element |
| PkModel.TherapeuticWindow | src/opioid_analysis_tools.py:527-544 | the window fails only on an empty analgesia curve; when it is a number it is non-negative |
| PkModel.TherapeuticWindowIndices | src/opioid_analysis_tools.py:527-544 | a finite window is the TD50 index divided by the ED50 index; the ED50 index is positive, lies inside the side-effect curve and is closest to 0.5 on the analgesia curve |
| PatientGeneration.SampleAge | src/patient_simulation_100k.py:28-30 | for a Beta draw in [0, 1] the truncated age lies in [min_age, max_age] |
| PatientGeneration.SampleWeight | src/patient_simulation_100k.py:44-49 | the weight is the sex's normal draw clipped to [min_weight, max_weight], and is the draw itself when that is inside the bounds |
| PatientGeneration.AccumulateFacts | src/patient_simulation_100k.py:255-273 | one name is appended per taken medication; with none taken every effect keeps its neutral start; positive multipliers give positive products and non-negative tolerances a non-negative sum |
| PatientGeneration.ConditionChance | src/patient_simulation_100k.py:278-284 | the chance `min(1, prev·(1 + max(0, age-50)·0.01))` is at most 1 and, for a prevalence in [0, 1], at least the prevalence |
| PatientGeneration.Conditions | src/patient_simulation_100k.py:276-284 | only configured condition names are drawn |
| PatientGeneration.ConditionsExactly | src/patient_simulation_100k.py:276-284 | with distinct keys, a condition is present exactly when its uniform falls below its chance |
| PatientGeneration.AgeScaled | src/patient_simulation_100k.py:240-243 | the age factor (0.8 above 65, 1.2 below 25) keeps a positive metabolism positive |
| PatientGeneration.DiseaseScaled | src/patient_simulation_100k.py:286-292 | the liver (0.6) and kidney (0.7) factors keep a positive metabolism positive |
| PatientGeneration.EffectsDict | src/patient_simulation_100k.py:256-262 | `medication_effects` has exactly the five effect keys, each holding the accumulated value |
| PatientGeneration.PatientFrom | src/patient_simulation_100k.py:221-305 | the patient carries the id it was generated for |
| PatientGeneration.PatientOf | src/patient_simulation_100k.py:221-228 | `generate_patient` raises ValueError exactly when a seed is given and seed + id is negative (`default_rng` rejects it); otherwise it uses the default config when none is given and draws seeded from seed + id, and the patient keeps its id |
| PatientGeneration.DrawsFor | src/patient_simulation_100k.py:228 | a patient draws from the stream seeded by seed + id, or from an unseeded stream without a seed; defined only where `default_rng` accepts the seed |
| PatientGeneration.PatientBounds | src/patient_simulation_100k.py:221-305 | sex is M or F, age and weight lie in their configured bounds, pain severity in [0, 10], and comorbidities come from the configured keys |
| PatientGeneration.PatientMedications | src/patient_simulation_100k.py:255-273 | one medication name per taken draw; the effects dictionary has the five keys, and its baseline tolerance is the patient's |
| PatientGeneration.MetabolismPositive | src/patient_simulation_100k.py:237-292 | a positive log-normal draw and positive medication multipliers give a positive metabolism rate |
| PatientGeneration.SeedPlusId | src/patient_simulation_100k.py:228 | for a non-negative sum, patient i under seed s + j equals patient i + j under seed s apart from the id, since each patient draws from seed + id |
| PatientGeneration.DrawMedications | src/patient_simulation_100k.py:255-273 | the medication loop computes the accumulated names and effects |
| PatientGeneration.DrawConditions | src/patient_simulation_100k.py:276-284 | the comorbidity loop computes the drawn conditions in key order |
| PatientGeneration.GeneratePatient | src/patient_simulation_100k.py:221-305 | the method returns the ValueError for a rejected seed and otherwise the specification patient for the id, seed and config |
| PatientGeneration.BuildPatient | src/patient_simulation_100k.py:230-305 | the steps of generate_patient build the specification patient from the draws |
| PatientGeneration.PatientFromParts | src/patient_simulation_100k.py:230-305 | the patient's fields are the age sample, the weight sample for its sex, the scaled metabolism and sensitivity, ten times the pain draw, the conditions and the medications |
| PatientGeneration.Population | src/patient_simulation_100k.py:316-317 | a population of n fails with the ValueError exactly when the seed is negative and n > 0 (patient 0 already rejects it), and otherwise has n patients |
| PatientGeneration.PopulationFails | src/patient_simulation_100k.py:316-317 | the list comprehension fails exactly when some patient i < n fails |
| PatientGeneration.PopulationAt | src/patient_simulation_100k.py:316-317 | in a successful population, patient i is generate_patient(i, seed, cfg), which succeeds, and has id i |
| PatientGeneration.PopulationSnoc | src/patient_simulation_100k.py:316-317 | a successful population of n + 1 is the successful population of n followed by patient n, so the loop can build it one patient at a time |
| PatientGeneration.GenerateWith | src/patient_simulation_100k.py:314-317 | the generation loop over ids 0 .. total - 1 yields the specification population or its error, none for a non-positive total, stopping at the first failing patient |
| PatientGeneration.GeneratePopulation | src/patient_simulation_100k.py:308-317 | the result is the specification population of `population_size or n_patients` patients in id order, or the ValueError a negative seed raises |
| SimulationResults.Reals | src/patient_simulation_100k.py:148-161 | a float dictionary serialises to an object with the same keys |
| SimulationResults.RealsRoundTrip | src/patient_simulation_100k.py:148-161 | a float dictionary reads back as itself |
| SimulationResults.PatientFieldNamesDistinct | src/patient_simulation_100k.py:148-161 | the eleven patient keys are pairwise distinct |
| SimulationResults.PatientToDict | src/patient_simulation_100k.py:148-161 | the patient dictionary's keys are exactly the eleven field names in order |
| SimulationResults.PatientToDictFields | src/patient_simulation_100k.py:148-161 | each patient key holds the field of that name |
| SimulationResults.PatientFromDict | src/patient_simulation_100k.py:202 | `PatientProfile(**data)` succeeds exactly when every key binds a field, every field is present and every value is one the model represents for that field |
| SimulationResults.PatientRoundTrip | src/patient_simulation_100k.py:148-161 | a patient read back from its dictionary is itself |
| SimulationResults.ResultFieldNamesDistinct | src/patient_simulation_100k.py:181-196 | the thirteen result keys are pairwise distinct |
| SimulationResults.ToDict | src/patient_simulation_100k.py:181-196 | the result dictionary's keys are exactly the thirteen field names in order |
| SimulationResults.ToDictFields | src/patient_simulation_100k.py:181-196 | each result key holds its field; the patient entry is the patient's dictionary |
| SimulationResults.FromDict | src/patient_simulation_100k.py:199-214 | a result needs its patient entry and its success flag; the two activations default to 0.0 and the release dictionary to empty when missing |
| SimulationResults.FromDictToDict | src/patient_simulation_100k.py:181-214 | `from_dict(r.to_dict())` gives back `r` |
| SimulationResults.ItemsToDict | src/patient_simulation_100k.py:181-214 | every item from_dict reads from `r.to_dict()` is the field of `r` |
| PatientSimulation.TimeOfDay | src/patient_simulation_100k.py:378-382 | the clock time of timestep t lies in [0, 24) and is t·0.25 hours on the first day |
| PatientSimulation.DoseTimeWithin | src/patient_simulation_100k.py:392-393 | every dose time `i·24/freq` of a frequency ≥ 1 falls within the day |
| PatientSimulation.MinOfFacts | src/patient_simulation_100k.py:396-398 | `min` of a non-empty list is one of its elements and bounds them all from below |
| PatientSimulation.TimeSinceDoseBounds | src/patient_simulation_100k.py:392-398 | the time since the last dose is the least of the per-dose gaps, attained by some dose, and lies in [0, 24) whenever freq ≥ 1 |
| PatientSimulation.Zip | src/patient_simulation_100k.py:390 | `zip` pairs compounds, doses and frequencies position by position, as long as the shortest list |
| PatientSimulation.ToleranceAfterFacts | src/patient_simulation_100k.py:435-442 | a non-reversing compound adds `rate·beta·1e-4`; a reversing one keeps a non-negative tolerance non-negative and never raises it |
| PatientSimulation.EffectiveTolerance | src/patient_simulation_100k.py:444-452 | the effective tolerance is at most 0.95, lies in [0, tolerance] for a non-negative tolerance, and is non-negative for a reversing compound |
| PatientSimulation.DosingError | src/patient_simulation_100k.py:390-401 | the loop raises exactly when a zipped frequency is below 1 (division by zero or `min` of an empty list) or the metabolism rate is 0 |
| PatientSimulation.AfterStep | src/patient_simulation_100k.py:377-489 | the state after timestep t + 1 is the compound contributions at t's clock time applied to the state after t with fresh sums |
| PatientSimulation.AdverseUpTo | src/patient_simulation_100k.py:480-483 | at most one uniform is drawn and at most one event recorded per timestep |
| PatientSimulation.AddictionRisk | src/patient_simulation_100k.py:513-518 | the risk lies between 0.25 and 0.4875 times the mean side effects |
| PatientSimulation.ProtectionLowersWithdrawalRisk | src/patient_simulation_100k.py:523-532 | withdrawal protection lowers the risk to 0.02, below the unprotected 0.15 + 0.1·tolerance, which lies in [0.15, 0.25] for a tolerance in [0, 1] |
| PatientSimulation.SuccessQuality | src/patient_simulation_100k.py:503-511 | a success has quality of life above 0.6 and no tolerance development |
| PatientSimulation.Timeline | src/patient_simulation_100k.py:377-489 | the timeline has one entry per timestep |
| PatientSimulation.TimelineAt | src/patient_simulation_100k.py:485-488 | entry j of the timeline is what timestep j stores |
| PatientSimulation.PainLevels | src/patient_simulation_100k.py:486 | one pain score per timestep |
| PatientSimulation.AnalgesiaLevels | src/patient_simulation_100k.py:487 | one analgesia level per timestep |
| PatientSimulation.SideEffectLevels | src/patient_simulation_100k.py:488 | one side-effect level per timestep |
| PatientSimulation.GActivationLevels | src/patient_simulation_100k.py:472 | one G activation per timestep |
| PatientSimulation.BetaActivationLevels | src/patient_simulation_100k.py:473 | one beta activation per timestep |
| PatientSimulation.Resolve | src/patient_simulation_100k.py:342-343 | the resolved compounds are at most the named ones, and none are left exactly when no name is known |
| PatientSimulation.CompoundStepTolerance | src/patient_simulation_100k.py:435-442 | one compound keeps the tolerance non-negative; it never lowers it unless it reverses tolerance, and then never raises it |
| PatientSimulation.ContributionsTolerance | src/patient_simulation_100k.py:390-462 | the compounds of a timestep keep the tolerance non-negative, and without a reversing compound never lower it |
| PatientSimulation.ToleranceNonNegative | src/patient_simulation_100k.py:366-489 | tolerance starts at `max(0, baseline_tolerance)`, stays non-negative at every timestep, and never falls without a reversing compound |
| PatientSimulation.TimestepBounds | src/patient_simulation_100k.py:464-478 | each timestep's analgesia and side effects are at most 1, pain is `max(0, baseline - analgesia·baseline)` so non-negative, at most the baseline for non-negative analgesia, and 0 at full analgesia |
| PatientSimulation.LevelsBounded | src/patient_simulation_100k.py:464-488 | the stored pain, analgesia and side-effect arrays keep the timestep bounds |
| PatientSimulation.MeanAtLeast | src/patient_simulation_100k.py:492-496 | a mean is at least any lower bound of its elements |
| PatientSimulation.MeanAtMost | src/patient_simulation_100k.py:492-496 | a mean is at most any upper bound of its elements |
| PatientSimulation.AssessFacts | src/patient_simulation_100k.py:491-561 | success holds iff avg pain < 4, avg analgesia > 0.5, avg side effects < 0.4 and final tolerance < 0.5; tolerance developed iff final > 0.5; withdrawal iff its draw falls below 0.02 with protection or 0.15 + 0.1·final without; the two outcome events are appended exactly when side effects exceed 0.6 and tolerance 0.7 |
| PatientSimulation.OutcomeAverages | src/patient_simulation_100k.py:492-494 | the averaged pain is non-negative and the averaged analgesia and side effects are at most 1 |
| PatientSimulation.SimulationFails | src/patient_simulation_100k.py:342-401 | the simulation raises exactly when no compound is known ("No valid compounds in protocol"), when there are no timepoints, or when a zipped frequency is below 1 or the metabolism is 0 |
| PatientSimulation.UnknownNameShiftsDoses | src/patient_simulation_100k.py:342-390 | a known compound listed after an unknown one takes the unknown one's dose and frequency |
| PatientSimulation.StepCompounds | src/patient_simulation_100k.py:390-462 | the inner loop over compounds computes the specification contributions |
| PatientSimulation.StepCompound | src/patient_simulation_100k.py:391-462 | one iteration computes the specification contribution of one compound |
| PatientSimulation.Tabulate | src/patient_simulation_100k.py:377-489 | the tabulated states, outputs and adverse records describe n timesteps |
| PatientSimulation.TabulatedStart | src/patient_simulation_100k.py:359-371 | the run starts from the floored baseline tolerance, zero sums and no events |
| PatientSimulation.TabulatedEnd | src/patient_simulation_100k.py:377-489 | the last tabulated state and record are those after all timesteps |
| PatientSimulation.TabulatedLevels | src/patient_simulation_100k.py:485-488 | arrays agreeing with the tabulated outputs are the specification level sequences |
| PatientSimulation.Timestep | src/patient_simulation_100k.py:378-489 | one timestep moves from tabulated state t to state t + 1 and stores output t |
| PatientSimulation.SimulateTimesteps | src/patient_simulation_100k.py:353-489 | the timestep loop fills the five fresh arrays with the specification outputs and ends in the final state |
| PatientSimulation.SimulatePatient | src/patient_simulation_100k.py:327-561 | `simulate_patient` returns the specification outcome or error for the patient, protocol and duration |
| PatientSimulation.Simulation | src/patient_simulation_100k.py:342-352 | success needs a known compound and a positive duration; no known compound raises "No valid compounds in protocol" before the duration is looked at, a negative duration raises from `np.zeros` and a zero one divides by zero |
| PatientSimulation.Conclude | src/patient_simulation_100k.py:491-561 | the step-by-step outcome computation equals `Assess` of the arrays, whose success, tolerance and risk rules `AssessFacts` states |
| PopulationSimulations.CountWhereRange | src/patient_simulation_100k.py:691-695 | an outcome count is at most the number of results, equal to it iff every result has the outcome, and 0 iff none does |
| PopulationSimulations.RateWithin | src/patient_simulation_100k.py:699-703 | a rate lies in [0, 1] and is 1 exactly when every patient counts |
| PopulationSimulations.Column | src/patient_simulation_100k.py:704-714 | a metric column has one entry per result, holding that result's value |
| PopulationSimulations.ReleaseColumn | src/patient_simulation_100k.py:728-730 | a release column has one entry per result, the release or 0.0 when missing |
| PopulationSimulations.VarianceFacts | src/patient_simulation_100k.py:733-735 | the population variance is non-negative and 0 for a constant column |
| PopulationSimulations.OccurrencesMultiplicity | src/patient_simulation_100k.py:718-721 | the count of a medication is its multiplicity among all medications, 0 exactly when absent |
| PopulationSimulations.TallyCounts | src/patient_simulation_100k.py:718-721 | the tally maps exactly the medications present to their counts |
| PopulationSimulations.TallyStep | src/patient_simulation_100k.py:721 | one more medication increments its count, `get(med, 0) + 1` |
| PopulationSimulations.CountMedications | src/patient_simulation_100k.py:718-721 | the counting loops compute the tally of all medications |
| PopulationSimulations.CountEach | src/patient_simulation_100k.py:720-721 | counting one patient's medications extends the tally |
| PopulationSimulations.MedicationKey | src/patient_simulation_100k.py:723 | a medication key is non-empty and begins with "m", so it never clashes with the other metric families it cites |
| PopulationSimulations.WithRatesOther | src/patient_simulation_100k.py:722-723 | writing the medication rates leaves keys not starting with "m" unchanged |
| PopulationSimulations.WithRatesGet | src/patient_simulation_100k.py:722-723 | a medication whose key no other medication shares gets `count / n` under its key |
| PopulationSimulations.WithReleasesOther | src/patient_simulation_100k.py:726-730 | writing the release means leaves keys not starting with "n" unchanged |
| PopulationSimulations.WithReleasesGet | src/patient_simulation_100k.py:726-730 | each release name gets the mean of its column under `nt_<name>` |
| PopulationSimulations.Aggregate | src/patient_simulation_100k.py:686-703 | aggregation fails exactly on an empty result list, with the ZeroDivisionError of `success_count / n_patients` |
| PopulationSimulations.BaseKeysDistinct | src/patient_simulation_100k.py:698-715 | the twelve base metric names are pairwise distinct |
| PopulationSimulations.BaseMetricsDistinct | src/patient_simulation_100k.py:698-715 | the base metrics dictionary holds the twelve names in order, so no key repeats |
| PopulationSimulations.SpreadsOther | src/patient_simulation_100k.py:733-735 | the spread step changes only the three `_std` keys |
| PopulationSimulations.KeepsBase | src/patient_simulation_100k.py:698-737 | a base metric survives the later writes unchanged |
| PopulationSimulations.BaseRate | src/patient_simulation_100k.py:699-703 | each outcome rate is among the base metrics |
| PopulationSimulations.BaseMean | src/patient_simulation_100k.py:704-714 | each mean is among the base metrics |
| PopulationSimulations.AggregateRates | src/patient_simulation_100k.py:691-703 | each outcome rate is its count over the number of patients, in [0, 1], and 1 iff every patient has the outcome |
| PopulationSimulations.AggregateMeans | src/patient_simulation_100k.py:704-714 | each mean metric is the mean of its column and stays within any bounds of the column |
| PopulationSimulations.MeanKeyShape | src/patient_simulation_100k.py:704-714 | every mean key is a non-empty `avg_…` name, so it never coincides with one of the three `_std` keys |
| PopulationSimulations.AggregateMedicationRate | src/patient_simulation_100k.py:718-723 | a medication whose key no other shares is reported at its number of occurrences over the number of patients |
| PopulationSimulations.TallyEntry | src/patient_simulation_100k.py:718-723 | the tally holds the medication once, with its count |
| PopulationSimulations.AggregateRelease | src/patient_simulation_100k.py:726-730 | every release name of the first result is reported as the mean over all results |
| PopulationSimulations.AggregateSpreads | src/patient_simulation_100k.py:733-735 | the three spreads are the square roots of the population variances |
| PopulationSimulations.WriteRates | src/patient_simulation_100k.py:722-723 | the rate-writing loop computes the specification metrics |
| PopulationSimulations.WriteReleases | src/patient_simulation_100k.py:726-730 | the release-writing loop computes the specification metrics |
| PopulationSimulations.AggregateResults | src/patient_simulation_100k.py:686-737 | `_aggregate_results` computes the specification aggregate |
| ControlPanel.Smoothed | src/zeropain_control_panel.cpp:136-137 | the smoothing step moves the intensity a tenth of the way to the target: it stays in [0, 1] when both start there, lies between them, and its distance to the target shrinks by 0.9 |
| ControlPanel.PowNine | src/zeropain_control_panel.cpp:137 | a power of 0.9 lies in (0, 1] |
| ControlPanel.SmoothedTimesDistance | src/zeropain_control_panel.cpp:137 | after k steps towards a fixed target the distance to it is 0.9^k times the first one |
| ControlPanel.MercuryArcRectifier.constructor | src/zeropain_control_panel.cpp:118-125 | a new rectifier starts with zero intensity, target, glow phase and flicker |
| ControlPanel.MercuryArcRectifier.SetIntensity | src/zeropain_control_panel.cpp:127-129 | the target becomes `clamp(x, 0, 1)` and nothing else changes |
| ControlPanel.MercuryArcRectifier.Update | src/zeropain_control_panel.cpp:131-150 | the intensity takes one smoothing step, the glow phase advances by 2·dt and wraps once past 2π, the flicker follows the intensity threshold 0.1, and intensities in [0, 1] stay there |
| ControlPanel.SafetyAdjustmentRange | src/zeropain_control_panel.cpp:259-266 | the seven adjustments add up to between -70 and +40, and to +40 for the best profile |
| ControlPanel.ColorOf | src/zeropain_control_panel.cpp:270-272 | green exactly above 80, amber exactly in (60, 80], red exactly at 60 or below |
| ControlPanel.CompoundData.constructor | src/zeropain_control_panel.cpp:236-248 | a compound record holds the given twelve properties |
| ControlPanel.CompoundData.CalculateMetrics | src/zeropain_control_panel.cpp:255-273 | the bias ratio is `g/(beta + 0.001)`, the score is 100 plus the seven adjustments clamped to [0, 100], the colour follows the score, and the properties are unchanged |
| ControlPanel.PresetScores | src/zeropain_control_panel.cpp:283-334 | the three presets score 100, 100 and 70, shown green, green and amber |
| ControlPanel.PushedFacts | src/zeropain_control_panel.cpp:357-370 | pushing ends with the new value, keeps earlier values in order, drops the oldest exactly when the length would pass 100, and keeps a history of at most 100 |
| ControlPanel.PushedLength | src/zeropain_control_panel.cpp:358-361 | a history of at most 100 stays at most 100 |
| ControlPanel.Push | src/zeropain_control_panel.cpp:360-361 | `push_back` then the conditional `pop_front` compute the specification push |
| ControlPanel.LiveMetrics.constructor | src/zeropain_control_panel.cpp:343-355 | new metrics have empty histories, zero current values, no processed patients and 100000 total |
| ControlPanel.LiveMetrics.AddDataPoint | src/zeropain_control_panel.cpp:357-376 | each of the four histories takes one push, the four current values become the arguments, the patient counters are unchanged, and the bounded-length invariant is kept |
| ControlPanel.PushedAllKeepsLast | src/zeropain_control_panel.cpp:357-370 | pushing a series into an empty history keeps exactly its last min(n, 100) values |
| SimRng.ToUnit | src/patient_sim_main.c:46-48 | a generator output divided by UINT64_MAX lies in [0, 1] |
| SimRng.XorShift | src/patient_sim_main.c:40-42 | one xorshift64 update maps zero to zero and every non-zero state to a non-zero state |
| SimRng.StateAfterNonZero | src/patient_sim_main.c:33-43 | the generator state after any number of updates is zero exactly when the seed is, so a non-zero seed never reaches the fixed point 0 |
| SimRng.UniformAtInUnit | src/patient_sim_main.c:46-48 | every uniform draw lies in [0, 1] |
| SimRng.PickCategory | src/patient_sim_main.c:67-75 | the scan returns the least index whose prefix sum reaches r, and n - 1 when none does, so an index in [0, n-1] for n ≥ 1 |
| SimRng.Category | src/patient_sim_main.c:67-75 | the specification index is the least one whose prefix sum reaches r, or n - 1 when none does, so in [0, n-1] for n ≥ 1 |
| SimRng.Seeded | src/patient_sim_main.c:34-37 | the first draw seeds the state from the entropy mixed with 0x123456789ABCDEF0 with no draws yet; a seeded state is kept, and the kept normal value is untouched |
| SimRng.UniformDraw | src/patient_sim_main.c:46-48 | a uniform draw seeds the generator if it is not yet seeded, returns a value in [0, 1], keeps the seed and any kept normal value, and advances the count by one |
| SimRng.NormalDraw | src/patient_sim_main.c:50-65 | a normal draw flips the kept-value flag; with a kept value it changes nothing else, and otherwise it takes two uniforms from the seeded stream |
| SimRng.CategoricalDraw | src/patient_sim_main.c:67-75 | a categorical draw returns an index in [0, n-1] for n ≥ 1 and moves the generator exactly as one uniform draw does |
| SimRng.DrawValues | src/patient_sim_main.c:46-75 | a uniform is the stream value at the draw's position; a categorical index is the category of that value; a normal is `spare·stddev + mean` with a kept value, and otherwise the first Box-Muller value of the next two stream values plus the mean, keeping the second |
| SimRng.ThreadRng.constructor | src/patient_sim_main.c:24-27 | a thread's generator starts unseeded with no spare |
| SimRng.ThreadRng.Next | src/patient_sim_main.c:33-44 | the first call seeds from the entropy mixed with 0x123456789ABCDEF0 and sets the flag for good; every call applies `s ^= s<<13; s ^= s>>7; s ^= s<<17` and returns the new state |
| SimRng.ThreadRng.Uniform | src/patient_sim_main.c:46-48 | each call returns the next value of the seeded uniform stream, in [0, 1], and moves the generator to the state `UniformDraw` gives |
| SimRng.ThreadRng.Normal | src/patient_sim_main.c:50-65 | with a spare it draws nothing, clears the flag and returns `spare·stddev + mean`; otherwise it draws two uniforms, keeps the already scaled cosine branch as the spare and returns the sine branch plus the mean; value and new state are those of `NormalDraw` |
| SimRng.ThreadRng.Categorical | src/patient_sim_main.c:67-75 | one uniform is drawn; the returned index is the category of the stream's next value, in [0, n-1] for n ≥ 1, and the generator moves as `CategoricalDraw` says |
| SimPharmacology.AgeClearanceFactor | src/patient_sim_main.c:151-154 | the age factor is 1 up to 65 and below 1 after |
| SimPharmacology.GeneticClearanceFactor | src/patient_sim_main.c:162-175 | the CYP2D6 factor is 0.3, 1.5 or 2.0 exactly for the poor, rapid and ultra-rapid phenotypes and 1.0 for every other one |
| SimPharmacology.ClearanceFactor | src/patient_sim_main.c:148-181 | the clearance factor always lies in [0.2, 3.0], and is the unclamped product whenever that lies there |
| SimPharmacology.Concentration | src/patient_sim_main.c:183-201 | the concentration is never negative, and an oral dose whose elimination constant equals the absorption constant gives 0 |
| SimPharmacology.Binding | src/patient_sim_main.c:218-226 | a binding fraction `c/(Ki + c)` lies in [0, 1) and is positive exactly for a positive concentration |
| SimPharmacology.CompetitionDiscount | src/patient_sim_main.c:230-233 | the competition discount multiplies the SR-14968 effect by a factor in [0.7, 1) |
| SimPharmacology.ShareWithin | src/patient_sim_main.c:231 | a positive share of a total lies in (0, 1] |
| SimPharmacology.Sr14968Effect | src/patient_sim_main.c:222-233 | the SR-14968 effect is discounted exactly when both SR compounds are bound |
| SimPharmacology.ReceptorDynamics | src/patient_sim_main.c:213-257 | the new tolerance is `max(0, prev + rate·0.01)`, so never negative, and does not fall when SR-17018 binding is at most 0.3; the activity is the total activation divided by 1 + prev; with non-negative compound constants activity and beta signal are non-negative |
| SimPharmacology.BetaArrestinSignal | src/patient_sim_main.c:241-243 | the beta-arrestin signal is DPP-26's bound fraction times its bias plus a tenth of SR-14968's bound fraction times its bias, so it is zero when neither is present |
| SimPharmacology.BetaArrestinIndependent | src/patient_sim_main.c:241-243 | the beta-arrestin signal does not depend on the SR-17018 concentration or on the previous tolerance |
| SimPharmacology.NonNegativeActivation | src/patient_sim_main.c:235-236 | the total activation is non-negative for non-negative constants and concentrations |
| SimPharmacology.AdjustedDoses | src/patient_sim_main.c:271-279 | only the DPP-26 dose changes, to 0.75 of it, exactly for age above 70 or eGFR below 30 |
| SimPharmacology.PainScore | src/patient_sim_main.c:340-342 | each timestep's pain lies in [0, 10], and is `baseline·(1 - 0.7·analgesia)` when that lies there |
| SimPharmacology.FMod | src/patient_sim_main.c:306-314 | `fmodf` of non-negative x by positive y lies in [0, y) |
| SimPharmacology.DailyResetAtMidnight | src/patient_sim_main.c:303-311 | the once-a-day dosing clock resets exactly at the first timestep of each day |
| SimPopulation.Demographics | src/patient_sim_main.c:98-102 | the age, sex, weight and BMI drawn, and the generator state left, are those of `DemographicsOf` from the state before; age lies in [18, 80], sex is 0 or 1, weight in [40, 150] and BMI in [16, 45] |
| SimPopulation.PainHistory | src/patient_sim_main.c:105-111 | the pain fields and the state left are those of `PainHistoryOf`; the pain type is one of the five, baseline pain lies in [1, 10], the duration in [1, 121] months, and the prior dose in [0, 90] with prior use and 0 without |
| SimPopulation.RiskAndOrgans | src/patient_sim_main.c:114-121 | the risk and organ fields and the state left are those of `RiskAndOrgansOf`; the risk category is one of the four, eGFR lies in [15, 120] and hepatic function in [0.3, 1.0] |
| SimPopulation.GeneticsAndAdherence | src/patient_sim_main.c:124-134 | the genetic fields, adherence and state left are those of `GeneticsOf`; both phenotypes are among the four, and adherence lies in [0.5, 1.0] for chronic cancer and [0.3, 0.95] otherwise |
| SimPopulation.GeneratePatient | src/patient_sim_main.c:95-134 | patient i and the state left are `PatientDraw` of the state before: id i and every field within its bounds |
| SimPopulation.NextPatient | src/patient_sim_main.c:94-134 | when the generator stands where the first i patients left it, iteration i draws patient i of `PopulationDraw` |
| SimPopulation.GeneratePopulation | src/patient_sim_main.c:81-138 | for n ≥ 0 a fresh array of n patients equal to `PopulationDraw` from the generator's state, with the state it leaves; patient i has id i and every field in bounds; for negative n the result is null and the generator is untouched |
| SimPopulation.PatientDrawUnfold | src/patient_sim_main.c:95-134 | a patient draw is the demographics, pain history, risk and organ, and genetics groups drawn one after another into the zeroed record |
| SimPopulation.DemographicsBounds | src/patient_sim_main.c:98-102 | the drawn age lies in [18, 80], sex is 0 or 1, weight in [40, 150] and BMI in [16, 45] |
| SimPopulation.PainHistoryBounds | src/patient_sim_main.c:105-111 | the drawn pain type is one of the five, baseline pain in [1, 10], duration in [1, 121], and the prior dose in [0, 90] with prior use and 0 without |
| SimPopulation.RiskAndOrgansBounds | src/patient_sim_main.c:114-121 | the drawn risk category is one of the four, eGFR in [15, 120] and hepatic function in [0.3, 1.0] |
| SimPopulation.GeneticsBounds | src/patient_sim_main.c:124-134 | both drawn phenotypes are among the four and adherence lies in the range of the pain type |
| SimPopulation.PatientDrawInBounds | src/patient_sim_main.c:95-134 | a drawn patient has the id it was drawn for and every field in its bounds |
| SimPopulation.DemographicsCount | src/patient_sim_main.c:98-102 | the demographics take four uniforms from the seeded stream and leave the kept-value flag as found |
| SimPopulation.PainHistoryCount | src/patient_sim_main.c:105-111 | the pain history takes three uniforms, one more for a prior dose, and a Box-Muller pair unless a value is kept, and flips the flag |
| SimPopulation.RiskAndOrgansCount | src/patient_sim_main.c:114-121 | the risk and organ fields take six uniforms and leave the flag as found |
| SimPopulation.GeneticsCount | src/patient_sim_main.c:124-134 | the genetics and adherence take four uniforms and a pair unless a value is kept, and flip the flag |
| SimPopulation.PatientDrawCount | src/patient_sim_main.c:95-134 | one patient keeps the seed, leaves the kept-value flag as found and consumes 19 uniforms, 20 with a prior dose |
| SimPopulation.PopulationDrawNext | src/patient_sim_main.c:94-135 | drawing n + 1 patients appends patient n, drawn from the state the first n leave |
| SimPopulation.PopulationDrawStep | src/patient_sim_main.c:94-135 | one more patient keeps the first n, has id n and lies in bounds, and keeps the seed and the flag |
| SimPopulation.PopulationDrawFacts | src/patient_sim_main.c:94-135 | a drawn population has n patients, patient i with id i and in bounds, all from one seed, and leaves the kept-value flag as found |
| SimPopulation.PatientDrawParts | src/patient_sim_main.c:95-134 | the four field groups drawn one after another, written into the record, are the patient draw |
| SimTreatment.SimulateDay | src/patient_sim_main.c:299-361 | the day's mean pain and mean analgesia are the sums of the day's T timesteps (DayPrefix) divided by T, and the carried state is the state after the last timestep; the mean pain lies in [0, 10], tolerance stays non-negative, the cumulative analgesia grows by T times the mean, at most one adverse event is counted per timestep, and the peak beta signal never falls |
| SimTreatment.Timestep | src/patient_sim_main.c:303-356 | one timestep's pain lies in [0, 10], tolerance stays non-negative, the cumulative analgesia grows by the step's analgesia, the adverse-event count grows by at most one and the peak beta signal never falls |
| SimTreatment.DayPrefix | src/patient_sim_main.c:302-357 | after n timesteps the pain sum lies in [0, 10n], tolerance is non-negative, the cumulative analgesia grew by the analgesia sum, at most n adverse events were added and the peak beta signal did not fall |
| SimTreatment.DayPrefixNext | src/patient_sim_main.c:302-357 | one more timestep adds that step's pain and analgesia to the prefix sums and moves to its state |
| SimTreatment.DayLoop | src/patient_sim_main.c:299-357 | the timestep loop's pain sum, analgesia sum and final state are those of DayPrefix over the whole day |
| SimTreatment.StateBefore | src/patient_sim_main.c:280-298 | the state carried into any day has non-negative tolerance |
| SimTreatment.ZeroDoseStep | src/patient_sim_main.c:316-342 | with all doses zero a timestep gives analgesia 0, the baseline pain score and unchanged tolerance |
| SimTreatment.ZeroDoseConcentration | src/patient_sim_main.c:183-201 | a zero dose gives concentration 0 |
| SimTreatment.ZeroDoseDayPrefix | src/patient_sim_main.c:302-357 | with all doses zero, n timesteps sum to analgesia 0 and n times the baseline pain score, and tolerance stays where it was |
| SimTreatment.ZeroDoseTolerance | src/patient_sim_main.c:298-358 | with all doses zero every day starts at tolerance 0 |
| SimTreatment.ZeroDoseDays | src/patient_sim_main.c:298-361 | with all doses zero every day's mean analgesia is 0 and its mean pain is the baseline clamped to [0, 10] |
| SimTreatment.NoReversalDayPrefix | src/patient_sim_main.c:326-330 | while SR-17018's binding stays at most 0.3 and DPP-26's tolerance rate is non-negative, tolerance does not fall over a day's timesteps |
| SimTreatment.NoReversalStep | src/patient_sim_main.c:326-330 | a timestep whose SR-17018 binding is at most 0.3 does not lower tolerance when DPP-26's tolerance rate is non-negative |
| SimTreatment.NoSr17018Binding | src/patient_sim_main.c:317-319 | without an SR-17018 dose its bound fraction is 0 at every timestep |
| SimTreatment.ToleranceMonotoneWithoutSr17018 | src/patient_sim_main.c:298-358 | without SR-17018 and with a non-negative DPP-26 tolerance rate, the tolerance carried into day d+1 is at least that carried into day d |
| SimTreatment.AddMean | src/patient_sim_main.c:345-347 | adding a day's analgesia total is adding T times its mean |
| SimTreatment.TrialAveragePain | src/patient_sim_main.c:384-388 | the trial average is the mean pain of days 0..TRIAL-1 |
| SimTreatment.EndOfDayChecks | src/patient_sim_main.c:366-396 | a day ends the run on failed pain control first, then on non-adherence, then, on the trial day only, on a trial mean above 5.0; it passes exactly when none applies |
| SimTreatment.AverageOfDays | src/patient_sim_main.c:360-400 | the per-day mean summed over days and divided by the day count is the mean over all timesteps |
| SimTreatment.Finalise | src/patient_sim_main.c:399-416 | the outcome keeps the daily arrays and reason; a run without a break or broken on day 0 is a success on day SIMULATION_DAYS, a break on day d > 0 is a failure on day d; the cost is (d+1) days of DPP-26 after a break on day d; the QALY uses the discontinuation day; tolerance is flagged above its threshold, withdrawal never occurs, the final tolerance and adverse-event count are the run state's, and addiction signs are flagged exactly when the peak beta signal exceeds the threshold over 100 |
| SimTreatment.PassedDaysKept | src/patient_sim_main.c:360-396 | later writes to the pain array do not change the verdict on days already passed |
| SimTreatment.NoDaysYet | src/patient_sim_main.c:265-295 | the zeroed outcome and state describe a run of no days |
| SimTreatment.AllDaysPassed | src/patient_sim_main.c:298-397 | a run through every day ends without a discontinuation |
| SimTreatment.RecordDay | src/patient_sim_main.c:359-364 | recording a day's averages and cost extends the run by that day |
| SimTreatment.PassDay | src/patient_sim_main.c:366-397 | a recorded day that passes every check lets the run go on to the next day |
| SimTreatment.FailDay | src/patient_sim_main.c:366-396 | a recorded day whose verdict is a failure ends the run on that day with that reason |
| SimTreatment.FailDayRecord | src/patient_sim_main.c:366-396 | a failed day holds the state that run ends in |
| SimTreatment.RunDay | src/patient_sim_main.c:298-397 | one iteration of the day loop either passes the day or ends the run on it with the first failed check; the day's array entries are DailyPain and DailyAnalgesia of that day and the state is StateBefore the next day |
| SimTreatment.TraceDay | src/patient_sim_main.c:359-361 | writing a simulated day's means into the arrays extends the trace of daily means and carried states by that day |
| SimTreatment.RunDays | src/patient_sim_main.c:298-397 | the day loop ends either after every day or on the first day that fails a check, with that check's reason; every day run holds its DailyPain and DailyAnalgesia and the final state is StateBefore the day after the last one run |
| SimTreatment.EndedStopRule | src/patient_sim_main.c:298-397 | the ended run satisfies the stopping rule: every earlier day passed, the break day failed the named check in check order, and unrun days hold zeros |
| SimTreatment.Treat | src/patient_sim_main.c:298-416 | the day loop and the finalisation give an outcome that satisfies the stopping rule and the finalisation, with the daily arrays, final tolerance, adverse events and addiction flag those of the simulated days |
| SimTreatment.TracedRecord | src/patient_sim_main.c:399-405 | an outcome holding the traced arrays and final state records the simulated days |
| SimTreatment.SimulatePatientTreatment | src/patient_sim_main.c:263-419 | the outcome keeps the patient id and daily pain in [0, 10], the run stops on the first failing day with its reason, the finalisation and the day-0 relabelling are as in the source, every day run records the mean pain and analgesia of that simulated day, and exactly the draws of the days run are used |
| SimTreatment.DrawsUsedNonNegative | src/patient_sim_main.c:349-375 | a run uses a non-negative number of uniform draws |
| SimTreatment.Progress.constructor | src/patient_sim_main.c:24-25 | the progress counter starts at zero |
| SimTreatment.SimulatePopulation | src/patient_sim_main.c:425-448 | `outcomes[i]` is the treatment outcome of patient i for every i < n, with its daily record, each run taking the draws after the previous one, the counter ends at n, and the rest of the output array is unchanged |
| SimTreatment.ZeroDoseOutcome | src/patient_sim_main.c:263-419 | a protocol with all doses zero records analgesia 0 and the baseline pain clamped to [0, 10] on every day run, and ends at tolerance 0 |
| ToleranceModels.ToleranceState.constructor | src/tolerance_models.py:13-16 | a tolerance state holds the given level and ceiling |
| ToleranceModels.WithdrawalState.constructor | src/tolerance_models.py:19-22 | a withdrawal state holds the given severity and onset delay |
| ToleranceModels.FloorTau | src/tolerance_models.py:45-59 | a time constant is floored at 1e-3 and otherwise kept |
| ToleranceModels.MakeSigmoid | src/tolerance_models.py:42-45 | a sigmoid model keeps its maximum and floors its half-life |
| ToleranceModels.MakeLagged | src/tolerance_models.py:56-60 | a lagged model keeps its ceiling and floors both time constants |
| ToleranceModels.UpdateTolerance | src/tolerance_models.py:35-69 | `update` mutates the passed state and returns that same object, whose level is the model's next level and whose ceiling is the model's |
| ToleranceModels.LinearCapped | src/tolerance_models.py:35-39 | the linear level is `min(level + slope·exposure·dt, ceiling)`: at most the ceiling, the uncapped sum exactly when that fits, and no lower than before for a non-negative increment |
| ToleranceModels.ScaleBetween | src/tolerance_models.py:50-66 | a fraction in [0, 1] of a step lies between 0 and the step |
| ToleranceModels.LevelWithinCeiling | src/tolerance_models.py:51-67 | the sigmoid and lagged levels always lie in [0, ceiling] for a non-negative ceiling |
| ToleranceModels.SigmoidTowardTarget | src/tolerance_models.py:47-51 | a sigmoid step moves the level towards the target without overshooting it |
| ToleranceModels.LaggedRises | src/tolerance_models.py:63-67 | under exposure the lagged level rises, never past the ceiling |
| ToleranceModels.LaggedDecays | src/tolerance_models.py:65-67 | without exposure the lagged level falls, never below 0 |
| ToleranceModels.UpdateWithdrawal | src/tolerance_models.py:82-91 | `update` mutates and returns the passed state; its severity follows the three cases and its onset delay is untouched |
| ToleranceModels.SeverityInUnit | src/tolerance_models.py:82-91 | severity stays in [0, 1] when it starts there and dt and the scale are non-negative |
| ToleranceModels.SeverityDirection | src/tolerance_models.py:83-90 | severity rises only past the onset delay; no abstinence lowers it by 0.1·dt and abstinence before the onset by 0.05·dt, each floored at 0 |
| ToleranceModels.MakeToleranceModel | src/tolerance_models.py:94-104 | "linear" gives the linear model, "lagged" the lagged one and any other name or none the sigmoid one, with floored time constants; the result is an error exactly when a parameter the chosen model reads (`slope`, `rise_tau` and `decay_tau`, or `half_life_days`, and `max_factor` for each) is present and not a number |
| ToleranceModels.DefaultToleranceModel | src/tolerance_models.py:104 | an empty config gives the sigmoid model with maximum 3.0 and half-life 14 days |
| ToleranceModels.ToleranceModelParameters | src/tolerance_models.py:94-104 | each model reads its own parameters and defaults the rest: slope 0.01, decay 10, ceiling 3.0 |
| ToleranceModels.MakeWithdrawalModel | src/tolerance_models.py:107-112 | onset defaults to 2.0 and scale to 1.0, a missing "withdrawal" entry gives both defaults, and a non-dictionary one fails |
| Scenarios.Parts | src/scenarios.py:77 | no part of a split spec is empty |
| Scenarios.NonBlank | src/scenarios.py:77 | stripping and dropping blanks keeps at most as many parts, none of them empty |
| Scenarios.ErrorSticks | src/scenarios.py:80-91 | once a part raises, the parse stays failed with that error |
| Scenarios.ParseCohortSpec | src/scenarios.py:73-103 | `parse_cohort_spec` computes the specification cohort or error |
| Scenarios.ReadParts | src/scenarios.py:75-91 | the loop over the comma-separated parts yields the fields read so far, or the first error among them |
| Scenarios.ReadPart | src/scenarios.py:81-91 | one loop iteration applies the specification rule for one part |
| Scenarios.PartOkIff | src/scenarios.py:81-91 | a part parses exactly when its `=`/`±` split has the right arity and its numbers parse |
| Scenarios.ParseUpToOkIff | src/scenarios.py:80-91 | the first n parts parse exactly when each of them does |
| Scenarios.CohortSpecOkIff | src/scenarios.py:73-103 | a spec parses exactly when every part does, and one with more than one `=` in a part raises |
| Scenarios.NoAssignmentsKeepsState | src/scenarios.py:80-91 | parts with neither `=` nor `±` are ignored |
| Scenarios.DefaultCohort | src/scenarios.py:92-103 | with nothing assigned every field takes its default: n 200, age 60±10, weight 80±15, sex ratio 0.5, renal 0.1, hepatic 0.05, tolerance 0.05, no seed |
| Scenarios.SinglePart | src/scenarios.py:77 | a stripped spec without commas is one part |
| Scenarios.OnePart | src/scenarios.py:77-103 | a one-part spec is that part's update of the defaults |
| Scenarios.AssignmentPart | src/scenarios.py:86-91 | `k=v` with k other than seed stores `float(v)` under k |
| Scenarios.SpreadPart | src/scenarios.py:81-85 | `k=m±s` stores m under `k_mean` and s under `k_std` |
| Scenarios.AgeWithoutSpread | src/scenarios.py:86-94 | `age=60` without a spread leaves the age mean at its default |
| Scenarios.AgeWithSpread | src/scenarios.py:81-95 | `age=m±s` sets the age mean and spread |
| Scenarios.CohortWeights | src/scenarios.py:53-60 | male mean `w + 5`, female mean `max(45, w - 5)`, both spreads the cohort's, bounds [45, 140] |
| Scenarios.BuildGenerationConfig | src/scenarios.py:50-70 | a negative seed fails (`default_rng` raises ValueError) and is the only failure; otherwise the config has the cohort size and sex ratio, age Beta(2, 3) on [18, 90], the cohort weights, kidney and liver prevalences replaced by the cohort rates and every other field and prevalence at its default |
| Scenarios.ImpairmentsFacts | src/scenarios.py:68-69 | only the kidney and liver keys change, to the cohort rates, in place |
| Scenarios.DefaultImpairmentKeys | src/scenarios.py:68-69 | the default prevalence table already holds both keys, so the assignments add none |
| Scenarios.ScenarioDefaults | src/scenarios.py:106-107 | over the templates of lines 28-47, a known scenario gives its template's horizon, taper and monitoring days; any other id gives `{}` |
| DistributedRunners.ChunkFlatten | src/pipeline/distributed_runner.py:116-120 | the chunks laid end to end give back the items, for every size including `size <= 0`, which gives `[items]` |
| DistributedRunners.ChunkCount | src/pipeline/distributed_runner.py:116-120 | for a positive size there are no chunks exactly for no items, and otherwise ⌈len/size⌉ of them |
| DistributedRunners.ChunkAt | src/pipeline/distributed_runner.py:120 | chunk k is `items[k·size : k·size + size]`, cut at the end of the items |
| DistributedRunners.ChunkSizes | src/pipeline/distributed_runner.py:120 | each chunk has between 1 and size items, and all but the last exactly size |
| DistributedRunners.Apply | src/pipeline/distributed_runner.py:84 | the local backend returns `[func(x) for x in batch]` |
| DistributedRunners.ApplyConcat | src/pipeline/distributed_runner.py:84 | applying func to a concatenation concatenates the applications |
| DistributedRunners.ApplyFlatten | src/pipeline/distributed_runner.py:56-77 | processing batch by batch and flattening equals applying func to all items |
| DistributedRunners.MapBatches | src/pipeline/distributed_runner.py:59-75 | one result list per batch, each the application of func to it |
| DistributedRunners.RunBatch | src/pipeline/distributed_runner.py:79-84 | `_run_batch` on the local backend (and on Ray or Dask when they are missing) applies func to every item in order |
| DistributedRunners.StoredUpToFacts | src/pipeline/distributed_runner.py:59-73 | after n batches a checkpoint `"{stage}-{idx}"` exists for each of them, a restored one unchanged and a computed one holding the dump of its results; every other checkpoint is as before |
| DistributedRunners.FreshResults | src/pipeline/distributed_runner.py:56-77 | with nothing to restore, the results are `[func(x) for x in items]` in order |
| DistributedRunners.FlattenSnoc | src/pipeline/distributed_runner.py:66-75 | extending the results by one more batch appends that batch's results |
| DistributedRunners.RestoredIgnoresFunc | src/pipeline/distributed_runner.py:62-67 | when every batch is restored the results do not depend on func: it is never called |
| DistributedRunners.NoResumeRecomputes | src/pipeline/distributed_runner.py:62-75 | with `resume=False` every batch is recomputed and every checkpoint overwritten with the dump of its results |
| DistributedRunners.ResumeReproduces | src/pipeline/distributed_runner.py:59-77 | rerunning with resume after a run that computed everything reproduces the first results whatever func is, when load inverts dump |
| DistributedRunners.DistributedRunner.constructor | src/pipeline/distributed_runner.py:20-43 | the runner keeps the lower-cased backend name, the resume flag and the checkpoints already on disk |
| DistributedRunners.DistributedRunner.Map | src/pipeline/distributed_runner.py:45-77 | `map` returns the specification results over the chunks and leaves the specification checkpoints |
| DistributedRunners.DeterministicSeeds | src/pipeline/distributed_runner.py:123-125 | `total` seeds (none for a non-positive total), seed i being `base + i` |
| DistributedRunners.SeedsIncreasing | src/pipeline/distributed_runner.py:123-125 | the seeds are strictly increasing, so pairwise distinct |
| PkpdCalibration.Sample | src/pkpd_calibration.py:32-38 | the clamped draw is at least `lower` when set (given `lower <= upper` if both are), at most `upper` when set, the draw itself when inside the bounds, and `upper` when the bounds cross |
| PkpdCalibration.LinearTerms | src/pkpd_calibration.py:50-51 | one term `beta·x[name]` per beta, a missing covariate counting 0 |
| PkpdCalibration.InteractionTerms | src/pkpd_calibration.py:52-53 | one term per interaction |
| PkpdCalibration.Effect | src/pkpd_calibration.py:48-54 | the accumulating loop computes the specification effect |
| PkpdCalibration.EffectOfEmpty | src/pkpd_calibration.py:45-54 | an empty mapping has effect 0 |
| PkpdCalibration.EffectWithoutCovariates | src/pkpd_calibration.py:48-54 | with every covariate missing the effect is 0 |
| PkpdCalibration.EffectLocal | src/pkpd_calibration.py:48-54 | the effect depends only on the covariates the mapping names |
| PkpdCalibration.ReadEntries | src/pkpd_calibration.py:68-85 | a dictionary comprehension keeps the keys in order |
| PkpdCalibration.WriteEntries | src/pkpd_calibration.py:263-270 | writing keeps the keys and writes each value |
| PkpdCalibration.EntriesRoundTrip | src/pkpd_calibration.py:260-272 | dictionaries written by `_config_to_dict` are read by `from_dict` (lines 68-85): when each value reads back, the whole dictionary does |
| PkpdCalibration.ReadInteractions | src/pkpd_calibration.py:80-82 | each interaction key `a*b` becomes the tuple of its `*`-separated parts |
| PkpdCalibration.FromDict | src/pkpd_calibration.py:66-91 | model defaults to "one_compartment", use_off_diagonal is False unless set under "covariance", and the priors are read in order |
| PkpdCalibration.FromEmptyDict | src/pkpd_calibration.py:57-91 | `from_dict({})` is the default config |
| PkpdCalibration.WriteInteractions | src/pkpd_calibration.py:268 | each interaction pair is written back as `"a*b"` |
| PkpdCalibration.ConfigToDict | src/pkpd_calibration.py:260-272 | `_config_to_dict` succeeds exactly when every interaction key is a pair |
| PkpdCalibration.ConfigToDictNested | src/pkpd_calibration.py:260-272 | the corrected writer succeeds under the same condition |
| PkpdCalibration.PriorRoundTrip | src/pkpd_calibration.py:68-76 | a prior written by `_config_to_dict` (line 264) reads back as itself |
| PkpdCalibration.InteractionsRoundTrip | src/pkpd_calibration.py:80-82 | interaction pairs written as `"a*b"` (line 268) whose names contain no `*` read back as themselves |
| PkpdCalibration.CovariateRoundTrip | src/pkpd_calibration.py:77-85 | written back at line 268, a covariate mapping with `*`-free names reads back as itself |
| PkpdCalibration.PartsRoundTrip | src/pkpd_calibration.py:66-91 | priors and covariates both survive the round trip through `_config_to_dict` (lines 260-272) and `from_dict` |
| PkpdCalibration.ConfigRoundTripDropsOffDiagonal | src/pkpd_calibration.py:271 | read back at line 90, the round trip as written gives back the config with use_off_diagonal reset to False, so a config with it set does not survive |
| PkpdCalibration.ConfigRoundTripNested | src/pkpd_calibration.py:66-91 | writing the flag under "covariance" makes the round trip the identity |
| PkpdCalibration.ProposeDose | src/pkpd_calibration.py:106-154 | the fixed policy always returns its dose with rationale and policy "fixed"; the other two name their own policy |
| PkpdCalibration.ExposureTargetDose | src/pkpd_calibration.py:125-137 | with `auc <= 0` the current dose is kept as "fallback_auc"; otherwise the dose is at least min_dose (default 10), at most max_dose when the bounds are ordered, and brings the expected exposure to the target when no bound applies |
| PkpdCalibration.ExposureTargetWithoutAuc | src/pkpd_calibration.py:126-129 | a summary without an AUC keeps the current dose |
| PkpdCalibration.ToxicityConstrainedDose | src/pkpd_calibration.py:145-154 | above the limit the dose steps down by step_mg, not below min_dose; otherwise, equality included, it steps up, not above max_dose (default 400) |
| DockingTypes.Prefix | zeropain/docking/types.py:20 | `hex[:8]` keeps at most 8 characters, all of a shorter string |
| DockingTypes.NewJob | zeropain/docking/types.py:11-21 | a new job spec carries its receptor and ligands, no grid, backend or hardware, 5 poses per ligand, at most 500 ligands, a 300 s timeout, run directory "runs" and a `dock-{seconds}-{hex8}` id |
| DockingTypes.JobId | zeropain/docking/types.py:20 | the id starts with "dock-" and ends with a "-" followed by the first (at most 8) characters of the uuid hex |
| DockingTypes.JobIdShape | zeropain/docking/types.py:20 | the default job id splits on `-` into "dock", the decimal seconds and the first 8 hex digits of the uuid, and is 14 characters longer than the seconds |
| DockingBackends.LigandSlice | zeropain/docking/backends/mocked.py:12 | `ligands[:max_ligands]` is a prefix of the ligands: the first max_ligands of them, or all but the last `-max_ligands` when the bound is negative |
| DockingBackends.LigandPoses | zeropain/docking/backends/mocked.py:13-23 | one pose per pose id of a ligand, pose j ranked after all the earlier ones |
| DockingBackends.Poses | zeropain/docking/backends/mocked.py:12-23 | the nested loops yield poses_per_ligand poses for each ligand |
| DockingBackends.Generate | zeropain/docking/backends/mocked.py:9-25 | the loop building the pose list yields the specification poses of the job |
| DockingBackends.JobPoses | zeropain/docking/backends/mocked.py:12-13 | a job yields poses_per_ligand poses for each ligand kept by `ligands[:max_ligands]`, and none when poses_per_ligand ≤ 0 or max_ligands is 0 |
| DockingBackends.RunMocked | zeropain/docking/backends/mocked.py:9-25 | the mocked backend returns the job's poses scored by the mocked formula from its own seeded stream |
| DockingBackends.RunPythonRef | zeropain/docking/backends/python_ref.py:9-25 | the reference backend returns the job's poses scored by the reference formula from its own seeded stream |
| DockingBackends.PosesLayout | zeropain/docking/backends/mocked.py:12-23 | the pose for ligand i and pose id j sits at index `i·poses_per_ligand + j` |
| DockingBackends.PoseFacts | zeropain/docking/backends/mocked.py:14-22 | every pose has rank equal to its index, its backend's name, the requested device, a pose id below poses_per_ligand, a ligand of the job, and a score in `[-5 - 0.01·pose_id, -4.9 - 0.01·pose_id)` (mocked) or `[-7, -6)` (reference) when the stream lies in `[0, 1)` |
| DockingIo.ValidateInputs | zeropain/docking/io.py:15-21 | a job is valid exactly when it has between 1 and max_ligands ligands and a receptor, and otherwise fails with the first of the three messages, in the source's order |
| DockingIo.Manifest | zeropain/docking/io.py:31-40 | the manifest is an object with the seven input keys in order |
| DockingIo.RunDir | zeropain/docking/io.py:25 | the run directory is `run_dir / job_id / "docking"` |
| DockingIo.InputsDir | zeropain/docking/io.py:27 | the inputs directory is one level below the run directory, named "inputs" |
| DockingIo.ManifestRoundTrip | zeropain/docking/io.py:31-40 | reading the manifest back gives the job's inputs |
| HardwareRouting.DetectHardwareProfile | zeropain/docking/hardware_routing.py:28-34 | the profile reports the core count (0 when unknown), no AVX2, Arc GPU or NPU, and whether the router is available |
| HardwareRouting.BuildRequest | zeropain/docking/hardware_routing.py:37-51 | no request without the router; otherwise the batch size is `max(1, min(max_ligands, len(ligands))·poses_per_ligand)`, the input shape is that one number, the workload id is the job id and the model name the backend or "docking" |
| HardwareRouting.FromAccelerator | zeropain/docking/hardware_routing.py:76-86 | a router decision maps to openvino_ml on the NPU exactly when the upper-cased accelerator contains NPU, to c_native on the GPU exactly when it does not but contains GPU or ARC, and to python_ref on the CPU otherwise |
| HardwareRouting.Heuristic | zeropain/docking/hardware_routing.py:91-93 | the fallback picks c_native on the GPU exactly when the profile has an Arc GPU, python_ref on the CPU otherwise |
| HardwareRouting.SelectBackend | zeropain/docking/hardware_routing.py:54-93 | a named backend is taken with device "CPU" for mocked and the hardware or "AUTO" otherwise; without one the router's decision decides, a router that gives no decision leaves the heuristic with empty meta, a router error is recorded under "router_error" before the heuristic runs, and without the router the heuristic picks |
| HardwareRouting.DecisionMeta | zeropain/docking/hardware_routing.py:77-81 | the routing meta of a decision has the keys accelerator, estimated_latency_ms and power_impact_w, in that order |
| HardwareRouting.NoRouterSelectsReference | zeropain/docking/hardware_routing.py:28-93 | with no backend named, no router and the detected profile, the job runs on python_ref on the CPU |
| DockingPipeline.CsvRows | zeropain/docking/pipeline.py:57-62 | scores.csv is the header followed by one row per pose, in pose order |
| DockingPipeline.WriteScores | zeropain/docking/pipeline.py:58-62 | the writer loop produces exactly those rows |
| DockingPipeline.RunDockingJob | zeropain/docking/pipeline.py:24-108 | an invalid job fails with the validation message and writes nothing; a valid one makes the run and inputs directories, writes the manifest, scores.csv and telemetry.json in that order and returns a successful result with the selected backend, device and poses |
| DockingPipeline.Telemetry | zeropain/docking/pipeline.py:64-71 | telemetry.json holds backend, device, ligands, poses, elapsed_sec and routing, in that order |
| DockingPipeline.Artifacts | zeropain/docking/pipeline.py:75-79 | the artifacts dictionary holds scores_csv, telemetry and inputs_manifest, in that order |
| DockingPipeline.ValidJobDocksAll | zeropain/docking/io.py:18-19 | a valid job docks every ligand: poses_per_ligand poses for each |
| DockingPipeline.ResultFacts | zeropain/docking/pipeline.py:31-90 | the result reports success, the selected backend and device and no errors; telemetry counts the job's ligands and the poses; each pose is labelled "mocked" for the mocked backend and "python_ref" for every other, since only those two have an implementation |
| DockingPipeline.WithoutRouterRunsReference | zeropain/docking/pipeline.py:26-27 | without the router and with no backend named, the pipeline selects python_ref on the CPU |
| DockingPipeline.MockedJobExample | zeropain/docking/pipeline.py:24-54 | a mocked job of two ligands with two poses each is valid, runs on the mocked backend on the CPU and yields 4 poses |
| MemshadowConsumer.Subscribe | zeropain/docking/memshadow_consumer.py:11-13 | the stub subscription always succeeds |
| MemshadowConsumer.RerankHandler | zeropain/docking/memshadow_consumer.py:16-24 | for an object payload the reply has keys job_id, type, scores, notes, type "docking.rerank", the payload's job id (null when missing) and its scores unchanged (empty when missing); a non-object payload fails |
| MemshadowConsumer.AlertHandler | zeropain/docking/memshadow_consumer.py:27-36 | the alert lists "slow_job" exactly when the telemetry's elapsed_sec exceeds 600, and fails where the Python comparison or lookup would raise |
| MemshadowConsumer.AlertFacts | zeropain/docking/memshadow_consumer.py:32-36 | the alert has type "docking.alert", the payload's job id and the alerts |
| MemshadowConsumer.SlowJobThreshold | zeropain/docking/memshadow_consumer.py:30 | a job is slow exactly when its elapsed time is above 600 s, 600 itself not slow |
| MemshadowConsumer.SlowJob | zeropain/docking/memshadow_consumer.py:30 | `elapsed_sec > 600` is defined for numbers and booleans (a boolean is never above 600, infinity always is) and raises TypeError for any other value |
| MemshadowConsumer.NoTelemetryNoAlert | zeropain/docking/memshadow_consumer.py:28-30 | a payload without telemetry raises no alert |
| DockingPipeline.ArtifactLayout | zeropain/docking/io.py:24-28 | the artifacts are three distinct files under `run_dir/job_id/docking`, the manifest in its `inputs` directory, and jobs with different ids use different directories |
| ApiAuth.Public | zeropain/api/auth.py:42-53 | the public user keeps every field of the stored user except the password hash |
| ApiAuth.InitialUsers | zeropain/api/auth.py:100-117 | the user table starts with exactly "admin" and "user", in that order |
| ApiAuth.AuthenticateUser | zeropain/api/auth.py:126-138 | a user is returned exactly when the name is known and the password checks against its hash, and it is the stored user |
| ApiAuth.TokenClaims | zeropain/api/auth.py:140-172 | the encoded claims carry the expiry and the token type, every other claim as given |
| ApiAuth.VerifyToken | zeropain/api/auth.py:175-193 | a token verifies exactly when it decodes, its type is the one asked for and it has a subject, which is the username returned |
| ApiAuth.UserTokensVerify | zeropain/api/auth.py:175-193 | issued as at lines 313-327, the access and refresh tokens of a user verify to the user's name and role, each only as its own type |
| ApiAuth.CurrentUser | zeropain/api/auth.py:212-233 | the current user is the public record of the access token's subject; a bad token or an unknown subject is 401 "Could not validate credentials" |
| ApiAuth.ActiveUser | zeropain/api/auth.py:236-245 | errors pass through, and a user is refused with 403 "Inactive user" exactly when disabled |
| ApiAuth.RequireAdmin | zeropain/api/auth.py:248-257 | an active user passes exactly when the role is "admin", otherwise 403 "Admin access required" |
| ApiAuth.RequireUserOrAdmin | zeropain/api/auth.py:260-274 | an active user passes exactly when the role is "user" or "admin", otherwise 403 "Insufficient permissions" |
| ApiAuth.AdminImpliesUserOrAdmin | zeropain/api/auth.py:248-274 | whoever passes the admin guard passes the user-or-admin guard |
| ApiAuth.VerifyApiKey | zeropain/api/auth.py:286-290 | no API key is accepted |
| ApiAuth.UserFromApiKey | zeropain/api/auth.py:293-311 | every API key is refused with 401 "Invalid API key" |
| AuthRoutes.InitialUsersValid | zeropain/api/auth.py:100-117 | the initial table is keyed by each user's own name |
| AuthRoutes.Login | zeropain/api/routes/auth.py:33-57 | bad credentials give 401 "Incorrect username or password", a disabled account 403 "Account is disabled", and otherwise the user's token pair |
| AuthRoutes.Refresh | zeropain/api/routes/auth.py:61-87 | an invalid refresh token gives 401 "Invalid refresh token", an unknown or disabled subject 401 "User not found or disabled", and otherwise a fresh token pair for the subject |
| AuthRoutes.LoginThenRefresh | zeropain/api/routes/auth.py:33-87 | the refresh token a login returns refreshes to a new token pair of the same user |
| AuthRoutes.ListUsers | zeropain/api/routes/auth.py:144-152 | an admin gets the public record of every user, in table order; anyone else gets the guard's error |
| AuthRoutes.ChangePasswordOutcome | zeropain/api/routes/auth.py:114-140 | a wrong old password gives 400 "Incorrect password" and a missing user 404; success replaces only the caller's hash, keeping every other user and the key order; a failure changes nothing |
| AuthRoutes.ChangePasswordNeverNotFound | zeropain/api/routes/auth.py:127-130 | the 404 branch of change_password is unreachable: an authenticated caller is always in the table |
| AuthRoutes.CreateUserOutcome | zeropain/api/routes/auth.py:156-188 | a taken name gives 400 "Username already exists"; otherwise an enabled user with the new hash is appended and returned without it, the rest unchanged; a failure changes nothing |
| AuthRoutes.DeleteUserOutcome | zeropain/api/routes/auth.py:192-217 | deleting oneself gives 400, an unknown user 404; otherwise exactly that user is removed and the others keep their order; a failure changes nothing |
| AuthRoutes.DisableUserOutcome | zeropain/api/routes/auth.py:221-249 | disabling oneself gives 400, an unknown user 404; otherwise only that user's disabled flag is set, with the message "disabled" or "enabled"; a failure changes nothing |
| AuthRoutes.StoreKeepsValid | zeropain/api/routes/auth.py:134-180 | storing a user under its own name keeps the table keyed by name |
| AuthRoutes.OutcomesKeepValid | zeropain/api/routes/auth.py:114-249 | every user-management route keeps the table keyed by name |
| AuthRoutes.UserStore.constructor | zeropain/api/auth.py:100-117 | the store starts from the initial users |
| AuthRoutes.UserStore.ChangePassword | zeropain/api/routes/auth.py:114-140 | the route's reply and the new table are those of the outcome, for the active caller |
| AuthRoutes.UserStore.CreateUser | zeropain/api/routes/auth.py:156-188 | the route's reply and the new table are those of the outcome, for an admin caller |
| AuthRoutes.UserStore.DeleteUser | zeropain/api/routes/auth.py:192-217 | the route's reply and the new table are those of the outcome, for an admin caller |
| AuthRoutes.UserStore.DisableUser | zeropain/api/routes/auth.py:221-249 | the route's reply and the new table are those of the outcome, for an admin caller |
| JobRegistry.BatchResponseOf | zeropain/api/main.py:310-315 | the batch reply is "pending" with the job id and the status URL `/api/jobs/{id}` |
| JobRegistry.Registered | zeropain/api/main.py:260-270 | batch_dock enters a pending job of the given total under its id and touches nothing else |
| JobRegistry.Started | zeropain/api/main.py:275-276 | a known active job becomes "running" with the new time, nothing else changes; an unknown one changes nothing |
| JobRegistry.Completed | zeropain/api/main.py:293-300 | a known active job moves to the completed table with its results, progress 1 and the new time; everything else is unchanged |
| JobRegistry.Failed | zeropain/api/main.py:302-305 | a known active job becomes "failed" with the error and the new time and stays active; nothing else changes |
| JobRegistry.JobStatus | zeropain/api/main.py:323-330 | the active record wins, then the completed one; a job in neither is 404 "Job not found" |
| JobRegistry.ListJobs | zeropain/api/main.py:333-345 | the listing names exactly the active and the completed jobs and counts each table |
| JobRegistry.ListingOrder | zeropain/api/main.py:333-345 | the listing follows insertion order: a newly registered job is listed last among the active jobs, and a completed job leaves the active listing, the others keeping their order, and is listed last among the completed |
| JobRegistry.StepsKeepDisjoint | zeropain/api/main.py:260-305 | no step makes a job both active and completed; completing keeps the job count and registering a new id adds one |
| JobRegistry.Lifecycle | zeropain/api/main.py:258-330 | a registered job that is started and completes reports "completed", progress 1 and its results, and is no longer active; one that fails reports "failed", progress 0 and the error |
| JobRegistry.JobStore.constructor | zeropain/api/main.py:258-345 | both job tables start empty |
| JobRegistry.JobStore.BatchDock | zeropain/api/main.py:258-320 | the tables become the registered state and the reply is the pending response |
| JobRegistry.JobStore.Start | zeropain/api/main.py:275-276 | the tables become the started state |
| JobRegistry.JobStore.Complete | zeropain/api/main.py:293-300 | the tables become the completed state |
| JobRegistry.JobStore.Fail | zeropain/api/main.py:302-305 | the tables become the failed state |
| JobRegistry.JobStore.RunBatchDocking | zeropain/api/main.py:273-307 | the background task starts the job and then completes it with the results or fails it with the error |
| Operations.ValidationErrors | zeropain/api/routes/operations.py:22-33 | a request is accepted exactly when no field is out of range; patient_count is flagged exactly when outside 1..500000 and backend exactly when not local, ray or dask |
| Operations.DefaultRequestValid | zeropain/api/routes/operations.py:22-33 | the default request is valid |
| Operations.DeriveSimMetrics | zeropain/api/routes/operations.py:237-254 | analgesia, side-effect risk and occupancy are at most 1; occupancy is non-negative for a non-negative prevalence; exposure and throughput are rounded half-even to 3 and 2 places |
| Operations.OccupancyNonNegative | zeropain/api/routes/operations.py:238 | the occupancy estimate is non-negative for at least one patient and a non-negative prevalence |
| Operations.ValidMetricsBounded | zeropain/api/routes/operations.py:237-254 | for a request within the bounds of lines 22-33, every metric lies in `[0, 1]` except throughput, which is non-negative |
| Operations.EntriesNotIn | zeropain/api/routes/operations.py:144 | dropping the keys of another dictionary never lengthens a list of entries |
| Operations.EntriesNotInFind | zeropain/api/routes/operations.py:144 | a dropped key is absent and any other keeps its value |
| Operations.EntriesNotInKeys | zeropain/api/routes/operations.py:144 | the keys left are the original keys not in the other dictionary, in order |
| Operations.EntriesNotInDistinct | zeropain/api/routes/operations.py:144 | dropping keys keeps the keys distinct |
| Operations.MergedMeta | zeropain/api/routes/operations.py:144 | `{**meta, **{k: v for k, v in config.items() if k not in meta}}`: meta's keys first, then config's other keys in order, meta winning |
| Operations.KeysNotInIdempotent | zeropain/api/routes/operations.py:144 | removing the same keys twice is removing them once |
| Operations.MergedMetaMetaWins | zeropain/api/routes/operations.py:144 | the merge agrees key by key with updating config by meta |
| Operations.ReadJson | zeropain/api/routes/operations.py:257-264 | a missing or unparsable file reads as `{}`, a parsable one as its content |
| Operations.ParsedLines | zeropain/api/routes/operations.py:271-276 | parsing keeps at most one row per line |
| Operations.ReadJsonLines | zeropain/api/routes/operations.py:267-277 | a missing file gives no rows, an existing one its parsable lines |
| Operations.ParsedLinesAppend | zeropain/api/routes/operations.py:271-276 | the rows of two stretches of lines are the rows of each, appended |
| Operations.ParsedLinesAll | zeropain/api/routes/operations.py:271-276 | when every line parses there is one row per line, in order |
| Operations.ParsedLinesSkip | zeropain/api/routes/operations.py:274-275 | an unparsable line is skipped without affecting the others |
| Operations.ConfigItems | zeropain/api/routes/operations.py:144 | `(config or {}).items()`: a falsy config gives no items, an object its own, and any other truthy value fails |
| Operations.GetRun | zeropain/api/routes/operations.py:128-145 | the caller is the result of `ApiAuth.CurrentUser`, and a rejected caller gets its 401 before anything else; for an accepted caller an unknown run is 404 "Run not found"; a known one succeeds exactly when the metadata is an object, the config is an object or falsy, `created_utc` and `backend` are missing, null or strings, and every metrics and audit row is an object, and is otherwise a 500; on success it returns the summary from the metadata, the merged metadata with meta winning, and the metrics and audit rows |
| Operations.MissingConfigKeepsMeta | zeropain/api/routes/operations.py:139-145 | for an accepted caller and without config.json, a run whose metadata and rows the response models accept shows exactly its meta file as metadata |

## Left out

- Concurrency: only the sequential meaning is modelled. Left out are the OpenMP loops, locks and critical sections of `src/patient_sim_main.c`, `mp.Pool`, the Ray and Dask backends, the asyncio tasks, executor and WebSocket of the API, and the control-panel simulation thread.
- Floating point: every float is an exact real. Single-precision rounding, overflow to infinity and NaN are not represented, except that Python's `round` is modelled as round-half-even on the exact value.
- Transcendental and numeric library functions are parameters: `exp`, `pow`, `log`, `sqrt`, `sin`, `cos`, NumPy reductions (standard deviation through a square-root parameter), and scipy's `minimize`, `lognorm` and `trapz`. The PK curves of `src/pkpd_calibration.py` (`one_compartment`, `two_compartment`, fitting and simulation) are not part of this model.
- Random sources are parameters: NumPy generators, `random.Random`, `np.random.random`, `uuid4` and the time-based C seed. Their values come as explicit draw streams or records, so the statistical shape of the distributions is not modelled.
- String parsing of numbers (`float()`, `int()` on text) and float formatting are parameters.
- Scenarios: the literal cohort string of `tests/test_modeling.py` is not evaluated as a whole; its parts are covered by the one-part lemmas (`AssignmentPart`, `SpreadPart`, `AgeWithSpread`) and by `BuildGenerationConfig`.
- `patient_sim.h` is not part of this model: its constants, compound records, `clamp` (taken to be `min(max(x, lo), hi)`), statistics and CSV/JSON writers are a `SimConstants` parameter or are omitted.
- `opioid_optimization_framework` is not part of this model: `ProtocolConfig` and the `PharmacokineticModel` that `simulate_patient` imports are a record and function parameters.
- The filesystem is a list of effects (docking) or a map of checkpoints (batch runner). Paths are lists of components; directory creation races and write failures are not modelled.
- Publishing to the message bus and vector ingestion (`zeropain/docking/memshadow_bridge.py`, `zeropain/docking/vector_ingest.py`) are not part of this model. The pipeline's result does not depend on them, since the source ignores their failures; the progress callback is left out with them.
- The external workload router is a parameter; its exceptions are an error value of its answer.
- bcrypt and JWT are parameters (a password check and a token codec). The redis revocation list, `revoke_token`, `logout` and `get_current_user_info` (which returns the dependency's user unchanged) are left out.
- API routes outside the modelled core are left out: `simulate`, `save_settings`, `default_settings`, `compound_library`, `add_custom_compound`, `list_runs`, the analysis and docking endpoints of `zeropain/api/main.py`, and the signature check of a run, whose outcome is a parameter of `GetRun`.
- Request validation errors are a list of offending field names, not pydantic's 422 response.
- Experiment tracking, JSON import and export of the compound database, `hydrate_from_sources`, the UI (TUI, ImGui rendering, Qt interface) and the CLI orchestrators are not part of this model.
- PkpdCalibration.FromDict: Python's `from_dict` stores whatever values it is given, but the model returns Err for any of these: a non-numeric `mu`, `sigma`, `lower` or `upper`; a non-numeric beta or interaction value; a `betas` value that is not an object, which line 79 of `src/pkpd_calibration.py` passes through unchanged; a `model` that is not a string (line 87); or a `use_off_diagonal` that is not a boolean (line 90). The model does raise where Python does: a priors, covariates, prior or covariate entry, `interactions` or `covariance` that is not an object fails in both.
- PkpdCalibration.Sample: the draw is a parameter, so only the clamping is stated, not the log-normal law.
- DockingBackends.PoseFacts: the score bounds hold for a stream whose values lie in `[0, 1)`, as `random.random()` promises; the stream itself is a parameter.
- CompoundProfiles.FromDict: the dataclass stores any value it is given; the model reads each field into its declared type and returns Err for a value of another type (a string `t_half`, say), which Python would accept.
- SimulationResults.PatientFromDict: as for `CompoundProfiles.FromDict`, a wrongly typed field value is an Err here, though the dataclass would store it.
- SimulationResults.FromDict: a wrongly typed entry (a string `success`, a list as `neurotransmitter_release`) is an Err here, though the dataclass would store it.
- ToleranceModels.MakeToleranceModel: the model returns Err for every non-numeric parameter the chosen model reads. Python agrees for the time constants: `max(x, 1e-3)` in `SigmoidTolerance.__init__` and `LaggedTolerance.__init__` (lines 44 and 57-58 of `src/tolerance_models.py`) raises TypeError at construction for a string, None or list `half_life_days`, `rise_tau` or `decay_tau`. A non-numeric `slope` or `max_factor` is stored by Python and fails only when `update` computes with it, and a boolean, which Python counts as a number, is accepted by Python everywhere; both are Err here.
- ToleranceModels.MakeWithdrawalModel: a non-numeric `onset_delay_days` or `severity_scale` is an Err; Python would store it in `SimpleWithdrawal` without complaint.
- PkpdCalibration.WriteInteractions: line 268 of `src/pkpd_calibration.py` escapes the quotes of its f-string (`f\"{a}*{b}\"`), which is a syntax error as written; the model takes the evidently intended `f"{a}*{b}"`. `ConfigToDict` and the round-trip lemmas rest on that reading. Names that contain `*` can make two pairs give the same key (`("a*b", "c")` and `("a", "b*c")`); Python's dictionary then keeps only the later value while the model's entry list keeps both, so `InteractionsRoundTrip` requires names without `*`.
- SimPopulation.GeneratePopulation: for a negative n the C code's `calloc` fails, and `generate_population` prints to stderr and calls `exit(1)`; the model returns null instead and does not model the process exit. An allocation failure for a non-negative n is not modelled: n ≥ 0 always gives an array.
- PatientGeneration.PatientOf: NumPy's own ValueErrors are not modelled. It raises one for a negative log-normal sigma (`metabolism_sigma`, `sensitivity_sigma`, src/patient_simulation_100k.py:237 and :247), for non-positive Beta parameters (`pain_alpha`, `pain_beta`, :251, and the age distribution's, :28-30) and for a negative weight standard deviation (:45-48). The draws are parameters of the model, so every configuration yields a patient. The rejected negative seed + id of `default_rng` is modelled.
- Text.Upper / Text.Lower: map only the ASCII letters, as `UpperChar`/`LowerChar` say. Python's `str.upper` and `str.lower` also map non-ASCII letters (and `"ß".upper()` is `"SS"`), which the model leaves unchanged. The model applies them to the batch runner's backend name, medication names in the aggregated metric keys, and accelerator names.
- DockingIo.PathString: paths are joined with "/" component by component. `pathlib` normalisation is not modelled: an absolute component replacing the prefix, `.` components, repeated or trailing separators, and the Windows separator.
- SimRng.ThreadRng.Normal: states the draw as computed from the two uniforms through the transcendental parameters; its normal distribution is not stated.

## Findings

| source | as written | input that shows it | evidently intended | confidence | as-written member | corrected member |
|---|---|---|---|---|---|---|
| src/pkpd_calibration.py:271 | `_config_to_dict` writes `use_off_diagonal` at the top level of the dictionary, while `from_dict` reads it from the `"covariance"` entry (src/pkpd_calibration.py:90) | a config with `use_off_diagonal=True` written by `_config_to_dict` and read by `from_dict` comes back with `use_off_diagonal=False` | the flag is written as `{"covariance": {"use_off_diagonal": ...}}`, so a config round-trips | not executed | PkpdCalibration.ConfigRoundTripDropsOffDiagonal | PkpdCalibration.ConfigRoundTripNested |
