/**
 * Records and constants of the C Monte-Carlo engine (src/patient_sim_main.c).
 * The header that defines the constants and the compound records is not part
 * of this model, so they are gathered in a SimConstants value that every
 * operation takes, with the conditions the engine's arithmetic needs.
 */
module SimTypes {
  /** The fields of a compound record the engine reads. */
  datatype CompoundRecord = CompoundRecord(
    kiOrthosteric: real,
    kiAllosteric1: real,
    intrinsicActivity: real,
    gProteinBias: real,
    betaArrestinBias: real,
    toleranceRate: real,
    tHalf: real,
    bioavailability: real)

  datatype SimConstants = SimConstants(
    simulationDays: nat,
    timestepsPerDay: nat,
    trialPeriodDays: nat,
    painControlFailure: real,
    costPerDayDpp26: real,
    toleranceThreshold: real,
    addictionRiskThreshold: real,
    daysPerYear: real,
    qalyUtilityGainFactor: real,
    chronicCancer: int,
    poorMetabolizer: int,
    rapidMetabolizer: int,
    ultraRapidMetabolizer: int,
    sr17018: CompoundRecord,
    sr14968: CompoundRecord,
    dpp26: CompoundRecord)
  {
    /**
     * At least one day and one timestep, a non-empty trial period, positive
     * dissociation constants and half-lives, a positive year length, and
     * distinct switch labels for the CYP2D6 phenotypes.
     */
    predicate Valid()
    {
      simulationDays >= 1 && timestepsPerDay >= 1 && trialPeriodDays >= 1 &&
      sr17018.kiAllosteric1 > 0.0 && sr14968.kiAllosteric1 > 0.0 && dpp26.kiOrthosteric > 0.0 &&
      sr17018.tHalf > 0.0 && sr14968.tHalf > 0.0 && dpp26.tHalf > 0.0 &&
      daysPerYear > 0.0 &&
      poorMetabolizer != rapidMetabolizer && poorMetabolizer != ultraRapidMetabolizer &&
      rapidMetabolizer != ultraRapidMetabolizer
    }

    /** Hours per timestep. */
    function Dt(): real
      requires timestepsPerDay >= 1
    {
      24.0 / timestepsPerDay as real
    }
  }

  datatype PatientCharacteristics = PatientCharacteristics(
    patientId: int,
    age: int,
    sex: int,
    weight: real,
    bmi: real,
    painType: int,
    baselinePainScore: real,
    painDurationMonths: int,
    priorOpioidUse: bool,
    priorOpioidDoseMme: real,
    riskCategory: int,
    addictionHistory: bool,
    mentalHealthComorbidity: bool,
    respiratoryDisease: bool,
    renalFunction: real,
    hepaticFunction: real,
    cyp2d6Phenotype: int,
    cyp3a4Phenotype: int,
    oprm1Variant: bool,
    comtVariant: bool,
    adherenceProbability: real)

  datatype Protocol = Protocol(sr17018Dose: real, sr14968Dose: real, dpp26Dose: real)

  datatype ReceptorState = ReceptorState(
    muReceptorActivity: real,
    toleranceLevel: real,
    betaArrestinSignal: real)

  /** The discontinuation_reason string; NotDiscontinued is the empty string. */
  datatype Reason = NotDiscontinued | InadequateAnalgesia | NonAdherence | TrialFailure

  datatype TreatmentOutcome = TreatmentOutcome(
    patientId: int,
    dailyPainScores: seq<real>,
    analgesiaAchieved: seq<real>,
    treatmentSuccess: bool,
    discontinuationDay: int,
    discontinuationReason: Reason,
    avgPainReduction: real,
    toleranceDeveloped: bool,
    addictionSigns: bool,
    withdrawalOccurred: bool,
    adverseEventCount: nat,
    finalToleranceLevel: real,
    totalCost: real,
    qalyGained: real)
}
