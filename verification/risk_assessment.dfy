/**
 * The MRONJ risk engine (`assessRisk`): the antiresorptive-medication
 * exposure duration in 30-day months, the high-risk comorbidity flag, and a
 * fixed decision table applied to five dental procedures in report order.
 *
 * The wall clock read for ongoing medication is the parameter `nowMs`: the
 * local wall-clock reading taken as UTC, in milliseconds, the same way the
 * start and stop dates are read. A JavaScript NaN duration, which arises
 * when a date field needed for the computation is empty, is `None`.
 */
module RiskAssessment {
  import opened Wrappers
  import opened Calendar
  import opened PatientStore

  datatype Procedure = NonInvasive | RootCanal | Extraction | PeriodontalSurgery | Implant {

    /** The procedure's name in the report. */
    function Label(): string {
      match this
      case NonInvasive => "非侵入性治療"
      case RootCanal => "根管治療"
      case Extraction => "拔牙"
      case PeriodontalSurgery => "牙周手術"
      case Implant => "植牙"
    }
  }

  /** The procedures assessed, in the order the report lists them. */
  const Procedures: seq<Procedure> := [NonInvasive, Extraction, PeriodontalSurgery, Implant, RootCanal]

  datatype RiskLevel = Low | Moderate | High {

    function Label(): string {
      match this
      case Low => "低風險"
      case Moderate => "中度風險"
      case High => "高風險"
    }

    /** Severity: Low < Moderate < High. */
    function Rank(): nat {
      match this
      case Low => 0
      case Moderate => 1
      case High => 2
    }
  }

  /** The canonical recommendation messages, one per branch of the decision table. */
  datatype Recommendation =
    | GeneralTreatment      // no antiresorptive medication
    | TreatWithFollowUp     // non-invasive procedure under medication
    | ReferToMedicalCenter  // invasive procedure, high risk
    | ConsultPrescriber     // invasive procedure, moderate risk
    | ConsentRequired       // invasive procedure, low risk
  {
    function Text(): string {
      match this
      case GeneralTreatment => "可進行一般治療。"
      case TreatWithFollowUp => "可進行治療，建議定期追蹤。"
      case ReferToMedicalCenter => "建議轉診至醫學中心進行評估。需要特殊處理及術後密切追蹤。"
      case ConsultPrescriber => "建議先諮詢原處方醫師，評估是否需要暫停用藥。需要特殊處理及術後追蹤。"
      case ConsentRequired => "可進行治療，但需要告知風險並簽署同意書。建議術後追蹤。"
    }
  }

  datatype Assessment = Assessment(procedure: Procedure, riskLevel: RiskLevel, recommendation: Recommendation)

  /** The report's words tell every procedure, risk level and recommendation apart. */
  lemma LabelsAreDistinct()
    ensures forall p: Procedure, q: Procedure :: p.Label() == q.Label() ==> p == q
    ensures forall a: RiskLevel, b: RiskLevel :: a.Label() == b.Label() ==> a == b
    ensures forall a: Recommendation, b: Recommendation :: a.Text() == b.Text() ==> a == b
  {
  }

  // ---------------------------------------------------------------- duration

  /** `new Date(parseInt(y), parseInt(m) - 1).getTime()`; None when either field is empty (an Invalid Date). */
  function Instant(year: Option<int>, month: Option<int>): Option<int> {
    if year.Some? && month.Some? then Some(DateMs(year.value, month.value)) else None
  }

  function StartInstant(r: PatientData): Option<int> {
    Instant(r.startYear, r.startMonth)
  }

  /** The stop month when the medication was stopped, "now" otherwise. */
  function EndInstant(r: PatientData, nowMs: int): Option<int> {
    if r.isStopped then Instant(r.stopYear, r.stopMonth) else Some(nowMs)
  }

  function AbsDiff(a: int, b: int): nat {
    if a <= b then b - a else a - b
  }

  /** `Math.ceil(span / MsPerMonth)` for a non-negative span. */
  function MonthsCovering(span: nat): (months: nat)
    ensures months * MsPerMonth >= span
    ensures months == 0 || (months - 1) * MsPerMonth < span
  {
    (span + MsPerMonth - 1) / MsPerMonth
  }

  /** Covering a longer span never takes fewer months. */
  lemma MonthsCoveringMonotone(a: nat, b: nat)
    requires a <= b
    ensures MonthsCovering(a) <= MonthsCovering(b)
  {
  }

  /** Over whole days the ceiling is taken in days: `ceil(days / 30)`. */
  lemma WholeDaysCovering(days: nat)
    ensures MonthsCovering(days * MsPerDay) == (days + 29) / 30
  {
    var q := (days + 29) / 30;
    assert q * 30 >= days && (q == 0 || (q - 1) * 30 < days);
    assert q * MsPerMonth == q * 30 * MsPerDay;
  }

  /** When start and end lie a whole number of days apart, the duration is that number of days over 30, rounded up. */
  lemma DurationOfWholeDays(r: PatientData, nowMs: int, days: nat)
    requires r.hasAntiresorptiveMed && StartInstant(r).Some? && EndInstant(r, nowMs).Some?
    requires AbsDiff(StartInstant(r).value, EndInstant(r, nowMs).value) == days * MsPerDay
    ensures MedicationDuration(r, nowMs) == Some((days + 29) / 30)
  {
    WholeDaysCovering(days);
  }

  /**
   * `getMedicationDuration()`: 0 without medication; otherwise the fewest
   * 30-day months covering the time between the start month and the end,
   * in either direction; None (NaN) when a date it needs is empty.
   */
  function MedicationDuration(r: PatientData, nowMs: int): (d: Option<nat>)
    ensures !r.hasAntiresorptiveMed ==> d == Some(0)
    ensures r.hasAntiresorptiveMed ==> (d.Some? <==> StartInstant(r).Some? && EndInstant(r, nowMs).Some?)
    ensures r.hasAntiresorptiveMed && d.Some? ==>
              var span := AbsDiff(StartInstant(r).value, EndInstant(r, nowMs).value);
              d.value * MsPerMonth >= span && (d.value == 0 || (d.value - 1) * MsPerMonth < span)
  {
    if !r.hasAntiresorptiveMed then Some(0)
    else
      var start, end := StartInstant(r), EndInstant(r, nowMs);
      if start.Some? && end.Some? then Some(MonthsCovering(AbsDiff(start.value, end.value))) else None
  }

  // ------------------------------------------------------ comorbidity flag

  /** The disease labels that count as high-risk comorbidities: diabetes and dialysis. */
  const SignificantDiseases: seq<string> := ["糖尿病", "洗腎"]

  /** `diseases.some(d => SignificantDiseases.includes(d))`, scanning from the front. */
  predicate AnySignificant(diseases: seq<string>) {
    |diseases| > 0 && (diseases[0] in SignificantDiseases || AnySignificant(diseases[1..]))
  }

  /** The scan finds a significant label exactly when the list holds one, wherever it is. */
  lemma {:induction false} AnySignificantIffListed(diseases: seq<string>)
    ensures AnySignificant(diseases) <==> exists d | d in diseases :: d in SignificantDiseases
  {
    if |diseases| > 0 {
      AnySignificantIffListed(diseases[1..]);
      assert forall d :: d in diseases <==> d == diseases[0] || d in diseases[1..];
    }
  }

  /** `hasHighRiskFactors`: radiotherapy, cancer, or a significant disease label anywhere in the list. */
  function HasHighRiskFactors(r: PatientData): (flag: bool)
    ensures flag <==> r.hasRadiotherapy || r.hasCancer || exists d | d in r.systemicDiseases :: d in SignificantDiseases
  {
    AnySignificantIffListed(r.systemicDiseases);
    r.hasRadiotherapy || r.hasCancer || AnySignificant(r.systemicDiseases)
  }

  /** Ticking one more disease raises the flag exactly when that disease is diabetes or dialysis. */
  lemma AddedDiseaseCounts(r: PatientData, disease: string)
    ensures HasHighRiskFactors(r.(systemicDiseases := r.systemicDiseases + [disease]))
        <==> HasHighRiskFactors(r) || disease == "糖尿病" || disease == "洗腎"
  {
    var ds := r.systemicDiseases + [disease];
    AnySignificantIffListed(r.systemicDiseases);
    AnySignificantIffListed(ds);
    assert disease in ds;
    forall d | d in r.systemicDiseases ensures d in ds {
    }
    forall d | d in ds ensures d in r.systemicDiseases || d == disease {
    }
  }

  // ---------------------------------------------------------- decision table

  /** The comparison `duration > threshold`, which is false for NaN. */
  predicate Exceeds(duration: Option<nat>, threshold: nat) {
    duration.Some? && duration.value > threshold
  }

  /** The advice that goes with each risk level of an invasive procedure. */
  function InvasiveAdvice(level: RiskLevel): Recommendation {
    match level
    case High => ReferToMedicalCenter
    case Moderate => ConsultPrescriber
    case Low => ConsentRequired
  }

  /** The decision table for one procedure. */
  function AssessProcedure(p: Procedure, onMedication: bool, duration: Option<nat>, highRisk: bool): (a: Assessment)
    ensures a.procedure == p
    ensures !onMedication ==> a.riskLevel == Low && a.recommendation == GeneralTreatment
    ensures onMedication && p == NonInvasive ==> a.riskLevel == Low && a.recommendation == TreatWithFollowUp
    ensures onMedication && p != NonInvasive ==>
              && a.recommendation == InvasiveAdvice(a.riskLevel)
              && (a.riskLevel == High <==> highRisk || Exceeds(duration, 36))
              && (a.riskLevel == Low <==> !highRisk && !Exceeds(duration, 12))
  {
    if onMedication then
      if p == NonInvasive then Assessment(p, Low, TreatWithFollowUp)
      else if Exceeds(duration, 36) || highRisk then Assessment(p, High, ReferToMedicalCenter)
      else if Exceeds(duration, 12) then Assessment(p, Moderate, ConsultPrescriber)
      else Assessment(p, Low, ConsentRequired)
    else Assessment(p, Low, GeneralTreatment)
  }

  /** `assessRisk(patientData)`, with the clock reading as a parameter. */
  function Assess(r: PatientData, nowMs: int): (res: seq<Assessment>)
    ensures |res| == |Procedures| == 5
    ensures forall i | 0 <= i < |res| :: res[i].procedure == Procedures[i]
    ensures !r.hasAntiresorptiveMed ==>
              forall i | 0 <= i < |res| :: res[i].riskLevel == Low && res[i].recommendation == GeneralTreatment
    ensures r.hasAntiresorptiveMed ==> res[0] == Assessment(NonInvasive, Low, TreatWithFollowUp)
    ensures r.hasAntiresorptiveMed && HasHighRiskFactors(r) ==>
              forall i | 1 <= i < |res| :: res[i].riskLevel == High && res[i].recommendation == ReferToMedicalCenter
    ensures r.hasAntiresorptiveMed ==>
              var d := MedicationDuration(r, nowMs);
              forall i | 1 <= i < |res| ::
                && res[i].recommendation == InvasiveAdvice(res[i].riskLevel)
                && (res[i].riskLevel == High <==> HasHighRiskFactors(r) || Exceeds(d, 36))
                && (res[i].riskLevel == Low <==> !HasHighRiskFactors(r) && !Exceeds(d, 12))
    ensures forall i, j | 1 <= i < |res| && 1 <= j < |res| :: res[i].riskLevel == res[j].riskLevel
    ensures forall i, j | 1 <= i < |res| && 1 <= j < |res| :: res[i].recommendation == res[j].recommendation
  {
    var duration := MedicationDuration(r, nowMs);
    var highRisk := HasHighRiskFactors(r);
    seq(|Procedures|, i requires 0 <= i < |Procedures| =>
      AssessProcedure(Procedures[i], r.hasAntiresorptiveMed, duration, highRisk))
  }

  // ---------------------------------------------------------------- properties

  /** Without medication the result depends on nothing else in the record, nor on the clock. */
  lemma NoMedicationIgnoresEverythingElse(r1: PatientData, r2: PatientData, now1: int, now2: int)
    requires !r1.hasAntiresorptiveMed && !r2.hasAntiresorptiveMed
    ensures Assess(r1, now1) == Assess(r2, now2)
  {
    var a, b := Assess(r1, now1), Assess(r2, now2);
    forall i | 0 <= i < |a| ensures a[i] == b[i] {
    }
  }

  /** Duration order, where NaN counts as below every number (it fails every threshold). */
  predicate NoLonger(d1: Option<nat>, d2: Option<nat>) {
    d1.None? || (d2.Some? && d1.value <= d2.value)
  }

  /** A longer exposure, or an added comorbidity, never lowers the risk of a procedure. */
  lemma RiskMonotone(p: Procedure, d1: Option<nat>, d2: Option<nat>, highRisk1: bool, highRisk2: bool)
    requires NoLonger(d1, d2) && (highRisk1 ==> highRisk2)
    ensures AssessProcedure(p, true, d1, highRisk1).riskLevel.Rank()
         <= AssessProcedure(p, true, d2, highRisk2).riskLevel.Rank()
  {
  }

  /** Both thresholds are strict: 12 months is still low, 36 months is still moderate. */
  lemma ThresholdsAreStrict(p: Procedure)
    requires p != NonInvasive
    ensures AssessProcedure(p, true, Some(12), false) == Assessment(p, Low, ConsentRequired)
    ensures AssessProcedure(p, true, Some(13), false) == Assessment(p, Moderate, ConsultPrescriber)
    ensures AssessProcedure(p, true, Some(36), false) == Assessment(p, Moderate, ConsultPrescriber)
    ensures AssessProcedure(p, true, Some(37), false) == Assessment(p, High, ReferToMedicalCenter)
  {
  }

  /** For ongoing medication, a later clock reading never lowers any procedure's risk. */
  lemma LaterNowNeverLowersRisk(r: PatientData, now1: int, now2: int)
    requires r.hasAntiresorptiveMed && !r.isStopped && r.startYear.Some? && r.startMonth.Some?
    requires DateMs(r.startYear.value, r.startMonth.value) <= now1 <= now2
    ensures forall i | 0 <= i < |Procedures| ::
              Assess(r, now1)[i].riskLevel.Rank() <= Assess(r, now2)[i].riskLevel.Rank()
  {
    var s := DateMs(r.startYear.value, r.startMonth.value);
    OngoingDuration(r, now1);
    OngoingDuration(r, now2);
    MonthsCoveringMonotone(now1 - s, now2 - s);
    var d1, d2 := MedicationDuration(r, now1), MedicationDuration(r, now2);
    forall i | 0 <= i < |Procedures|
      ensures Assess(r, now1)[i].riskLevel.Rank() <= Assess(r, now2)[i].riskLevel.Rank()
    {
      RiskMonotone(Procedures[i], d1, d2, HasHighRiskFactors(r), HasHighRiskFactors(r));
    }
  }

  /** For ongoing medication with a start month, the duration covers the time from the start to the clock, in either direction. */
  lemma OngoingDuration(r: PatientData, nowMs: int)
    requires r.hasAntiresorptiveMed && !r.isStopped && r.startYear.Some? && r.startMonth.Some?
    ensures MedicationDuration(r, nowMs) == Some(MonthsCovering(AbsDiff(DateMs(r.startYear.value, r.startMonth.value), nowMs)))
  {
  }

  /** For ongoing medication, a clock 40 months short of the start gives 40 months, and the start itself 0. */
  lemma CountdownDurations(r: PatientData)
    requires r.hasAntiresorptiveMed && !r.isStopped && r.startYear.Some? && r.startMonth.Some?
    ensures var start := DateMs(r.startYear.value, r.startMonth.value);
            && MedicationDuration(r, start - 40 * MsPerMonth) == Some(40)
            && MedicationDuration(r, start) == Some(0)
  {
    var start := DateMs(r.startYear.value, r.startMonth.value);
    OngoingDuration(r, start - 40 * MsPerMonth);
    OngoingDuration(r, start);
    CeilingExamples();
  }

  /**
   * The pickers accept a start month still ahead of the clock. Then `Math.abs`
   * makes the duration count down as the clock approaches the start: 40
   * months before it the invasive procedures are high risk, at the start low.
   */
  lemma FutureStartCountsDown(r: PatientData)
    requires r.hasAntiresorptiveMed && !r.isStopped && r.startYear.Some? && r.startMonth.Some?
    requires !r.hasRadiotherapy && !r.hasCancer && r.systemicDiseases == []
    ensures var start := DateMs(r.startYear.value, r.startMonth.value);
            forall i | 1 <= i < |Procedures| ::
              Assess(r, start - 40 * MsPerMonth)[i].riskLevel == High && Assess(r, start)[i].riskLevel == Low
  {
    var start := DateMs(r.startYear.value, r.startMonth.value);
    CountdownDurations(r);
    assert !HasHighRiskFactors(r);
    var before, at := Assess(r, start - 40 * MsPerMonth), Assess(r, start);
    forall i | 1 <= i < |Procedures| ensures before[i].riskLevel == High && at[i].riskLevel == Low {
    }
  }

  /** The ceiling rule on raw spans: nothing is 0, 30 days is 1, 31 days is 2. */
  lemma CeilingExamples()
    ensures MonthsCovering(0) == 0
    ensures MonthsCovering(30 * MsPerDay) == 1
    ensures MonthsCovering(31 * MsPerDay) == 2
    ensures MonthsCovering(365 * MsPerDay) == 13
    ensures MonthsCovering(40 * MsPerMonth) == 40
  {
  }

  /** A stop in the start month gives duration 0. */
  lemma SameMonthStopIsZero(r: PatientData, nowMs: int)
    requires r.hasAntiresorptiveMed && r.isStopped
    requires r.startYear.Some? && r.startMonth.Some?
    requires r.stopYear == r.startYear && r.stopMonth == r.startMonth
    ensures MedicationDuration(r, nowMs) == Some(0)
  {
  }

  /** The start and stop swapped: `Math.abs` makes a stop before the start count as forward. */
  function Swapped(r: PatientData): PatientData {
    r.(startYear := r.stopYear, startMonth := r.stopMonth, stopYear := r.startYear, stopMonth := r.startMonth)
  }

  /** A stop before the start yields the same duration as the stop and start exchanged. */
  lemma StopBeforeStartCountsForward(r: PatientData, nowMs: int)
    requires r.hasAntiresorptiveMed && r.isStopped
    ensures MedicationDuration(r, nowMs) == MedicationDuration(Swapped(r), nowMs)
  {
  }

  /** With medication flagged but a needed date empty, invasive risk is low unless a comorbidity is set. */
  lemma MissingDateFallsToLowTier(r: PatientData, nowMs: int)
    requires r.hasAntiresorptiveMed
    requires r.startYear.None? || r.startMonth.None? || (r.isStopped && (r.stopYear.None? || r.stopMonth.None?))
    ensures MedicationDuration(r, nowMs).None?
    ensures forall i | 1 <= i < |Procedures| ::
              Assess(r, nowMs)[i].riskLevel == (if HasHighRiskFactors(r) then High else Low)
  {
  }

  /** A record in which medication was taken from one month to another, with no comorbidity. */
  function StoppedCourse(loadYear: int, startYear: int, startMonth: int, stopYear: int, stopMonth: int): PatientData {
    InitialState(loadYear).(
      hasAntiresorptiveMed := true, startYear := Some(startYear), startMonth := Some(startMonth),
      isStopped := true, stopYear := Some(stopYear), stopMonth := Some(stopMonth))
  }

  /** A record of ongoing medication since a month, with no comorbidity. */
  function OngoingCourse(loadYear: int, startYear: int, startMonth: int): PatientData {
    InitialState(loadYear).(
      hasAntiresorptiveMed := true, startYear := Some(startYear), startMonth := Some(startMonth))
  }

  /** April to May 2021 is 30 days: one month. */
  lemma ThirtyDayMonthCountsOne(loadYear: int, nowMs: int)
    ensures MedicationDuration(StoppedCourse(loadYear, 2021, 4, 2021, 5), nowMs) == Some(1)
  {
    KnownMonthStarts();
    DurationOfWholeDays(StoppedCourse(loadYear, 2021, 4, 2021, 5), nowMs, 30);
  }

  /** January to February 2021 is 31 days: two months, since a partial month counts in full. */
  lemma ThirtyOneDayMonthCountsTwo(loadYear: int, nowMs: int)
    ensures MedicationDuration(StoppedCourse(loadYear, 2021, 1, 2021, 2), nowMs) == Some(2)
  {
    KnownMonthStarts();
    DurationOfWholeDays(StoppedCourse(loadYear, 2021, 1, 2021, 2), nowMs, 31);
  }

  /** January 2021 to January 2022 is 365 days. */
  lemma OneYearDuration(loadYear: int, nowMs: int)
    ensures MedicationDuration(StoppedCourse(loadYear, 2021, 1, 2022, 1), nowMs) == Some(13)
  {
    KnownMonthStarts();
    DurationOfWholeDays(StoppedCourse(loadYear, 2021, 1, 2022, 1), nowMs, 365);
  }

  /**
   * January 2021 to January 2022 is 365 days, hence 13 months: moderate risk
   * for invasive procedures, and high risk once diabetes is recorded.
   */
  lemma OneYearCourse(loadYear: int, nowMs: int)
    ensures MedicationDuration(StoppedCourse(loadYear, 2021, 1, 2022, 1), nowMs) == Some(13)
    ensures forall i | 1 <= i < |Procedures| ::
              Assess(StoppedCourse(loadYear, 2021, 1, 2022, 1), nowMs)[i]
                == Assessment(Procedures[i], Moderate, ConsultPrescriber)
    ensures var diabetic := StoppedCourse(loadYear, 2021, 1, 2022, 1).(systemicDiseases := ["糖尿病"]);
            forall i | 1 <= i < |Procedures| ::
              Assess(diabetic, nowMs)[i] == Assessment(Procedures[i], High, ReferToMedicalCenter)
  {
    var r := StoppedCourse(loadYear, 2021, 1, 2022, 1);
    OneYearDuration(loadYear, nowMs);
    var diabetic := r.(systemicDiseases := ["糖尿病"]);
    assert "糖尿病" in diabetic.systemicDiseases;
    assert HasHighRiskFactors(diabetic);
  }

  /** Ongoing since January 2020, assessed on 1 June 2023: 1247 days, 42 months, high risk. */
  lemma LongOngoingCourse(loadYear: int)
    ensures MedicationDuration(OngoingCourse(loadYear, 2020, 1), DateMs(2023, 6)) == Some(42)
    ensures forall i | 1 <= i < |Procedures| ::
              Assess(OngoingCourse(loadYear, 2020, 1), DateMs(2023, 6))[i]
                == Assessment(Procedures[i], High, ReferToMedicalCenter)
  {
    KnownMonthStarts();
    DurationOfWholeDays(OngoingCourse(loadYear, 2020, 1), DateMs(2023, 6), 1247);
  }

  /** Ongoing since January 2023, assessed on 1 August 2023: 212 days, 8 months, low risk with consent. */
  lemma ShortOngoingCourse(loadYear: int)
    ensures MedicationDuration(OngoingCourse(loadYear, 2023, 1), DateMs(2023, 8)) == Some(8)
    ensures forall i | 1 <= i < |Procedures| ::
              Assess(OngoingCourse(loadYear, 2023, 1), DateMs(2023, 8))[i]
                == Assessment(Procedures[i], Low, ConsentRequired)
  {
    KnownMonthStarts();
    DurationOfWholeDays(OngoingCourse(loadYear, 2023, 1), DateMs(2023, 8), 212);
  }

  /** The initial (or reset) record: every procedure low risk with the general message. */
  lemma InitialRecordIsLowRisk(r: PatientData, loadYear: int, nowMs: int)
    ensures forall i | 0 <= i < |Procedures| ::
              Assess(Reset(r, loadYear), nowMs)[i] == Assessment(Procedures[i], Low, GeneralTreatment)
  {
  }
}
