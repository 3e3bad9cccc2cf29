/**
 * The medication-history screen's edits to the patient record: the year and
 * month option lists, the stop-date guard (`validateStopDate`) with its two
 * stop-date handlers, and every other store update the screen issues.
 *
 * The guard is the only place that tries to keep the stop month from
 * preceding the start month; the start pickers write unchecked, so the
 * engine's `Math.abs` can still meet a stop before the start.
 */
module MedicationHistory {
  import opened Wrappers
  import opened Calendar
  import opened PatientStore
  import RiskAssessment

  /** The earliest year the pickers offer. */
  const FirstYear: int := 1990

  /**
   * `yearOptions`: from the current year down to 1990, one entry per year.
   * `Array.from` clamps a negative length to 0, so a clock before 1990 gives none.
   */
  method YearOptions(currentYear: int) returns (years: seq<int>)
    ensures |years| == if currentYear >= FirstYear then currentYear - FirstYear + 1 else 0
    ensures forall i, j | 0 <= i < j < |years| :: years[i] > years[j]
    ensures forall y :: y in years <==> FirstYear <= y <= currentYear
  {
    var length := currentYear - FirstYear + 1;
    var count := if length > 0 then length else 0;
    years := [];
    var i := 0;
    while i < count
      invariant 0 <= i <= count
      invariant |years| == i
      invariant forall k | 0 <= k < i :: years[k] == currentYear - k
    {
      years := years + [currentYear - i];
      i := i + 1;
    }
    forall y | FirstYear <= y <= currentYear ensures y in years {
      assert years[currentYear - y] == y;
    }
  }

  /** `monthOptions`: the months 1 to 12 in ascending order. */
  method MonthOptions() returns (months: seq<int>)
    ensures |months| == 12
    ensures forall i, j | 0 <= i < j < |months| :: months[i] < months[j]
    ensures forall m :: m in months <==> 1 <= m <= 12
  {
    months := [];
    var i := 0;
    while i < 12
      invariant 0 <= i <= 12
      invariant |months| == i
      invariant forall k | 0 <= k < i :: months[k] == k + 1
    {
      months := months + [i + 1];
      i := i + 1;
    }
    forall m | 1 <= m <= 12 ensures m in months {
      assert months[m - 1] == m;
    }
  }

  // ------------------------------------------------------------ the guard

  /** The verdict of `validateStopDate`. */
  datatype StopCheck = Accepted | MissingStart | StopBeforeStart

  /** The text `validateStopDate` puts in the screen's error line. */
  function ErrorMessage(c: StopCheck): string {
    match c
    case Accepted => ""
    case MissingStart => "請先選擇開始用藥時間"
    case StopBeforeStart => "停藥時間不能早於開始用藥時間"
  }

  predicate HasStart(r: PatientData) {
    r.startYear.Some? && r.startMonth.Some?
  }

  /**
   * `validateStopDate(year, month)`: refuses when the start is not chosen,
   * and when `new Date(year, month - 1)` is earlier than the start's date.
   */
  function ValidateStopDate(r: PatientData, year: int, month: int): (c: StopCheck)
    ensures c == MissingStart <==> !HasStart(r)
    ensures HasStart(r) ==>
              (c == StopBeforeStart <==> MonthIndex(year, month) < MonthIndex(r.startYear.value, r.startMonth.value))
  {
    if !HasStart(r) then MissingStart
    else
      DateOrder(year, month, r.startYear.value, r.startMonth.value);
      if DateMs(year, month) < DateMs(r.startYear.value, r.startMonth.value) then StopBeforeStart
      else Accepted
  }

  /** For picked months, the guard refuses exactly a (year, month) lexicographically before the start. */
  lemma GuardIsLexicographic(r: PatientData, year: int, month: int)
    requires HasStart(r) && 1 <= month <= 12 && 1 <= r.startMonth.value <= 12
    ensures ValidateStopDate(r, year, month) == StopBeforeStart
        <==> FullYear(year) < FullYear(r.startYear.value)
             || (FullYear(year) == FullYear(r.startYear.value) && month < r.startMonth.value)
    ensures ValidateStopDate(r, year, month) == Accepted
        <==> FullYear(year) > FullYear(r.startYear.value)
             || (FullYear(year) == FullYear(r.startYear.value) && month >= r.startMonth.value)
  {
    MonthIndexIsLexicographic(year, month, r.startYear.value, r.startMonth.value);
  }

  // ------------------------------------------------------------ the screen

  /** The record in the store, and the screen's own `dateError` line. */
  datatype Screen = Screen(data: PatientData, dateError: string)

  /** `handleStopYearChange(value)`: checked when both the value and the stop month are set, stored otherwise. */
  function HandleStopYearChange(s: Screen, value: Option<int>): (s': Screen)
    ensures value.Some? && s.data.stopMonth.Some? && !HasStart(s.data) ==>
              s' == Screen(s.data, ErrorMessage(MissingStart))
    ensures value.Some? && s.data.stopMonth.Some? && HasStart(s.data) ==>
              if MonthIndex(value.value, s.data.stopMonth.value)
                 < MonthIndex(s.data.startYear.value, s.data.startMonth.value)
              then s' == Screen(s.data, ErrorMessage(StopBeforeStart))
              else s' == Screen(s.data.(stopYear := value), "")
    ensures value.None? || s.data.stopMonth.None? ==> s' == Screen(s.data.(stopYear := value), s.dateError)
  {
    var stored := Update(s.data, EmptyPatch.(stopYear := Some(value)));
    if value.Some? && s.data.stopMonth.Some? then
      var c := ValidateStopDate(s.data, value.value, s.data.stopMonth.value);
      Screen(if c == Accepted then stored else s.data, ErrorMessage(c))
    else
      Screen(stored, s.dateError)
  }

  /** `handleStopMonthChange(value)`: the mirror image, checked against the stop year. */
  function HandleStopMonthChange(s: Screen, value: Option<int>): (s': Screen)
    ensures value.Some? && s.data.stopYear.Some? && !HasStart(s.data) ==>
              s' == Screen(s.data, ErrorMessage(MissingStart))
    ensures value.Some? && s.data.stopYear.Some? && HasStart(s.data) ==>
              if MonthIndex(s.data.stopYear.value, value.value)
                 < MonthIndex(s.data.startYear.value, s.data.startMonth.value)
              then s' == Screen(s.data, ErrorMessage(StopBeforeStart))
              else s' == Screen(s.data.(stopMonth := value), "")
    ensures value.None? || s.data.stopYear.None? ==> s' == Screen(s.data.(stopMonth := value), s.dateError)
  {
    var stored := Update(s.data, EmptyPatch.(stopMonth := Some(value)));
    if value.Some? && s.data.stopYear.Some? then
      var c := ValidateStopDate(s.data, s.data.stopYear.value, value.value);
      Screen(if c == Accepted then stored else s.data, ErrorMessage(c))
    else
      Screen(stored, s.dateError)
  }

  /** The patch of the "否" (no medication) answer. Its other keys are not fields of the record. */
  const NoMedicationPatch: Patch :=
    EmptyPatch.(hasAntiresorptiveMed := Some(false), drugName := Some(""), administrationRoute := Some(""),
                indication := Some(""), frequency := Some(""))

  /** The patch of the "持續服用" (still taking it) answer. */
  const OngoingPatch: Patch :=
    EmptyPatch.(isStopped := Some(false), stopYear := Some(None), stopMonth := Some(None))

  /**
   * The "是" / "否" answer to the medication question. "是" only raises the
   * flag; "否" also clears the drug details, and keeps the dates and the
   * stopped flag.
   */
  function AnswerMedication(d: PatientData, yes: bool): (d': PatientData)
    ensures yes ==> d' == d.(hasAntiresorptiveMed := true)
    ensures !yes ==> d' == d.(hasAntiresorptiveMed := false, drugName := "", administrationRoute := "",
                               indication := "", frequency := "")
  {
    if yes then Update(d, EmptyPatch.(hasAntiresorptiveMed := Some(true))) else Update(d, NoMedicationPatch)
  }

  /** Choosing a drug button writes its name and route, and nothing else. */
  function ChooseDrug(d: PatientData, drug: string, route: string): (d': PatientData)
    ensures d' == d.(drugName := drug, administrationRoute := route)
  {
    Update(d, EmptyPatch.(drugName := Some(drug), administrationRoute := Some(route)))
  }

  /** Choosing an indication writes it, and nothing else. */
  function ChooseIndication(d: PatientData, reason: string): (d': PatientData)
    ensures d' == d.(indication := reason)
  {
    Update(d, EmptyPatch.(indication := Some(reason)))
  }

  /** The start-year picker stores the picked value, with no check against the stop date. */
  function PickStart(d: PatientData, year: Option<int>): (d': PatientData)
    ensures d' == d.(startYear := year)
  {
    Update(d, EmptyPatch.(startYear := Some(year)))
  }

  /** The start-month picker stores the picked value, with no check against the stop date. */
  function PickStartMonthValue(d: PatientData, month: Option<int>): (d': PatientData)
    ensures d' == d.(startMonth := month)
  {
    Update(d, EmptyPatch.(startMonth := Some(month)))
  }

  /** Choosing a frequency writes it, and nothing else. */
  function ChooseFrequency(d: PatientData, frequency: string): (d': PatientData)
    ensures d' == d.(frequency := frequency)
  {
    Update(d, EmptyPatch.(frequency := Some(frequency)))
  }

  /**
   * The "持續服用" / "已停藥" answer. "持續服用" clears the stopped flag and both
   * stop fields; "已停藥" only raises the flag.
   */
  function ChooseStopState(d: PatientData, stopped: bool): (d': PatientData)
    ensures !stopped ==> d' == d.(isStopped := false, stopYear := None, stopMonth := None)
    ensures stopped ==> d' == d.(isStopped := true)
  {
    if stopped then Update(d, EmptyPatch.(isStopped := Some(true))) else Update(d, OngoingPatch)
  }

  /** Every input on the screen that writes to the store. */
  datatype Action =
    | AnswerYes
    | AnswerNo
    | SelectDrug(drug: string, route: string)
    | SelectIndication(reason: string)
    | PickStartYear(startYear: Option<int>)
    | PickStartMonth(startMonth: Option<int>)
    | SelectFrequency(frequency: string)
    | ChooseOngoing
    | ChooseStopped
    | PickStopYear(stopYear: Option<int>)
    | PickStopMonth(stopMonth: Option<int>)

  /**
   * The store update (and error line) an input produces. Only the stop
   * pickers touch the error line, and they store their value or leave the
   * record as it was; the start pickers store theirs unchecked.
   */
  function Step(s: Screen, a: Action): (s': Screen)
    ensures !a.PickStopYear? && !a.PickStopMonth? ==> s'.dateError == s.dateError
    ensures a.PickStartYear? ==> s'.data == s.data.(startYear := a.startYear)
    ensures a.PickStartMonth? ==> s'.data == s.data.(startMonth := a.startMonth)
    ensures a.PickStopYear? ==> s'.data == s.data || s'.data == s.data.(stopYear := a.stopYear)
    ensures a.PickStopMonth? ==> s'.data == s.data || s'.data == s.data.(stopMonth := a.stopMonth)
  {
    match a
    case AnswerYes => Screen(AnswerMedication(s.data, true), s.dateError)
    case AnswerNo => Screen(AnswerMedication(s.data, false), s.dateError)
    case SelectDrug(drug, route) => Screen(ChooseDrug(s.data, drug, route), s.dateError)
    case SelectIndication(reason) => Screen(ChooseIndication(s.data, reason), s.dateError)
    case PickStartYear(v) => Screen(PickStart(s.data, v), s.dateError)
    case PickStartMonth(v) => Screen(PickStartMonthValue(s.data, v), s.dateError)
    case SelectFrequency(f) => Screen(ChooseFrequency(s.data, f), s.dateError)
    case ChooseOngoing => Screen(ChooseStopState(s.data, false), s.dateError)
    case ChooseStopped => Screen(ChooseStopState(s.data, true), s.dateError)
    case PickStopYear(v) => HandleStopYearChange(s, v)
    case PickStopMonth(v) => HandleStopMonthChange(s, v)
  }

  /** After "否" the engine gives the general message for every procedure, whatever dates remain. */
  lemma NoMedicationAnswer(d: PatientData, nowMs: int)
    ensures forall i | 0 <= i < |RiskAssessment.Procedures| ::
              RiskAssessment.Assess(AnswerMedication(d, false), nowMs)[i]
                == RiskAssessment.Assessment(RiskAssessment.Procedures[i], RiskAssessment.Low, RiskAssessment.GeneralTreatment)
  {
  }

  /** The property the guard tries to keep: a complete stop date is not before a complete start date. */
  predicate StopNotBeforeStart(d: PatientData) {
    HasStart(d) && d.stopYear.Some? && d.stopMonth.Some? ==>
      MonthIndex(d.stopYear.value, d.stopMonth.value) >= MonthIndex(d.startYear.value, d.startMonth.value)
  }

  /** Every input except the two start pickers keeps the stop from preceding the start. */
  lemma GuardHoldsExceptForStartPickers(s: Screen, a: Action)
    requires StopNotBeforeStart(s.data)
    requires !a.PickStartYear? && !a.PickStartMonth?
    ensures StopNotBeforeStart(Step(s, a).data)
  {
    match a
    case PickStopYear(v) =>
      if v.Some? && s.data.stopMonth.Some? && HasStart(s.data) {
        DateOrder(v.value, s.data.stopMonth.value, s.data.startYear.value, s.data.startMonth.value);
      }
    case PickStopMonth(v) =>
      if v.Some? && s.data.stopYear.Some? && HasStart(s.data) {
        DateOrder(s.data.stopYear.value, v.value, s.data.startYear.value, s.data.startMonth.value);
      }
    case _ =>
  }

  /** A course stopped in January 2022 with Prolia chosen, so that the start pickers are on screen. */
  function ProliaCourse(loadYear: int, startYear: int): PatientData {
    RiskAssessment.StoppedCourse(loadYear, startYear, 1, 2022, 1).(drugName := "保骼麗注射液Prolia")
  }

  /** Started in January 2023 and stopped in January 2022: `Math.abs` counts the 365 days as 13 months. */
  lemma ReversedCourseDuration(loadYear: int, nowMs: int)
    ensures RiskAssessment.MedicationDuration(ProliaCourse(loadYear, 2023), nowMs) == Some(13)
  {
    KnownMonthStarts();
    RiskAssessment.DurationOfWholeDays(ProliaCourse(loadYear, 2023), nowMs, 365);
  }

  /**
   * The start pickers write unchecked. With a stop of January 2022 accepted
   * against a start of January 2021, picking 2023 as the start year leaves the
   * stop a year before the start, and the engine still counts 13 months.
   */
  lemma StartPickerBypassesGuard(loadYear: int, nowMs: int)
    ensures var s := Screen(ProliaCourse(loadYear, 2021), "");
            var s' := Step(s, PickStartYear(Some(2023)));
            && s.data.hasAntiresorptiveMed && s.data.drugName != "" && s.data.isStopped
            && StopNotBeforeStart(s.data)
            && !StopNotBeforeStart(s'.data)
            && s'.dateError == s.dateError
            && RiskAssessment.MedicationDuration(s'.data, nowMs) == Some(13)
  {
    var s := Screen(ProliaCourse(loadYear, 2021), "");
    assert Step(s, PickStartYear(Some(2023))).data == ProliaCourse(loadYear, 2023);
    ReversedCourseDuration(loadYear, nowMs);
  }

  /** Where the guard's property holds, the engine's `Math.abs` is a no-op: the stop is not before the start. */
  lemma GuardedStopIsForward(r: PatientData, nowMs: int)
    requires StopNotBeforeStart(r) && r.isStopped
    requires HasStart(r) && r.stopYear.Some? && r.stopMonth.Some?
    ensures RiskAssessment.StartInstant(r).value <= RiskAssessment.EndInstant(r, nowMs).value
  {
    DateOrder(r.stopYear.value, r.stopMonth.value, r.startYear.value, r.startMonth.value);
  }
}
