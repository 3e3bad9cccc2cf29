# MRONJ pre-procedure risk assessment — a Dafny model

This project models the decision logic of a jaw-osteonecrosis (MRONJ) screening app. The app takes a patient
intake record and produces a risk level and a recommendation for each of five dental procedures. The model covers
three parts of the app:

- **The risk engine** (`assessRisk`). It computes how long the patient has been on antiresorptive medication, in
  30-day months rounded up. It computes whether the patient has a high-risk comorbidity: radiotherapy, cancer,
  diabetes (`糖尿病`) or dialysis (`洗腎`). It then applies a fixed decision table to the procedures 非侵入性治療,
  拔牙, 牙周手術, 植牙 and 根管治療, in that order.
- **The stop-date guard** of the medication-history screen (`validateStopDate` and the two stop-date handlers). It
  is the only code that tries to keep the stop month from preceding the start month. The model also covers every
  other store update that screen makes, including the start pickers, which write without any check.
- **The patient store**: the `PatientData` record, its initial value, the shallow merge `updatePatientInfo`, and
  `resetPatientData`.

Modules, one per concern:

| file | module | contents |
|---|---|---|
| `wrappers.dfy` | `Wrappers` | `Option`, used for empty fields and NaN |
| `calendar.dfy` | `Calendar` | proleptic Gregorian day numbers; the instant `new Date(y, m - 1)` denotes; how instants order |
| `patient_store.dfy` | `PatientStore` | the record, its keys, partial records (`Patch`), merge, override, the initial state, reset |
| `risk_assessment.dfy` | `RiskAssessment` | procedures, risk levels, messages, the duration, the comorbidity flag, the decision table, `Assess` |
| `medication_history.dfy` | `MedicationHistory` | option lists, `ValidateStopDate`, the stop handlers, the screen's inputs as `Action`s, the guard property |

Modelling choices:

- **The clock is a parameter.** `new Date()` in the engine becomes `nowMs`: the local wall-clock reading taken as
  if it were UTC, that is, milliseconds since the epoch plus the device's UTC offset. The start and stop dates are
  local midnights, and the model reads them the same way, so the span is the one the app computes. The
  current year used for the year options becomes `currentYear`. The year read once when the store module loads
  becomes `loadYear`; `initialState` uses it as the birth year.
- **Dates are midnight UTC on day 1 of the month.** `DateMs(y, m)` follows the two-argument `Date` constructor in two
  ways. First, a month outside 1..12 carries into the year (`MonthIndex`). Second, years 0..99 are read as
  1900..1999 (`FullYear`).
- **Picker fields are numbers or nothing.** The year, month and day fields are filled from pickers whose values are
  decimal strings. They are modelled as `Option<int>`. `None` stands for the empty string or null placeholder, on
  which `parseInt` gives NaN.
- **NaN is `None`.** A NaN duration is `None`. `Exceeds` is false for it, as both `>` comparisons are in JavaScript.
- **Messages are tags.** Recommendations are the `Recommendation` datatype. Its `Text()` gives each exact message.
- **The engine is a function.** Calling it twice with the same record and the same `nowMs` gives the same result by
  construction.

The engine rounds the day count over 30 upwards. So January 2020 to June 2023 is 1247 days, giving 42 months, and
January to August 2023 is 212 days, giving 8. January 2021 to January 2022 is 365 days, giving 13 months. That
course is therefore moderate risk without a comorbidity, although it covers only one calendar year.
`LongOngoingCourse`, `ShortOngoingCourse` and `OneYearCourse` prove these values.

The pickers offer the current year and all twelve months, so a start month can still lie after the clock. For an
ongoing course, `Math.abs` then counts the months still to go, and the duration falls as the clock approaches the
start (`FutureStartCountsDown`). The monotonicity of `LaterNowNeverLowersRisk` therefore holds only once the clock
has reached the start month.

## Model

| member | source | states |
|---|---|---|
| `Calendar.DateOrder` | app/medication-history.tsx:73-82 | Two `new Date(y, m - 1)` instants compare exactly as their months do, for both `<` and equality. |
| `Calendar.DateMs` | app/utils/riskAssessment.ts:25-34 | `new Date(y, m - 1).getTime()` is midnight of day 1 of the month: a whole number of days since the epoch, and for a month 1..12 exactly the day number of day 1 of that month of the full year. The stop-date guard builds its dates the same way (app/medication-history.tsx:73-80). |
| `Calendar.NormalizedMonth` | app/utils/riskAssessment.ts:25-28 | A month number outside 1..12 carries whole years into the year, as the `Date` constructor does, and a month 1..12 stays in its own (full) year. |
| `PatientStore.Update` | app/store/patientData.ts:99-102 | After `updatePatientInfo(patch)`, each key the patch carries has the patch's value and every other key keeps its old value. |
| `PatientStore.OverrideMerges` | app/store/patientData.ts:99-102 | In the spread of two partial records, the later one wins on each key it carries, and the earlier one supplies the rest. |
| `PatientStore.EmptyPatchIsIdentity` | app/store/patientData.ts:99-102 | Merging an empty partial record leaves the record unchanged. |
| `PatientStore.UpdateIdempotent` | app/store/patientData.ts:99-102 | Merging the same patch twice gives the same record as merging it once. |
| `PatientStore.UpdateComposes` | app/store/patientData.ts:99-102 | Merging p and then q gives the same record as one merge of p overridden by q. |
| `PatientStore.SameFieldsSameRecord` | app/store/patientData.ts:26-59 | A patient record is fully determined by its 27 keys. |
| `PatientStore.InitialState` | app/store/patientData.ts:67-95 | The initial record has no medication, is not stopped, has no radiotherapy, cancer or diseases, has empty start and stop dates, and has birth date 1 January of the load year. |
| `PatientStore.Reset` | app/store/patientData.ts:103 | After `resetPatientData()` there is no medication, no stop, no radiotherapy, cancer or disease, no start or stop date, and the birth date is 1 January of the load year, whatever the store held. |
| `PatientStore.ResetForgetsUpdates` | app/store/patientData.ts:103 | A reset gives `initialState` whatever was merged before. |
| `RiskAssessment.LabelsAreDistinct` | app/utils/riskAssessment.ts:3-10 | The procedure names and risk-level labels are pairwise distinct, and so are the five recommendation messages. |
| `RiskAssessment.MonthsCovering` | app/utils/riskAssessment.ts:38 | `Math.ceil(span / 30 days)` is the least number of 30-day months whose length reaches the span. |
| `RiskAssessment.MonthsCoveringMonotone` | app/utils/riskAssessment.ts:38 | A longer span never gives fewer months. |
| `RiskAssessment.WholeDaysCovering` | app/utils/riskAssessment.ts:37-38 | For a span of whole days, the duration is the day count over 30, rounded up. |
| `RiskAssessment.DurationOfWholeDays` | app/utils/riskAssessment.ts:22-39 | With medication and both dates present, a start and end that lie n days apart give a duration of ceil(n/30). |
| `RiskAssessment.MedicationDuration` | app/utils/riskAssessment.ts:22-39 | With no medication the duration is 0. With medication it is NaN exactly when the start, or the stop of a stopped course, is empty. Otherwise it is the least number of 30-day months covering the absolute time between start and end. |
| `RiskAssessment.CeilingExamples` | app/utils/riskAssessment.ts:38 | Spans of 0, 30, 31 and 365 days give 0, 1, 2 and 13 months, and 40 thirty-day months give 40. |
| `RiskAssessment.SameMonthStopIsZero` | app/utils/riskAssessment.ts:25-38 | A stop in the start month gives duration 0. |
| `RiskAssessment.StopBeforeStartCountsForward` | app/utils/riskAssessment.ts:37 | Because of `Math.abs`, exchanging the start and stop dates does not change the duration. |
| `RiskAssessment.ThirtyDayMonthCountsOne` | app/utils/riskAssessment.ts:25-38 | April to May 2021 (30 days) is 1 month. |
| `RiskAssessment.ThirtyOneDayMonthCountsTwo` | app/utils/riskAssessment.ts:25-38 | January to February 2021 (31 days) is 2 months. |
| `RiskAssessment.HasHighRiskFactors` | app/utils/riskAssessment.ts:44-49 | The comorbidity flag is set exactly when there is radiotherapy, cancer, or `糖尿病` or `洗腎` somewhere in the disease list. |
| `RiskAssessment.AnySignificantIffListed` | app/utils/riskAssessment.ts:47-49 | The front-to-back `.some` scan over the disease labels finds `糖尿病` or `洗腎` exactly when the list contains one of them anywhere. |
| `RiskAssessment.AddedDiseaseCounts` | app/utils/riskAssessment.ts:44-49 | Adding a disease label sets the comorbidity flag exactly when the label is `糖尿病` or `洗腎` (or the flag was already set). |
| `RiskAssessment.AssessProcedure` | app/utils/riskAssessment.ts:60-84 | The decision table for one procedure. Without medication: low risk with the general message. With medication, non-invasive: low risk with follow-up advice. With medication, invasive: high iff a comorbidity or more than 36 months; low iff neither a comorbidity nor more than 12 months. The advice matches the level. |
| `RiskAssessment.Assess` | app/utils/riskAssessment.ts:18-94 | There are exactly five results, in the fixed procedure order. Without medication, every result is low risk with the general message. With medication, non-invasive is low risk with follow-up advice, and a comorbidity makes every invasive result high risk with referral. Otherwise the strict 12/36 thresholds decide. All four invasive results share one level and one message. |
| `RiskAssessment.NoMedicationIgnoresEverythingElse` | app/utils/riskAssessment.ts:81-84 | Without medication the result is the same for any other field values and any clock reading. |
| `RiskAssessment.RiskMonotone` | app/utils/riskAssessment.ts:68-80 | A longer duration (NaN counted as shortest) or an added comorbidity never lowers a procedure's risk. |
| `RiskAssessment.ThresholdsAreStrict` | app/utils/riskAssessment.ts:70-79 | For an invasive procedure without comorbidity: 12 months is low, 13 and 36 are moderate, 37 is high. |
| `RiskAssessment.LaterNowNeverLowersRisk` | app/utils/riskAssessment.ts:30-38 | For ongoing medication, once the clock has reached the start month, a later clock reading never lowers any procedure's risk. |
| `RiskAssessment.OngoingDuration` | app/utils/riskAssessment.ts:30-38 | For ongoing medication with a start month, the duration is the ceiling over the time between the start and the clock, in either direction. |
| `RiskAssessment.CountdownDurations` | app/utils/riskAssessment.ts:30-38 | For ongoing medication, a clock 40 months before the start gives 40 months, and the start itself gives 0. |
| `RiskAssessment.FutureStartCountsDown` | app/utils/riskAssessment.ts:30-38 | With a start month still ahead of the clock, `Math.abs` makes the duration count down to it: 40 months before the start it is 40 and every invasive procedure is high risk; at the start it is 0 and they are low risk. |
| `RiskAssessment.MissingDateFallsToLowTier` | app/utils/riskAssessment.ts:25-79 | With medication but an empty needed date, the duration is NaN. Invasive procedures are then high risk if there is a comorbidity and low risk otherwise. |
| `RiskAssessment.OneYearDuration` | app/utils/riskAssessment.ts:25-38 | Stopped after January 2021 to January 2022 (365 days): 13 months. |
| `RiskAssessment.OneYearCourse` | app/utils/riskAssessment.ts:25-79 | Stopped after January 2021 to January 2022: 13 months. Without comorbidity every invasive procedure is moderate; with `糖尿病` every one is high with referral. |
| `RiskAssessment.LongOngoingCourse` | app/utils/riskAssessment.ts:30-72 | Ongoing since January 2020, assessed on 1 June 2023: 42 months, and every invasive procedure is high risk. |
| `RiskAssessment.ShortOngoingCourse` | app/utils/riskAssessment.ts:30-79 | Ongoing since January 2023, assessed on 1 August 2023: 8 months, and every invasive procedure is low risk with the consent message. |
| `RiskAssessment.InitialRecordIsLowRisk` | app/utils/riskAssessment.ts:81-84 | The initial or reset record gives five low-risk results with the general message. |
| `MedicationHistory.YearOptions` | app/medication-history.tsx:12-19 | The year options are the current year down to 1990, with `currentYear − 1989` entries (none before 1990), strictly descending. |
| `MedicationHistory.MonthOptions` | app/medication-history.tsx:21-25 | The month options are exactly 1..12, ascending. |
| `MedicationHistory.ValidateStopDate` | app/medication-history.tsx:67-89 | The result is "start missing" iff the start year or month is empty. Otherwise the stop is refused iff its month is earlier than the start month. |
| `MedicationHistory.GuardIsLexicographic` | app/medication-history.tsx:73-85 | For months 1..12, the guard refuses exactly a (year, month) lexicographically before the start. It accepts the start month itself and any later month. |
| `MedicationHistory.HandleStopYearChange` | app/medication-history.tsx:92-100 | If the value and the stop month are both set, the guard runs. The year is stored with the error cleared only if the guard accepts; otherwise the record is unchanged and the error is shown. If either is unset, the value is stored and the error line is untouched. |
| `MedicationHistory.HandleStopMonthChange` | app/medication-history.tsx:102-110 | The same as the stop-year handler, with the roles of stop year and stop month exchanged. |
| `MedicationHistory.AnswerMedication` | app/medication-history.tsx:127-150 | "是" sets the medication flag and nothing else. "否" clears the medication flag, drug, route, indication and frequency, and keeps every other key, including the start, the stop and the stopped flag. |
| `MedicationHistory.NoMedicationAnswer` | app/medication-history.tsx:139-150 | After "否" the engine gives five low-risk results with the general message, whatever dates remain in the record. |
| `MedicationHistory.ChooseDrug` | app/medication-history.tsx:59-64 | Choosing a drug writes its name and route, and nothing else. |
| `MedicationHistory.ChooseIndication` | app/medication-history.tsx:206 | Choosing an indication writes it, and nothing else. |
| `MedicationHistory.PickStart` | app/medication-history.tsx:224-225 | The start-year picker stores the picked value, with no check against the stop, and nothing else. |
| `MedicationHistory.PickStartMonthValue` | app/medication-history.tsx:234-235 | The start-month picker stores the picked value, with no check against the stop, and nothing else. |
| `MedicationHistory.ChooseFrequency` | app/medication-history.tsx:257 | Choosing a frequency writes it, and nothing else. |
| `MedicationHistory.ChooseStopState` | app/medication-history.tsx:277-293 | "持續服用" clears the stopped flag and both stop fields, and changes nothing else. "已停藥" sets the stopped flag and nothing else. |
| `MedicationHistory.Step` | app/medication-history.tsx:127-320 | Of all the screen's inputs, only the two stop pickers touch the error line. Each of them either stores its value or leaves the record as it was. The start pickers store theirs unchecked. |
| `MedicationHistory.GuardHoldsExceptForStartPickers` | app/medication-history.tsx:92-110 | Every screen input other than the two start pickers preserves "a complete stop is not before a complete start". |
| `MedicationHistory.ReversedCourseDuration` | app/utils/riskAssessment.ts:37-38 | Started in January 2023 and stopped in January 2022: `Math.abs` counts the 365 days as 13 months. |
| `MedicationHistory.StartPickerBypassesGuard` | app/medication-history.tsx:224-225 | With a drug chosen (so the start pickers are shown) and a stop accepted one year after the start, picking a later start year leaves the stop before the start and the error line untouched. The engine still reports 13 months. |
| `MedicationHistory.GuardedStopIsForward` | app/utils/riskAssessment.ts:37 | Where the guard's property holds, the stop instant is not before the start instant, so `Math.abs` changes nothing. |

## Left out

- Wall-clock reads are parameters (`nowMs`, `currentYear`, `loadYear`); nothing reads a clock.
- Time zones and daylight saving are not modelled. The model takes every date, and the clock reading `nowMs`, as
  local wall-clock time read as UTC. The app subtracts absolute instants. Where the UTC offset at the two ends
  differs (a daylight-saving change inside the span), the app's span differs from the model's by that difference,
  usually an hour. At an exact multiple of 30 days, that can move `Math.ceil` by one month.
- `nowMs` is not the raw `Date.now()`. For an ongoing course, the start is a local midnight but `new Date()` is an
  absolute instant, so the whole UTC offset enters the app's span: in UTC+8 it is 8 hours longer than the span from
  `Date.now()`. The model's `nowMs` is the epoch reading plus the offset. Fed the raw reading instead, the month
  count would disagree with the app for those hours before every 30-day boundary.
- Floating point is not modelled. `MonthsCovering` divides exactly. For spans shorter than 2^21 thirty-day months
  (far beyond any picked date), the double quotient of two integers never rounds down onto an integer below the
  true quotient, so the ceiling agrees.
- The `Date` range limit of ±8.64·10^15 ms, beyond which an instant is NaN, is not modelled. Picked years lie within
  it.
- `parseInt` on arbitrary strings is not modelled. Picker fields are `Option<int>`: the pickers only offer decimal
  strings or the empty placeholder.
- Option labels (`${n}年`, `${n}月`) are display text. Only the values are modelled.
- The "否" patch also carries `dosage`, `duration`, `lastDoseDate`, `hasDrugHoliday` and `drugHolidayStartDate`.
  These are not `PatientData` fields and nothing reads them, so `NoMedicationPatch` omits them.
- Fields whose TypeScript type is a union of string literals (gender, medication type, route and so on) are
  modelled as plain strings. The engine does not read them.
- app/utils/generatePDF.ts is not part of this model. It is HTML templating and file, print and share I/O that only
  consumes the engine's output.
- app/patient-info.tsx is not part of this model: BMI is floating point, the days-in-month helper wraps `Date`, and
  the rest is form state. app/pre-assessment.tsx, app/_layout.tsx and webpack.config.js are screens, navigation and
  build configuration.
- React and zustand mechanics are not modelled: rendering, `useState`, styles, navigation, and the store's
  `create`/`set` plumbing. The store is the pure function `Update`. The screen's error line is the `dateError` field
  of `Screen`.
