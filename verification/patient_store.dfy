/**
 * The patient record that every screen edits and the risk engine reads, and
 * the two store operations on it: a shallow merge of a partial record, and a
 * reset to the initial record.
 *
 * Year, month and day fields are filled from pickers whose values are decimal
 * strings; they are modelled as the number picked, or None for the empty
 * string (or null placeholder) on which `parseInt` yields NaN.
 */
module PatientStore {
  import opened Wrappers

  datatype PatientData = PatientData(
    // personal information
    name: string,
    birthYear: Option<int>,
    birthMonth: Option<int>,
    birthDay: Option<int>,
    idNumber: string,
    // medical history
    gender: string,
    transgenderType: string,
    hasHormoneTherapy: bool,
    hormoneTherapyDuration: string,
    systemicDiseases: seq<string>,
    hasRadiotherapy: bool,
    radiotherapyDetails: string,
    hasCancer: bool,
    cancerHistory: string,
    otherConditions: string,
    // medication history
    hasAntiresorptiveMed: bool,
    medicationType: string,
    medicationSubType: string,
    drugName: string,
    administrationRoute: string,
    indication: string,
    startYear: Option<int>,
    startMonth: Option<int>,
    frequency: string,
    isStopped: bool,
    stopYear: Option<int>,
    stopMonth: Option<int>
  )

  /** The keys of a patient record. */
  datatype Field =
    | Name | BirthYear | BirthMonth | BirthDay | IdNumber
    | Gender | TransgenderType | HasHormoneTherapy | HormoneTherapyDuration
    | SystemicDiseases | HasRadiotherapy | RadiotherapyDetails | HasCancer
    | CancerHistory | OtherConditions
    | HasAntiresorptiveMed | MedicationType | MedicationSubType | DrugName
    | AdministrationRoute | Indication | StartYear | StartMonth | Frequency
    | IsStopped | StopYear | StopMonth

  /** The value stored under one key. */
  datatype Value =
    | Text(text: string)
    | Flag(flag: bool)
    | Picked(picked: Option<int>)
    | Labels(labels: seq<string>)

  /** Reading one key of a record. */
  function Get(r: PatientData, f: Field): Value {
    match f
    case Name => Text(r.name)
    case BirthYear => Picked(r.birthYear)
    case BirthMonth => Picked(r.birthMonth)
    case BirthDay => Picked(r.birthDay)
    case IdNumber => Text(r.idNumber)
    case Gender => Text(r.gender)
    case TransgenderType => Text(r.transgenderType)
    case HasHormoneTherapy => Flag(r.hasHormoneTherapy)
    case HormoneTherapyDuration => Text(r.hormoneTherapyDuration)
    case SystemicDiseases => Labels(r.systemicDiseases)
    case HasRadiotherapy => Flag(r.hasRadiotherapy)
    case RadiotherapyDetails => Text(r.radiotherapyDetails)
    case HasCancer => Flag(r.hasCancer)
    case CancerHistory => Text(r.cancerHistory)
    case OtherConditions => Text(r.otherConditions)
    case HasAntiresorptiveMed => Flag(r.hasAntiresorptiveMed)
    case MedicationType => Text(r.medicationType)
    case MedicationSubType => Text(r.medicationSubType)
    case DrugName => Text(r.drugName)
    case AdministrationRoute => Text(r.administrationRoute)
    case Indication => Text(r.indication)
    case StartYear => Picked(r.startYear)
    case StartMonth => Picked(r.startMonth)
    case Frequency => Text(r.frequency)
    case IsStopped => Flag(r.isStopped)
    case StopYear => Picked(r.stopYear)
    case StopMonth => Picked(r.stopMonth)
  }

  /** A record is determined by what it holds under each key. */
  lemma SameFieldsSameRecord(a: PatientData, b: PatientData)
    requires forall f :: Get(a, f) == Get(b, f)
    ensures a == b
  {
    PersonalFieldsAgree(a, b);
    HistoryFieldsAgree(a, b);
    MedicationFieldsAgree(a, b);
    DateFieldsAgree(a, b);
  }

  lemma PersonalFieldsAgree(a: PatientData, b: PatientData)
    requires forall f :: Get(a, f) == Get(b, f)
    ensures a.name == b.name && a.birthYear == b.birthYear && a.birthMonth == b.birthMonth && a.birthDay == b.birthDay && a.idNumber == b.idNumber && a.gender == b.gender && a.transgenderType == b.transgenderType
  {
    assert Get(a, Name) == Get(b, Name);
    assert Get(a, BirthYear) == Get(b, BirthYear);
    assert Get(a, BirthMonth) == Get(b, BirthMonth);
    assert Get(a, BirthDay) == Get(b, BirthDay);
    assert Get(a, IdNumber) == Get(b, IdNumber);
    assert Get(a, Gender) == Get(b, Gender);
    assert Get(a, TransgenderType) == Get(b, TransgenderType);
  }

  lemma HistoryFieldsAgree(a: PatientData, b: PatientData)
    requires forall f :: Get(a, f) == Get(b, f)
    ensures a.hasHormoneTherapy == b.hasHormoneTherapy && a.hormoneTherapyDuration == b.hormoneTherapyDuration && a.systemicDiseases == b.systemicDiseases && a.hasRadiotherapy == b.hasRadiotherapy && a.radiotherapyDetails == b.radiotherapyDetails && a.hasCancer == b.hasCancer && a.cancerHistory == b.cancerHistory
  {
    assert Get(a, HasHormoneTherapy) == Get(b, HasHormoneTherapy);
    assert Get(a, HormoneTherapyDuration) == Get(b, HormoneTherapyDuration);
    assert Get(a, SystemicDiseases) == Get(b, SystemicDiseases);
    assert Get(a, HasRadiotherapy) == Get(b, HasRadiotherapy);
    assert Get(a, RadiotherapyDetails) == Get(b, RadiotherapyDetails);
    assert Get(a, HasCancer) == Get(b, HasCancer);
    assert Get(a, CancerHistory) == Get(b, CancerHistory);
  }

  lemma MedicationFieldsAgree(a: PatientData, b: PatientData)
    requires forall f :: Get(a, f) == Get(b, f)
    ensures a.otherConditions == b.otherConditions && a.hasAntiresorptiveMed == b.hasAntiresorptiveMed && a.medicationType == b.medicationType && a.medicationSubType == b.medicationSubType && a.drugName == b.drugName && a.administrationRoute == b.administrationRoute && a.indication == b.indication
  {
    assert Get(a, OtherConditions) == Get(b, OtherConditions);
    assert Get(a, HasAntiresorptiveMed) == Get(b, HasAntiresorptiveMed);
    assert Get(a, MedicationType) == Get(b, MedicationType);
    assert Get(a, MedicationSubType) == Get(b, MedicationSubType);
    assert Get(a, DrugName) == Get(b, DrugName);
    assert Get(a, AdministrationRoute) == Get(b, AdministrationRoute);
    assert Get(a, Indication) == Get(b, Indication);
  }

  lemma DateFieldsAgree(a: PatientData, b: PatientData)
    requires forall f :: Get(a, f) == Get(b, f)
    ensures a.startYear == b.startYear && a.startMonth == b.startMonth && a.frequency == b.frequency && a.isStopped == b.isStopped && a.stopYear == b.stopYear && a.stopMonth == b.stopMonth
  {
    assert Get(a, StartYear) == Get(b, StartYear);
    assert Get(a, StartMonth) == Get(b, StartMonth);
    assert Get(a, Frequency) == Get(b, Frequency);
    assert Get(a, IsStopped) == Get(b, IsStopped);
    assert Get(a, StopYear) == Get(b, StopYear);
    assert Get(a, StopMonth) == Get(b, StopMonth);
  }

  /** A partial record (`Partial<PatientData>`): None marks a key the patch does not carry. */
  datatype Patch = Patch(
    name: Option<string>,
    birthYear: Option<Option<int>>,
    birthMonth: Option<Option<int>>,
    birthDay: Option<Option<int>>,
    idNumber: Option<string>,
    gender: Option<string>,
    transgenderType: Option<string>,
    hasHormoneTherapy: Option<bool>,
    hormoneTherapyDuration: Option<string>,
    systemicDiseases: Option<seq<string>>,
    hasRadiotherapy: Option<bool>,
    radiotherapyDetails: Option<string>,
    hasCancer: Option<bool>,
    cancerHistory: Option<string>,
    otherConditions: Option<string>,
    hasAntiresorptiveMed: Option<bool>,
    medicationType: Option<string>,
    medicationSubType: Option<string>,
    drugName: Option<string>,
    administrationRoute: Option<string>,
    indication: Option<string>,
    startYear: Option<Option<int>>,
    startMonth: Option<Option<int>>,
    frequency: Option<string>,
    isStopped: Option<bool>,
    stopYear: Option<Option<int>>,
    stopMonth: Option<Option<int>>
  )

  /** The empty patch `{}`; a patch with a few keys is written `EmptyPatch.(key := Some(v), ...)`. */
  const EmptyPatch: Patch := Patch(
    None, None, None, None, None, None, None, None, None, None, None, None, None, None,
    None, None, None, None, None, None, None, None, None, None, None, None, None)

  /** What a patch carries under one key, if anything. */
  function PatchGet(p: Patch, f: Field): Option<Value> {
    match f
    case Name => if p.name.Some? then Some(Text(p.name.value)) else None
    case BirthYear => if p.birthYear.Some? then Some(Picked(p.birthYear.value)) else None
    case BirthMonth => if p.birthMonth.Some? then Some(Picked(p.birthMonth.value)) else None
    case BirthDay => if p.birthDay.Some? then Some(Picked(p.birthDay.value)) else None
    case IdNumber => if p.idNumber.Some? then Some(Text(p.idNumber.value)) else None
    case Gender => if p.gender.Some? then Some(Text(p.gender.value)) else None
    case TransgenderType => if p.transgenderType.Some? then Some(Text(p.transgenderType.value)) else None
    case HasHormoneTherapy => if p.hasHormoneTherapy.Some? then Some(Flag(p.hasHormoneTherapy.value)) else None
    case HormoneTherapyDuration => if p.hormoneTherapyDuration.Some? then Some(Text(p.hormoneTherapyDuration.value)) else None
    case SystemicDiseases => if p.systemicDiseases.Some? then Some(Labels(p.systemicDiseases.value)) else None
    case HasRadiotherapy => if p.hasRadiotherapy.Some? then Some(Flag(p.hasRadiotherapy.value)) else None
    case RadiotherapyDetails => if p.radiotherapyDetails.Some? then Some(Text(p.radiotherapyDetails.value)) else None
    case HasCancer => if p.hasCancer.Some? then Some(Flag(p.hasCancer.value)) else None
    case CancerHistory => if p.cancerHistory.Some? then Some(Text(p.cancerHistory.value)) else None
    case OtherConditions => if p.otherConditions.Some? then Some(Text(p.otherConditions.value)) else None
    case HasAntiresorptiveMed => if p.hasAntiresorptiveMed.Some? then Some(Flag(p.hasAntiresorptiveMed.value)) else None
    case MedicationType => if p.medicationType.Some? then Some(Text(p.medicationType.value)) else None
    case MedicationSubType => if p.medicationSubType.Some? then Some(Text(p.medicationSubType.value)) else None
    case DrugName => if p.drugName.Some? then Some(Text(p.drugName.value)) else None
    case AdministrationRoute => if p.administrationRoute.Some? then Some(Text(p.administrationRoute.value)) else None
    case Indication => if p.indication.Some? then Some(Text(p.indication.value)) else None
    case StartYear => if p.startYear.Some? then Some(Picked(p.startYear.value)) else None
    case StartMonth => if p.startMonth.Some? then Some(Picked(p.startMonth.value)) else None
    case Frequency => if p.frequency.Some? then Some(Text(p.frequency.value)) else None
    case IsStopped => if p.isStopped.Some? then Some(Flag(p.isStopped.value)) else None
    case StopYear => if p.stopYear.Some? then Some(Picked(p.stopYear.value)) else None
    case StopMonth => if p.stopMonth.Some? then Some(Picked(p.stopMonth.value)) else None
  }

  /** The value a merge keeps under one key: the patch's if it carries the key, the record's otherwise. */
  function Merged(kept: Value, patched: Option<Value>): Value {
    patched.GetOr(kept)
  }

  /** The object spread `{ ...r, ...p }`, built key by key. */
  function Spread(r: PatientData, p: Patch): PatientData
  {
    PatientData(
      p.name.GetOr(r.name),
      p.birthYear.GetOr(r.birthYear),
      p.birthMonth.GetOr(r.birthMonth),
      p.birthDay.GetOr(r.birthDay),
      p.idNumber.GetOr(r.idNumber),
      p.gender.GetOr(r.gender),
      p.transgenderType.GetOr(r.transgenderType),
      p.hasHormoneTherapy.GetOr(r.hasHormoneTherapy),
      p.hormoneTherapyDuration.GetOr(r.hormoneTherapyDuration),
      p.systemicDiseases.GetOr(r.systemicDiseases),
      p.hasRadiotherapy.GetOr(r.hasRadiotherapy),
      p.radiotherapyDetails.GetOr(r.radiotherapyDetails),
      p.hasCancer.GetOr(r.hasCancer),
      p.cancerHistory.GetOr(r.cancerHistory),
      p.otherConditions.GetOr(r.otherConditions),
      p.hasAntiresorptiveMed.GetOr(r.hasAntiresorptiveMed),
      p.medicationType.GetOr(r.medicationType),
      p.medicationSubType.GetOr(r.medicationSubType),
      p.drugName.GetOr(r.drugName),
      p.administrationRoute.GetOr(r.administrationRoute),
      p.indication.GetOr(r.indication),
      p.startYear.GetOr(r.startYear),
      p.startMonth.GetOr(r.startMonth),
      p.frequency.GetOr(r.frequency),
      p.isStopped.GetOr(r.isStopped),
      p.stopYear.GetOr(r.stopYear),
      p.stopMonth.GetOr(r.stopMonth))
  }

  /** The spread gives every key the patch carries the patch's value, and keeps every other key. */
  lemma SpreadMerges(r: PatientData, p: Patch)
    ensures forall f :: Get(Spread(r, p), f) == Merged(Get(r, f), PatchGet(p, f))
  {
    forall f ensures Get(Spread(r, p), f) == Merged(Get(r, f), PatchGet(p, f)) {
      match f
      case Name => {}
      case BirthYear => {}
      case BirthMonth => {}
      case BirthDay => {}
      case IdNumber => {}
      case Gender => {}
      case TransgenderType => {}
      case HasHormoneTherapy => {}
      case HormoneTherapyDuration => {}
      case SystemicDiseases => {}
      case HasRadiotherapy => {}
      case RadiotherapyDetails => {}
      case HasCancer => {}
      case CancerHistory => {}
      case OtherConditions => {}
      case HasAntiresorptiveMed => {}
      case MedicationType => {}
      case MedicationSubType => {}
      case DrugName => {}
      case AdministrationRoute => {}
      case Indication => {}
      case StartYear => {}
      case StartMonth => {}
      case Frequency => {}
      case IsStopped => {}
      case StopYear => {}
      case StopMonth => {}
    }
  }

  /**
   * `updatePatientInfo(patch)`: every key the patch carries takes the
   * patch's value, and every other key keeps the record's value.
   */
  function Update(r: PatientData, p: Patch): (r': PatientData)
    ensures forall f :: Get(r', f) == Merged(Get(r, f), PatchGet(p, f))
  {
    SpreadMerges(r, p);
    Spread(r, p)
  }

  /** The patch `{ ...p, ...q }`. */
  function Override(p: Patch, q: Patch): Patch
  {
    Patch(
      if q.name.Some? then q.name else p.name,
      if q.birthYear.Some? then q.birthYear else p.birthYear,
      if q.birthMonth.Some? then q.birthMonth else p.birthMonth,
      if q.birthDay.Some? then q.birthDay else p.birthDay,
      if q.idNumber.Some? then q.idNumber else p.idNumber,
      if q.gender.Some? then q.gender else p.gender,
      if q.transgenderType.Some? then q.transgenderType else p.transgenderType,
      if q.hasHormoneTherapy.Some? then q.hasHormoneTherapy else p.hasHormoneTherapy,
      if q.hormoneTherapyDuration.Some? then q.hormoneTherapyDuration else p.hormoneTherapyDuration,
      if q.systemicDiseases.Some? then q.systemicDiseases else p.systemicDiseases,
      if q.hasRadiotherapy.Some? then q.hasRadiotherapy else p.hasRadiotherapy,
      if q.radiotherapyDetails.Some? then q.radiotherapyDetails else p.radiotherapyDetails,
      if q.hasCancer.Some? then q.hasCancer else p.hasCancer,
      if q.cancerHistory.Some? then q.cancerHistory else p.cancerHistory,
      if q.otherConditions.Some? then q.otherConditions else p.otherConditions,
      if q.hasAntiresorptiveMed.Some? then q.hasAntiresorptiveMed else p.hasAntiresorptiveMed,
      if q.medicationType.Some? then q.medicationType else p.medicationType,
      if q.medicationSubType.Some? then q.medicationSubType else p.medicationSubType,
      if q.drugName.Some? then q.drugName else p.drugName,
      if q.administrationRoute.Some? then q.administrationRoute else p.administrationRoute,
      if q.indication.Some? then q.indication else p.indication,
      if q.startYear.Some? then q.startYear else p.startYear,
      if q.startMonth.Some? then q.startMonth else p.startMonth,
      if q.frequency.Some? then q.frequency else p.frequency,
      if q.isStopped.Some? then q.isStopped else p.isStopped,
      if q.stopYear.Some? then q.stopYear else p.stopYear,
      if q.stopMonth.Some? then q.stopMonth else p.stopMonth)
  }

  /** In `{ ...p, ...q }` a key q carries takes q's value, and every other key is as in p. */
  lemma OverrideMerges(p: Patch, q: Patch)
    ensures forall f :: PatchGet(Override(p, q), f) == (if PatchGet(q, f).Some? then PatchGet(q, f) else PatchGet(p, f))
  {
    forall f ensures PatchGet(Override(p, q), f) == (if PatchGet(q, f).Some? then PatchGet(q, f) else PatchGet(p, f)) {
      match f
      case Name => {}
      case BirthYear => {}
      case BirthMonth => {}
      case BirthDay => {}
      case IdNumber => {}
      case Gender => {}
      case TransgenderType => {}
      case HasHormoneTherapy => {}
      case HormoneTherapyDuration => {}
      case SystemicDiseases => {}
      case HasRadiotherapy => {}
      case RadiotherapyDetails => {}
      case HasCancer => {}
      case CancerHistory => {}
      case OtherConditions => {}
      case HasAntiresorptiveMed => {}
      case MedicationType => {}
      case MedicationSubType => {}
      case DrugName => {}
      case AdministrationRoute => {}
      case Indication => {}
      case StartYear => {}
      case StartMonth => {}
      case Frequency => {}
      case IsStopped => {}
      case StopYear => {}
      case StopMonth => {}
    }
  }

  /** The empty patch changes nothing. */
  lemma EmptyPatchIsIdentity(r: PatientData)
    ensures Update(r, EmptyPatch) == r
  {
    SameFieldsSameRecord(Update(r, EmptyPatch), r);
  }

  /** Applying a patch a second time changes nothing more. */
  lemma UpdateIdempotent(r: PatientData, p: Patch)
    ensures Update(Update(r, p), p) == Update(r, p)
  {
    SameFieldsSameRecord(Update(Update(r, p), p), Update(r, p));
  }

  /** Two successive merges are one merge of the overridden patch. */
  lemma UpdateComposes(r: PatientData, p: Patch, q: Patch)
    ensures Update(Update(r, p), q) == Update(r, Override(p, q))
  {
    var a, b := Update(Update(r, p), q), Update(r, Override(p, q));
    OverrideMerges(p, q);
    forall f ensures Get(a, f) == Get(b, f) {
      var x, pf, qf := Get(r, f), PatchGet(p, f), PatchGet(q, f);
      assert Get(a, f) == Merged(Merged(x, pf), qf);
      assert Get(b, f) == Merged(x, if qf.Some? then qf else pf);
    }
    SameFieldsSameRecord(Update(Update(r, p), q), Update(r, Override(p, q)));
  }

  /**
   * `initialState`. Its birth year is the calendar year in which the store
   * module was loaded, which the model takes as the parameter `loadYear`.
   */
  function InitialState(loadYear: int): (s: PatientData)
    ensures !s.hasAntiresorptiveMed && !s.isStopped && !s.hasRadiotherapy && !s.hasCancer
    ensures s.systemicDiseases == []
    ensures s.startYear == None && s.startMonth == None && s.stopYear == None && s.stopMonth == None
    ensures s.birthYear == Some(loadYear) && s.birthMonth == Some(1) && s.birthDay == Some(1)
  {
    PatientData(
      name := "", birthYear := Some(loadYear), birthMonth := Some(1), birthDay := Some(1), idNumber := "",
      gender := "", transgenderType := "", hasHormoneTherapy := false, hormoneTherapyDuration := "",
      systemicDiseases := [], hasRadiotherapy := false, radiotherapyDetails := "", hasCancer := false,
      cancerHistory := "", otherConditions := "",
      hasAntiresorptiveMed := false, medicationType := "", medicationSubType := "", drugName := "",
      administrationRoute := "", indication := "", startYear := None, startMonth := None, frequency := "",
      isStopped := false, stopYear := None, stopMonth := None)
  }

  /** `resetPatientData`: the store holds `initialState` again, whatever it held before. */
  function Reset(r: PatientData, loadYear: int): (r': PatientData)
    ensures !r'.hasAntiresorptiveMed && !r'.isStopped && !r'.hasRadiotherapy && !r'.hasCancer
    ensures r'.systemicDiseases == []
    ensures r'.startYear == None && r'.startMonth == None && r'.stopYear == None && r'.stopMonth == None
    ensures r'.birthYear == Some(loadYear) && r'.birthMonth == Some(1) && r'.birthDay == Some(1)
  {
    InitialState(loadYear)
  }

  /** No patch survives a reset. */
  lemma ResetForgetsUpdates(r: PatientData, p: Patch, loadYear: int)
    ensures Reset(Update(r, p), loadYear) == Reset(r, loadYear) == InitialState(loadYear)
  {
  }
}
