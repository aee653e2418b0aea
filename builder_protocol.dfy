/**
 * The staged construction protocol of a diagnosis key, as values: the four
 * builder stages, the operations each stage offers, the fields a builder has
 * accumulated so far (a `Draft`), and what `build()` makes of them.
 */
module BuilderProtocol {
  import opened Wrappers
  import opened JavaTypes
  import opened Clock
  import opened ExternalProtocols
  import opened Normalization
  import opened DiagnosisKeys

  /**
   * One value per builder interface: `Builder` (Base), `RollingStartIntervalNumberBuilder`,
   * `TransmissionRiskLevelBuilder`, `FinalBuilder`; `Built` is a builder whose
   * `build()` has run and which accepts nothing more.
   */
  datatype Stage = Base | RollingStart | TransmissionRisk | Final | Built

  /** The optional setters that `FinalBuilder` offers. */
  datatype Setter =
    | WithSubmissionTimestamp(submissionTimestamp: int64)
    | WithRollingPeriod(rollingPeriod: int32)
    | WithConsentToFederation(consentToFederation: bool)
    | WithCountryCode(countryCode: string)
    | WithVisitedCountries(visitedCountries: set<string>)
    | WithReportType(reportType: ReportType)
    | WithDaysSinceOnsetOfSymptoms(daysSinceOnsetOfSymptoms: int32)
    | WithMobileTestId(mobileTestId: string)
    | WithMobileTestId2(mobileTestId2: string)
    | WithDatePatientInfectious(datePatientInfectious: LocalDate)
    | WithDateTestCommunicated(dateTestCommunicated: LocalDate)
    | WithResultChannel(resultChannel: int32)
    | WithVerified(verified: bool)
    | WithFieldNormalization(fieldNormalizer: Normalizer)

  /** Every builder operation except the terminal `build()`. */
  datatype Step =
    | WithKeyData(keyData: seq<byte>)
    | FromTemporaryExposureKeyAndMetadata(
        protoBufObject: TemporaryExposureKey, visitedCountries: seq<string>,
        originCountry: string, consentToFederation: bool)
    | FromFederationDiagnosisKey(federationDiagnosisKey: FederationDiagnosisKey)
    | WithRollingStartIntervalNumber(rollingStartIntervalNumber: int32)
    | WithTransmissionRiskLevel(transmissionRiskLevel: int32)
    | Optional(setter: Setter)

  /** The optional fields of `FinalBuilder`, one per setter. */
  datatype Field =
    | SubmissionTimestamp | RollingPeriod | ConsentToFederation | CountryCode
    | VisitedCountries | ReportTypeField | DaysSinceOnsetOfSymptoms | MobileTestId
    | MobileTestId2 | DatePatientInfectious | DateTestCommunicated | ResultChannel
    | Verified | FieldNormalizer

  /** What a builder holds so far; `None` is a field that was never given. */
  datatype Draft = Draft(
    keyData: Option<seq<byte>>,
    rollingStartIntervalNumber: Option<int32>,
    transmissionRiskLevel: Option<int32>,
    submissionTimestamp: Option<int64>,
    rollingPeriod: Option<int32>,
    consentToFederation: bool,
    countryCode: Option<string>,
    visitedCountries: set<string>,
    reportType: Option<ReportType>,
    daysSinceOnsetOfSymptoms: Option<int32>,
    mobileTestId: Option<string>,
    mobileTestId2: Option<string>,
    datePatientInfectious: Option<LocalDate>,
    dateTestCommunicated: Option<LocalDate>,
    resultChannel: Option<int32>,
    verified: bool,
    fieldNormalizer: Option<Normalizer>)

  /** The draft of a fresh builder: nothing given yet. */
  const Blank: Draft :=
    Draft(None, None, None, None, None, false, None, {}, None, None, None, None, None, None, None, false, None)

  /** The stage whose interface declares `step`. */
  function StageOf(step: Step): (s: Stage)
    ensures s != Built
    ensures s == Final <==> step.Optional?
  {
    match step
    case WithKeyData(_) => Base
    case FromTemporaryExposureKeyAndMetadata(_, _, _, _) => Base
    case FromFederationDiagnosisKey(_) => Base
    case WithRollingStartIntervalNumber(_) => RollingStart
    case WithTransmissionRiskLevel(_) => TransmissionRisk
    case Optional(_) => Final
  }

  /** The stage whose interface `step` returns. */
  function Target(step: Step): Stage {
    match step
    case WithKeyData(_) => RollingStart
    case FromTemporaryExposureKeyAndMetadata(_, _, _, _) => Final
    case FromFederationDiagnosisKey(_) => Final
    case WithRollingStartIntervalNumber(_) => TransmissionRisk
    case WithTransmissionRiskLevel(_) => Final
    case Optional(_) => Final
  }

  /** The field a setter writes. */
  function FieldOf(s: Setter): Field {
    match s
    case WithSubmissionTimestamp(_) => SubmissionTimestamp
    case WithRollingPeriod(_) => RollingPeriod
    case WithConsentToFederation(_) => ConsentToFederation
    case WithCountryCode(_) => CountryCode
    case WithVisitedCountries(_) => VisitedCountries
    case WithReportType(_) => ReportTypeField
    case WithDaysSinceOnsetOfSymptoms(_) => DaysSinceOnsetOfSymptoms
    case WithMobileTestId(_) => MobileTestId
    case WithMobileTestId2(_) => MobileTestId2
    case WithDatePatientInfectious(_) => DatePatientInfectious
    case WithDateTestCommunicated(_) => DateTestCommunicated
    case WithResultChannel(_) => ResultChannel
    case WithVerified(_) => Verified
    case WithFieldNormalization(_) => FieldNormalizer
  }

  /** The list of visited countries a client submits, as the set the key stores. */
  function CountrySet(countries: seq<string>): (r: set<string>)
    ensures forall c :: c in r <==> c in countries
  {
    set c | c in countries
  }

  /** The effect of an optional setter: it records its value in its own field. */
  function ApplySetter(d: Draft, s: Setter): Draft {
    match s
    case WithSubmissionTimestamp(v) => d.(submissionTimestamp := Some(v))
    case WithRollingPeriod(v) => d.(rollingPeriod := Some(v))
    case WithConsentToFederation(v) => d.(consentToFederation := v)
    case WithCountryCode(v) => d.(countryCode := Some(v))
    case WithVisitedCountries(v) => d.(visitedCountries := v)
    case WithReportType(v) => d.(reportType := Some(v))
    case WithDaysSinceOnsetOfSymptoms(v) => d.(daysSinceOnsetOfSymptoms := Some(v))
    case WithMobileTestId(v) => d.(mobileTestId := Some(v))
    case WithMobileTestId2(v) => d.(mobileTestId2 := Some(v))
    case WithDatePatientInfectious(v) => d.(datePatientInfectious := Some(v))
    case WithDateTestCommunicated(v) => d.(dateTestCommunicated := Some(v))
    case WithResultChannel(v) => d.(resultChannel := Some(v))
    case WithVerified(v) => d.(verified := v)
    case WithFieldNormalization(v) => d.(fieldNormalizer := Some(v))
  }

  /**
   * What both adapters take from a wire object, as the chain of the builder's
   * own calls: the three mandatory fields and the rolling period, then the
   * report type and days since onset of symptoms when the object has them.
   */
  function WithWireFields(
    d: Draft, keyData: seq<byte>, rollingStart: int32, riskLevel: int32, rollingPeriod: int32,
    reportType: Option<ReportType>, daysSinceOnset: Option<int32>): (r: Draft)
    ensures r.keyData == Some(keyData)
    ensures r.rollingStartIntervalNumber == Some(rollingStart)
    ensures r.transmissionRiskLevel == Some(riskLevel)
    ensures r.rollingPeriod == Some(rollingPeriod)
    ensures r.reportType == if reportType.Some? then reportType else d.reportType
    ensures r.daysSinceOnsetOfSymptoms == if daysSinceOnset.Some? then daysSinceOnset else d.daysSinceOnsetOfSymptoms
    ensures r == d.(keyData := r.keyData, rollingStartIntervalNumber := r.rollingStartIntervalNumber,
                    transmissionRiskLevel := r.transmissionRiskLevel, rollingPeriod := r.rollingPeriod,
                    reportType := r.reportType, daysSinceOnsetOfSymptoms := r.daysSinceOnsetOfSymptoms)
  {
    var mandatory := d.(keyData := Some(keyData)).(rollingStartIntervalNumber := Some(rollingStart))
      .(transmissionRiskLevel := Some(riskLevel));
    var timed := ApplySetter(mandatory, WithRollingPeriod(rollingPeriod));
    var reported := if reportType.Some? then ApplySetter(timed, WithReportType(reportType.value)) else timed;
    if daysSinceOnset.Some? then ApplySetter(reported, WithDaysSinceOnsetOfSymptoms(daysSinceOnset.value))
    else reported
  }

  /**
   * The effect of a builder operation on the draft. Each adapter is the chain
   * of calls that records the wire object's fields; the exposure-key adapter
   * adds consent and country metadata from its side parameters, the
   * federation adapter its country metadata from the federation object itself.
   */
  function Apply(d: Draft, step: Step): Draft
  {
    match step
    case WithKeyData(k) => d.(keyData := Some(k))
    case FromTemporaryExposureKeyAndMetadata(tek, visited, origin, consent) =>
      var wire := WithWireFields(d, tek.keyData, tek.rollingStartIntervalNumber, tek.transmissionRiskLevel,
        tek.rollingPeriod, tek.reportType, tek.daysSinceOnsetOfSymptoms);
      ApplySetter(ApplySetter(ApplySetter(wire, WithConsentToFederation(consent)),
        WithCountryCode(origin)), WithVisitedCountries(CountrySet(visited)))
    case FromFederationDiagnosisKey(fed) =>
      var wire := WithWireFields(d, fed.keyData, fed.rollingStartIntervalNumber, fed.transmissionRiskLevel,
        fed.rollingPeriod, fed.reportType, fed.daysSinceOnsetOfSymptoms);
      ApplySetter(ApplySetter(wire, WithCountryCode(fed.origin)), WithVisitedCountries(CountrySet(fed.visitedCountries)))
    case WithRollingStartIntervalNumber(n) => d.(rollingStartIntervalNumber := Some(n))
    case WithTransmissionRiskLevel(t) => d.(transmissionRiskLevel := Some(t))
    case Optional(s) => ApplySetter(d, s)
  }

  /** The three mandatory fields are all present. */
  predicate Complete(d: Draft) {
    d.keyData.Some? && d.rollingStartIntervalNumber.Some? && d.transmissionRiskLevel.Some?
  }

  /** The mandatory fields that a builder at `stage` must already hold. */
  predicate Consistent(stage: Stage, d: Draft) {
    && (stage != Base ==> d.keyData.Some?)
    && (stage != Base && stage != RollingStart ==> d.rollingStartIntervalNumber.Some?)
    && (stage == Final || stage == Built ==> d.transmissionRiskLevel.Some?)
  }

  /** The stage and draft a run of operations has reached. */
  datatype Progress = Progress(stage: Stage, draft: Draft)

  /**
   * Runs `steps` on a builder at `stage` holding `d`. `None` when some step is
   * not declared by the interface of the stage the builder is at when it is
   * called: the model enforces the stage order on the builder object itself.
   */
  function Replay(stage: Stage, d: Draft, steps: seq<Step>): Option<Progress>
    decreases |steps|
  {
    if steps == [] then Some(Progress(stage, d))
    else if StageOf(steps[0]) != stage then None
    else Replay(Target(steps[0]), Apply(d, steps[0]), steps[1..])
  }

  /** Every step is an optional `FinalBuilder` setter. */
  predicate AllOptional(steps: seq<Step>) {
    forall i :: 0 <= i < |steps| ==> steps[i].Optional?
  }

  /**
   * The call sequences that reach `FinalBuilder` from `Builder`: one of the two
   * adapters, or key data, rolling start interval number and transmission risk
   * level in that order; then any optional setters.
   */
  predicate Accepted(steps: seq<Step>) {
    || (1 <= |steps|
        && (steps[0].FromTemporaryExposureKeyAndMetadata? || steps[0].FromFederationDiagnosisKey?)
        && AllOptional(steps[1..]))
    || (3 <= |steps|
        && steps[0].WithKeyData? && steps[1].WithRollingStartIntervalNumber?
        && steps[2].WithTransmissionRiskLevel? && AllOptional(steps[3..]))
  }

  /** The values handed to the normaliser: only what was set explicitly, no defaults. */
  function GivenFields(d: Draft): NormalizableFields
    requires d.transmissionRiskLevel.Some?
  {
    NormalizableFields(d.transmissionRiskLevel.value, d.daysSinceOnsetOfSymptoms)
  }

  /**
   * The normalisation step of `build()`. Only a normaliser can make it fail;
   * without one the given values pass through unchanged, and a normaliser
   * receives the risk level and days since onset exactly as set, with no default
   * filled in for an absent days since onset.
   */
  function Normalized(d: Draft): (r: Result<NormalizableFields, NormalizationError>)
    requires d.transmissionRiskLevel.Some?
    ensures r.Failure? ==> d.fieldNormalizer.Some?
    ensures d.fieldNormalizer.None? ==>
      && r.Success?
      && r.value.transmissionRiskLevel == d.transmissionRiskLevel.value
      && r.value.daysSinceOnsetOfSymptoms == d.daysSinceOnsetOfSymptoms
    ensures d.fieldNormalizer.Some? ==>
      r == d.fieldNormalizer.value(NormalizableFields(d.transmissionRiskLevel.value, d.daysSinceOnsetOfSymptoms))
  {
    match d.fieldNormalizer
    case None => Success(GivenFields(d))
    case Some(normalize) => normalize(GivenFields(d))
  }

  /**
   * What `build()` returns for a complete draft, with the clock reading
   * `nowEpochSeconds`: the normaliser's error if it fails; otherwise the key
   * with the normalised fields, the defaults for the rolling period and
   * submission timestamp, and every other field as given.
   */
  function Assemble(d: Draft, nowEpochSeconds: int64): (r: Result<DiagnosisKey, NormalizationError>)
    requires Complete(d)
    ensures r.Failure? <==> Normalized(d).Failure?
    ensures r.Failure? ==> r.error == Normalized(d).error
    ensures d.fieldNormalizer.None? ==> r.Success?
    ensures r.Success? ==>
      && r.value.keyData == d.keyData.value
      && r.value.rollingStartIntervalNumber == d.rollingStartIntervalNumber.value
      && r.value.transmissionRiskLevel == Normalized(d).value.transmissionRiskLevel
      && r.value.daysSinceOnsetOfSymptoms == Normalized(d).value.daysSinceOnsetOfSymptoms
    ensures r.Success? && d.fieldNormalizer.None? ==>
      && r.value.transmissionRiskLevel == d.transmissionRiskLevel.value
      && r.value.daysSinceOnsetOfSymptoms == d.daysSinceOnsetOfSymptoms
    ensures r.Success? ==>
      r.value.rollingPeriod == if d.rollingPeriod.None? then ExpectedRollingPeriod else d.rollingPeriod.value
    ensures r.Success? ==>
      r.value.submissionTimestamp ==
        if d.submissionTimestamp.None? then HoursSinceEpoch(nowEpochSeconds) else d.submissionTimestamp.value
    ensures r.Success? ==>
      && r.value.consentToFederation == d.consentToFederation
      && r.value.countryCode == d.countryCode
      && r.value.visitedCountries == d.visitedCountries
      && r.value.reportType == d.reportType
      && r.value.mobileTestId == d.mobileTestId
      && r.value.mobileTestId2 == d.mobileTestId2
      && r.value.datePatientInfectious == d.datePatientInfectious
      && r.value.dateTestCommunicated == d.dateTestCommunicated
      && r.value.resultChannel == d.resultChannel
      && r.value.verified == d.verified
  {
    match Normalized(d)
    case Failure(e) => Failure(e)
    case Success(fields) =>
      Success(DiagnosisKey(
        keyData := d.keyData.value,
        rollingStartIntervalNumber := d.rollingStartIntervalNumber.value,
        transmissionRiskLevel := fields.transmissionRiskLevel,
        rollingPeriod := d.rollingPeriod.GetOr(ExpectedRollingPeriod),
        submissionTimestamp := d.submissionTimestamp.GetOr(HoursSinceEpoch(nowEpochSeconds)),
        consentToFederation := d.consentToFederation,
        countryCode := d.countryCode,
        visitedCountries := d.visitedCountries,
        reportType := d.reportType,
        daysSinceOnsetOfSymptoms := fields.daysSinceOnsetOfSymptoms,
        mobileTestId := d.mobileTestId,
        mobileTestId2 := d.mobileTestId2,
        datePatientInfectious := d.datePatientInfectious,
        dateTestCommunicated := d.dateTestCommunicated,
        resultChannel := d.resultChannel,
        verified := d.verified))
  }
}
