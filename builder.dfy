/**
 * The diagnosis-key builder as the mutable object the Java interfaces
 * describe: every `with…`/`from…` call records its values in the one builder
 * and moves it to the next stage; `build()` reads what was recorded.
 */
module DiagnosisKeyBuilder {
  import opened Wrappers
  import opened JavaTypes
  import opened Clock
  import opened ExternalProtocols
  import opened Normalization
  import opened DiagnosisKeys
  import opened BuilderProtocol

  class Builder {
    /** The interface the builder is currently seen through. */
    var stage: Stage
    var keyData: Option<seq<byte>>
    var rollingStartIntervalNumber: Option<int32>
    var transmissionRiskLevel: Option<int32>
    var submissionTimestamp: Option<int64>
    var rollingPeriod: Option<int32>
    var consentToFederation: bool
    var countryCode: Option<string>
    var visitedCountries: set<string>
    var reportType: Option<ReportType>
    var daysSinceOnsetOfSymptoms: Option<int32>
    var mobileTestId: Option<string>
    var mobileTestId2: Option<string>
    var datePatientInfectious: Option<LocalDate>
    var dateTestCommunicated: Option<LocalDate>
    var resultChannel: Option<int32>
    var verified: bool
    var fieldNormalizer: Option<Normalizer>

    /** The values recorded so far. */
    function Pending(): Draft
      reads this
    {
      Draft(keyData, rollingStartIntervalNumber, transmissionRiskLevel, submissionTimestamp,
            rollingPeriod, consentToFederation, countryCode, visitedCountries, reportType,
            daysSinceOnsetOfSymptoms, mobileTestId, mobileTestId2, datePatientInfectious,
            dateTestCommunicated, resultChannel, verified, fieldNormalizer)
    }

    /** The builder holds every mandatory field its stage has passed. */
    predicate Valid()
      reads this
    {
      Consistent(stage, Pending())
    }

    constructor ()
      ensures Valid() && stage == Base && Pending() == Blank
    {
      stage := Base;
      keyData, rollingStartIntervalNumber, transmissionRiskLevel := None, None, None;
      submissionTimestamp, rollingPeriod, consentToFederation := None, None, false;
      countryCode, visitedCountries, reportType, daysSinceOnsetOfSymptoms := None, {}, None, None;
      mobileTestId, mobileTestId2 := None, None;
      datePatientInfectious, dateTestCommunicated := None, None;
      resultChannel, verified, fieldNormalizer := None, false, None;
    }

    // Builder (the base stage)

    method WithKeyData(data: seq<byte>)
      requires Valid() && stage == Base
      modifies this
      ensures Valid() && stage == RollingStart
      ensures Pending() == Apply(old(Pending()), Step.WithKeyData(data))
    {
      keyData := Some(data);
      stage := RollingStart;
    }

    method FromTemporaryExposureKeyAndMetadata(
      protoBufObject: TemporaryExposureKey, visited: seq<string>, originCountry: string, consent: bool)
      requires Valid() && stage == Base
      modifies this
      ensures Valid() && stage == Final
      ensures Pending() == Apply(old(Pending()),
        Step.FromTemporaryExposureKeyAndMetadata(protoBufObject, visited, originCountry, consent))
    {
      var tek := protoBufObject;
      WithKeyData(tek.keyData);
      WithRollingStartIntervalNumber(tek.rollingStartIntervalNumber);
      WithTransmissionRiskLevel(tek.transmissionRiskLevel);
      WithRollingPeriod(tek.rollingPeriod);
      if tek.reportType.Some? {
        WithReportType(tek.reportType.value);
      }
      if tek.daysSinceOnsetOfSymptoms.Some? {
        WithDaysSinceOnsetOfSymptoms(tek.daysSinceOnsetOfSymptoms.value);
      }
      WithConsentToFederation(consent);
      WithCountryCode(originCountry);
      WithVisitedCountries(CountrySet(visited));
    }

    method FromFederationDiagnosisKey(federationDiagnosisKey: FederationDiagnosisKey)
      requires Valid() && stage == Base
      modifies this
      ensures Valid() && stage == Final
      ensures Pending() == Apply(old(Pending()), Step.FromFederationDiagnosisKey(federationDiagnosisKey))
    {
      var fed := federationDiagnosisKey;
      WithKeyData(fed.keyData);
      WithRollingStartIntervalNumber(fed.rollingStartIntervalNumber);
      WithTransmissionRiskLevel(fed.transmissionRiskLevel);
      WithRollingPeriod(fed.rollingPeriod);
      if fed.reportType.Some? {
        WithReportType(fed.reportType.value);
      }
      if fed.daysSinceOnsetOfSymptoms.Some? {
        WithDaysSinceOnsetOfSymptoms(fed.daysSinceOnsetOfSymptoms.value);
      }
      WithCountryCode(fed.origin);
      WithVisitedCountries(CountrySet(fed.visitedCountries));
    }

    // RollingStartIntervalNumberBuilder and TransmissionRiskLevelBuilder

    method WithRollingStartIntervalNumber(n: int32)
      requires Valid() && stage == RollingStart
      modifies this
      ensures Valid() && stage == TransmissionRisk
      ensures Pending() == Apply(old(Pending()), Step.WithRollingStartIntervalNumber(n))
    {
      rollingStartIntervalNumber := Some(n);
      stage := TransmissionRisk;
    }

    method WithTransmissionRiskLevel(level: int32)
      requires Valid() && stage == TransmissionRisk
      modifies this
      ensures Valid() && stage == Final
      ensures Pending() == Apply(old(Pending()), Step.WithTransmissionRiskLevel(level))
    {
      transmissionRiskLevel := Some(level);
      stage := Final;
    }

    // FinalBuilder: optional setters, each leaving the builder in the final stage

    method WithSubmissionTimestamp(hoursSinceEpoch: int64)
      requires Valid() && stage == Final
      modifies this
      ensures Valid() && stage == Final
      ensures Pending() == ApplySetter(old(Pending()), Setter.WithSubmissionTimestamp(hoursSinceEpoch))
    {
      submissionTimestamp := Some(hoursSinceEpoch);
    }

    method WithRollingPeriod(period: int32)
      requires Valid() && stage == Final
      modifies this
      ensures Valid() && stage == Final
      ensures Pending() == ApplySetter(old(Pending()), Setter.WithRollingPeriod(period))
    {
      rollingPeriod := Some(period);
    }

    method WithConsentToFederation(consent: bool)
      requires Valid() && stage == Final
      modifies this
      ensures Valid() && stage == Final
      ensures Pending() == ApplySetter(old(Pending()), Setter.WithConsentToFederation(consent))
    {
      consentToFederation := consent;
    }

    method WithCountryCode(code: string)
      requires Valid() && stage == Final
      modifies this
      ensures Valid() && stage == Final
      ensures Pending() == ApplySetter(old(Pending()), Setter.WithCountryCode(code))
    {
      countryCode := Some(code);
    }

    method WithVisitedCountries(countries: set<string>)
      requires Valid() && stage == Final
      modifies this
      ensures Valid() && stage == Final
      ensures Pending() == ApplySetter(old(Pending()), Setter.WithVisitedCountries(countries))
    {
      visitedCountries := countries;
    }

    method WithReportType(report: ReportType)
      requires Valid() && stage == Final
      modifies this
      ensures Valid() && stage == Final
      ensures Pending() == ApplySetter(old(Pending()), Setter.WithReportType(report))
    {
      reportType := Some(report);
    }

    method WithDaysSinceOnsetOfSymptoms(days: int32)
      requires Valid() && stage == Final
      modifies this
      ensures Valid() && stage == Final
      ensures Pending() == ApplySetter(old(Pending()), Setter.WithDaysSinceOnsetOfSymptoms(days))
    {
      daysSinceOnsetOfSymptoms := Some(days);
    }

    method WithMobileTestId(id: string)
      requires Valid() && stage == Final
      modifies this
      ensures Valid() && stage == Final
      ensures Pending() == ApplySetter(old(Pending()), Setter.WithMobileTestId(id))
    {
      mobileTestId := Some(id);
    }

    method WithMobileTestId2(id: string)
      requires Valid() && stage == Final
      modifies this
      ensures Valid() && stage == Final
      ensures Pending() == ApplySetter(old(Pending()), Setter.WithMobileTestId2(id))
    {
      mobileTestId2 := Some(id);
    }

    method WithDatePatientInfectious(date: LocalDate)
      requires Valid() && stage == Final
      modifies this
      ensures Valid() && stage == Final
      ensures Pending() == ApplySetter(old(Pending()), Setter.WithDatePatientInfectious(date))
    {
      datePatientInfectious := Some(date);
    }

    method WithDateTestCommunicated(date: LocalDate)
      requires Valid() && stage == Final
      modifies this
      ensures Valid() && stage == Final
      ensures Pending() == ApplySetter(old(Pending()), Setter.WithDateTestCommunicated(date))
    {
      dateTestCommunicated := Some(date);
    }

    method WithResultChannel(channel: int32)
      requires Valid() && stage == Final
      modifies this
      ensures Valid() && stage == Final
      ensures Pending() == ApplySetter(old(Pending()), Setter.WithResultChannel(channel))
    {
      resultChannel := Some(channel);
    }

    method WithVerified(flag: bool)
      requires Valid() && stage == Final
      modifies this
      ensures Valid() && stage == Final
      ensures Pending() == ApplySetter(old(Pending()), Setter.WithVerified(flag))
    {
      verified := flag;
    }

    /** Stores the normaliser; it is applied only when `Build` runs. */
    method WithFieldNormalization(normalizer: Normalizer)
      requires Valid() && stage == Final
      modifies this
      ensures Valid() && stage == Final
      ensures Pending() == ApplySetter(old(Pending()), Setter.WithFieldNormalization(normalizer))
    {
      fieldNormalizer := Some(normalizer);
    }

    /**
     * Normalises the recorded values, fills in the defaults (the clock supplies
     * "now" as `nowEpochSeconds`) and assembles the key. The builder is used
     * up: it accepts no further call.
     */
    method Build(nowEpochSeconds: int64) returns (key: Result<DiagnosisKey, NormalizationError>)
      requires Valid() && stage == Final
      modifies this
      ensures stage == Built && Valid() && Pending() == old(Pending())
      ensures key == Assemble(old(Pending()), nowEpochSeconds)
    {
      var given := NormalizableFields(transmissionRiskLevel.value, daysSinceOnsetOfSymptoms);
      var normalized := Success(given);
      if fieldNormalizer.Some? {
        normalized := fieldNormalizer.value(given);
      }
      stage := Built;
      if normalized.Failure? {
        key := Failure(normalized.error);
        return;
      }
      var fields := normalized.value;
      var period := ExpectedRollingPeriod;
      if rollingPeriod.Some? {
        period := rollingPeriod.value;
      }
      var timestamp: int64;
      if submissionTimestamp.Some? {
        timestamp := submissionTimestamp.value;
      } else {
        timestamp := HoursSinceEpoch(nowEpochSeconds);
      }
      key := Success(DiagnosisKey(
        keyData.value, rollingStartIntervalNumber.value, fields.transmissionRiskLevel, period,
        timestamp, consentToFederation, countryCode, visitedCountries, reportType,
        fields.daysSinceOnsetOfSymptoms, mobileTestId, mobileTestId2, datePatientInfectious,
        dateTestCommunicated, resultChannel, verified));
    }
  }

  /**
   * `withKeyData(..).withRollingStartIntervalNumber(..).withTransmissionRiskLevel(..).build()`:
   * the three values as supplied, rolling period 144, submission time "now",
   * every other field absent or false.
   */
  method BuildFromFields(data: seq<byte>, rollingStart: int32, riskLevel: int32, nowEpochSeconds: int64)
    returns (key: Result<DiagnosisKey, NormalizationError>)
    ensures key.Success?
    ensures key.value.keyData == data
    ensures key.value.rollingStartIntervalNumber == rollingStart
    ensures key.value.transmissionRiskLevel == riskLevel
    ensures key.value.rollingPeriod == ExpectedRollingPeriod
    ensures key.value.submissionTimestamp == HoursSinceEpoch(nowEpochSeconds)
    ensures !key.value.consentToFederation && !key.value.verified
    ensures key.value.countryCode.None? && key.value.visitedCountries == {}
    ensures key.value.reportType.None? && key.value.daysSinceOnsetOfSymptoms.None?
    ensures key.value.mobileTestId.None? && key.value.mobileTestId2.None?
    ensures key.value.datePatientInfectious.None? && key.value.dateTestCommunicated.None?
    ensures key.value.resultChannel.None?
  {
    var builder := new Builder();
    builder.WithKeyData(data);
    builder.WithRollingStartIntervalNumber(rollingStart);
    builder.WithTransmissionRiskLevel(riskLevel);
    key := builder.Build(nowEpochSeconds);
  }

  /**
   * `fromTemporaryExposureKeyAndMetadata(..).build()`: the wire key's fields,
   * the side metadata as given, submission time "now".
   */
  method BuildFromTemporaryExposureKey(
    protoBufObject: TemporaryExposureKey, visited: seq<string>, originCountry: string,
    consent: bool, nowEpochSeconds: int64)
    returns (key: Result<DiagnosisKey, NormalizationError>)
    ensures key.Success?
    ensures key.value.keyData == protoBufObject.keyData
    ensures key.value.rollingStartIntervalNumber == protoBufObject.rollingStartIntervalNumber
    ensures key.value.transmissionRiskLevel == protoBufObject.transmissionRiskLevel
    ensures key.value.rollingPeriod == protoBufObject.rollingPeriod
    ensures key.value.reportType == protoBufObject.reportType
    ensures key.value.daysSinceOnsetOfSymptoms == protoBufObject.daysSinceOnsetOfSymptoms
    ensures forall c :: c in key.value.visitedCountries <==> c in visited
    ensures key.value.countryCode == Some(originCountry)
    ensures key.value.consentToFederation == consent
    ensures key.value.submissionTimestamp == HoursSinceEpoch(nowEpochSeconds)
  {
    var builder := new Builder();
    builder.FromTemporaryExposureKeyAndMetadata(protoBufObject, visited, originCountry, consent);
    key := builder.Build(nowEpochSeconds);
  }

  /**
   * `fromFederationDiagnosisKey(..).build()`: everything from the federation
   * object, no side parameters, submission time "now".
   */
  method BuildFromFederationDiagnosisKey(federationDiagnosisKey: FederationDiagnosisKey, nowEpochSeconds: int64)
    returns (key: Result<DiagnosisKey, NormalizationError>)
    ensures key.Success?
    ensures key.value.keyData == federationDiagnosisKey.keyData
    ensures key.value.rollingStartIntervalNumber == federationDiagnosisKey.rollingStartIntervalNumber
    ensures key.value.transmissionRiskLevel == federationDiagnosisKey.transmissionRiskLevel
    ensures key.value.rollingPeriod == federationDiagnosisKey.rollingPeriod
    ensures key.value.reportType == federationDiagnosisKey.reportType
    ensures key.value.daysSinceOnsetOfSymptoms == federationDiagnosisKey.daysSinceOnsetOfSymptoms
    ensures key.value.countryCode == Some(federationDiagnosisKey.origin)
    ensures forall c :: c in key.value.visitedCountries <==> c in federationDiagnosisKey.visitedCountries
    ensures key.value.submissionTimestamp == HoursSinceEpoch(nowEpochSeconds)
  {
    var builder := new Builder();
    builder.FromFederationDiagnosisKey(federationDiagnosisKey);
    key := builder.Build(nowEpochSeconds);
  }

  /**
   * A normaliser set before the days since onset of symptoms still sees them:
   * it receives the values in place at `build()`, and its result (or its
   * error) is what the key carries.
   */
  method BuildNormalized(
    data: seq<byte>, rollingStart: int32, riskLevel: int32, days: int32,
    normalizer: Normalizer, submittedAt: int64, nowEpochSeconds: int64)
    returns (key: Result<DiagnosisKey, NormalizationError>)
    ensures var outcome := normalizer(NormalizableFields(riskLevel, Some(days)));
      && (key.Failure? <==> outcome.Failure?)
      && (key.Failure? ==> key.error == outcome.error)
      && (key.Success? ==>
            && key.value.transmissionRiskLevel == outcome.value.transmissionRiskLevel
            && key.value.daysSinceOnsetOfSymptoms == outcome.value.daysSinceOnsetOfSymptoms
            && key.value.keyData == data
            && key.value.rollingStartIntervalNumber == rollingStart
            && key.value.submissionTimestamp == submittedAt)
  {
    var builder := new Builder();
    builder.WithKeyData(data);
    builder.WithRollingStartIntervalNumber(rollingStart);
    builder.WithTransmissionRiskLevel(riskLevel);
    ghost var chained := builder.Pending();
    builder.WithFieldNormalization(normalizer);
    builder.WithDaysSinceOnsetOfSymptoms(days);
    builder.WithSubmissionTimestamp(submittedAt);
    assert builder.Pending() == chained.(fieldNormalizer := Some(normalizer),
      daysSinceOnsetOfSymptoms := Some(days), submissionTimestamp := Some(submittedAt));
    key := builder.Build(nowEpochSeconds);
  }
}
