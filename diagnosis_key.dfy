/** The immutable diagnosis key that `build()` produces. */
module DiagnosisKeys {
  import opened Wrappers
  import opened JavaTypes
  import opened ExternalProtocols

  /** The rolling period of a key valid for 24 hours, in 10-minute increments. */
  const ExpectedRollingPeriod: int32 := 144

  datatype DiagnosisKey = DiagnosisKey(
    keyData: seq<byte>,
    rollingStartIntervalNumber: int32,
    transmissionRiskLevel: int32,
    rollingPeriod: int32,
    submissionTimestamp: int64,
    consentToFederation: bool,
    countryCode: Option<string>,
    visitedCountries: set<string>,
    reportType: Option<ReportType>,
    daysSinceOnsetOfSymptoms: Option<int32>,
    mobileTestId: Option<string>,
    mobileTestId2: Option<string>,
    datePatientInfectious: Option<LocalDate>,
    dateTestCommunicated: Option<LocalDate>,
    resultChannel: Option<int32>,
    verified: bool)
}
