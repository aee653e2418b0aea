/**
 * The wire objects a diagnosis key can be built from. They are protocol-buffer
 * messages whose internals are not part of this model: each is reduced to the
 * read-only getters the builder consumes.
 */
module ExternalProtocols {
  import opened Wrappers
  import opened JavaTypes

  /** Classification of the test or report behind a key. */
  datatype ReportType =
    | Unknown
    | ConfirmedTest
    | ConfirmedClinicalDiagnosis
    | SelfReport
    | Recursive
    | Revoked

  /** A temporary exposure key as submitted by a mobile client. */
  datatype TemporaryExposureKey = TemporaryExposureKey(
    keyData: seq<byte>,
    rollingStartIntervalNumber: int32,
    transmissionRiskLevel: int32,
    rollingPeriod: int32,
    reportType: Option<ReportType>,
    daysSinceOnsetOfSymptoms: Option<int32>)

  /** A diagnosis key as received from a federation partner server. */
  datatype FederationDiagnosisKey = FederationDiagnosisKey(
    keyData: seq<byte>,
    rollingStartIntervalNumber: int32,
    transmissionRiskLevel: int32,
    rollingPeriod: int32,
    origin: string,
    visitedCountries: seq<string>,
    reportType: Option<ReportType>,
    daysSinceOnsetOfSymptoms: Option<int32>)
}
