/**
 * The pluggable field normaliser. Its logic is not part of this model: a
 * normaliser is any total function from the normalisable fields to either
 * their normalised values or an error naming the field it could not handle.
 */
module Normalization {
  import opened Wrappers
  import opened JavaTypes

  /** The fields a normaliser sees and may replace. */
  datatype NormalizableFields = NormalizableFields(
    transmissionRiskLevel: int32,
    daysSinceOnsetOfSymptoms: Option<int32>)

  datatype NormalizableField = TransmissionRiskLevelField | DaysSinceOnsetOfSymptomsField

  datatype NormalizationError = CannotNormalize(field: NormalizableField)

  type Normalizer = NormalizableFields -> Result<NormalizableFields, NormalizationError>
}
