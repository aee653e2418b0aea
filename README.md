# Staged construction of a diagnosis key

This project models how a diagnosis key is built in the Corona-Warn-App server.
A diagnosis key is the record an exposure-notification backend stores and distributes:
key bytes, a rolling start interval number, a transmission risk level and optional metadata.
The four nested builder interfaces `Builder`, `RollingStartIntervalNumberBuilder`,
`TransmissionRiskLevelBuilder` and `FinalBuilder` give each call's result the type of the next stage,
so a call chain written against the returned interfaces follows this order:

- the base stage takes key data (and moves to the rolling-start stage), or one of two adapters
  that move straight to the final stage: a submitted temporary exposure key with side metadata,
  or a key received from a federation partner;
- the rolling start interval number, then the transmission risk level;
- any number of optional setters in any order, an optional field normaliser, and `build()`.

`build()` applies the normaliser (if one was given) to the values in place at that moment.
It then uses 144 (24 hours in 10-minute steps) as the rolling period when none was set,
and "now" in hours since the epoch as the submission timestamp when none was set.

The model has two layers.

- `BuilderProtocol` (builder_protocol.dfy) describes the protocol as values.
  `Stage` has one value per interface plus `Built` for a used-up builder.
  `Step` and `Setter` are the operations.
  `Draft` holds the fields given so far.
  `Apply` is the effect of one operation, `Replay` runs a call sequence, and `Assemble` is what `build()` returns.
  `BuilderProperties` (builder_properties.dfy) proves what the protocol guarantees over every call sequence.
- `DiagnosisKeyBuilder.Builder` (builder.dfy) is the mutable builder: a stage field and one field per value.
  Each method `requires` the stage whose interface declares it and `modifies this`.
  It `ensures` the stage it moves to, and that the new field values are those `Apply` gives.
  `Build` returns `Assemble` of the recorded values and leaves the builder `Built`.
  The client methods at the end of the file build keys through the three entry paths.
  They prove the promised outcomes from the class contracts alone.

Collaborators appear only through the shape the builder consumes.
The wire objects (ExternalProtocols) are reduced to the getters the builder reads.
The normaliser (Normalization) is any total function from the normalisable fields to new values or an error naming a field.
The clock is a parameter of `Build`, an int64 reading in epoch seconds.
`Clock.HoursSinceEpoch` turns it into hours. The interface says only "now" as hours since the epoch;
integer division by 3600, truncating toward zero, is this model's choice.
Java's `byte`, `int` and `long` are the bounded newtypes of JavaTypes.

Decisions where the interface file is silent:

- **Single use.** A builder is single-use: after `Build` its stage is `Built` and no operation is offered (`BuilderProperties.NothingAfterBuild`).
- **Normalisable fields.** The normaliser sees the transmission risk level and the days since onset of symptoms.
- **Adapters.** Both adapters record the wire object's key data, rolling start interval number, transmission risk level and rolling period.
  They record its report type and days since onset only when the object has them.
  The exposure-key adapter takes consent, origin country and visited countries from its parameters; the visited countries become a set.
  The federation adapter takes origin and visited countries from the federation object and leaves consent to federation as it was.

## Model

| member | source | states |
|---|---|---|
| DiagnosisKeyBuilder.Builder.constructor | common/persistence/src/main/java/app/coronawarn/server/common/persistence/domain/DiagnosisKeyBuilders.java:34-36 | a new builder is at the base stage with nothing recorded |
| DiagnosisKeyBuilder.Builder.WithKeyData | common/persistence/src/main/java/app/coronawarn/server/common/persistence/domain/DiagnosisKeyBuilders.java:38-44 | offered only at the base stage; records the key bytes, changes nothing else and moves to the rolling-start stage only |
| DiagnosisKeyBuilder.Builder.FromTemporaryExposureKeyAndMetadata | common/persistence/src/main/java/app/coronawarn/server/common/persistence/domain/DiagnosisKeyBuilders.java:54-65 | offered only at the base stage; records the wire key's fields and the visited countries, origin country and consent given, and moves straight to the final stage |
| DiagnosisKeyBuilder.Builder.FromFederationDiagnosisKey | common/persistence/src/main/java/app/coronawarn/server/common/persistence/domain/DiagnosisKeyBuilders.java:67-74 | offered only at the base stage; records the federation key's fields from that object alone and moves straight to the final stage |
| DiagnosisKeyBuilder.Builder.WithRollingStartIntervalNumber | common/persistence/src/main/java/app/coronawarn/server/common/persistence/domain/DiagnosisKeyBuilders.java:80-87 | offered only at the rolling-start stage; records the value and moves to the transmission-risk stage only |
| DiagnosisKeyBuilder.Builder.WithTransmissionRiskLevel | common/persistence/src/main/java/app/coronawarn/server/common/persistence/domain/DiagnosisKeyBuilders.java:92-98 | offered only at the transmission-risk stage; records the value and moves to the final stage |
| DiagnosisKeyBuilder.Builder.WithSubmissionTimestamp | common/persistence/src/main/java/app/coronawarn/server/common/persistence/domain/DiagnosisKeyBuilders.java:103-109 | a final-stage setter: records the hours since epoch, stays in the final stage, no other field changes |
| DiagnosisKeyBuilder.Builder.WithRollingPeriod | common/persistence/src/main/java/app/coronawarn/server/common/persistence/domain/DiagnosisKeyBuilders.java:111-119 | a final-stage setter: records the rolling period, stays in the final stage, no other field changes |
| DiagnosisKeyBuilder.Builder.WithConsentToFederation | common/persistence/src/main/java/app/coronawarn/server/common/persistence/domain/DiagnosisKeyBuilders.java:121 | a final-stage setter of the consent flag, no other field changes |
| DiagnosisKeyBuilder.Builder.WithCountryCode | common/persistence/src/main/java/app/coronawarn/server/common/persistence/domain/DiagnosisKeyBuilders.java:123 | a final-stage setter of the origin country, no other field changes |
| DiagnosisKeyBuilder.Builder.WithVisitedCountries | common/persistence/src/main/java/app/coronawarn/server/common/persistence/domain/DiagnosisKeyBuilders.java:125 | a final-stage setter of the visited countries, no other field changes |
| DiagnosisKeyBuilder.Builder.WithReportType | common/persistence/src/main/java/app/coronawarn/server/common/persistence/domain/DiagnosisKeyBuilders.java:127 | a final-stage setter of the report type, no other field changes |
| DiagnosisKeyBuilder.Builder.WithDaysSinceOnsetOfSymptoms | common/persistence/src/main/java/app/coronawarn/server/common/persistence/domain/DiagnosisKeyBuilders.java:129 | a final-stage setter of the days since onset of symptoms, no other field changes |
| DiagnosisKeyBuilder.Builder.WithMobileTestId | common/persistence/src/main/java/app/coronawarn/server/common/persistence/domain/DiagnosisKeyBuilders.java:131-137 | a final-stage setter of the mobile test id, no other field changes |
| DiagnosisKeyBuilder.Builder.WithMobileTestId2 | common/persistence/src/main/java/app/coronawarn/server/common/persistence/domain/DiagnosisKeyBuilders.java:139-145 | a final-stage setter of the second mobile test id, no other field changes |
| DiagnosisKeyBuilder.Builder.WithDatePatientInfectious | common/persistence/src/main/java/app/coronawarn/server/common/persistence/domain/DiagnosisKeyBuilders.java:147-153 | a final-stage setter of the date the patient became infectious, no other field changes |
| DiagnosisKeyBuilder.Builder.WithDateTestCommunicated | common/persistence/src/main/java/app/coronawarn/server/common/persistence/domain/DiagnosisKeyBuilders.java:155-161 | a final-stage setter of the date the test was communicated, no other field changes |
| DiagnosisKeyBuilder.Builder.WithResultChannel | common/persistence/src/main/java/app/coronawarn/server/common/persistence/domain/DiagnosisKeyBuilders.java:163-169 | a final-stage setter of the result channel, no other field changes |
| DiagnosisKeyBuilder.Builder.WithVerified | common/persistence/src/main/java/app/coronawarn/server/common/persistence/domain/DiagnosisKeyBuilders.java:171-177 | a final-stage setter of the verified flag, no other field changes |
| DiagnosisKeyBuilder.Builder.WithFieldNormalization | common/persistence/src/main/java/app/coronawarn/server/common/persistence/domain/DiagnosisKeyBuilders.java:179-183 | stores the normaliser without applying it; no other field changes |
| DiagnosisKeyBuilder.Builder.Build | common/persistence/src/main/java/app/coronawarn/server/common/persistence/domain/DiagnosisKeyBuilders.java:185-189 | offered only at the final stage; returns the key `Assemble` gives for the recorded values and the clock reading, and uses the builder up |
| BuilderProtocol.StageOf | common/persistence/src/main/java/app/coronawarn/server/common/persistence/domain/DiagnosisKeyBuilders.java:36-101 | every operation belongs to exactly one of the four interfaces, never to a used-up builder; the final interface declares exactly the optional setters |
| BuilderProtocol.CountrySet | common/persistence/src/main/java/app/coronawarn/server/common/persistence/domain/DiagnosisKeyBuilders.java:64-65 | the submitted list of visited countries becomes a set with exactly the countries of the list |
| BuilderProtocol.WithWireFields | common/persistence/src/main/java/app/coronawarn/server/common/persistence/domain/DiagnosisKeyBuilders.java:54-74 | an adapter records the mandatory fields and the rolling period, and the report type and days since onset when present; all other fields stay as they were |
| BuilderProtocol.Normalized | common/persistence/src/main/java/app/coronawarn/server/common/persistence/domain/DiagnosisKeyBuilders.java:179-183 | only a normaliser can make normalisation fail; without one the result is a success holding exactly the risk level and days since onset that were set; a normaliser receives those two values as set, with no default filled in for an absent days since onset |
| BuilderProtocol.Assemble | common/persistence/src/main/java/app/coronawarn/server/common/persistence/domain/DiagnosisKeyBuilders.java:111-189 | build fails exactly when the normaliser fails, with its error; otherwise key data and rolling start as given, the normalised risk level and days since onset, rolling period 144 unless one was set, submission timestamp "now" unless one was set, every other field as given |
| Clock.HoursSinceEpoch | common/persistence/src/main/java/app/coronawarn/server/common/persistence/domain/DiagnosisKeyBuilders.java:185-187 | "now" in hours since epoch is the hour whose interval contains the clock reading (truncation toward zero) |
| BuilderProperties.StagesReached | common/persistence/src/main/java/app/coronawarn/server/common/persistence/domain/DiagnosisKeyBuilders.java:36-101 | from the base stage: still base iff no call; rolling-start iff exactly withKeyData; transmission-risk iff withKeyData then withRollingStartIntervalNumber; final (where build is) iff the sequence is one of the accepted entry paths followed by optional setters; never used up |
| BuilderProperties.OptionalRun | common/persistence/src/main/java/app/coronawarn/server/common/persistence/domain/DiagnosisKeyBuilders.java:101-183 | from the final stage, a call sequence is offered iff it consists of optional setters, and it stays in the final stage |
| BuilderProperties.ReplayConsistent | common/persistence/src/main/java/app/coronawarn/server/common/persistence/domain/DiagnosisKeyBuilders.java:36-101 | every stage reached holds the mandatory fields the previous stages supplied |
| BuilderProperties.NothingAfterBuild | common/persistence/src/main/java/app/coronawarn/server/common/persistence/domain/DiagnosisKeyBuilders.java:185-189 | a used-up builder offers no operation |
| BuilderProperties.SetterKeepsMandatory | common/persistence/src/main/java/app/coronawarn/server/common/persistence/domain/DiagnosisKeyBuilders.java:101-183 | an optional setter never changes key data, rolling start or risk level |
| BuilderProperties.SetterFrame | common/persistence/src/main/java/app/coronawarn/server/common/persistence/domain/DiagnosisKeyBuilders.java:103-183 | an optional setter changes no field but its own |
| BuilderProperties.SettersCommute | common/persistence/src/main/java/app/coronawarn/server/common/persistence/domain/DiagnosisKeyBuilders.java:103-183 | setters of different fields give the same builder in either order |
| BuilderProperties.LastSetterWins | common/persistence/src/main/java/app/coronawarn/server/common/persistence/domain/DiagnosisKeyBuilders.java:103-183 | of two calls of the same setter the later value is kept |
| BuilderProperties.OptionalRunFrame | common/persistence/src/main/java/app/coronawarn/server/common/persistence/domain/DiagnosisKeyBuilders.java:103-183 | a run of setters keeps every field none of them names |
| BuilderProperties.NormalizerActsAfterAllSetters | common/persistence/src/main/java/app/coronawarn/server/common/persistence/domain/DiagnosisKeyBuilders.java:179-183 | a normaliser given before some setters gives the same builder as one given after all of them, so normalisation sees all values |
| BuilderProperties.BuiltFrom | common/persistence/src/main/java/app/coronawarn/server/common/persistence/domain/DiagnosisKeyBuilders.java:185-189 | along every accepted call sequence build is reachable with all mandatory fields present |
| BuilderProperties.DirectChainKeepsMandatory | common/persistence/src/main/java/app/coronawarn/server/common/persistence/domain/DiagnosisKeyBuilders.java:44-98 | a key built through withKeyData, withRollingStartIntervalNumber, withTransmissionRiskLevel carries the key data and rolling start as supplied, and the risk level too when no normaliser was set |
| BuilderProperties.TemporaryExposureKeyPath | common/persistence/src/main/java/app/coronawarn/server/common/persistence/domain/DiagnosisKeyBuilders.java:54-65 | a key built through the exposure-key adapter carries the wire key's mandatory fields and, unless later setters overwrite them, the visited countries, origin country and consent given |
| BuilderProperties.FederationDiagnosisKeyPath | common/persistence/src/main/java/app/coronawarn/server/common/persistence/domain/DiagnosisKeyBuilders.java:67-74 | a key built through the federation adapter carries the federation key's mandatory fields and, unless later setters overwrite them, its origin and visited countries |
| DiagnosisKeyBuilder.BuildFromFields | common/persistence/src/main/java/app/coronawarn/server/common/persistence/domain/DiagnosisKeyBuilders.java:38-119 | the three mandatory calls then build: values as supplied, rolling period 144, submission timestamp "now", every other field absent or false |
| DiagnosisKeyBuilder.BuildFromTemporaryExposureKey | common/persistence/src/main/java/app/coronawarn/server/common/persistence/domain/DiagnosisKeyBuilders.java:54-65 | the exposure-key adapter then build: the wire key's fields, the side metadata as given, submission timestamp "now" |
| DiagnosisKeyBuilder.BuildFromFederationDiagnosisKey | common/persistence/src/main/java/app/coronawarn/server/common/persistence/domain/DiagnosisKeyBuilders.java:67-74 | the federation adapter then build: every field from the federation object, submission timestamp "now" |
| DiagnosisKeyBuilder.BuildNormalized | common/persistence/src/main/java/app/coronawarn/server/common/persistence/domain/DiagnosisKeyBuilders.java:179-183 | a normaliser given before the days since onset still receives them; the key carries its result, or build fails with its error |

## Left out

- Chained returns: each Java `with…` method returns `this`. The model's methods change the one builder and return nothing, so a chain is a sequence of calls on the same object.
- Calls through an older reference: every `with…`/`from…` method returns the same builder instance, so Java also compiles a call made through a reference kept from an earlier stage, such as `withKeyData` after `withTransmissionRiskLevel`, or a second `build()`. The model enforces the stage order on the builder object, not per reference; such calls are not offered, and what they do in the implementation is not modelled.
- The meaning of the rolling start interval number (start of the key in epoch seconds divided by 600, lines 83-84) is the caller's concern. The builder records the number it is given; the model does not derive it from a time.
- Null arguments: Java permits null for `Integer`, `String`, `Set`, `LocalDate` and `byte[]` parameters. Every model setter receives a value; "not set" is a field never written.
- The implementing class DiagnosisKeyBuilder is not part of this model. Which fields the adapters copy is this model's own decision (listed above); the interface's documentation names no fields. Any validation the key's own constructor performs is not modelled either.
- The wire objects' protocol-buffer internals (byte strings, presence bits beyond the two optional fields) are reduced to plain getters.
- The normaliser's internal logic is opaque. An exception it would throw is modelled as a `Failure` naming the field.
- The wall clock is the `nowEpochSeconds` parameter of `Build`.
- `LocalDate` is opaque: only stored and copied, with no calendar semantics. Key bytes are not validated.
- The commented-out `fromProtoBuf` (lines 46-52) is not an operation and is not modelled.
- YAML loading in the distribution service's tests and the submission service's web-security configuration are outside this model.
- Concurrency is not modelled: a builder is used by one caller at a time.
