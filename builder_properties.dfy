/** What the staged protocol guarantees, proved over every call sequence. */
module BuilderProperties {
  import opened Wrappers
  import opened JavaTypes
  import opened ExternalProtocols
  import opened Normalization
  import opened DiagnosisKeys
  import opened BuilderProtocol

  /** `d1` and `d2` hold the same value in optional field `f`. */
  ghost predicate SameOn(f: Field, d1: Draft, d2: Draft) {
    match f
    case SubmissionTimestamp => d1.submissionTimestamp == d2.submissionTimestamp
    case RollingPeriod => d1.rollingPeriod == d2.rollingPeriod
    case ConsentToFederation => d1.consentToFederation == d2.consentToFederation
    case CountryCode => d1.countryCode == d2.countryCode
    case VisitedCountries => d1.visitedCountries == d2.visitedCountries
    case ReportTypeField => d1.reportType == d2.reportType
    case DaysSinceOnsetOfSymptoms => d1.daysSinceOnsetOfSymptoms == d2.daysSinceOnsetOfSymptoms
    case MobileTestId => d1.mobileTestId == d2.mobileTestId
    case MobileTestId2 => d1.mobileTestId2 == d2.mobileTestId2
    case DatePatientInfectious => d1.datePatientInfectious == d2.datePatientInfectious
    case DateTestCommunicated => d1.dateTestCommunicated == d2.dateTestCommunicated
    case ResultChannel => d1.resultChannel == d2.resultChannel
    case Verified => d1.verified == d2.verified
    case FieldNormalizer => d1.fieldNormalizer == d2.fieldNormalizer
  }

  /** `d1` and `d2` hold the same mandatory fields. */
  predicate SameMandatory(d1: Draft, d2: Draft) {
    && d1.keyData == d2.keyData
    && d1.rollingStartIntervalNumber == d2.rollingStartIntervalNumber
    && d1.transmissionRiskLevel == d2.transmissionRiskLevel
  }

  /** No step of the run is a setter of a field in `fields`. */
  predicate Untouched(steps: seq<Step>, fields: set<Field>)
    requires AllOptional(steps)
  {
    forall i :: 0 <= i < |steps| ==> FieldOf(steps[i].setter) !in fields
  }

  /** An optional setter keeps the mandatory fields. */
  lemma SetterKeepsMandatory(d: Draft, s: Setter)
    ensures SameMandatory(d, ApplySetter(d, s))
  {
  }

  /** An optional setter changes only the field it names. */
  lemma SetterFrame(d: Draft, s: Setter, f: Field)
    requires f != FieldOf(s)
    ensures SameOn(f, d, ApplySetter(d, s))
  {
  }

  /** Setters of different fields can be called in either order. */
  lemma SettersCommute(d: Draft, a: Setter, b: Setter)
    requires FieldOf(a) != FieldOf(b)
    ensures ApplySetter(ApplySetter(d, a), b) == ApplySetter(ApplySetter(d, b), a)
  {
  }

  /** Of two setters of the same field, the later one wins. */
  lemma LastSetterWins(d: Draft, a: Setter, b: Setter)
    requires FieldOf(a) == FieldOf(b)
    ensures ApplySetter(ApplySetter(d, a), b) == ApplySetter(d, b)
  {
  }

  /** From `FinalBuilder`, a run is offered exactly when it consists of optional setters, and it stays there. */
  lemma {:induction false} OptionalRun(d: Draft, steps: seq<Step>)
    ensures Replay(Final, d, steps).Some? <==> AllOptional(steps)
    ensures Replay(Final, d, steps).Some? ==> Replay(Final, d, steps).value.stage == Final
    decreases |steps|
  {
    if steps != [] {
      if steps[0].Optional? {
        OptionalRun(Apply(d, steps[0]), steps[1..]);
        assert AllOptional(steps) <==> AllOptional(steps[1..]) by {
          if AllOptional(steps[1..]) {
            forall i | 0 <= i < |steps| ensures steps[i].Optional? {
              if i > 0 { assert steps[i] == steps[1..][i - 1]; }
            }
          }
        }
      } else {
        assert !AllOptional(steps);
      }
    }
  }

  /** A run of optional setters keeps the mandatory fields. */
  lemma {:induction false} OptionalRunKeepsMandatory(d: Draft, steps: seq<Step>)
    requires AllOptional(steps)
    ensures Replay(Final, d, steps).Some?
    ensures SameMandatory(d, Replay(Final, d, steps).value.draft)
    decreases |steps|
  {
    OptionalRun(d, steps);
    if steps != [] {
      SetterKeepsMandatory(d, steps[0].setter);
      assert AllOptional(steps[1..]) by {
        forall i | 0 <= i < |steps| - 1 ensures steps[1..][i].Optional? { assert steps[1..][i] == steps[i + 1]; }
      }
      OptionalRunKeepsMandatory(Apply(d, steps[0]), steps[1..]);
    }
  }

  /** A run of optional setters keeps every field none of them names. */
  lemma {:induction false} OptionalRunFrame(d: Draft, steps: seq<Step>, f: Field)
    requires AllOptional(steps) && Untouched(steps, {f})
    ensures Replay(Final, d, steps).Some?
    ensures SameOn(f, d, Replay(Final, d, steps).value.draft)
    decreases |steps|
  {
    OptionalRun(d, steps);
    if steps != [] {
      var tail := steps[1..];
      assert AllOptional(tail) && Untouched(tail, {f}) by {
        forall i | 0 <= i < |tail| ensures tail[i].Optional? && FieldOf(tail[i].setter) !in {f} {
          assert tail[i] == steps[i + 1];
        }
      }
      assert FieldOf(steps[0].setter) !in {f};
      SetterFrame(d, steps[0].setter, f);
      OptionalRunFrame(Apply(d, steps[0]), tail, f);
    }
  }

  /** No builder operation is offered once `build()` has run. */
  lemma NothingAfterBuild(d: Draft, steps: seq<Step>)
    requires steps != []
    ensures Replay(Built, d, steps).None?
  {
  }

  /**
   * The stage machine: from `Builder`, the stage reached says exactly which
   * calls were made, so `build()` is reachable only along `Accepted` sequences
   * and no stage can be skipped.
   */
  lemma {:induction false} StagesReached(d: Draft, steps: seq<Step>)
    ensures var p := Replay(Base, d, steps);
      && (p.Some? && p.value.stage == Base <==> steps == [])
      && (p.Some? && p.value.stage == RollingStart <==> |steps| == 1 && steps[0].WithKeyData?)
      && (p.Some? && p.value.stage == TransmissionRisk <==>
            |steps| == 2 && steps[0].WithKeyData? && steps[1].WithRollingStartIntervalNumber?)
      && (p.Some? && p.value.stage == Final <==> Accepted(steps))
      && (p.Some? ==> p.value.stage != Built)
  {
    var p := Replay(Base, d, steps);
    if steps == [] {
    } else if StageOf(steps[0]) != Base {
      assert p.None?;
    } else if !steps[0].WithKeyData? {
      var d1 := Apply(d, steps[0]);
      assert p == Replay(Final, d1, steps[1..]);
      OptionalRun(d1, steps[1..]);
    } else {
      var d1, s1 := Apply(d, steps[0]), steps[1..];
      assert p == Replay(RollingStart, d1, s1);
      if s1 != [] && s1[0].WithRollingStartIntervalNumber? {
        var d2, s2 := Apply(d1, s1[0]), s1[1..];
        assert p == Replay(TransmissionRisk, d2, s2);
        if s2 != [] && s2[0].WithTransmissionRiskLevel? {
          var d3 := Apply(d2, s2[0]);
          assert s2[1..] == steps[3..];
          assert p == Replay(Final, d3, steps[3..]);
          OptionalRun(d3, steps[3..]);
        } else if s2 != [] {
          assert p.None?;
        }
      } else if s1 != [] {
        assert p.None?;
      }
    }
  }

  /** Every stage reached from a blank builder holds the mandatory fields that stage needs. */
  lemma {:induction false} ReplayConsistent(stage: Stage, d: Draft, steps: seq<Step>)
    requires Consistent(stage, d)
    ensures Replay(stage, d, steps).Some? ==>
      Consistent(Replay(stage, d, steps).value.stage, Replay(stage, d, steps).value.draft)
    decreases |steps|
  {
    if steps != [] && StageOf(steps[0]) == stage {
      if steps[0].Optional? { SetterKeepsMandatory(d, steps[0].setter); }
      assert Replay(stage, d, steps) == Replay(Target(steps[0]), Apply(d, steps[0]), steps[1..]);
      ReplayConsistent(Target(steps[0]), Apply(d, steps[0]), steps[1..]);
    }
  }

  /** Running two consecutive pieces of a call sequence is running the whole. */
  lemma {:induction false} ReplayAppend(stage: Stage, d: Draft, s1: seq<Step>, s2: seq<Step>)
    requires Replay(stage, d, s1).Some?
    ensures var p := Replay(stage, d, s1).value;
      Replay(stage, d, s1 + s2) == Replay(p.stage, p.draft, s2)
    decreases |s1|
  {
    if s1 == [] {
      assert s1 + s2 == s2;
    } else {
      assert (s1 + s2)[0] == s1[0] && (s1 + s2)[1..] == s1[1..] + s2;
      ReplayAppend(Target(s1[0]), Apply(d, s1[0]), s1[1..], s2);
    }
  }

  /** An optional setter can be moved past any run of setters that do not write its field. */
  lemma {:induction false} SetterMovesLast(d: Draft, x: Setter, steps: seq<Step>)
    requires AllOptional(steps) && Untouched(steps, {FieldOf(x)})
    ensures Replay(Final, d, [Optional(x)] + steps) == Replay(Final, d, steps + [Optional(x)])
    decreases |steps|
  {
    if steps == [] {
    } else {
      var y := steps[0].setter;
      var tail := steps[1..];
      assert AllOptional(tail) && Untouched(tail, {FieldOf(x)}) by {
        forall i | 0 <= i < |tail| ensures tail[i].Optional? && FieldOf(tail[i].setter) !in {FieldOf(x)} {
          assert tail[i] == steps[i + 1];
        }
      }
      assert FieldOf(y) != FieldOf(x) by { assert FieldOf(steps[0].setter) !in {FieldOf(x)}; }
      SettersCommute(d, x, y);
      calc {
        Replay(Final, d, [Optional(x)] + steps);
      == { assert ([Optional(x)] + steps)[1..] == steps; }
        Replay(Final, ApplySetter(d, x), steps);
      == { assert steps[1..] == tail; }
        Replay(Final, ApplySetter(ApplySetter(d, x), y), tail);
      == 
        Replay(Final, ApplySetter(ApplySetter(d, y), x), tail);
      == { assert ([Optional(x)] + tail)[1..] == tail; }
        Replay(Final, ApplySetter(d, y), [Optional(x)] + tail);
      == { SetterMovesLast(ApplySetter(d, y), x, tail); }
        Replay(Final, ApplySetter(d, y), tail + [Optional(x)]);
      == { assert (steps + [Optional(x)])[1..] == tail + [Optional(x)]; }
        Replay(Final, d, steps + [Optional(x)]);
      }
    }
  }

  /**
   * Normalisation applies to the values in place when `build()` runs, whenever
   * `withFieldNormalization` was called: a normaliser given before some setters
   * acts as one given after all of them.
   */
  lemma NormalizerActsAfterAllSetters(d: Draft, before: seq<Step>, n: Normalizer, after: seq<Step>)
    requires AllOptional(before) && AllOptional(after) && Untouched(after, {FieldNormalizer})
    ensures Replay(Final, d, before + [Optional(WithFieldNormalization(n))] + after)
         == Replay(Final, d, before + after + [Optional(WithFieldNormalization(n))])
  {
    var x := Optional(WithFieldNormalization(n));
    OptionalRun(d, before);
    var mid := Replay(Final, d, before).value;
    ReplayAppend(Final, d, before, [x] + after);
    ReplayAppend(Final, d, before, after + [x]);
    SetterMovesLast(mid.draft, WithFieldNormalization(n), after);
    assert before + [x] + after == before + ([x] + after);
    assert before + after + [x] == before + (after + [x]);
  }

  /** The key built from a blank builder after `steps`, when `build()` is reachable. */
  function BuiltFrom(steps: seq<Step>, nowEpochSeconds: int64): (r: Result<DiagnosisKey, NormalizationError>)
    requires Accepted(steps)
    ensures Replay(Base, Blank, steps).Some? && Replay(Base, Blank, steps).value.stage == Final
    ensures Complete(Replay(Base, Blank, steps).value.draft)
    ensures r == Assemble(Replay(Base, Blank, steps).value.draft, nowEpochSeconds)
  {
    StagesReached(Blank, steps);
    ReplayConsistent(Base, Blank, steps);
    Assemble(Replay(Base, Blank, steps).value.draft, nowEpochSeconds)
  }

  /**
   * Field by field: key data, rolling start interval number and transmission
   * risk level carry exactly the supplied values, and the risk level too when
   * no normaliser was set.
   */
  lemma DirectChainKeepsMandatory(
    keyData: seq<byte>, rollingStart: int32, riskLevel: int32, rest: seq<Step>, nowEpochSeconds: int64)
    requires AllOptional(rest)
    ensures var steps := [WithKeyData(keyData), WithRollingStartIntervalNumber(rollingStart),
                          WithTransmissionRiskLevel(riskLevel)] + rest;
      && Accepted(steps)
      && var r := BuiltFrom(steps, nowEpochSeconds);
      && (r.Success? ==> r.value.keyData == keyData && r.value.rollingStartIntervalNumber == rollingStart)
      && (Untouched(rest, {FieldNormalizer}) ==> r.Success? && r.value.transmissionRiskLevel == riskLevel)
  {
    var head := [WithKeyData(keyData), WithRollingStartIntervalNumber(rollingStart),
                 WithTransmissionRiskLevel(riskLevel)];
    var steps := head + rest;
    var d3 := Blank.(keyData := Some(keyData), rollingStartIntervalNumber := Some(rollingStart),
                     transmissionRiskLevel := Some(riskLevel));
    assert Replay(Base, Blank, head) == Some(Progress(Final, d3)) by {
      var d1 := Apply(Blank, head[0]);
      var d2 := Apply(d1, head[1]);
      assert head[1..][0] == head[1] && head[1..][1..][0] == head[2] && head[1..][1..][1..] == [];
      assert Replay(Base, Blank, head) == Replay(RollingStart, d1, head[1..]);
      assert Replay(RollingStart, d1, head[1..]) == Replay(TransmissionRisk, d2, head[1..][1..]);
      assert Replay(TransmissionRisk, d2, head[1..][1..]) == Replay(Final, Apply(d2, head[2]), []);
    }
    assert steps[3..] == rest;
    ReplayAppend(Base, Blank, head, rest);
    OptionalRunKeepsMandatory(d3, rest);
    if Untouched(rest, {FieldNormalizer}) {
      OptionalRunFrame(d3, rest, FieldNormalizer);
    }
  }

  /**
   * A key built through `fromTemporaryExposureKeyAndMetadata` carries the wire
   * key's mandatory fields and, unless later setters overwrite them, the given
   * visited countries, origin country and consent.
   */
  lemma TemporaryExposureKeyPath(
    tek: TemporaryExposureKey, visited: seq<string>, origin: string, consent: bool,
    rest: seq<Step>, nowEpochSeconds: int64)
    requires AllOptional(rest)
    ensures var steps := [FromTemporaryExposureKeyAndMetadata(tek, visited, origin, consent)] + rest;
      && Accepted(steps)
      && var r := BuiltFrom(steps, nowEpochSeconds);
      && (r.Success? ==>
            r.value.keyData == tek.keyData && r.value.rollingStartIntervalNumber == tek.rollingStartIntervalNumber)
      && (Untouched(rest, {FieldNormalizer}) ==>
            r.Success? && r.value.transmissionRiskLevel == tek.transmissionRiskLevel)
      && (r.Success? && Untouched(rest, {VisitedCountries}) ==>
            forall c :: c in r.value.visitedCountries <==> c in visited)
      && (r.Success? && Untouched(rest, {CountryCode}) ==> r.value.countryCode == Some(origin))
      && (r.Success? && Untouched(rest, {ConsentToFederation}) ==> r.value.consentToFederation == consent)
  {
    var head := [FromTemporaryExposureKeyAndMetadata(tek, visited, origin, consent)];
    var steps := head + rest;
    assert steps[1..] == rest;
    var d1 := Apply(Blank, head[0]);
    ReplayAppend(Base, Blank, head, rest);
    OptionalRunKeepsMandatory(d1, rest);
    if Untouched(rest, {FieldNormalizer}) { OptionalRunFrame(d1, rest, FieldNormalizer); }
    if Untouched(rest, {VisitedCountries}) { OptionalRunFrame(d1, rest, VisitedCountries); }
    if Untouched(rest, {CountryCode}) { OptionalRunFrame(d1, rest, CountryCode); }
    if Untouched(rest, {ConsentToFederation}) { OptionalRunFrame(d1, rest, ConsentToFederation); }
  }

  /**
   * A key built through `fromFederationDiagnosisKey` takes its mandatory fields
   * and, unless later setters overwrite them, its origin and visited countries
   * from the federation object alone.
   */
  lemma FederationDiagnosisKeyPath(fed: FederationDiagnosisKey, rest: seq<Step>, nowEpochSeconds: int64)
    requires AllOptional(rest)
    ensures var steps := [FromFederationDiagnosisKey(fed)] + rest;
      && Accepted(steps)
      && var r := BuiltFrom(steps, nowEpochSeconds);
      && (r.Success? ==>
            r.value.keyData == fed.keyData && r.value.rollingStartIntervalNumber == fed.rollingStartIntervalNumber)
      && (Untouched(rest, {FieldNormalizer}) ==>
            r.Success? && r.value.transmissionRiskLevel == fed.transmissionRiskLevel)
      && (r.Success? && Untouched(rest, {VisitedCountries}) ==>
            forall c :: c in r.value.visitedCountries <==> c in fed.visitedCountries)
      && (r.Success? && Untouched(rest, {CountryCode}) ==> r.value.countryCode == Some(fed.origin))
  {
    var head := [FromFederationDiagnosisKey(fed)];
    var steps := head + rest;
    assert steps[1..] == rest;
    var d1 := Apply(Blank, head[0]);
    ReplayAppend(Base, Blank, head, rest);
    OptionalRunKeepsMandatory(d1, rest);
    if Untouched(rest, {FieldNormalizer}) { OptionalRunFrame(d1, rest, FieldNormalizer); }
    if Untouched(rest, {VisitedCountries}) { OptionalRunFrame(d1, rest, VisitedCountries); }
    if Untouched(rest, {CountryCode}) { OptionalRunFrame(d1, rest, CountryCode); }
  }
}
