/** Infrastructure errors raised on detectors
    (editoast/src/generated_data/error/detectors.rs): a detector whose track
    section does not exist, and a detector placed outside its track section.

    Positions and lengths are `f64` in the source; here they are reals, with
    no rounding. The detectors of the infrastructure cache are a hash map whose
    iteration order is not specified; here they are a sequence in that order. */
module Detectors {

  datatype ObjectType = TrackSection | Detector

  datatype ObjectRef = ObjectRef(objType: ObjectType, objId: string)

  datatype InfraErrorType =
    | InvalidReference(reference: ObjectRef)
    | OutOfRange(position: real, low: real, high: real)

  /** An error: the object it is about, the offending field, and its kind. */
  datatype InfraError = InfraError(obj: ObjectRef, field: string, subtype: InfraErrorType)

  datatype DetectorCache = DetectorCache(objId: string, track: string, position: real)

  datatype TrackSectionCache = TrackSectionCache(objId: string, length: real)

  datatype InfraCache = InfraCache(detectors: seq<DetectorCache>, trackSections: map<string, TrackSectionCache>)

  function NewInvalidReference(d: DetectorCache, field: string, reference: ObjectRef): InfraError {
    InfraError(ObjectRef(Detector, d.objId), field, InvalidReference(reference))
  }

  function NewOutOfRange(d: DetectorCache, field: string, position: real, low: real, high: real): InfraError {
    InfraError(ObjectRef(Detector, d.objId), field, OutOfRange(position, low, high))
  }

  /** The detector's track section is not in the cache. */
  predicate Dangling(d: DetectorCache, infra: InfraCache) {
    d.track !in infra.trackSections
  }

  /** The detector lies outside the closed range [0, length] of its track. */
  predicate OutsideTrack(d: DetectorCache, infra: InfraCache)
    requires !Dangling(d, infra)
  {
    !(0.0 <= d.position <= infra.trackSections[d.track].length)
  }

  /** The error reported for a dangling detector. */
  function InvalidRefError(d: DetectorCache): InfraError {
    NewInvalidReference(d, "track", ObjectRef(TrackSection, d.track))
  }

  /** The error reported for a detector outside its track. */
  function OutOfRangeError(d: DetectorCache, infra: InfraCache): InfraError
    requires !Dangling(d, infra)
  {
    NewOutOfRange(d, "position", d.position, 0.0, infra.trackSections[d.track].length)
  }

  /** One error exactly when the track section is missing, none otherwise. */
  function CheckInvalidRef(d: DetectorCache, infra: InfraCache): (r: seq<InfraError>)
    ensures |r| <= 1
    ensures r != [] <==> d.track !in infra.trackSections
    ensures r != [] ==> r[0].obj == ObjectRef(Detector, d.objId) && r[0].field == "track"
                        && r[0].subtype == InvalidReference(ObjectRef(TrackSection, d.track))
  {
    if d.track !in infra.trackSections then [InvalidRefError(d)] else []
  }

  /** One error exactly when the position is below 0 or beyond the track's
      length; both ends are accepted. The lookup of the track is unwrapped in
      the source, so the track must exist. */
  function CheckOutOfRange(d: DetectorCache, infra: InfraCache): (r: seq<InfraError>)
    requires d.track in infra.trackSections
    ensures |r| <= 1
    ensures r != [] <==> (d.position < 0.0 || d.position > infra.trackSections[d.track].length)
    ensures r != [] ==> r[0].obj == ObjectRef(Detector, d.objId) && r[0].field == "position"
                        && r[0].subtype == OutOfRange(d.position, 0.0, infra.trackSections[d.track].length)
  {
    var length := infra.trackSections[d.track].length;
    if !(0.0 <= d.position <= length) then [OutOfRangeError(d, infra)] else []
  }

  // ---------------------------------------------------------------------------
  // The generator as written: both checks on every detector

  /** The generators applied to each detector, in order. */
  datatype DetectorCheck = InvalidRefCheck | OutOfRangeCheck

  const DetectorChecks: seq<DetectorCheck> := [InvalidRefCheck, OutOfRangeCheck]

  /** A run of the generator either completes or panics on an `unwrap`. */
  datatype Generated = Completed(errors: seq<InfraError>) | Panicked

  predicate SomeDangling(ds: seq<DetectorCache>, infra: InfraCache) {
    exists d :: d in ds && Dangling(d, infra)
  }

  /** What both checks report on one detector whose track exists. */
  function BothChecks(d: DetectorCache, infra: InfraCache): seq<InfraError>
    requires !Dangling(d, infra)
  {
    CheckInvalidRef(d, infra) + CheckOutOfRange(d, infra)
  }

  /** The concatenation, detector by detector, of both checks' outputs. */
  function AllErrors(ds: seq<DetectorCache>, infra: InfraCache): seq<InfraError>
    requires !SomeDangling(ds, infra)
  {
    if ds == [] then []
    else AllErrors(ds[..|ds| - 1], infra) + BothChecks(ds[|ds| - 1], infra)
  }

  /** The outcome of `generate_errors` as written. */
  function GenerateErrorsAsWritten(infra: InfraCache): Generated {
    if SomeDangling(infra.detectors, infra) then Panicked
    else Completed(AllErrors(infra.detectors, infra))
  }

  /** `generate_errors` as written: every generator runs on every detector,
      so the out-of-range check meets the dangling detectors too and its
      `unwrap` panics. */
  method GenerateErrors(infra: InfraCache) returns (r: Generated)
    ensures r == GenerateErrorsAsWritten(infra)
  {
    var ds := infra.detectors;
    var errors: seq<InfraError> := [];
    for i := 0 to |ds|
      invariant !SomeDangling(ds[..i], infra)
      invariant errors == AllErrors(ds[..i], infra)
    {
      var d := ds[i];
      ghost var before := errors;
      for j := 0 to |DetectorChecks|
        invariant j == 0 ==> errors == before
        invariant j == 1 ==> errors == before + CheckInvalidRef(d, infra)
        invariant j == 2 ==> !Dangling(d, infra) && errors == before + BothChecks(d, infra)
      {
        match DetectorChecks[j]
        case InvalidRefCheck =>
          errors := errors + CheckInvalidRef(d, infra);
        case OutOfRangeCheck =>
          if d.track !in infra.trackSections {
            assert d in ds;
            return Panicked;
          }
          errors := errors + CheckOutOfRange(d, infra);
      }
      assert ds[..i + 1] == ds[..i] + [d];
    }
    assert ds[..|ds|] == ds;
    r := Completed(errors);
  }

  /** Whenever the generator as written completes, it has reported no
      invalid reference: every detector it reports on lies outside its track. */
  lemma {:induction false} AllErrorsAreOutOfRange(ds: seq<DetectorCache>, infra: InfraCache, e: InfraError)
    requires !SomeDangling(ds, infra)
    ensures e in AllErrors(ds, infra)
            <==> exists i :: 0 <= i < |ds| && OutsideTrack(ds[i], infra) && e == OutOfRangeError(ds[i], infra)
  {
    if ds != [] {
      var n := |ds| - 1;
      assert ds == ds[..n] + [ds[n]];
      AllErrorsAreOutOfRange(ds[..n], infra, e);
      if e in AllErrors(ds, infra) && e !in AllErrors(ds[..n], infra) {
        assert OutsideTrack(ds[n], infra) && e == OutOfRangeError(ds[n], infra);
      }
      if exists i :: 0 <= i < |ds| && OutsideTrack(ds[i], infra) && e == OutOfRangeError(ds[i], infra) {
        var i :| 0 <= i < |ds| && OutsideTrack(ds[i], infra) && e == OutOfRangeError(ds[i], infra);
        if i < n {
          assert ds[..n][i] == ds[i];
        }
      }
    }
  }

  /** The infrastructure of the source's `invalid_ref` test: track A (500 m
      long) exists, detector D_error sits at 250 on track E, which does not. */
  function DanglingTestInfra(): InfraCache {
    InfraCache([DetectorCache("D_error", "E", 250.0)], map["A" := TrackSectionCache("A", 500.0)])
  }

  /** The invalid reference that `check_invalid_ref` reports on its own is
      never reported by the generator as written: the generator panics on that
      very detector. */
  lemma GenerateErrorsAsWrittenPanics()
    ensures CheckInvalidRef(DanglingTestInfra().detectors[0], DanglingTestInfra())
            == [NewInvalidReference(DetectorCache("D_error", "E", 250.0), "track", ObjectRef(TrackSection, "E"))]
    ensures GenerateErrorsAsWritten(DanglingTestInfra()) == Panicked
  {
    var infra := DanglingTestInfra();
    assert Dangling(infra.detectors[0], infra);
  }

  // ---------------------------------------------------------------------------
  // The generator as intended: the out-of-range check is skipped on a
  // detector whose reference is invalid (the `continue` of the commented-out
  // version)

  /** What one detector contributes: its invalid reference, or else its
      out-of-range position. */
  function DetectorErrors(d: DetectorCache, infra: InfraCache): (r: seq<InfraError>)
    ensures |r| <= 1
    ensures Dangling(d, infra) ==> r == [InvalidRefError(d)]
    ensures !Dangling(d, infra) ==> (r != [] <==> OutsideTrack(d, infra))
    ensures r != [] && !Dangling(d, infra) ==> r == [OutOfRangeError(d, infra)]
  {
    var invalid := CheckInvalidRef(d, infra);
    if invalid != [] then invalid else CheckOutOfRange(d, infra)
  }

  function ReportedErrors(ds: seq<DetectorCache>, infra: InfraCache): seq<InfraError> {
    if ds == [] then []
    else ReportedErrors(ds[..|ds| - 1], infra) + DetectorErrors(ds[|ds| - 1], infra)
  }

  /** `generate_errors` with the out-of-range check skipped for a detector
      whose reference is invalid: it never panics. */
  method GenerateErrorsChecked(infra: InfraCache) returns (errors: seq<InfraError>)
    ensures errors == ReportedErrors(infra.detectors, infra)
  {
    var ds := infra.detectors;
    errors := [];
    for i := 0 to |ds|
      invariant errors == ReportedErrors(ds[..i], infra)
    {
      var d := ds[i];
      assert ds[..i + 1][..i] == ds[..i];
      var invalid := CheckInvalidRef(d, infra);
      if invalid != [] {
        errors := errors + invalid;
        continue;
      }
      errors := errors + CheckOutOfRange(d, infra);
    }
    assert ds[..|ds|] == ds;
  }

  /** Each detector adds at most one error. */
  lemma {:induction false} ReportedErrorsBound(ds: seq<DetectorCache>, infra: InfraCache)
    ensures |ReportedErrors(ds, infra)| <= |ds|
  {
    if ds != [] {
      ReportedErrorsBound(ds[..|ds| - 1], infra);
    }
  }

  /** An error is reported exactly for each dangling detector and for each
      detector outside its track, and it is the error of that detector. */
  lemma {:induction false} ReportedErrorsExactly(ds: seq<DetectorCache>, infra: InfraCache, e: InfraError)
    ensures e in ReportedErrors(ds, infra)
            <==> exists i :: 0 <= i < |ds| && e in DetectorErrors(ds[i], infra)
  {
    if ds != [] {
      var n := |ds| - 1;
      ReportedErrorsExactly(ds[..n], infra, e);
      if exists i :: 0 <= i < |ds| && e in DetectorErrors(ds[i], infra) {
        var i :| 0 <= i < |ds| && e in DetectorErrors(ds[i], infra);
        if i < n {
          assert ds[..n][i] == ds[i];
        }
      }
      if e in ReportedErrors(ds[..n], infra) {
        var i :| 0 <= i < n && e in DetectorErrors(ds[..n][i], infra);
        assert ds[..n][i] == ds[i];
      }
    }
  }

  /** Where the generator as written completes, the corrected one reports the
      same errors in the same order. */
  lemma {:induction false} CheckedAgreesWhenNoneDangling(ds: seq<DetectorCache>, infra: InfraCache)
    requires !SomeDangling(ds, infra)
    ensures ReportedErrors(ds, infra) == AllErrors(ds, infra)
  {
    if ds != [] {
      var n := |ds| - 1;
      assert ds == ds[..n] + [ds[n]];
      CheckedAgreesWhenNoneDangling(ds[..n], infra);
      assert !Dangling(ds[n], infra);
    }
  }

  /** The source's two unit tests, on the corrected generator's per-detector
      step: a detector on a missing track E reports that reference, and a
      detector at 530 on the 500 m track A reports the range [0, 500]. */
  lemma DetectorTests()
    ensures DetectorErrors(DetectorCache("D_error", "E", 250.0), DanglingTestInfra())
            == [NewInvalidReference(DetectorCache("D_error", "E", 250.0), "track", ObjectRef(TrackSection, "E"))]
    ensures CheckOutOfRange(DetectorCache("D_error", "A", 530.0), DanglingTestInfra())
            == [NewOutOfRange(DetectorCache("D_error", "A", 530.0), "position", 530.0, 0.0, 500.0)]
  {
    assert Dangling(DetectorCache("D_error", "E", 250.0), DanglingTestInfra());
  }
}
