/** Validation of a short-term path request (STDCM) configuration and
    construction of the request body sent to the timetable service
    (front/src/applications/stdcm/utils/formatStdcmConfV2.ts).

    The unit conversions and parsers the formatter calls are not part of this
    model: they are passed in as the fields of `Converters` and nothing is
    assumed about them. */
module StdcmConf {
  import opened Common
  import opened PathSteps

  /** The helpers the formatter imports, as uninterpreted functions. Dates are
      milliseconds since the epoch. */
  datatype Converters = Converters(
    sec2ms: real -> real,
    mToMm: real -> real,
    time2sec: string -> real,
    isoDuration2sec: string -> real,
    toNumber: string -> real,
    dateTimeToIso: string -> Option<string>,
    parseDate: string -> int,
    createMargin: Option<StandardAllowance> -> Option<string>)

  datatype Comfort = Standard | AirConditioning | Heating

  datatype AllowanceKind = Percentage | TimePerDistance
  datatype StandardAllowance = StandardAllowance(kind: AllowanceKind, value: real)

  /** The window the departure must fall in, both ends inclusive. */
  datatype DatetimeWindow = DatetimeWindow(begin: int, end: int)

  /** The part of the STDCM store state the validator reads. */
  datatype StdcmConfState = StdcmConfState(
    pathSteps: seq<Option<PathStep>>,
    timetableId: Option<int>,
    speedLimitByTag: Option<string>,
    rollingStockComfort: Option<Comfort>,
    infraId: Option<int>,
    rollingStockId: Option<int>,
    maximumRunTime: real,
    standardStdcmAllowance: Option<StandardAllowance>,
    gridMarginBefore: Option<real>,
    gridMarginAfter: Option<real>,
    originUpperBoundTime: Option<string>,
    originDate: Option<string>,
    originTime: Option<string>,
    searchDatetimeWindow: Option<DatetimeWindow>,
    workScheduleGroupId: Option<int>,
    electricalProfileSetId: Option<int>)

  /** One failure notification; each names the message key it displays.
      `NoName` is the key used for a missing infrastructure. */
  datatype Failure =
    | NoOrigin
    | NoOriginTime
    | NoDestination
    | NoRollingStock
    | NoName
    | NoTimetable
    | OriginTimeOutsideWindow(low: int, high: int)

  /** A step location of the request: track steps carry their offset in
      millimetres, operational-point steps a secondary code. */
  datatype PathfindingLocation =
    | TrackLocation(track: string, offsetMm: real)
    | OperationalPointLocation(operationalPoint: string, secondaryCode: Option<string>)
    | TrigramLocation(trigram: string, secondaryCode: Option<string>)
    | UicLocation(uic: int, secondaryCode: Option<string>)

  datatype PathfindingItem = PathfindingItem(duration: real, location: PathfindingLocation)

  /** A configuration that passed every check, with the path reshaped. */
  datatype ValidStdcmConfig = ValidStdcmConfig(
    formattedStartTime: string,
    rollingStockId: int,
    timetableId: int,
    infraId: int,
    rollingStockComfort: Option<Comfort>,
    path: seq<PathfindingItem>,
    speedLimitByTag: Option<string>,
    maximumRunTime: real,
    startTime: string,
    latestStartTime: string,
    margin: Option<StandardAllowance>,
    gridMarginBefore: Option<real>,
    gridMarginAfter: Option<real>,
    workScheduleGroupId: Option<int>,
    electricalProfileSetId: Option<int>)

  datatype StdcmBody = StdcmBody(
    comfort: Comfort,
    margin: Option<string>,
    maximumDepartureDelay: real,
    maximumRunTime: Option<real>,
    rollingStockId: int,
    speedLimitTags: Option<string>,
    startTime: string,
    steps: seq<PathfindingItem>,
    timeGapAfter: Option<real>,
    timeGapBefore: Option<real>,
    workScheduleGroupId: Option<int>,
    electricalProfileSetId: Option<int>)

  /** The request: infrastructure, timetable id (`id`) and body. */
  datatype StdcmRequest = StdcmRequest(infra: int, id: int, body: StdcmBody)

  // ---------------------------------------------------------------------------
  // The checks

  /** `pathSteps[0] === null`; on an empty list the element is `undefined`,
      which is not `null`, so an empty path raises no failure here. */
  predicate OriginMissing(c: StdcmConfState) {
    |c.pathSteps| > 0 && c.pathSteps[0].None?
  }

  predicate DestinationMissing(c: StdcmConfState) {
    |c.pathSteps| > 0 && c.pathSteps[|c.pathSteps| - 1].None?
  }

  predicate OriginTimesMissing(c: StdcmConfState) {
    !(TruthyString(c.originTime) && TruthyString(c.originUpperBoundTime))
  }

  /** A template literal prints an absent value as "undefined". */
  function Interpolate(s: Option<string>): string {
    if s.Some? then s.value else "undefined"
  }

  /** The text handed to `dateTimeToIso`: `${originDate}T${originTime}`. */
  function StartTimeText(c: StdcmConfState): string {
    Interpolate(c.originDate) + "T" + Interpolate(c.originTime)
  }

  function StartTime(c: StdcmConfState, conv: Converters): Option<string> {
    conv.dateTimeToIso(StartTimeText(c))
  }

  predicate StartTimeInvalid(c: StdcmConfState, conv: Converters) {
    !TruthyString(StartTime(c, conv))
  }

  /** The window check, which runs only on a start time that was parsed. */
  predicate OutsideWindow(c: StdcmConfState, conv: Converters) {
    && !StartTimeInvalid(c, conv)
    && c.searchDatetimeWindow.Some?
    && var d := conv.parseDate(StartTime(c, conv).value);
       d < c.searchDatetimeWindow.value.begin || c.searchDatetimeWindow.value.end < d
  }

  /** None of the checks fails. */
  predicate Passes(c: StdcmConfState, conv: Converters) {
    && !OriginMissing(c)
    && !OriginTimesMissing(c)
    && !DestinationMissing(c)
    && TruthyInt(c.rollingStockId)
    && TruthyInt(c.infraId)
    && TruthyInt(c.timetableId)
    && !StartTimeInvalid(c, conv)
    && !OutsideWindow(c, conv)
  }

  function Indicator(b: bool): nat {
    if b then 1 else 0
  }

  /** The failure a check contributes: one when its condition holds. */
  function Check(failed: bool, f: Failure): seq<Failure> {
    if failed then [f] else []
  }

  /** The failures of the six presence checks, in dispatch order. */
  function PresenceFailures(c: StdcmConfState): seq<Failure> {
    Check(OriginMissing(c), NoOrigin)
    + Check(OriginTimesMissing(c), NoOriginTime)
    + Check(DestinationMissing(c), NoDestination)
    + Check(!TruthyInt(c.rollingStockId), NoRollingStock)
    + Check(!TruthyInt(c.infraId), NoName)
    + Check(!TruthyInt(c.timetableId), NoTimetable)
  }

  /** The failure of the start-time checks: an unparsable start time, or
      else a start time outside the search window. */
  function StartTimeFailures(c: StdcmConfState, conv: Converters): seq<Failure> {
    if StartTimeInvalid(c, conv) then [NoOriginTime]
    else if OutsideWindow(c, conv)
    then [OriginTimeOutsideWindow(c.searchDatetimeWindow.value.begin, c.searchDatetimeWindow.value.end)]
    else []
  }

  /** The failures dispatched for a configuration, in dispatch order. */
  function Failures(c: StdcmConfState, conv: Converters): seq<Failure> {
    PresenceFailures(c) + StartTimeFailures(c, conv)
  }

  /** The first six checks of `checkStdcmConf`, each raising the error flag. */
  method CheckPresence(c: StdcmConfState) returns (error: bool, failures: seq<Failure>)
    ensures failures == PresenceFailures(c)
    ensures error <==> failures != []
  {
    error := false;
    failures := [];
    if |c.pathSteps| > 0 && c.pathSteps[0].None? {
      error := true;
      failures := failures + [NoOrigin];
    }
    assert failures == Check(OriginMissing(c), NoOrigin);
    ghost var expected := failures;
    if !(TruthyString(c.originTime) && TruthyString(c.originUpperBoundTime)) {
      error := true;
      failures := failures + [NoOriginTime];
    }
    assert failures == expected + Check(OriginTimesMissing(c), NoOriginTime);
    expected := failures;
    if |c.pathSteps| > 0 && c.pathSteps[|c.pathSteps| - 1].None? {
      error := true;
      failures := failures + [NoDestination];
    }
    assert failures == expected + Check(DestinationMissing(c), NoDestination);
    expected := failures;
    if !TruthyInt(c.rollingStockId) {
      error := true;
      failures := failures + [NoRollingStock];
    }
    assert failures == expected + Check(!TruthyInt(c.rollingStockId), NoRollingStock);
    expected := failures;
    if !TruthyInt(c.infraId) {
      error := true;
      failures := failures + [NoName];
    }
    assert failures == expected + Check(!TruthyInt(c.infraId), NoName);
    expected := failures;
    if !TruthyInt(c.timetableId) {
      error := true;
      failures := failures + [NoTimetable];
    }
    assert failures == expected + Check(!TruthyInt(c.timetableId), NoTimetable);
    assert failures == PresenceFailures(c);
  }

  /** Runs every check in turn, with no early exit, recording one failure per
      violated check, and returns the normalised configuration only when no
      check failed. */
  method CheckStdcmConf(c: StdcmConfState, conv: Converters)
    returns (failures: seq<Failure>, r: Option<ValidStdcmConfig>)
    ensures failures == Failures(c, conv)
    ensures r.None? <==> failures != []
    ensures r.Some? ==> Passes(c, conv) && r.value == BuildValidConfig(c, conv)
  {
    var error;
    error, failures := CheckPresence(c);
    ghost var expected := failures;
    var startTime := conv.dateTimeToIso(StartTimeText(c));
    if !TruthyString(startTime) {
      error := true;
      failures := failures + [NoOriginTime];
    } else if c.searchDatetimeWindow.Some? {
      var window := c.searchDatetimeWindow.value;
      var startDatetime := conv.parseDate(startTime.value);
      if startDatetime < window.begin || window.end < startDatetime {
        error := true;
        failures := failures + [OriginTimeOutsideWindow(window.begin, window.end)];
      }
    }
    assert failures == expected + StartTimeFailures(c, conv);
    assert error <==> failures != [];
    FailuresEmpty(c, conv);
    if error {
      r := None;
    } else {
      r := Some(BuildValidConfig(c, conv));
    }
  }

  /** The configuration is rejected exactly when some check failed. */
  lemma FailuresEmpty(c: StdcmConfState, conv: Converters)
    ensures Failures(c, conv) == [] <==> Passes(c, conv)
  {
  }

  /** How many times a failure was dispatched. */
  function Occurrences(s: seq<Failure>, x: Failure): nat {
    if s == [] then 0 else Indicator(s[0] == x) + Occurrences(s[1..], x)
  }

  lemma {:induction false} OccurrencesAppend(a: seq<Failure>, b: seq<Failure>, x: Failure)
    ensures Occurrences(a + b, x) == Occurrences(a, x) + Occurrences(b, x)
  {
    if a != [] {
      assert (a + b)[1..] == a[1..] + b;
      OccurrencesAppend(a[1..], b, x);
    } else {
      assert a + b == b;
    }
  }

  lemma CheckOccurrences(b: bool, f: Failure, x: Failure)
    ensures Occurrences(Check(b, f), x) == Indicator(b && f == x)
  {
    if b {
      assert Check(b, f)[1..] == [];
    }
  }

  /** Counting over six checks, each decided by its own condition. */
  lemma SixChecksCount(b1: bool, b2: bool, b3: bool, b4: bool, b5: bool, b6: bool, x: Failure)
    ensures Occurrences(Check(b1, NoOrigin) + Check(b2, NoOriginTime) + Check(b3, NoDestination)
                        + Check(b4, NoRollingStock) + Check(b5, NoName) + Check(b6, NoTimetable), x)
         == Indicator(b1 && x == NoOrigin) + Indicator(b2 && x == NoOriginTime)
          + Indicator(b3 && x == NoDestination) + Indicator(b4 && x == NoRollingStock)
          + Indicator(b5 && x == NoName) + Indicator(b6 && x == NoTimetable)
  {
    var c1, c2, c3 := Check(b1, NoOrigin), Check(b2, NoOriginTime), Check(b3, NoDestination);
    var c4, c5, c6 := Check(b4, NoRollingStock), Check(b5, NoName), Check(b6, NoTimetable);
    OccurrencesAppend(c1, c2, x);
    OccurrencesAppend(c1 + c2, c3, x);
    OccurrencesAppend(c1 + c2 + c3, c4, x);
    OccurrencesAppend(c1 + c2 + c3 + c4, c5, x);
    OccurrencesAppend(c1 + c2 + c3 + c4 + c5, c6, x);
    CheckOccurrences(b1, NoOrigin, x);
    CheckOccurrences(b2, NoOriginTime, x);
    CheckOccurrences(b3, NoDestination, x);
    CheckOccurrences(b4, NoRollingStock, x);
    CheckOccurrences(b5, NoName, x);
    CheckOccurrences(b6, NoTimetable, x);
  }

  lemma StartTimeCount(c: StdcmConfState, conv: Converters, x: Failure)
    requires !x.OriginTimeOutsideWindow?
    ensures Occurrences(StartTimeFailures(c, conv), x) == Indicator(StartTimeInvalid(c, conv) && x == NoOriginTime)
  {
    var q := StartTimeFailures(c, conv);
    if q != [] {
      assert q[1..] == [];
    }
  }

  /** No early exit: every violated check contributes its own failure, so one
      call can report several; a missing origin time can be reported twice
      (by the presence check and by the parse). */
  lemma FailureCount(c: StdcmConfState, conv: Converters, x: Failure)
    requires !x.OriginTimeOutsideWindow?
    ensures Occurrences(Failures(c, conv), x)
         == Indicator(OriginMissing(c) && x == NoOrigin)
          + Indicator(OriginTimesMissing(c) && x == NoOriginTime)
          + Indicator(DestinationMissing(c) && x == NoDestination)
          + Indicator(!TruthyInt(c.rollingStockId) && x == NoRollingStock)
          + Indicator(!TruthyInt(c.infraId) && x == NoName)
          + Indicator(!TruthyInt(c.timetableId) && x == NoTimetable)
          + Indicator(StartTimeInvalid(c, conv) && x == NoOriginTime)
  {
    var p, q := PresenceFailures(c), StartTimeFailures(c, conv);
    OccurrencesAppend(p, q, x);
    var b1, b2, b3 := OriginMissing(c), OriginTimesMissing(c), DestinationMissing(c);
    var b4, b5, b6 := !TruthyInt(c.rollingStockId), !TruthyInt(c.infraId), !TruthyInt(c.timetableId);
    assert p == Check(b1, NoOrigin) + Check(b2, NoOriginTime) + Check(b3, NoDestination)
              + Check(b4, NoRollingStock) + Check(b5, NoName) + Check(b6, NoTimetable);
    SixChecksCount(b1, b2, b3, b4, b5, b6, x);
    StartTimeCount(c, conv, x);
  }

  /** At most seven failures: six presence checks and one start-time check. */
  lemma FailuresBound(c: StdcmConfState, conv: Converters)
    ensures |Failures(c, conv)| <= 7
  {
    assert |PresenceFailures(c)| <= 6;
  }

  /** The window check only runs on a parsed start time, and the failure it
      raises names the window; a start time equal to either bound passes. */
  lemma WindowFailure(c: StdcmConfState, conv: Converters, low: int, high: int)
    ensures OriginTimeOutsideWindow(low, high) in Failures(c, conv)
            <==> OutsideWindow(c, conv) && c.searchDatetimeWindow.value == DatetimeWindow(low, high)
    ensures OutsideWindow(c, conv) ==> !StartTimeInvalid(c, conv)
    ensures !StartTimeInvalid(c, conv) && c.searchDatetimeWindow.Some?
            && c.searchDatetimeWindow.value.begin <= conv.parseDate(StartTime(c, conv).value)
                                                  <= c.searchDatetimeWindow.value.end
            ==> OriginTimeOutsideWindow(low, high) !in Failures(c, conv)
  {
    assert OriginTimeOutsideWindow(low, high) !in PresenceFailures(c);
  }

  /** The configuration returned when every check passed; the `!` assertions
      of the source are the precondition. */
  function BuildValidConfig(c: StdcmConfState, conv: Converters): (r: ValidStdcmConfig)
    requires Passes(c, conv)
    ensures r.rollingStockId != 0 && r.timetableId != 0 && r.infraId != 0
    ensures r.startTime != "" && r.latestStartTime != "" && r.formattedStartTime != ""
    // the start time sent lies within the search window, bounds included
    ensures c.searchDatetimeWindow.Some? ==>
              c.searchDatetimeWindow.value.begin <= conv.parseDate(r.formattedStartTime)
                                                 <= c.searchDatetimeWindow.value.end
    // one request step per step present, the origin first and the destination last
    ensures |r.path| == |Compact(c.pathSteps)|
    ensures |c.pathSteps| > 0 ==>
              && |r.path| > 0
              && r.path[0] == FormatStep(c.pathSteps[0].value, conv)
              && r.path[|r.path| - 1] == FormatStep(c.pathSteps[|c.pathSteps| - 1].value, conv)
  {
    assert |c.pathSteps| > 0 ==> |Compact(c.pathSteps)| > 0
                                 && Compact(c.pathSteps)[0] == c.pathSteps[0].value
                                 && Compact(c.pathSteps)[|Compact(c.pathSteps)| - 1] == c.pathSteps[|c.pathSteps| - 1].value by {
      if |c.pathSteps| > 0 {
        CompactEnds(c.pathSteps);
      }
    }
    ValidStdcmConfig(
      formattedStartTime := StartTime(c, conv).value,
      rollingStockId := c.rollingStockId.value,
      timetableId := c.timetableId.value,
      infraId := c.infraId.value,
      rollingStockComfort := c.rollingStockComfort,
      path := FormatPath(c.pathSteps, conv),
      speedLimitByTag := c.speedLimitByTag,
      maximumRunTime := c.maximumRunTime,
      startTime := c.originTime.value,
      latestStartTime := c.originUpperBoundTime.value,
      margin := c.standardStdcmAllowance,
      gridMarginBefore := c.gridMarginBefore,
      gridMarginAfter := c.gridMarginAfter,
      workScheduleGroupId := c.workScheduleGroupId,
      electricalProfileSetId := c.electricalProfileSetId)
  }

  // ---------------------------------------------------------------------------
  // Step reshaping

  /** Seconds to stop: the ISO 8601 reading, or the plain number when that
      reading is 0 (`ISO8601Duration2sec(stopFor) || Number(stopFor)`). */
  function StopSeconds(stopFor: string, conv: Converters): real {
    var iso := conv.isoDuration2sec(stopFor);
    if iso != 0.0 then iso else conv.toNumber(stopFor)
  }

  /** The secondary code a request location carries, if any. */
  function SecondaryCode(l: PathfindingLocation): Option<string> {
    match l
    case TrackLocation(_, _) => None
    case OperationalPointLocation(_, code) => code
    case TrigramLocation(_, code) => code
    case UicLocation(_, code) => code
  }

  /** The point a location designates, independent of offsets and codes. */
  datatype PointKey = TrackKey(track: string) | OpKey(id: string) | TrigramKey(trigram: string) | UicKey(uic: int)

  function StepPoint(l: StepLocation): PointKey {
    match l
    case TrackOffset(t, _) => TrackKey(t)
    case OperationalPointId(op) => OpKey(op)
    case Trigram(tri, _) => TrigramKey(tri)
    case Uic(u, _) => UicKey(u)
  }

  function RequestPoint(l: PathfindingLocation): PointKey {
    match l
    case TrackLocation(t, _) => TrackKey(t)
    case OperationalPointLocation(op, _) => OpKey(op)
    case TrigramLocation(tri, _) => TrigramKey(tri)
    case UicLocation(u, _) => UicKey(u)
  }

  /** Reshapes one step into a request step. */
  function FormatStep(step: PathStep, conv: Converters): (r: PathfindingItem)
    ensures !TruthyString(step.stopFor) ==> r.duration == 0.0
    ensures TruthyString(step.stopFor) ==> r.duration == conv.sec2ms(StopSeconds(step.stopFor.value, conv))
    ensures RequestPoint(r.location) == StepPoint(step.location)
    ensures r.location.TrackLocation? <==> step.location.TrackOffset?
    ensures step.location.TrackOffset? ==> r.location.offsetMm == conv.mToMm(step.location.offset)
    ensures SecondaryCode(r.location)
            == (if step.location.Trigram? || step.location.Uic? then step.ch else None)
  {
    var duration := if TruthyString(step.stopFor) then conv.sec2ms(StopSeconds(step.stopFor.value, conv)) else 0.0;
    var location :=
      match step.location
      case TrackOffset(track, offset) => TrackLocation(track, conv.mToMm(offset))
      case OperationalPointId(op) => OperationalPointLocation(op, None)
      case Trigram(tri, _) => TrigramLocation(tri, step.ch)
      case Uic(u, _) => UicLocation(u, step.ch);
    PathfindingItem(duration, location)
  }

  /** `compact(pathSteps).map(...)`. */
  function FormatPath(steps: seq<Option<PathStep>>, conv: Converters): (r: seq<PathfindingItem>)
    ensures |r| == |Compact(steps)|
    ensures forall k :: 0 <= k < |r| ==> r[k] == FormatStep(Compact(steps)[k], conv)
  {
    var present := Compact(steps);
    seq(|present|, k requires 0 <= k < |present| => FormatStep(present[k], conv))
  }

  // ---------------------------------------------------------------------------
  // The request body

  /** `value ? sec2ms(value) : undefined`: 0 and absent both mean absent. */
  function ToMsOrUndefined(value: Option<real>, conv: Converters): (r: Option<real>)
    ensures r.None? <==> (value.None? || value.value == 0.0)
    ensures r.Some? ==> r.value == conv.sec2ms(value.value)
  {
    if TruthyReal(value) then Some(conv.sec2ms(value.value)) else None
  }

  /** The request sent for a configuration that passed the checks. */
  function FormatStdcmPayload(v: ValidStdcmConfig, conv: Converters): (r: StdcmRequest)
    ensures r.infra == v.infraId && r.id == v.timetableId && r.body.rollingStockId == v.rollingStockId
    ensures r.body.startTime == v.formattedStartTime && r.body.steps == v.path
    ensures r.body.comfort == (if v.rollingStockComfort.Some? then v.rollingStockComfort.value else Standard)
    // the search may take as long to depart as the window between the two origin times
    ensures r.body.maximumDepartureDelay
            == conv.sec2ms(conv.time2sec(v.latestStartTime) - conv.time2sec(v.startTime))
    // a zero run time means no limit
    ensures r.body.maximumRunTime.None? <==> v.maximumRunTime == 0.0
    ensures r.body.maximumRunTime.Some? ==> r.body.maximumRunTime.value == conv.sec2ms(v.maximumRunTime)
    // the margin before the train bounds the gap after it, and conversely
    ensures r.body.timeGapAfter.Some? <==> TruthyReal(v.gridMarginBefore)
    ensures r.body.timeGapAfter.Some? ==> r.body.timeGapAfter.value == conv.sec2ms(v.gridMarginBefore.value)
    ensures r.body.timeGapBefore.Some? <==> TruthyReal(v.gridMarginAfter)
    ensures r.body.timeGapBefore.Some? ==> r.body.timeGapBefore.value == conv.sec2ms(v.gridMarginAfter.value)
  {
    var maximumDepartureDelay := conv.sec2ms(conv.time2sec(v.latestStartTime) - conv.time2sec(v.startTime));
    StdcmRequest(
      infra := v.infraId,
      id := v.timetableId,
      body := StdcmBody(
        comfort := v.rollingStockComfort.GetOr(Standard),
        margin := conv.createMargin(v.margin),
        maximumDepartureDelay := maximumDepartureDelay,
        maximumRunTime := ToMsOrUndefined(Some(v.maximumRunTime), conv),
        rollingStockId := v.rollingStockId,
        speedLimitTags := v.speedLimitByTag,
        startTime := v.formattedStartTime,
        steps := v.path,
        timeGapAfter := ToMsOrUndefined(v.gridMarginBefore, conv),
        timeGapBefore := ToMsOrUndefined(v.gridMarginAfter, conv),
        workScheduleGroupId := v.workScheduleGroupId,
        electricalProfileSetId := v.electricalProfileSetId))
  }

  /** What the request built from a configuration that passed the checks
      says about that configuration. */
  lemma CheckedRequest(c: StdcmConfState, conv: Converters)
    requires Passes(c, conv)
    ensures var p := FormatStdcmPayload(BuildValidConfig(c, conv), conv);
      && p.infra == c.infraId.value
      && p.id == c.timetableId.value
      && p.body.rollingStockId == c.rollingStockId.value
      && p.body.startTime == StartTime(c, conv).value
      && p.body.comfort == (if c.rollingStockComfort.Some? then c.rollingStockComfort.value else Standard)
      && p.body.maximumDepartureDelay
         == conv.sec2ms(conv.time2sec(c.originUpperBoundTime.value) - conv.time2sec(c.originTime.value))
      && (p.body.maximumRunTime.None? <==> c.maximumRunTime == 0.0)
      && (p.body.maximumRunTime.Some? ==> p.body.maximumRunTime.value == conv.sec2ms(c.maximumRunTime))
      && p.body.margin == conv.createMargin(c.standardStdcmAllowance)
      && p.body.speedLimitTags == c.speedLimitByTag
      && p.body.workScheduleGroupId == c.workScheduleGroupId
      && p.body.electricalProfileSetId == c.electricalProfileSetId
      && (p.body.timeGapAfter.None? <==> !TruthyReal(c.gridMarginBefore))
      && (p.body.timeGapAfter.Some? ==> p.body.timeGapAfter.value == conv.sec2ms(c.gridMarginBefore.value))
      && (p.body.timeGapBefore.None? <==> !TruthyReal(c.gridMarginAfter))
      && (p.body.timeGapBefore.Some? ==> p.body.timeGapBefore.value == conv.sec2ms(c.gridMarginAfter.value))
      && p.body.steps == FormatPath(c.pathSteps, conv)
      && |p.body.steps| == |c.pathSteps| - multiset(c.pathSteps)[None]
      && (|c.pathSteps| > 0 ==>
            && p.body.steps[0] == FormatStep(c.pathSteps[0].value, conv)
            && p.body.steps[|p.body.steps| - 1] == FormatStep(c.pathSteps[|c.pathSteps| - 1].value, conv))
  {
    CompactLength(c.pathSteps);
    if |c.pathSteps| > 0 {
      CompactEnds(c.pathSteps);
    }
  }
}
