# OSRD: request building, infrastructure checks and editor state

This project models six parts of OSRD, the open-source railway design and
simulation tool:

- **STDCM request builder.** This is the check of a short-term path request's
  configuration: every missing field and out-of-window start raises its own
  failure. On success the configuration is normalised, with the compacted and
  reshaped path. It is then turned into the request body.
- **Detector checks.** These are the infrastructure checks for detectors: a
  reference to a missing track section, and a position outside its track. They
  include the generator that runs both checks over every detector.
- **Intervals editor form.** This is the begin/end form of the intervals
  editor: typing a new edge position resizes the selected interval, repairs the
  list and moves the selection.
- **Timetable toolbar.** This is the selection, the select-all checkbox, the
  export, the delete sequence and the filter panel toggle.
- **Editor requests.** These build the save payload, the per-layer schema and
  the per-layer entities.
- **Map point routing.** A point picked on the map is routed to the origin,
  the destination or a new via.

Files:

- `common.dfy`: `Option`, `Result`, JavaScript truthiness and lodash's `compact`.
- `path_steps.dfy`: the itinerary steps the store holds.
- `stdcm_conf.dfy`: `checkStdcmConf`, `toMsOrUndefined` and `formatStdcmPayload`.
- `detectors.dfy`: `check_invalid_ref`, `check_out_of_range` and `generate_errors`, as written and as corrected.
- `intervals_editor.dfy`: the form as a class holding the data, the selected index and the two inputs.
- `timetable_toolbar.dfy`: the toolbar as a class whose effects on the outside world are logged in order.
- `editor_api.dfy`: `editorSave`, `getEditorSchema` and `getEditorData`, once the HTTP calls are taken out.
- `set_point_iti.dfy`: `setPointItiV2` appending to the store's action log.

Helpers whose bodies are not part of this model appear as function-valued
parameters or constants, and nothing is assumed about them. They are:

- the unit converters (`sec2ms`, `mToMm`, `time2sec`, `ISO8601Duration2sec`, `Number`);
- `dateTimeToIso` and `Date` parsing;
- `createMargin`;
- `resizeSegment`, `fixLinearMetadataItems` and the `notEmpty` guard;
- `getObjectTypeForLayer`;
- `uuid`.

Fetched data (the JSON schema, the layer features, the delete request's
outcome) is a parameter too.

## Model

| member | source | states |
|---|---|---|
| StdcmConf.CheckPresence | front/src/applications/stdcm/utils/formatStdcmConfV2.ts:61-115 | Runs the six presence checks (origin, origin times, destination, rolling stock, infrastructure, timetable). The failures are exactly those of the failing checks, in that order, and the error flag is raised exactly when there is one. |
| StdcmConf.CheckStdcmConf | front/src/applications/stdcm/utils/formatStdcmConfV2.ts:61-145 | Every check runs, with no early exit. The failures dispatched are exactly those of the violated checks, in order. The result is null exactly when some failure was dispatched, and otherwise it is the normalised configuration. |
| StdcmConf.FailuresEmpty | front/src/applications/stdcm/utils/formatStdcmConfV2.ts:61-144 | No failure is dispatched if and only if every check passes. |
| StdcmConf.FailureCount | front/src/applications/stdcm/utils/formatStdcmConfV2.ts:62-142 | Each failure kind appears once per check that raises it. Origin, destination, rolling stock, infrastructure and timetable appear at most once each. The missing-origin-time failure can appear twice: once for missing times and once for an unparsable start. |
| StdcmConf.FailuresBound | front/src/applications/stdcm/utils/formatStdcmConfV2.ts:62-142 | One call dispatches at most seven failures. |
| StdcmConf.WindowFailure | front/src/applications/stdcm/utils/formatStdcmConfV2.ts:116-142 | The window failure is raised only on a start time that parsed and lies strictly outside the search window. It carries the window's bounds. A start equal to either bound passes. |
| StdcmConf.FormatStep | front/src/applications/stdcm/utils/formatStdcmConfV2.ts:150-182 | A step without a stop gets duration 0. Otherwise the duration is the ISO 8601 duration in milliseconds, falling back to the number. A track step becomes a track location with its offset in millimetres. Any other step keeps its point and gets the secondary code exactly when it is a trigram or UIC step. |
| StdcmConf.FormatPath | front/src/applications/stdcm/utils/formatStdcmConfV2.ts:150-183 | The path is the non-null steps, in order, each reshaped. |
| StdcmConf.ToMsOrUndefined | front/src/applications/stdcm/utils/formatStdcmConfV2.ts:197-198 | 0 and undefined become undefined; any other value is converted to milliseconds. |
| StdcmConf.BuildValidConfig | front/src/applications/stdcm/utils/formatStdcmConfV2.ts:145-195 | A configuration that passes becomes one with non-zero ids and non-empty times. Its formatted start time lies in the search window, bounds included. Its path has one request step per non-null step, with the origin first and the destination last. |
| StdcmConf.FormatStdcmPayload | front/src/applications/stdcm/utils/formatStdcmConfV2.ts:200-225 | The request goes to the configuration's infrastructure and timetable with its rolling stock, start time and steps. Comfort defaults to standard. The departure delay is the span between the two origin times in milliseconds. A run time of 0 means no limit. The gap after the train comes from the margin before it, and the gap before from the margin after, each absent when 0. |
| StdcmConf.CheckedRequest | front/src/applications/stdcm/utils/formatStdcmConfV2.ts:145-225 | For a configuration that passes, the request holds the configuration's fields: infrastructure, timetable, rolling stock, formatted start time, margin through `createMargin`, speed-limit tags, work schedule group and electrical profile set. Comfort defaults to standard. The departure delay is the difference of the two times in milliseconds. The run time is in milliseconds, or absent when 0. The gap after comes from the margin before, and the gap before from the margin after. The steps are the reshaped non-null path steps: one per non-null step, with the origin first and the destination last. |
| Common.CompactAppend | front/src/applications/stdcm/utils/formatStdcmConfV2.ts:150 | Compacting a concatenation is concatenating the compacted parts. |
| Common.CompactCounts | front/src/applications/stdcm/utils/formatStdcmConfV2.ts:150 | Compacting keeps every present value as many times as it occurs. |
| Common.CompactLength | front/src/applications/stdcm/utils/formatStdcmConfV2.ts:150 | Compacting drops exactly the nulls. |
| Common.CompactEnds | front/src/applications/stdcm/utils/formatStdcmConfV2.ts:150 | When the first and last entries are present, they are the first and last of the compacted list. |
| Detectors.CheckInvalidRef | editoast/src/generated_data/error/detectors.rs:60-73 | It returns one error exactly when the detector's track is not a track section. The error is an invalid reference to that track section, on field `track`. Otherwise it returns none. |
| Detectors.CheckOutOfRange | editoast/src/generated_data/error/detectors.rs:76-96 | It needs the track to exist. It returns one error exactly when the position lies outside the closed range from 0 to the track's length; the error is on field `position` and carries the position and that range. Otherwise it returns none. |
| Detectors.GenerateErrors | editoast/src/generated_data/error/detectors.rs:34-57 | It runs both checks on every detector, in order, and concatenates their errors. It panics when a detector's track is missing. |
| Detectors.AllErrorsAreOutOfRange | editoast/src/generated_data/error/detectors.rs:12-57 | When no track is missing, the errors are exactly the out-of-range errors of the detectors lying outside their track. |
| Detectors.GenerateErrorsAsWrittenPanics | editoast/src/generated_data/error/detectors.rs:34-85 | On the infrastructure of the invalid-reference test, the check reports the error, yet the generator panics. |
| Detectors.DetectorErrors | editoast/src/generated_data/error/detectors.rs:44-54 | A detector whose track is missing gets only its invalid-reference error. Otherwise it gets its out-of-range error when it lies outside the track, and nothing when it does not. |
| Detectors.GenerateErrorsChecked | editoast/src/generated_data/error/detectors.rs:34-57 | The generator with the intended `continue` computes the reported errors, detector by detector. |
| Detectors.ReportedErrorsBound | editoast/src/generated_data/error/detectors.rs:34-57 | There is at most one error per detector. |
| Detectors.ReportedErrorsExactly | editoast/src/generated_data/error/detectors.rs:34-57 | An error is reported if and only if it is the error of some detector. |
| Detectors.CheckedAgreesWhenNoneDangling | editoast/src/generated_data/error/detectors.rs:34-57 | When no track is missing, the corrected generator returns what the written one returns. |
| Detectors.DetectorTests | editoast/src/generated_data/error/detectors.rs:107-128 | A detector on the missing track `E` gets one invalid reference. A detector at 530 on the 500 m track `A` gets one out-of-range error with range 0 to 500. |
| IntervalsEditor.FilterNotEmpty | front/src/common/IntervalsEditor/IntervalsEditorCommonForm.tsx:47 | An undefined result stays undefined. A list keeps exactly the entries that `notEmpty` accepts and never grows. |
| IntervalsEditor.KeepWhereAppend | front/src/common/IntervalsEditor/IntervalsEditorCommonForm.tsx:47 | The filter keeps the entries' order: filtering a concatenation filters each part. |
| IntervalsEditor.NextSelection | front/src/common/IntervalsEditor/IntervalsEditorCommonForm.tsx:52-62 | Take the case where the repaired list's length differs from the mapping's key count while the first interval is selected: the selection becomes 1. Otherwise the selection becomes the mapped index. It stays the same on a null mapping, and becomes undefined when the mapping has no entry. |
| IntervalsEditor.IntervalsEditorForm.ResizeSegmentByInput | front/src/common/IntervalsEditor/IntervalsEditorCommonForm.tsx:37-64 | A zero gap changes nothing. Otherwise the data becomes the repaired, compacted resize of the old data at the selected index by the gap, with neighbours not resized. The selection moves as the mapping says. |
| IntervalsEditor.IntervalsEditorForm.SetInterval | front/src/common/IntervalsEditor/IntervalsEditorCommonForm.tsx:28-67 | A new interval resets both inputs to its edges, and the data and the selection stay as they were. |
| IntervalsEditor.IntervalsEditorForm.TypeBegin | front/src/common/IntervalsEditor/IntervalsEditorCommonForm.tsx:66-77 | Typing a new begin resizes the begin edge by its distance from the interval's begin, and the selection moves as that resize's mapping says. The same value, or the interval's own begin, changes nothing. |
| IntervalsEditor.IntervalsEditorForm.TypeEnd | front/src/common/IntervalsEditor/IntervalsEditorCommonForm.tsx:67-85 | Typing a new end resizes the end edge likewise, and the selection moves as that resize's mapping says. |
| IntervalsEditor.InputBoundsAdmitReset | front/src/common/IntervalsEditor/IntervalsEditorCommonForm.tsx:76-84 | The begin input is bounded by the interval's end. The end input is bounded by the interval's begin and the total length. On a well-formed interval, both admit the values they are reset to. For any admitted value, the resize it requests (the edited edge moved by the computed gap) puts that edge on the typed value and leaves the other edge in place. The interval's begin stays at or before its end, and a moved end stays within the total length. |
| IntervalsEditor.SelectionStaysInRange | front/src/common/IntervalsEditor/IntervalsEditorCommonForm.tsx:52-62 | A selection that the mapping sends somewhere stays inside the repaired list. |
| IntervalsEditor.NullMappingMayLeaveStaleIndex | front/src/common/IntervalsEditor/IntervalsEditorCommonForm.tsx:58-61 | A null mapping keeps an index that the repaired list no longer has. |
| TimetableToolbar.CheckboxState | front/src/modules/trainschedule/components/Timetable/TimetableToolbar.tsx:165-172 | The checkbox is checked exactly when as many trains are selected as have details, and at least one. Only the counts are compared, not which trains they are. It is never both checked and indeterminate, neither when nothing is selected, and exactly one of the two otherwise. |
| TimetableToolbar.Toolbar.ToggleAllTrainsSelection | front/src/modules/trainschedule/components/Timetable/TimetableToolbar.tsx:89-95 | When as many trains are selected as are displayed, the selection is emptied. Otherwise it becomes the displayed trains' ids, in displayed order. With no filter hiding trains, the checkbox then shows cleared or checked respectively. |
| TimetableToolbar.ToggleAllTwice | front/src/modules/trainschedule/components/Timetable/TimetableToolbar.tsx:89-95 | With no filter, clicking a partial selection checks the box, and clicking again clears it. |
| TimetableToolbar.ToggleComparesCountsOnly | front/src/modules/trainschedule/components/Timetable/TimetableToolbar.tsx:90 | A selection of as many trains as are displayed is cleared even when none of them is displayed. |
| TimetableToolbar.ExportedAppend | front/src/modules/trainschedule/components/Timetable/TimetableToolbar.tsx:129-132 | The export of a concatenation is the concatenation of the exports. |
| TimetableToolbar.ExportedMembers | front/src/modules/trainschedule/components/Timetable/TimetableToolbar.tsx:129-132 | Exactly the schedules whose id is selected are exported, without their `id` and `timetable_id`. |
| TimetableToolbar.ExportedAllOrNone | front/src/modules/trainschedule/components/Timetable/TimetableToolbar.tsx:129-132 | Nothing is added. All schedules are exported when all are selected, and none when none is. |
| TimetableToolbar.Toolbar.ExportTrainSchedules | front/src/modules/trainschedule/components/Timetable/TimetableToolbar.tsx:126-141 | Without schedules nothing happens. Otherwise the selected schedules are downloaded. |
| TimetableToolbar.DeleteEffects | front/src/modules/trainschedule/components/Timetable/TimetableToolbar.tsx:97-124 | The selected train is cleared before the request exactly when it has a non-zero id and is among the deleted trains. On success the parent removes the selected trains, and the success count is the selection's size. On failure nothing is removed, and exactly one of two things happens: the selected train is restored, or a failure is shown. |
| TimetableToolbar.DeleteKeepsSelectionValid | front/src/modules/trainschedule/components/Timetable/TimetableToolbar.tsx:97-124 | After a successful delete, a selected train with a non-zero id that was deleted is cleared, and any other selection is kept. A selected train of id 0 is kept even when deleted, because the guard is a truthiness test. After a failed delete, the selection is what it was before. |
| TimetableToolbar.Toolbar.HandleTrainsDelete | front/src/modules/trainschedule/components/Timetable/TimetableToolbar.tsx:97-124 | The delete performs those effects in order, and the store's selected train follows them. |
| TimetableToolbar.Toolbar.ToggleFilterPanel | front/src/modules/trainschedule/components/Timetable/TimetableToolbar.tsx:85-87 | It negates the panel-open flag. |
| TimetableToolbar.Toolbar.ToggleFilterPanelTwice | front/src/modules/trainschedule/components/Timetable/TimetableToolbar.tsx:85-87 | Toggling twice leaves the panel as it was. |
| EditorApi.CreateRailjson | front/src/applications/editor/data/api.ts:99 | A created object gets a fresh id and both geometries from its feature. Its own properties override any of the three. |
| EditorApi.SavePayload | front/src/applications/editor/data/api.ts:95-112 | There is one entry per entity to create, update or delete, with a missing list counted as empty. The creations come first, then the updates, then the deletions, each in input order. An update carries the entity's id and properties as the patch; a deletion carries only its id and type. |
| EditorApi.SavePayloadGroups | front/src/applications/editor/data/api.ts:95-112 | The entries are grouped by kind in that order, with as many of each kind as the matching list has entities. |
| EditorApi.EditorSave | front/src/applications/editor/data/api.ts:87-118 | It posts that payload to the given infrastructure and always answers an empty list. |
| EditorApi.SplitJoin | front/src/applications/editor/data/api.ts:36 | Splitting a `$ref` on slashes loses nothing. |
| EditorApi.JoinSplit | front/src/applications/editor/data/api.ts:36 | Pieces without slashes are what their join splits into. |
| EditorApi.DefinitionRefSplit | front/src/applications/editor/data/api.ts:36-37 | A `#/group/name` reference splits into the group and the name. |
| EditorApi.StripDefinition | front/src/applications/editor/data/api.ts:31-39 | `id`, `geo` and `sch` are dropped from a definition's properties and from its required list, and everything else is kept. A missing required list becomes empty. |
| EditorApi.StripIdempotent | front/src/applications/editor/data/api.ts:38-39 | Stripping twice is stripping once. |
| EditorApi.Resolve | front/src/applications/editor/data/api.ts:36-37 | A layer whose items have no `$ref` fails. Otherwise the `$ref` is split on slashes. It resolves exactly when it has at least three pieces and the second and third name an existing group and a definition in it. The result is then that (group, name) pair; any other `$ref` fails with itself as the unresolved reference. |
| EditorApi.ArrayLayers | front/src/applications/editor/data/api.ts:32-33 | The layers are exactly the schema's properties of type array, and never more than the properties. |
| EditorApi.ArrayLayersAppend | front/src/applications/editor/data/api.ts:32-33 | The filter keeps the properties' order: filtering a concatenation filters each part, and one property is kept exactly when its type is array. |
| EditorApi.ResolveDefinitionRef | front/src/applications/editor/data/api.ts:36-37 | A layer referring to `#/group/name` resolves to that definition when it exists. |
| EditorApi.ResolveAllFails | front/src/applications/editor/data/api.ts:32-49 | Building the schema fails exactly when some layer's reference does not resolve. The error is that of the first such layer. |
| EditorApi.StripAllValue | front/src/applications/editor/data/api.ts:37-39 | After stripping, a definition some layer refers to is stripped once, and every other definition is as fetched. |
| EditorApi.EditorSchemaKeys | front/src/applications/editor/data/api.ts:32-50 | The result's layers are exactly the array properties. |
| EditorApi.EditorSchemaDefinition | front/src/applications/editor/data/api.ts:36-48 | Each layer's group and object type are the definition its own `$ref` resolves to. Its definition is that one without `id`, `geo` and `sch`, and the group the layer carries holds it. |
| EditorApi.GetEditorSchema | front/src/applications/editor/data/api.ts:29-52 | Stripping the definitions in place, layer by layer, gives the result. |
| EditorApi.LayerEntities | front/src/applications/editor/data/api.ts:73 | Each feature becomes one entity with the id its properties carry and the layer's object type. Its geometry and properties are unchanged. |
| EditorApi.EditorData | front/src/applications/editor/data/api.ts:57-82 | The result is keyed by exactly the requested layers. |
| EditorApi.EditorDataLastWins | front/src/applications/editor/data/api.ts:77-80 | A layer holds the entities of the last response for it. |
| SetPointIti.PointItiActions | front/src/modules/trainschedule/components/ManageTrainSchedule/ManageTrainScheduleMap/setPointIti.ts:15-29 | An origin dispatches its update and then closes the popup, and a destination likewise. A via with path properties adds the via and then closes the popup. A via without them only closes the popup. So there are at most two actions, and the popup close is always last. |
| SetPointIti.PointItiRouting | front/src/modules/trainschedule/components/ManageTrainSchedule/ManageTrainScheduleMap/setPointIti.ts:15-28 | A via is added exactly when one was asked for and the path properties are known. The origin and the destination are each set only by their own point type, and always to the picked step. |
| SetPointIti.SetPointItiV2 | front/src/modules/trainschedule/components/ManageTrainSchedule/ManageTrainScheduleMap/setPointIti.ts:7-30 | The store receives exactly those actions, after the ones it already had. |

## Left out

- Helper functions: the helpers listed above are parameters, so no property of theirs is used. A result that depends on one is stated in terms of it.
- JavaScript numbers are `real`: NaN, infinities and floating-point rounding are not modelled. Detector positions and track lengths (`f64`) are `real` too.
- Dates: `new Date(startTime)` is a parameter mapping the ISO text to an integer instant. `dateTimeFormatting` of the window bounds is left out; the failure carries the bounds themselves.
- Failure messages: i18n texts are replaced by one constructor per failure kind.
- Detector order: the order of `infra_cache.detectors().values()` is a hash map's. The model visits detectors in the order of a sequence, so a statement about order holds for any order.
- `Graph::load` is dropped: the checks ignore the graph.
- `unwrap_detector` and `unwrap_track_section` are left out: the cache entries are typed as detectors and track sections.
- `insert_errors` is left out: it is a database insert.
- The widget's own enforcement of its `min`/`max` bounds is not part of this model (it lives in `DebouncedNumberInputSNCF`); only the bounds given to it are stated.
- IntervalsEditor.IntervalsEditorForm.ResizeSegmentByInput: requires a defined selected index, as the property's type demands. After a resize that stores `undefined`, a further resize is therefore outside the model.
- React scheduling: effects run in the order they are declared. A render-time re-run of an effect with an unchanged dependency is not modelled.
- Filters: the text, rolling stock, validity, scheduled-points and tag filters are left out. So are `useFilterTrainSchedules` (whose body is not part of this model), the debouncing, and the "more details" button. Displayed and detailed trains are plain fields.
- The toolbar's rendering conditions are not modelled: the delete and export buttons show only for a non-empty selection, and the no-train checkbox shows when there are no schedules. `timetableHasInvalidTrain` is left out too. The handlers are modelled for any selection.
- TimetableToolbar.Toolbar.HandleTrainsDelete: `removeTrains` is logged rather than applied, since the parent's lists are not part of this model. An exception thrown inside the success callback, which the catch would also handle, is not modelled.
- The export's JSON serialisation, Blob, object URL and link click are one `Download` effect carrying the exported schedules.
- EditorApi.GetEditorSchema: a `$ref` whose group name is `properties` is resolved among the definition groups, not the layer properties. A definition field with the same name as its group, which the spread would override, is not modelled. Throwing is an `Err` result.
- EditorApi.EditorData: the bounding box, the infrastructure id and the requests are replaced by one response per requested layer. A feature's own fields other than geometry and properties are dropped.
- `getInfrastructure` and `getInfrastructures` are left out: they are bare HTTP calls.
- `console.log` in `editorSave` and `console.error` in `setPointItiV2` are left out.

## Findings

| source | as written | input that shows it | evidently intended | confidence | as-written member | corrected member |
|---|---|---|---|---|---|---|
| editoast/src/generated_data/error/detectors.rs:34-85 | `generate_errors` runs every check on every detector. For a detector whose track section is missing, `check_out_of_range` unwraps a missing entry and panics, although `check_invalid_ref` has just reported that very detector. | The detector `D_error` on the missing track `E` at 250, from the invalid-reference test. | Stop at the invalid reference, as in the commented-out lines 44-48 (`continue`), and report only that error. | not executed | Detectors.GenerateErrorsAsWrittenPanics | Detectors.GenerateErrorsChecked |
