/** The toolbar above a scenario's timetable
    (front/src/modules/trainschedule/components/Timetable/TimetableToolbar.tsx):
    the selection of trains, the select-all checkbox, the export of the
    selected schedules, their deletion and the filter panel toggle.

    What the toolbar does to the world (Redux dispatches, the parent's
    `removeTrains` callback, the delete request, the file download) is
    recorded, in order, in a log of effects. */
module TimetableToolbar {
  import opened Common

  /** The fields of a train schedule other than its ids; the export copies
      them unchanged. */
  datatype ScheduleFields = ScheduleFields(
    trainName: string,
    rollingStockName: string,
    startTime: string,
    labels: seq<string>)

  datatype TrainScheduleResult = TrainScheduleResult(id: int, timetableId: int, fields: ScheduleFields)

  /** A train as listed in the timetable, with its computed details. */
  datatype TrainScheduleWithDetails = TrainScheduleWithDetails(id: int, trainName: string, isValid: bool)

  /** The outcome of the delete request. */
  datatype DeleteOutcome = Deleted | Rejected(error: string)

  datatype Effect =
    | UpdateSelectedTrainId(trainId: Option<int>)
    | DeleteTrainSchedules(ids: seq<int>)
    | RemoveTrains(ids: seq<int>)
    | SetSuccess(count: nat)
    | SetFailure(error: string)
    | Download(schedules: seq<ScheduleFields>)

  // ---------------------------------------------------------------------------
  // Select all

  function Ids(trains: seq<TrainScheduleWithDetails>): (r: seq<int>)
    ensures |r| == |trains|
    ensures forall k :: 0 <= k < |r| ==> r[k] == trains[k].id
  {
    seq(|trains|, k requires 0 <= k < |trains| => trains[k].id)
  }

  /** The selection after the select-all checkbox is clicked: empty when as
      many trains are selected as are displayed, else every displayed train. */
  function ToggledSelection(displayed: seq<TrainScheduleWithDetails>, selected: seq<int>): seq<int> {
    if |displayed| == |selected| then [] else Ids(displayed)
  }

  /** The checkbox's two flags. */
  datatype Checkbox = Checkbox(checked: bool, indeterminate: bool)

  /** Checked when every train is selected, indeterminate when some but not
      all are; the two never hold together and neither holds on an empty
      selection. */
  function CheckboxState(selectedCount: nat, withDetailsCount: nat): (r: Checkbox)
    ensures r.checked <==> selectedCount == withDetailsCount && selectedCount > 0
    ensures !(r.checked && r.indeterminate)
    ensures selectedCount == 0 ==> !r.checked && !r.indeterminate
    ensures selectedCount > 0 ==> r.checked != r.indeterminate
  {
    Checkbox(
      checked := selectedCount == withDetailsCount && selectedCount > 0,
      indeterminate := selectedCount != withDetailsCount && selectedCount > 0)
  }

  /** With no filter hiding trains, clicking the checkbox of a partial
      selection checks it, and clicking it again clears it. */
  lemma ToggleAllTwice(trains: seq<TrainScheduleWithDetails>, selected: seq<int>)
    requires |trains| > 0 && |selected| != |trains|
    ensures var once := ToggledSelection(trains, selected);
      && once == Ids(trains)
      && CheckboxState(|once|, |trains|) == Checkbox(true, false)
      && ToggledSelection(trains, once) == []
      && CheckboxState(|ToggledSelection(trains, once)|, |trains|) == Checkbox(false, false)
  {
  }

  /** The comparison is by count only: a selection of as many trains as are
      displayed is cleared even when none of them is displayed. */
  lemma ToggleComparesCountsOnly()
    ensures ToggledSelection([TrainScheduleWithDetails(1, "a", true), TrainScheduleWithDetails(2, "b", true)], [3, 4]) == []
  {
  }

  // ---------------------------------------------------------------------------
  // Export

  /** The selected schedules, in their original order, without `id` and
      `timetable_id`. */
  function ExportedSchedules(schedules: seq<TrainScheduleResult>, ids: seq<int>): seq<ScheduleFields> {
    if schedules == [] then []
    else ExportedSchedules(schedules[..|schedules| - 1], ids)
         + (if schedules[|schedules| - 1].id in ids then [schedules[|schedules| - 1].fields] else [])
  }

  lemma {:induction false} ExportedAppend(a: seq<TrainScheduleResult>, b: seq<TrainScheduleResult>, ids: seq<int>)
    ensures ExportedSchedules(a + b, ids) == ExportedSchedules(a, ids) + ExportedSchedules(b, ids)
  {
    if b == [] {
      assert a + b == a;
    } else {
      var n := |b| - 1;
      assert (a + b)[..|a + b| - 1] == a + b[..n];
      ExportedAppend(a, b[..n], ids);
    }
  }

  /** Exactly the schedules whose id is selected are exported, stripped of
      their ids. */
  lemma {:induction false} ExportedMembers(schedules: seq<TrainScheduleResult>, ids: seq<int>, f: ScheduleFields)
    ensures f in ExportedSchedules(schedules, ids)
            <==> exists k :: 0 <= k < |schedules| && schedules[k].id in ids && schedules[k].fields == f
  {
    if schedules != [] {
      var n := |schedules| - 1;
      ExportedMembers(schedules[..n], ids, f);
      if exists k :: 0 <= k < |schedules| && schedules[k].id in ids && schedules[k].fields == f {
        var k :| 0 <= k < |schedules| && schedules[k].id in ids && schedules[k].fields == f;
        if k < n {
          assert schedules[..n][k] == schedules[k];
        }
      }
      if f in ExportedSchedules(schedules[..n], ids) {
        var k :| 0 <= k < n && schedules[..n][k].id in ids && schedules[..n][k].fields == f;
        assert schedules[k] == schedules[..n][k];
      }
    }
  }

  /** Nothing is dropped when every schedule is selected, and nothing is
      exported when none is. */
  lemma {:induction false} ExportedAllOrNone(schedules: seq<TrainScheduleResult>, ids: seq<int>)
    ensures (forall k :: 0 <= k < |schedules| ==> schedules[k].id in ids)
            ==> |ExportedSchedules(schedules, ids)| == |schedules|
    ensures (forall k :: 0 <= k < |schedules| ==> schedules[k].id !in ids)
            ==> ExportedSchedules(schedules, ids) == []
    ensures |ExportedSchedules(schedules, ids)| <= |schedules|
  {
    if schedules != [] {
      var n := |schedules| - 1;
      ExportedAllOrNone(schedules[..n], ids);
      assert forall k :: 0 <= k < n ==> schedules[..n][k] == schedules[k];
    }
  }

  // ---------------------------------------------------------------------------
  // Delete

  /** The globally selected train is among those being deleted. */
  predicate SelectedTrainAffected(selectedIds: seq<int>, selectedTrainId: Option<int>) {
    TruthyInt(selectedTrainId) && selectedTrainId.value in selectedIds
  }

  /** The effects of a delete, in order. */
  function DeleteEffects(selectedIds: seq<int>, selectedTrainId: Option<int>, outcome: DeleteOutcome): (r: seq<Effect>)
    ensures 2 <= |r| <= 4
    // the selected train is cleared before the request is issued
    ensures SelectedTrainAffected(selectedIds, selectedTrainId)
            ==> r[0] == UpdateSelectedTrainId(None) && r[1] == DeleteTrainSchedules(selectedIds)
    ensures !SelectedTrainAffected(selectedIds, selectedTrainId) ==> r[0] == DeleteTrainSchedules(selectedIds)
    // on success, the parent removes the selected trains and the count is the selection's size
    ensures outcome.Deleted? ==> r[|r| - 2..] == [RemoveTrains(selectedIds), SetSuccess(|selectedIds|)]
    // on failure, either the selected train is restored or a failure is shown, never both
    ensures outcome.Rejected? ==>
              && RemoveTrains(selectedIds) !in r
              && (SetFailure(outcome.error) in r <==> !SelectedTrainAffected(selectedIds, selectedTrainId))
              && (UpdateSelectedTrainId(selectedTrainId) in r <==> SelectedTrainAffected(selectedIds, selectedTrainId))
  {
    var affected := SelectedTrainAffected(selectedIds, selectedTrainId);
    (if affected then [UpdateSelectedTrainId(None)] else [])
    + [DeleteTrainSchedules(selectedIds)]
    + match outcome
      case Deleted => [RemoveTrains(selectedIds), SetSuccess(|selectedIds|)]
      case Rejected(e) => if affected then [UpdateSelectedTrainId(selectedTrainId)] else [SetFailure(e)]
  }

  /** The selected train id after a sequence of effects. */
  function SelectedAfter(effects: seq<Effect>, selectedTrainId: Option<int>): Option<int> {
    if effects == [] then selectedTrainId
    else
      var last := effects[|effects| - 1];
      if last.UpdateSelectedTrainId? then last.trainId
      else SelectedAfter(effects[..|effects| - 1], selectedTrainId)
  }

  lemma {:induction false} SelectedAfterAppend(a: seq<Effect>, b: seq<Effect>, id: Option<int>)
    ensures SelectedAfter(a + b, id) == SelectedAfter(b, SelectedAfter(a, id))
  {
    if b == [] {
      assert a + b == a;
    } else {
      assert (a + b)[..|a + b| - 1] == a + b[..|b| - 1];
      SelectedAfterAppend(a, b[..|b| - 1], id);
    }
  }

  /** After a successful delete, the global selection never points at a
      deleted train; after a failed one it is what it was before. */
  lemma DeleteKeepsSelectionValid(selectedIds: seq<int>, selectedTrainId: Option<int>, outcome: DeleteOutcome)
    ensures var after := SelectedAfter(DeleteEffects(selectedIds, selectedTrainId, outcome), selectedTrainId);
      && (outcome.Deleted? && SelectedTrainAffected(selectedIds, selectedTrainId) ==> after == None)
      && (outcome.Deleted? && !SelectedTrainAffected(selectedIds, selectedTrainId) ==> after == selectedTrainId)
      && (outcome.Rejected? ==> after == selectedTrainId)
      // the guard is JavaScript truthiness: a selected train of id 0 is kept even when deleted
      && (outcome.Deleted? && selectedTrainId == Some(0) ==> after == Some(0))
  {
    var affected := SelectedTrainAffected(selectedIds, selectedTrainId);
    var head: seq<Effect> := (if affected then [UpdateSelectedTrainId(None)] else []) + [DeleteTrainSchedules(selectedIds)];
    var tail: seq<Effect> :=
      match outcome
      case Deleted => [RemoveTrains(selectedIds), SetSuccess(|selectedIds|)]
      case Rejected(e) => if affected then [UpdateSelectedTrainId(selectedTrainId)] else [SetFailure(e)];
    assert DeleteEffects(selectedIds, selectedTrainId, outcome) == head + tail;
    SelectedAfterAppend(head, tail, selectedTrainId);
    if affected {
      SelectedAfterAppend([UpdateSelectedTrainId(None)], [DeleteTrainSchedules(selectedIds)], selectedTrainId);
    } else {
      assert head == [DeleteTrainSchedules(selectedIds)];
    }
    if outcome.Deleted? {
      assert tail[..1] == [RemoveTrains(selectedIds)];
    }
  }

  // ---------------------------------------------------------------------------
  // The toolbar's state

  class Toolbar {
    /** The selected trains (the parent's state). */
    var selectedTrainIds: seq<int>
    /** The train shown in the simulation results (the global store). */
    var selectedTrainId: Option<int>
    var isFilterPanelOpen: bool
    var displayedTrainSchedules: seq<TrainScheduleWithDetails>
    var trainSchedulesWithDetails: seq<TrainScheduleWithDetails>
    var trainSchedules: Option<seq<TrainScheduleResult>>
    /** Everything the toolbar did to the outside world, oldest first. */
    var effects: seq<Effect>

    /** The filter panel starts closed and nothing has happened yet. */
    constructor (selectedTrainIds: seq<int>, selectedTrainId: Option<int>,
                 displayed: seq<TrainScheduleWithDetails>, withDetails: seq<TrainScheduleWithDetails>,
                 trainSchedules: Option<seq<TrainScheduleResult>>)
      ensures this.selectedTrainIds == selectedTrainIds && this.selectedTrainId == selectedTrainId
      ensures displayedTrainSchedules == displayed && trainSchedulesWithDetails == withDetails
      ensures this.trainSchedules == trainSchedules
      ensures !isFilterPanelOpen && effects == []
    {
      this.selectedTrainIds := selectedTrainIds;
      this.selectedTrainId := selectedTrainId;
      displayedTrainSchedules := displayed;
      trainSchedulesWithDetails := withDetails;
      this.trainSchedules := trainSchedules;
      isFilterPanelOpen := false;
      effects := [];
    }

    /** The select-all checkbox as currently drawn. */
    function CheckboxNow(): Checkbox
      reads this
    {
      CheckboxState(|selectedTrainIds|, |trainSchedulesWithDetails|)
    }

    method ToggleFilterPanel()
      modifies this`isFilterPanelOpen
      ensures isFilterPanelOpen == !old(isFilterPanelOpen)
    {
      isFilterPanelOpen := !isFilterPanelOpen;
    }

    /** Toggling the filter panel twice leaves it as it was. */
    method ToggleFilterPanelTwice()
      modifies this`isFilterPanelOpen
      ensures isFilterPanelOpen == old(isFilterPanelOpen)
    {
      ToggleFilterPanel();
      ToggleFilterPanel();
    }

    method ToggleAllTrainsSelection()
      modifies this`selectedTrainIds
      ensures selectedTrainIds == ToggledSelection(displayedTrainSchedules, old(selectedTrainIds))
      ensures |old(selectedTrainIds)| == |displayedTrainSchedules| ==> selectedTrainIds == []
      ensures |old(selectedTrainIds)| != |displayedTrainSchedules| ==>
                |selectedTrainIds| == |displayedTrainSchedules|
                && forall k :: 0 <= k < |selectedTrainIds| ==> selectedTrainIds[k] == displayedTrainSchedules[k].id
    // with no filter hiding trains, a click on a partial selection checks the box, and on a full one clears it
    ensures displayedTrainSchedules == trainSchedulesWithDetails && |displayedTrainSchedules| > 0 ==>
              CheckboxNow() == (if |old(selectedTrainIds)| == |displayedTrainSchedules|
                                then Checkbox(false, false) else Checkbox(true, false))
    {
      if |displayedTrainSchedules| == |selectedTrainIds| {
        selectedTrainIds := [];
      } else {
        selectedTrainIds := Ids(displayedTrainSchedules);
      }
    }

    /** Records an effect; a selected-train update also changes the store. */
    method Dispatch(e: Effect)
      modifies this`effects, this`selectedTrainId
      ensures effects == old(effects) + [e]
      ensures selectedTrainId == SelectedAfter([e], old(selectedTrainId))
    {
      effects := effects + [e];
      if e.UpdateSelectedTrainId? {
        selectedTrainId := e.trainId;
      }
    }

    /** Deletes the selected trains; `outcome` is the server's answer. */
    method HandleTrainsDelete(outcome: DeleteOutcome)
      modifies this`effects, this`selectedTrainId
      ensures effects == old(effects) + DeleteEffects(selectedTrainIds, old(selectedTrainId), outcome)
      ensures selectedTrainId
              == SelectedAfter(DeleteEffects(selectedTrainIds, old(selectedTrainId), outcome), old(selectedTrainId))
    {
      var trainsCount := |selectedTrainIds|;
      var captured := selectedTrainId;
      var affected := TruthyInt(captured) && captured.value in selectedTrainIds;
      ghost var log := effects;
      ghost var done: seq<Effect> := [];
      if affected {
        Dispatch(UpdateSelectedTrainId(None));
        SelectedAfterAppend(done, [UpdateSelectedTrainId(None)], captured);
        done := done + [UpdateSelectedTrainId(None)];
      }
      Dispatch(DeleteTrainSchedules(selectedTrainIds));
      SelectedAfterAppend(done, [DeleteTrainSchedules(selectedTrainIds)], captured);
      done := done + [DeleteTrainSchedules(selectedTrainIds)];
      match outcome {
      case Deleted =>
        Dispatch(RemoveTrains(selectedTrainIds));
        SelectedAfterAppend(done, [RemoveTrains(selectedTrainIds)], captured);
        done := done + [RemoveTrains(selectedTrainIds)];
        Dispatch(SetSuccess(trainsCount));
        SelectedAfterAppend(done, [SetSuccess(trainsCount)], captured);
        done := done + [SetSuccess(trainsCount)];
      case Rejected(e) =>
        if affected {
          Dispatch(UpdateSelectedTrainId(captured));
          SelectedAfterAppend(done, [UpdateSelectedTrainId(captured)], captured);
          done := done + [UpdateSelectedTrainId(captured)];
        } else {
          Dispatch(SetFailure(e));
          SelectedAfterAppend(done, [SetFailure(e)], captured);
          done := done + [SetFailure(e)];
        }
      }
      assert done == DeleteEffects(selectedTrainIds, captured, outcome);
      assert effects == log + done;
    }

    /** Exports the schedules of the given trains, unless there are no
        schedules at all. */
    method ExportTrainSchedules(ids: seq<int>)
      modifies this`effects
      ensures trainSchedules.None? ==> effects == old(effects)
      ensures trainSchedules.Some? ==> effects == old(effects) + [Download(ExportedSchedules(trainSchedules.value, ids))]
    {
      if trainSchedules.None? {
        return;
      }
      effects := effects + [Download(ExportedSchedules(trainSchedules.value, ids))];
    }
  }

}
