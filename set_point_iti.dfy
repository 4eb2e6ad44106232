/** Routing a point picked on the map to the itinerary
    (front/src/modules/trainschedule/components/ManageTrainSchedule/ManageTrainScheduleMap/setPointIti.ts):
    the point becomes the origin, the destination or a new via, and the map's
    popup is closed. The store is modelled by the list of actions dispatched
    to it. */
module SetPointIti {
  import opened Common
  import opened PathSteps

  datatype PointType = Origin | Destination | Via

  /** The computed properties of the current path, which placing a via
      needs; their contents are not read here. */
  datatype PathProperties = PathProperties(length: int, geometry: seq<(real, real)>)

  datatype StoreAction =
    | UpdateOrigin(step: PathStep)
    | UpdateDestination(step: PathStep)
    | AddVia(newVia: PathStep, pathProperties: PathProperties)
    | UpdateFeatureInfoClick(displayPopup: bool)

  /** The actions one call dispatches, in order. */
  function PointItiActions(pointType: PointType, pathStep: PathStep, pathProperties: Option<PathProperties>): (r: seq<StoreAction>)
    ensures 1 <= |r| <= 2
    ensures r[|r| - 1] == UpdateFeatureInfoClick(false)
    ensures pointType == Origin ==> r == [UpdateOrigin(pathStep), UpdateFeatureInfoClick(false)]
    ensures pointType == Destination ==> r == [UpdateDestination(pathStep), UpdateFeatureInfoClick(false)]
    ensures pointType == Via && pathProperties.Some? ==>
              r == [AddVia(pathStep, pathProperties.value), UpdateFeatureInfoClick(false)]
    ensures pointType == Via && pathProperties.None? ==> r == [UpdateFeatureInfoClick(false)]
  {
    var placed :=
      match pointType
      case Origin => [UpdateOrigin(pathStep)]
      case Destination => [UpdateDestination(pathStep)]
      case Via => if pathProperties.Some? then [AddVia(pathStep, pathProperties.value)] else [];
    placed + [UpdateFeatureInfoClick(false)]
  }

  /** A via is added exactly when one was asked for and the path's properties
      are known; the origin and the destination are only ever set by their
      own point type. */
  lemma PointItiRouting(pointType: PointType, pathStep: PathStep, pathProperties: Option<PathProperties>)
    ensures var r := PointItiActions(pointType, pathStep, pathProperties);
      && ((exists a :: a in r && a.AddVia?) <==> pointType == Via && pathProperties.Some?)
      && ((exists a :: a in r && a.UpdateOrigin?) <==> pointType == Origin)
      && ((exists a :: a in r && a.UpdateDestination?) <==> pointType == Destination)
      && (forall a :: a in r && (a.UpdateOrigin? || a.UpdateDestination?) ==> a.step == pathStep)
      && (forall a :: a in r && a.AddVia? ==> a.newVia == pathStep && pathProperties == Some(a.pathProperties))
  {
    var r := PointItiActions(pointType, pathStep, pathProperties);
    if pointType == Via && pathProperties.Some? {
      assert r[0].AddVia?;
    }
    if pointType == Origin {
      assert r[0].UpdateOrigin?;
    }
    if pointType == Destination {
      assert r[0].UpdateDestination?;
    }
  }

  /** The store, seen through the actions dispatched to it. */
  class ConfStore {
    var actions: seq<StoreAction>

    constructor ()
      ensures actions == []
    {
      actions := [];
    }

    method Dispatch(a: StoreAction)
      modifies this
      ensures actions == old(actions) + [a]
    {
      actions := actions + [a];
    }
  }

  /** `setPointItiV2`. */
  method SetPointItiV2(store: ConfStore, pointType: PointType, pathStep: PathStep, pathProperties: Option<PathProperties>)
    modifies store
    ensures store.actions == old(store.actions) + PointItiActions(pointType, pathStep, pathProperties)
  {
    match pointType {
      case Origin =>
        store.Dispatch(UpdateOrigin(pathStep));
      case Destination =>
        store.Dispatch(UpdateDestination(pathStep));
      case Via =>
        if pathProperties.Some? {
          store.Dispatch(AddVia(pathStep, pathProperties.value));
        }
    }
    store.Dispatch(UpdateFeatureInfoClick(false));
  }
}
