/** The operational-study store's description of one point of an itinerary
    (a `PathStep`), as read by the STDCM request builder and written by the
    map's point picker. Only the fields those two read are kept. */
module PathSteps {
  import opened Common

  /** Where a step lies: on a track at an offset (in metres), or at an
      operational point named by its id, its trigram or its UIC code. A
      trigram or UIC step may already carry a secondary code. */
  datatype StepLocation =
    | TrackOffset(track: string, offset: real)
    | OperationalPointId(operationalPoint: string)
    | Trigram(trigram: string, storedSecondaryCode: Option<string>)
    | Uic(uic: int, storedSecondaryCode: Option<string>)

  /** A step of the itinerary. `stopFor` is the stop duration as typed (an
      ISO 8601 duration or a plain number of seconds), `ch` the station's
      secondary code. */
  datatype PathStep = PathStep(
    id: string,
    name: Option<string>,
    stopFor: Option<string>,
    ch: Option<string>,
    location: StepLocation)
}
