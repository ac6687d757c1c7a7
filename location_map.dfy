/** The live-position map component (components/screens/Map.js): a
    permission gate, a subscription whose samples move the current
    position and extend the trail, and the `text` value the component
    computes. Its JSX never uses `text`, so nothing on screen shows it.

    As written, the component takes `errorMsg` and `setErrorMsg` as
    properties of the `useState` function itself, so both are undefined:
    the denial branch throws when it calls `setErrorMsg`, and `text` can
    never hold an error. The model keeps that behaviour. */
module LocationMap {
  import opened Platform

  /** The permission status the gate accepts. */
  const Granted := "granted"

  /** Where the mount effect is: not yet resolved, subscribed, or failed
      (denial throws before anything is subscribed). */
  datatype Phase = Idle | Tracking | Failed

  /** What `text` holds: an error message, the serialised position, or the
      literal 'Waiting...'. */
  datatype Status = ErrorText(message: string) | LocationText(location: Coordinates) | Waiting

  /** `text`: a truthy error message first, then a present location, then
      'Waiting...'. */
  function StatusText(errorMsg: Option<string>, location: Option<Coordinates>): (s: Status)
    ensures s.ErrorText? <==> Truthy(errorMsg)
    ensures s.ErrorText? ==> s.message == errorMsg.value
    ensures s.LocationText? <==> !Truthy(errorMsg) && location.Some?
    ensures s.LocationText? ==> s.location == location.value
  {
    if Truthy(errorMsg) then ErrorText(errorMsg.value)
    else if location.Some? then LocationText(location.value)
    else Waiting
  }

  class PositionTracker {
    var location: Option<Coordinates>
    var path: seq<Coordinates>
    var phase: Phase

    /** The position shown is the last point of the trail, and there is a
        trail only once tracking has begun. */
    ghost predicate Valid()
      reads this
    {
      && (location == None <==> path == [])
      && (path != [] ==> location == Some(path[|path| - 1]))
      && (phase != Tracking ==> path == [])
    }

    constructor ()
      ensures Valid() && phase == Idle
      ensures location == None && path == []
    {
      location, path, phase := None, [], Idle;
    }

    /** `getCurrentLocation`: only a granted permission subscribes. On any
        other status the call to the undefined `setErrorMsg` throws, so
        the effect's promise rejects and nothing is subscribed. */
    method GetCurrentLocation(status: string) returns (settled: Settlement)
      requires Valid() && phase == Idle
      modifies this`phase
      ensures Valid()
      ensures phase == Tracking <==> status == Granted
      ensures phase != Tracking ==> phase == Failed
      ensures settled == Resolved <==> status == Granted
    {
      if status != Granted {
        phase := Failed;
        settled := Rejected;
        return;
      }
      phase := Tracking;
      settled := Resolved;
    }

    /** The `watchPositionAsync` callback: the sample becomes the position
        and is appended to the trail, whose earlier points stay. */
    method OnSample(sample: Coordinates)
      requires Valid() && phase == Tracking
      modifies this`location, this`path
      ensures Valid()
      ensures location == Some(sample)
      ensures path == old(path) + [sample]
    {
      location := Some(sample);
      path := path + [sample];
    }

    /** The `text` value the component computes, with `errorMsg`
        undefined: never an error, the position once there is one. */
    function Text(): (s: Status)
      reads this
      ensures !s.ErrorText?
      ensures s.LocationText? <==> location.Some?
      ensures s.LocationText? ==> Some(s.location) == location
    {
      StatusText(None, location)
    }
  }

  /** A denied permission leaves no position, no trail, and `text` holding
      'Waiting...' for good. */
  method DeniedStaysWaiting(status: string) returns (text: Status, trail: seq<Coordinates>)
    requires status != Granted
    ensures text == Waiting && trail == []
  {
    var tracker := new PositionTracker();
    var _ := tracker.GetCurrentLocation(status);
    text := tracker.Text();
    trail := tracker.path;
  }

  /** Two samples after a granted permission: the trail holds both in
      order and `text` holds the second. */
  method TwoSamples(first: Coordinates, second: Coordinates) returns (text: Status, trail: seq<Coordinates>)
    ensures trail == [first, second]
    ensures text == LocationText(second)
  {
    var tracker := new PositionTracker();
    var _ := tracker.GetCurrentLocation(Granted);
    tracker.OnSample(first);
    tracker.OnSample(second);
    text := tracker.Text();
    trail := tracker.path;
  }
}
