/** The geolocation plugin as far as the compass service uses it: the
    location record it reports, request options, and the bookkeeping of
    continuous watches. */
module Geolocation {
  import opened JsValues

  /** A location as the plugin reports it. */
  datatype Location = Location(
    latitude: real,
    longitude: real,
    altitude: real,
    horizontalAccuracy: real,
    verticalAccuracy: real,
    speed: real,
    direction: real,
    timestamp: int)

  /** Request options: a JavaScript object literal, field name to value. */
  type Options = map<string, Value>

  /** The plugin's record of continuous watches: every `watchLocation`
      registration with its options, and every handle given to
      `clearWatch`, in call order. */
  class Platform {
    var watches: seq<Options>
    var cleared: seq<int>

    constructor ()
      ensures watches == [] && cleared == []
    {
      watches := [];
      cleared := [];
    }

    /** Registers a watch; `handle` is the id the plugin hands back. */
    method WatchLocation(options: Options, handle: int) returns (id: int)
      modifies this
      ensures watches == old(watches) + [options]
      ensures cleared == old(cleared)
      ensures id == handle
    {
      watches := watches + [options];
      id := handle;
    }

    /** Cancels the watch with the given id. */
    method ClearWatch(id: int)
      modifies this
      ensures cleared == old(cleared) + [id]
      ensures watches == old(watches)
    {
      cleared := cleared + [id];
    }
  }
}
