/** CompassService: the single continuous location watch, the latest-fix
    slot behind the published stream, one-shot location requests, the
    stubbed nearest-site lookup and the Islamic marker builder. */
module Compass {
  import opened Wrappers
  import opened JsValues
  import opened Entities
  import opened IslamicMarker
  import opened MapSdk
  import opened Geolocation
  import MussalaSettings

  // ---------------------------------------------------------------------
  // Latest-fix slot
  // ---------------------------------------------------------------------

  /** The current value of the location subject: the initial empty
      object, or the last location the watch delivered. */
  datatype Latest = Blank | Fix(loc: Location)

  /** What one watch callback does to the slot: a truthy location replaces
      it, a falsy one leaves it alone. */
  function Step(slot: Latest, loc: Option<Location>): Latest
  {
    if loc.Some? then Fix(loc.value) else slot
  }

  /** The slot after the watch delivered `fixes` in order: its start
      value or one of the delivered locations, never anything else. */
  function Replay(slot: Latest, fixes: seq<Option<Location>>): (r: Latest)
    ensures r == slot || (r.Fix? && exists k :: 0 <= k < |fixes| && fixes[k] == Some(r.loc))
    decreases |fixes|
  {
    if fixes == [] then slot else Replay(Step(slot, fixes[0]), fixes[1..])
  }

  /** The last truthy location among `fixes`, if any. */
  function MostRecent(fixes: seq<Option<Location>>): (r: Option<Location>)
    ensures r.Some? ==> exists k :: 0 <= k < |fixes| && fixes[k] == r &&
                          forall j :: k < j < |fixes| ==> fixes[j].None?
    ensures r.None? ==> forall k :: 0 <= k < |fixes| ==> fixes[k].None?
    decreases |fixes|
  {
    if fixes == [] then None
    else if fixes[|fixes| - 1].Some? then fixes[|fixes| - 1]
    else MostRecent(fixes[..|fixes| - 1])
  }

  /** After any run of callbacks the slot holds the most recent truthy
      location, or its earlier value when none was truthy: a new
      subscriber first receives exactly that. */
  lemma {:induction false} ReplayKeepsMostRecent(slot: Latest, fixes: seq<Option<Location>>)
    ensures Replay(slot, fixes) ==
      if MostRecent(fixes).Some? then Fix(MostRecent(fixes).value) else slot
    decreases |fixes|
  {
    if fixes != [] {
      var n := |fixes| - 1;
      ReplaySplit(slot, fixes[..n], fixes[n]);
      assert fixes[..n] + [fixes[n]] == fixes;
      ReplayKeepsMostRecent(slot, fixes[..n]);
    }
  }

  /** Replaying one more callback is one more Step. */
  lemma {:induction false} ReplaySplit(slot: Latest, fixes: seq<Option<Location>>, last: Option<Location>)
    ensures Replay(slot, fixes + [last]) == Step(Replay(slot, fixes), last)
    decreases |fixes|
  {
    if fixes == [] {
      assert [] + [last] == [last];
      assert [last][1..] == [];
    } else {
      assert (fixes + [last])[0] == fixes[0];
      assert (fixes + [last])[1..] == fixes[1..] + [last];
      ReplaySplit(Step(slot, fixes[0]), fixes[1..], last);
    }
  }

  /** The slot read as a GPSInfo, as subscribers read it: the cast keeps
      the field names of the location, so `elevation` is absent. */
  function SlotAsGPSInfo(l: Location): (r: GPSInfo)
    ensures r.latitude == l.latitude && r.longitude == l.longitude
    ensures r.elevation == None && r.direction == Some(l.direction)
  {
    GPSInfo(l.latitude, l.longitude, None, Some(l.direction))
  }

  // ---------------------------------------------------------------------
  // One-shot requests
  // ---------------------------------------------------------------------

  /** The options of the continuous watch. */
  const WatchOptions: Options :=
    map["desiredAccuracy" := Num(3), "updateDistance" := Num(10), "minimumUpdateTime" := Num(300)]

  /** The default of a one-shot request. */
  const OneShotDefaults: Options := map["desiredAccuracy" := Num(1)]

  /** `{ ...{ desiredAccuracy: 1 }, ...cfg }`: the caller's fields win,
      desiredAccuracy is 1 unless the caller gives it. */
  function MyLocationOptions(cfg: Option<Options>): (r: Options)
    ensures "desiredAccuracy" in r
    ensures cfg.None? ==> r == OneShotDefaults
    ensures cfg.Some? ==> r.Keys == cfg.value.Keys + {"desiredAccuracy"}
    ensures cfg.Some? ==> forall k :: k in cfg.value ==> r[k] == cfg.value[k]
    ensures cfg.None? || "desiredAccuracy" !in cfg.value ==> r["desiredAccuracy"] == Num(1)
  {
    match cfg
    case None => OneShotDefaults
    case Some(c) => OneShotDefaults + c
  }

  /** The GPSInfo a one-shot request resolves to. */
  function ToGPSInfo(loc: Location): (r: GPSInfo)
    ensures r.latitude == loc.latitude && r.longitude == loc.longitude
    ensures r.elevation == Some(loc.altitude) && r.direction == Some(loc.direction)
  {
    GPSInfo(loc.latitude, loc.longitude, Some(loc.altitude), Some(loc.direction))
  }

  /** Two locations map to the same GPSInfo exactly when they agree on
      latitude, longitude, altitude and direction. */
  lemma ToGPSInfoKeeps(a: Location, b: Location)
    ensures ToGPSInfo(a) == ToGPSInfo(b) <==>
      a.latitude == b.latitude && a.longitude == b.longitude &&
      a.altitude == b.altitude && a.direction == b.direction
  {
  }

  /** `getMyLocation`: asks the plugin (`platform`, a reply per request)
      with the merged options; a rejection is passed on, a location is
      mapped to a GPSInfo. */
  function GetMyLocation(cfg: Option<Options>, platform: Options -> Result<Location, string>): (r: Result<GPSInfo, string>)
    ensures r.Failure? <==> platform(MyLocationOptions(cfg)).Failure?
    ensures r.Failure? ==> r.error == platform(MyLocationOptions(cfg)).error
    ensures r.Success? ==> r.value == ToGPSInfo(platform(MyLocationOptions(cfg)).value)
  {
    match platform(MyLocationOptions(cfg))
    case Failure(e) => Failure(e)
    case Success(loc) => Success(ToGPSInfo(loc))
  }

  // ---------------------------------------------------------------------
  // Stubs and markers
  // ---------------------------------------------------------------------

  /** `findNearMussala`: a fixed coordinate, whatever the argument. */
  function FindNearMussala(origin: GPSInfo): (r: GPSInfo)
    ensures r == GPSInfo(-3.7214696, -38.5430259, None, None)
  {
    GPSInfo(-3.7214696, -38.5430259, None, None)
  }

  /** Both nearest-site stubs give the same coordinate. */
  lemma NearestStubsAgree(a: GPSInfo, b: GPSInfo)
    ensures FindNearMussala(a) == MussalaSettings.FindGPSInfoNearMussala(b)
  {
  }

  /** The icon `createIslamicMarker` gives a category: the bundled
      prayer-site image for Mussala and Mosque only. */
  function IslamicIcon(markerType: int): (r: Option<Image>)
    ensures r.Some? <==> markerType == Ordinal(Mussala) || markerType == Ordinal(Mosque)
    ensures r.Some? ==> r.value.imageSource == Some(QuiblaIconFile)
  {
    if markerType == Ordinal(Mussala) || markerType == Ordinal(Mosque) then Some(Image(Some(QuiblaIconFile)))
    else None
  }

  /** This builder gives icons to fewer categories than the catalog's
      getMarkerIcon: Kaaba gets one there and none here. */
  lemma IslamicIconNarrower(markerType: int, iconLoads: bool)
    ensures IslamicIcon(markerType).Some? ==> MussalaSettings.MarkerIcon(Num(markerType), iconLoads).Some?
    ensures IslamicIcon(Ordinal(Kaaba)).None? && MussalaSettings.MarkerIcon(Num(Ordinal(Kaaba)), iconLoads).Some?
  {
  }

  /** `createIslamicMarker`: builds a fresh marker field by field. */
  method CreateIslamicMarker(id: int, markerType: int, title: string, snippet: string, address: string, gpsInfo: GPSInfo)
    returns (marker: Marker)
    ensures marker.position == Some(PositionOf(gpsInfo))
    ensures marker.title == Some(title) && marker.snippet == Some(snippet)
    ensures marker.userData == Some(Islamic(id, title, address, gpsInfo))
    ensures marker.infoWindowTemplate == Some(IslamicMarkerTemplate)
    ensures marker.icon == IslamicIcon(markerType)
  {
    marker := NewMarker;
    marker := marker.(position := Some(PositionOf(gpsInfo)));
    marker := marker.(title := Some(title));
    marker := marker.(snippet := Some(snippet));
    marker := marker.(userData := Some(Islamic(id, title, address, gpsInfo)));
    marker := marker.(infoWindowTemplate := Some(IslamicMarkerTemplate));
    if markerType == Ordinal(Mussala) || markerType == Ordinal(Mosque) {
      var image := Image(Some(QuiblaIconFile));
      marker := marker.(icon := Some(image));
    }
  }

  // ---------------------------------------------------------------------
  // The service
  // ---------------------------------------------------------------------

  /** The observable view of the location subject. */
  class GpsInfoView {
    constructor ()
    {
    }
  }

  class CompassService {
    /** The geolocation plugin. */
    const platform: Platform
    /** The handle of the continuous watch; never reset once set. */
    var watchId: Option<int>
    /** The location subject's current value. */
    var latest: Latest
    /** The lazily created observable view of the subject. */
    var view: Option<GpsInfoView>

    /** `if (this.watchId)`: a handle is held and it is truthy. */
    predicate Watching()
      reads this
    {
      watchId.Some? && Truthy(Num(watchId.value))
    }

    /** The asynchronous enable-and-start chain of the constructor is not
        modelled; the environment calls StartHeadingUpdates. */
    constructor (platform: Platform)
      ensures this.platform == platform
      ensures watchId == None && latest == Blank && view == None
    {
      this.platform := platform;
      watchId := None;
      latest := Blank;
      view := None;
    }

    /** `gpsInfo`: the observable view, created on first use and the same
        object afterwards. */
    method GpsInfoStream() returns (o: GpsInfoView)
      modifies this`view
      ensures old(view).Some? ==> o == old(view).value
      ensures old(view).None? ==> fresh(o)
      ensures view == Some(o)
    {
      if view.None? {
        var v := new GpsInfoView();
        view := Some(v);
      }
      o := view.value;
    }

    /** `startHeadingUpdates`: registers one watch unless a handle is
        held; `handle` is the id the plugin returns for it. */
    method StartHeadingUpdates(handle: int)
      modifies this`watchId, platform
      ensures old(Watching()) ==> watchId == old(watchId) && platform.watches == old(platform.watches)
      ensures !old(Watching()) ==>
        watchId == Some(handle) && platform.watches == old(platform.watches) + [WatchOptions]
      ensures platform.cleared == old(platform.cleared)
    {
      if Watching() {
        return;
      }
      var id := platform.WatchLocation(WatchOptions, handle);
      watchId := Some(id);
    }

    /** The watch callback: a truthy location becomes the latest value. */
    method OnLocation(loc: Option<Location>)
      modifies this`latest
      ensures latest == Step(old(latest), loc)
      ensures loc.Some? ==> latest == Fix(loc.value)
      ensures loc.None? ==> latest == old(latest)
    {
      if loc.Some? {
        latest := Fix(loc.value);
      }
    }

    /** `stopUpdatingHeading`: clears the held watch, but keeps the handle. */
    method StopUpdatingHeading()
      modifies platform
      ensures Watching() ==> platform.cleared == old(platform.cleared) + [watchId.value]
      ensures !Watching() ==> platform.cleared == old(platform.cleared)
      ensures platform.watches == old(platform.watches)
    {
      if Watching() {
        platform.ClearWatch(watchId.value);
      }
    }

    /** `ngOnDestroy`: stops the watch. */
    method OnDestroy()
      modifies platform
      ensures Watching() ==> platform.cleared == old(platform.cleared) + [watchId.value]
      ensures !Watching() ==> platform.cleared == old(platform.cleared)
      ensures platform.watches == old(platform.watches)
    {
      StopUpdatingHeading();
    }
  }

  /** Starting twice registers one watch when the plugin's handle is
      truthy: the second start finds the handle and returns. */
  method StartTwiceRegistersOnce(c: CompassService, first: int, second: int)
    requires first != 0
    requires !c.Watching()
    modifies c, c.platform
    ensures c.watchId == Some(first)
    ensures c.platform.watches == old(c.platform.watches) + [WatchOptions]
  {
    c.StartHeadingUpdates(first);
    c.StartHeadingUpdates(second);
  }

  /** Stopping clears the watch but keeps the handle, so a later start
      registers nothing. */
  method StopThenStartRegistersNothing(c: CompassService, handle: int)
    requires c.Watching()
    modifies c, c.platform
    ensures c.watchId == old(c.watchId)
    ensures c.platform.watches == old(c.platform.watches)
    ensures c.platform.cleared == old(c.platform.cleared) + [old(c.watchId).value]
  {
    c.StopUpdatingHeading();
    c.StartHeadingUpdates(handle);
  }
}
