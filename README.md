# Mussala map services, modelled in Dafny

This project models the logic behind the mussala map screen of a mobile app. There are two services.

- **MussalaSettingsService** is the marker catalog. It takes the point-of-interest records of `markers.json` and drops the placeholders (`id > 0`). It packs marker ids as `type * 10^8 + id`. It maps every category to the one info-window template and picks the bundled prayer-site icon for KAABA, MOSQUE and MUSSALA. `createMarker` accepts several record shapes and works out which one it was given. `allMarkers` merges point-of-interest, sponsor and team markers into one list. The "nearest mussala" lookup is a stub that returns a constant.
- **CompassService** holds one continuous location watch. It starts the watch once and stops it without resetting the handle. It keeps a slot with the latest location, which only truthy fixes update. It merges default options into one-shot location requests and maps the plugin's location to a `GPSInfo`. It also has its own constant nearest-site stub and its own marker builder.

Modules, one per file:

- `Wrappers`: `Option` and `Result`.
- `JsValues`: the JavaScript values the code tests, and JavaScript truthiness.
- `Entities`: `GPSInfo`, `Sponsor` and `TeamMember`. Coordinates are opaque reals.
- `IslamicMarker`: the `MarkerType` enum with its ordinals, and the `MarkerInfo` record.
- `MapSdk`: the map SDK's `Marker`, `Position` and `Image`, as plain records. Every field of a fresh marker is unset.
- `Geolocation`: the plugin's `Location` and request options. It also holds a `Platform` class that records every `watchLocation` registration and every `clearWatch` handle.
- `MussalaSettings`: the catalog.
- `Compass`: the compass service, as the class `CompassService`.

`createMarker` decides the record's shape from its properties, not from a declared type. The model follows that. A non-numeric argument is a tagged union `Shape` of team member, sponsor and `MarkerInfo`. Property reads such as `RoleOf`, `NameOf` and `GpsOf` return "undefined" for a shape that lacks the property. `BranchOf` then tests those reads with the code's precedence. For example, a team member without a role but with a name and a non-zero latitude is read as a sponsor.

Builders follow the code's own form. `MarkerFor` is the pure definition of what `createMarker` returns. `CreateMarker` builds the same marker field by field and is proved equal to it. `SponsorMarkers`, `TeamMarkers` and `AllMarkers` are loops that call `CreateMarker`. Each is proved entry by entry against `MarkerFor`. Reading a property of `undefined` is modelled as the error `TypeError`. An example is the sponsor guard `sponsor.gps || sponsor.gps.latitude` when a sponsor has no position.

The model follows the code as written, including where it is surprising:

- `stopUpdatingHeading` never resets `watchId`, so a later start does nothing.
- Both start and stop test the handle for truthiness. If the plugin ever returned the handle 0, a later start would register a second watch.
- The continuous watch uses desiredAccuracy 3, updateDistance 10 and minimumUpdateTime 300.
- Icons come only from the three place categories. There is no "person" icon and no http fallback, and strings never resolve, because the base64 path is commented out.
- The doc comment of `ajustMakerId` says 1000000000, but the code multiplies by 100000000.

## Model

| member | source | states |
|---|---|---|
| `IslamicMarker.Ordinal` | utils/islamic-marker.ts:12-20 | the ordinals Kaaba=1, Mosque=10, Mussala=15, Muslin=40, Sponsor=50, Team=60, Pointer=1000 are all positive, so id packing always multiplies for a declared category |
| `IslamicMarker.FromOrdinal` | utils/islamic-marker.ts:12-20 | the inverse of the enum: a found category has that ordinal, and no category has a number that is not found |
| `IslamicMarker.OrdinalInjective` | utils/islamic-marker.ts:12-20 | ordinals are pairwise distinct, so a `switch` on a number selects at most one category |
| `IslamicMarker.FromOrdinalRoundTrip` | utils/islamic-marker.ts:12-20 | FromOrdinal undoes Ordinal for every category |
| `MussalaSettings.GetMarkersInfo` | mussala.settings.service.ts:64-101 | returns exactly the loaded records with id > 0, and is never longer than the input |
| `MussalaSettings.GetMarkersInfoAppend` | mussala.settings.service.ts:100 | filtering distributes over concatenation, so kept records keep their original relative order |
| `MussalaSettings.GetMarkersInfoExample` | mussala.settings.service.ts:100 | ids [0, 1, -3, 5] give the records with ids [1, 5] |
| `MussalaSettings.AdjustMarkerId` | mussala.settings.service.ts:103-116 | type 0 keeps the id; for a non-zero type and 0 <= id < 10^8, div and mod by 10^8 recover the type and the id |
| `MussalaSettings.AdjustedIdsDistinct` | mussala.settings.service.ts:109-115 | packed ids of typed records with ids below 10^8 are equal exactly when the types and the ids are equal |
| `MussalaSettings.DeclaredTypeIsPacked` | mussala.settings.service.ts:112 | a record of a declared category always gets the id ordinal * 10^8 + id |
| `MussalaSettings.InfoTemplate` | mussala.settings.service.ts:176-192 | every input, declared category or not, gets 'IslamicMarkerTemplate' |
| `MussalaSettings.MarkerIcon` | mussala.settings.service.ts:199-237 | an image exactly for the numbers 1, 10 and 15; it has the bundled file as its source only when the file loads; nothing for other numbers, for strings or for undefined |
| `MussalaSettings.PlaceIconCategories` | mussala.settings.service.ts:201-214 | of the declared categories, exactly KAABA, MOSQUE and MUSSALA get an icon |
| `MussalaSettings.MarkerFor` | mussala.settings.service.ts:124-169 | throws exactly when the argument has no position; otherwise the marker is placed at that position and uses 'IslamicMarkerTemplate' |
| `MussalaSettings.CreateMarker` | mussala.settings.service.ts:124-169 | builds the marker field by field and returns what MarkerFor defines |
| `MussalaSettings.RawMarkerFields` | mussala.settings.service.ts:130-138 | a numeric id uses the fields passed with it, and userData is {id, title, address, gps} with the id not packed |
| `MussalaSettings.TeamMarkerFields` | mussala.settings.service.ts:139-146 | a team read titles by name and snippets the role, stores the record, and has no icon |
| `MussalaSettings.SponsorMarkerFields` | mussala.settings.service.ts:147-154 | a sponsor read titles by name and snippets the description, stores the record, and has no icon |
| `MussalaSettings.InfoMarkerFields` | mussala.settings.service.ts:156-165 | a MarkerInfo uses its own title, description and type |
| `MussalaSettings.BranchPrecedence` | mussala.settings.service.ts:139-158 | about `BranchOf`, the model of the tests at lines 139 and 147, with `Entities.HasLatitude` as `gps && gps.latitude`: a MarkerInfo always takes the fallback branch; a sponsor is never read as a team member, and is read as a sponsor exactly when it has a name and a non-zero latitude; a team member is read as such exactly when it has a role and a non-zero latitude, and otherwise as a sponsor exactly when it has a name and a non-zero latitude |
| `MussalaSettings.IconOnlyForPlaces` | mussala.settings.service.ts:166-168 | a created marker carries an icon exactly when its own type is KAABA, MOSQUE or MUSSALA, so team, sponsor and other markers never do |
| `MussalaSettings.SponsorMarkers` | mussala.settings.service.ts:35-45 | throws exactly when some sponsor has no position; otherwise one marker per sponsor, in order, each the one createMarker builds |
| `MussalaSettings.TeamMarkers` | mussala.settings.service.ts:46-56 | one entry per member, in order; the entry is a marker exactly when `gps && gps.latitude` holds (`Entities.HasLatitude`), and undefined otherwise |
| `MussalaSettings.AllMarkers` | mussala.settings.service.ts:248-284 | throws exactly when a sponsor has no position; otherwise the markers of the filtered records, then the sponsor entries, then the team entries, with length equal to the sum of the three |
| `MussalaSettings.FindGPSInfoNearMussala` | mussala.settings.service.ts:294-296 | returns (-3.7214696, -38.5430259), whatever the origin |
| `Compass.Replay` | compass.service.ts:118-122 | the slot after a run of watch callbacks, each one a `Step` (a truthy location replaces the slot, a falsy one leaves it): it is the start value or one of the delivered locations, never anything else |
| `Compass.MostRecent` | compass.service.ts:118-122 | the last truthy location among a run of callbacks: it sits at some position and every later callback got a falsy value; none only when every callback got a falsy value |
| `Compass.ReplaySplit` | compass.service.ts:118-122 | replaying one more callback is one more `Step`, the model of one watch callback |
| `Compass.ReplayKeepsMostRecent` | compass.service.ts:118-122 | after any run of callbacks, the slot holds the most recent truthy location, or its earlier value when none was truthy |
| `Compass.SlotAsGPSInfo` | compass.service.ts:121 | a location pushed by the cast keeps latitude, longitude and direction, and has no elevation |
| `Compass.MyLocationOptions` | compass.service.ts:98 | the caller's fields all appear unchanged; desiredAccuracy is always present, and it is 1 unless the caller supplies it |
| `Compass.ToGPSInfo` | compass.service.ts:103 | latitude and longitude are copied, altitude becomes elevation, and direction stays direction |
| `Compass.ToGPSInfoKeeps` | compass.service.ts:103 | two locations map alike exactly when they agree on latitude, longitude, altitude and direction |
| `Compass.GetMyLocation` | compass.service.ts:92-105 | asks the plugin with the merged options; a rejection is passed on unchanged and a location is mapped by ToGPSInfo |
| `Compass.FindNearMussala` | compass.service.ts:27-29 | returns (-3.7214696, -38.5430259), whatever the argument |
| `Compass.NearestStubsAgree` | compass.service.ts:27-29 | the compass stub and the catalog stub give the same coordinate |
| `Compass.IslamicIcon` | compass.service.ts:40-51 | an icon with the bundled file exactly for MUSSALA and MOSQUE |
| `Compass.IslamicIconNarrower` | compass.service.ts:41-48 | every category that gets an icon here also gets one from getMarkerIcon, but KAABA gets one only there |
| `Compass.CreateIslamicMarker` | compass.service.ts:30-53 | {position, title, snippet}, userData {id, title, address, gpsInfo}, 'IslamicMarkerTemplate', and an icon only for MUSSALA and MOSQUE |
| `Compass.CompassService.constructor` | compass.service.ts:24-25 | starts with no watch handle, the empty object as latest value and no observable view |
| `Compass.CompassService.GpsInfoStream` | compass.service.ts:77-81 | it creates the view on first use and returns the same object afterwards |
| `Compass.CompassService.StartHeadingUpdates` | compass.service.ts:108-128 | with a truthy handle held (`Watching`, the model of `if (this.watchId)`) it changes nothing; otherwise it makes one watchLocation call with desiredAccuracy 3, updateDistance 10 and minimumUpdateTime 300, and stores the handle |
| `Compass.CompassService.OnLocation` | compass.service.ts:118-123 | a truthy location becomes the latest value and a falsy one leaves it unchanged |
| `Compass.CompassService.StopUpdatingHeading` | compass.service.ts:131-137 | calls clearWatch with the handle only when a truthy handle is held (`Watching`), and never changes the handle |
| `Compass.CompassService.OnDestroy` | compass.service.ts:83-86 | stops the watch as StopUpdatingHeading does |
| `Compass.StartTwiceRegistersOnce` | compass.service.ts:111-114 | two starts with a truthy first handle register exactly one watch and keep the first handle |
| `Compass.StopThenStartRegistersNothing` | compass.service.ts:131-137 | after a stop the handle is kept, so a later start registers nothing; the stop cleared that handle once |

## Left out

- Image loading and `Position.positionFromLatLng` are SDK calls. The model represents an icon as an `Image` whose source is the file it loaded. Whether the bundled file loads is a parameter, `iconLoads`.
- The geolocation plugin is a parameter or the `Platform` record. `watchLocation` returns a handle that the caller of `StartHeadingUpdates` supplies. A one-shot request's reply is a function from options to a result.
- The constructor's asynchronous chain is not modelled, because it is asynchronous plugin I/O: `isEnabled`, `enableLocationRequest`, and the call to `startHeadingUpdates` that follows them.
- The watch's error callback is not modelled, because it only logs.
- `OnLocation`: the environment may deliver a callback at any time, even with no watch registered or after a stop. In the code, callbacks arrive only while a `watchLocation` registration is live, so the model allows more call orders than the code produces.
- `getDistance` in both services is not modelled, because it only logs a distance.
- The BehaviorSubject's multicasting and subscriptions are not modelled. The model keeps only its current value, which is what a new subscriber receives first.
- Debug logging and the `debug` flag are not modelled.
- Loading `markers.json` is not modelled: its contents are a parameter. The settings service is also not part of this model, so a missing file or a missing sponsor or team list is not modelled.
- `entity/gps-info`, `entity/sponsor` and `entity/team-member` are not part of this model. Their fields are the ones the core reads.
- A loaded record is modelled with exactly the fields of the `MarkerInfo` interface. At run time, a JSON record with extra fields would be dispatched on them too. One example is the `name` in the record template at mussala.settings.service.ts:72-97. Such a record with a non-zero latitude takes the sponsor branch: its title comes from `name`, its snippet from `description`, and it gets no icon. So `IconOnlyForPlaces` holds only for records that have exactly the fields of `MarkerInfo`.
- A `MarkerInfo` without a type is represented with type 0. Every use treats the two alike: both are falsy for id packing, both fall to the template default, and neither gets an icon.
- JavaScript numbers are modelled as integers for ids, types and options, and as reals for coordinates. NaN is not modelled. Packed ids beyond 2^53, where doubles lose precision, are not modelled either.
- compass.service.ts imports `MakerType` and `IslamicMarker`, which do not exist. It is modelled with `MarkerType`, the evident meaning. The unfinished statement at the end of `ngOnDestroy` is not modelled, because it is a syntax error.
- The map screen, its Angular module, its routing and its smoke test are UI wiring. They are not part of this model.
- `findNearMussala` and `findGPSInfoNearMussala` are stubs in the code. The model keeps the constant and adds no nearest-by-distance search.
