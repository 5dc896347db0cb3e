/** The marker catalog of MussalaSettingsService: loading point-of-interest
    records, packing marker ids, choosing templates and icons, building map
    markers from the several record shapes, and merging them into one list. */
module MussalaSettings {
  import opened Wrappers
  import opened JsValues
  import opened Entities
  import opened IslamicMarker
  import opened MapSdk

  /** The TypeError JavaScript raises when a property of `undefined` is read. */
  datatype Error = TypeError

  /** What the service reads from the injected settings, plus whether the
      bundled icon file loads on this device (image loading is opaque). */
  datatype Env = Env(
    markersJson: seq<MarkerInfo>,
    sponsors: seq<Sponsor>,
    team: seq<TeamMember>,
    iconLoads: bool)

  // ---------------------------------------------------------------------
  // Loading and id packing
  // ---------------------------------------------------------------------

  /** The records of markers.json that are not placeholders (id > 0), in
      their original order. */
  function GetMarkersInfo(records: seq<MarkerInfo>): (r: seq<MarkerInfo>)
    ensures |r| <= |records|
    ensures forall x :: x in r <==> x in records && x.id > 0
  {
    if records == [] then []
    else (if records[0].id > 0 then [records[0]] else []) + GetMarkersInfo(records[1..])
  }

  /** Filtering distributes over concatenation: kept records keep their
      relative order. */
  lemma {:induction false} GetMarkersInfoAppend(a: seq<MarkerInfo>, b: seq<MarkerInfo>)
    ensures GetMarkersInfo(a + b) == GetMarkersInfo(a) + GetMarkersInfo(b)
  {
    if a == [] {
      assert a + b == b;
    } else {
      assert (a + b)[0] == a[0];
      assert (a + b)[1..] == a[1..] + b;
      GetMarkersInfoAppend(a[1..], b);
    }
  }

  /** Placeholder records with ids 0 and -3 are dropped: ids [0, 1, -3, 5]
      give [1, 5]. */
  lemma GetMarkersInfoExample(r0: MarkerInfo, r1: MarkerInfo, r2: MarkerInfo, r3: MarkerInfo)
    requires r0.id == 0 && r1.id == 1 && r2.id == -3 && r3.id == 5
    ensures GetMarkersInfo([r0, r1, r2, r3]) == [r1, r3]
  {
    var s := [r0, r1, r2, r3];
    assert s[1..][1..][1..] == [r3];
    assert GetMarkersInfo([r3]) == [r3];
    assert s[1..][1..] == [r2, r3];
    assert GetMarkersInfo([r2, r3]) == [r3];
    assert s[1..] == [r1, r2, r3];
    assert GetMarkersInfo([r1, r2, r3]) == [r1, r3];
  }

  /** The factor that separates a category from a raw id in a packed id. */
  const MarkerIdStride: int := 100000000

  /** `ajustMakerId`: a record with a (truthy) type gets the id
      type * 10^8 + id; a record without one keeps its id. */
  function AdjustMarkerId(item: MarkerInfo): (r: int)
    ensures item.markerType == 0 ==> r == item.id
    ensures item.markerType != 0 && 0 <= item.id < MarkerIdStride ==>
      r / MarkerIdStride == item.markerType && r % MarkerIdStride == item.id
  {
    if item.markerType != 0 then item.markerType * MarkerIdStride + item.id else item.id
  }

  /** Packed ids of typed records with raw ids below 10^8 do not collide,
      neither within one category nor across categories. */
  lemma AdjustedIdsDistinct(a: MarkerInfo, b: MarkerInfo)
    requires a.markerType != 0 && 0 <= a.id < MarkerIdStride
    requires b.markerType != 0 && 0 <= b.id < MarkerIdStride
    ensures AdjustMarkerId(a) == AdjustMarkerId(b) <==>
      a.markerType == b.markerType && a.id == b.id
  {
  }

  /** Every declared category is non-zero, so a record of a declared
      category always has its id packed. */
  lemma DeclaredTypeIsPacked(item: MarkerInfo, t: MarkerType)
    requires item.markerType == Ordinal(t)
    ensures AdjustMarkerId(item) == Ordinal(t) * MarkerIdStride + item.id
  {
  }

  // ---------------------------------------------------------------------
  // Templates and icons
  // ---------------------------------------------------------------------

  /** `getInfoTemplate`: every category, declared or not, uses the one
      Islamic info-window template. */
  function InfoTemplate(t: Value): (r: string)
    ensures r == IslamicMarkerTemplate
  {
    IslamicMarkerTemplate
  }

  /** `getMarkerIcon`: the bundled prayer-site icon for Kaaba, Mosque and
      Mussala (an image even when the file does not load, then without a
      source); nothing for every other number and for every string. */
  function MarkerIcon(ref: Value, iconLoads: bool): (r: Option<Image>)
    ensures r.Some? <==> ref.Num? && IsPlaceOrdinal(ref.n)
    ensures r.Some? ==> r.value.imageSource == (if iconLoads then Some(QuiblaIconFile) else None)
  {
    var imageFile := if ref.Num? && IsPlaceOrdinal(ref.n) then Some(QuiblaIconFile) else None;
    if imageFile.Some? then Some(Image(if iconLoads then imageFile else None))
    else None
  }

  /** Of the declared categories, exactly Kaaba, Mosque and Mussala get an icon. */
  lemma PlaceIconCategories(t: MarkerType, iconLoads: bool)
    ensures MarkerIcon(Num(Ordinal(t)), iconLoads).Some? <==>
      t == Kaaba || t == Mosque || t == Mussala
  {
  }

  // ---------------------------------------------------------------------
  // Marker creation
  // ---------------------------------------------------------------------

  /** The non-numeric shapes `createMarker` accepts. */
  datatype Shape = Member(member: TeamMember) | Backer(sponsor: Sponsor) | Info(info: MarkerInfo)

  /** The first argument of `createMarker`: a number with the marker's
      fields passed one by one, or a record. */
  datatype MarkerArg =
    | Raw(id: int, markerType: Option<int>, title: Option<string>, snippet: Option<string>,
          address: Option<string>, gps: Option<GPSInfo>)
    | Obj(shape: Shape)

  // JavaScript property reads on a record; a shape without the property
  // reads `undefined`.

  function RoleOf(s: Shape): Option<string>
  {
    match s
    case Member(m) => m.role
    case _ => None
  }

  function NameOf(s: Shape): Option<string>
  {
    match s
    case Member(m) => m.name
    case Backer(sp) => sp.name
    case Info(_) => None
  }

  function GpsOf(s: Shape): Option<GPSInfo>
  {
    match s
    case Member(m) => m.gps
    case Backer(sp) => sp.gps
    case Info(i) => Some(i.gps)
  }

  function TitleOf(s: Shape): Option<string>
  {
    match s
    case Info(i) => Some(i.title)
    case _ => None
  }

  function DescriptionOf(s: Shape): Option<string>
  {
    match s
    case Member(_) => None
    case Backer(sp) => sp.description
    case Info(i) => Some(i.description)
  }

  function TypeOf(s: Shape): Value
  {
    match s
    case Info(i) => Num(i.markerType)
    case _ => Undefined
  }

  function PhotoOf(s: Shape): Value
  {
    match s
    case Member(m) => StrValue(m.photo)
    case _ => Undefined
  }

  function LogoOf(s: Shape): Value
  {
    match s
    case Backer(sp) => StrValue(sp.logo)
    case _ => Undefined
  }

  /** The record itself, as stored in `userData`. */
  function RecordOf(s: Shape): UserData
  {
    match s
    case Member(m) => MemberData(m)
    case Backer(sp) => SponsorData(sp)
    case Info(i) => InfoData(i)
  }

  /** The position a `createMarker` argument carries. */
  function ArgGps(arg: MarkerArg): Option<GPSInfo>
  {
    match arg
    case Raw(_, _, _, _, _, gps) => gps
    case Obj(s) => GpsOf(s)
  }

  /** The three ways `createMarker` reads a record. */
  datatype Branch = TeamBranch | SponsorBranch | InfoBranch

  /** The record branch `createMarker` takes, in the code's order: a role
      with a non-zero latitude is a team member, otherwise a name with a
      non-zero latitude is a sponsor, otherwise a MarkerInfo. */
  function BranchOf(s: Shape): Branch
  {
    if Truthy(StrValue(RoleOf(s))) && HasLatitude(GpsOf(s)) then TeamBranch
    else if Truthy(StrValue(NameOf(s))) && HasLatitude(GpsOf(s)) then SponsorBranch
    else InfoBranch
  }

  /** The marker `createMarker` returns, or the error it throws: reading
      the latitude of an absent position. The icon is set only when one
      resolves. */
  function MarkerFor(arg: MarkerArg, iconLoads: bool): (r: Result<Marker, Error>)
    ensures r.Failure? <==> ArgGps(arg).None?
    ensures r.Success? ==> r.value.position == Some(PositionOf(ArgGps(arg).value))
    ensures r.Success? ==> r.value.infoWindowTemplate == Some(IslamicMarkerTemplate)
  {
    match arg
    case Raw(id, t, title, snippet, address, gps) =>
      if gps.None? then Failure(TypeError)
      else Success(Marker(Some(PositionOf(gps.value)), title, snippet,
                          Some(InfoTemplate(NumValue(t))),
                          Some(Fields(id, title, address, gps.value)),
                          MarkerIcon(NumValue(t), iconLoads)))
    case Obj(s) =>
      match BranchOf(s)
      case TeamBranch =>
        Success(Marker(Some(PositionOf(GpsOf(s).value)), NameOf(s), RoleOf(s),
                       Some(InfoTemplate(Num(Ordinal(Team)))), Some(RecordOf(s)),
                       MarkerIcon(PhotoOf(s), iconLoads)))
      case SponsorBranch =>
        Success(Marker(Some(PositionOf(GpsOf(s).value)), NameOf(s), DescriptionOf(s),
                       Some(InfoTemplate(Num(Ordinal(MarkerType.Sponsor)))), Some(RecordOf(s)),
                       MarkerIcon(LogoOf(s), iconLoads)))
      case InfoBranch =>
        if GpsOf(s).None? then Failure(TypeError)
        else Success(Marker(Some(PositionOf(GpsOf(s).value)), TitleOf(s), DescriptionOf(s),
                            Some(InfoTemplate(TypeOf(s))), Some(RecordOf(s)),
                            MarkerIcon(TypeOf(s), iconLoads)))
  }

  /** `createMarker`: builds a fresh marker field by field. */
  method CreateMarker(arg: MarkerArg, iconLoads: bool) returns (r: Result<Marker, Error>)
    ensures r == MarkerFor(arg, iconLoads)
  {
    var marker := NewMarker;
    var icon: Option<Image>;
    match arg {
      case Raw(id, t, title, snippet, address, gps) =>
        if gps.None? {
          return Failure(TypeError);
        }
        marker := marker.(position := Some(PositionOf(gps.value)));
        marker := marker.(title := title);
        marker := marker.(snippet := snippet);
        marker := marker.(userData := Some(Fields(id, title, address, gps.value)));
        marker := marker.(infoWindowTemplate := Some(InfoTemplate(NumValue(t))));
        icon := MarkerIcon(NumValue(t), iconLoads);
      case Obj(s) =>
        if Truthy(StrValue(RoleOf(s))) && HasLatitude(GpsOf(s)) {
          marker := marker.(position := Some(PositionOf(GpsOf(s).value)));
          marker := marker.(title := NameOf(s));
          marker := marker.(snippet := RoleOf(s));
          marker := marker.(userData := Some(RecordOf(s)));
          marker := marker.(infoWindowTemplate := Some(InfoTemplate(Num(Ordinal(Team)))));
          icon := MarkerIcon(PhotoOf(s), iconLoads);
        } else if Truthy(StrValue(NameOf(s))) && HasLatitude(GpsOf(s)) {
          marker := marker.(position := Some(PositionOf(GpsOf(s).value)));
          marker := marker.(title := NameOf(s));
          marker := marker.(snippet := DescriptionOf(s));
          marker := marker.(userData := Some(RecordOf(s)));
          marker := marker.(infoWindowTemplate := Some(InfoTemplate(Num(Ordinal(MarkerType.Sponsor)))));
          icon := MarkerIcon(LogoOf(s), iconLoads);
        } else {
          if GpsOf(s).None? {
            return Failure(TypeError);
          }
          marker := marker.(position := Some(PositionOf(GpsOf(s).value)));
          marker := marker.(title := TitleOf(s));
          marker := marker.(snippet := DescriptionOf(s));
          marker := marker.(userData := Some(RecordOf(s)));
          marker := marker.(infoWindowTemplate := Some(InfoTemplate(TypeOf(s))));
          icon := MarkerIcon(TypeOf(s), iconLoads);
        }
    }
    if icon.Some? {
      marker := marker.(icon := icon);
    }
    return Success(marker);
  }

  /** A numeric first argument uses the fields passed alongside it, and its
      `userData` holds the id as given, not packed. */
  lemma RawMarkerFields(arg: MarkerArg, iconLoads: bool)
    requires arg.Raw? && arg.gps.Some?
    ensures var r := MarkerFor(arg, iconLoads);
      r.Success? && r.value.title == arg.title && r.value.snippet == arg.snippet &&
      r.value.userData == Some(Fields(arg.id, arg.title, arg.address, arg.gps.value)) &&
      r.value.icon == MarkerIcon(NumValue(arg.markerType), iconLoads)
  {
  }

  /** A team-member read: titled by name, snippet is the role, no icon
      (the photo is a string or absent, which never resolves). */
  lemma TeamMarkerFields(s: Shape, iconLoads: bool)
    requires BranchOf(s) == TeamBranch
    ensures var r := MarkerFor(Obj(s), iconLoads);
      r.Success? && r.value.title == NameOf(s) && r.value.snippet == RoleOf(s) &&
      r.value.userData == Some(RecordOf(s)) && r.value.icon == None
  {
  }

  /** A sponsor read: titled by name, snippet is the description, no icon
      (the logo is a string or absent). */
  lemma SponsorMarkerFields(s: Shape, iconLoads: bool)
    requires BranchOf(s) == SponsorBranch
    ensures var r := MarkerFor(Obj(s), iconLoads);
      r.Success? && r.value.title == NameOf(s) && r.value.snippet == DescriptionOf(s) &&
      r.value.userData == Some(RecordOf(s)) && r.value.icon == None
  {
  }

  /** A MarkerInfo read: its own title, description and type. */
  lemma InfoMarkerFields(info: MarkerInfo, iconLoads: bool)
    ensures var r := MarkerFor(Obj(Info(info)), iconLoads);
      r.Success? && r.value.title == Some(info.title) && r.value.snippet == Some(info.description) &&
      r.value.userData == Some(InfoData(info)) &&
      r.value.icon == MarkerIcon(Num(info.markerType), iconLoads)
  {
  }

  /** Which branch each shape can take: a MarkerInfo has neither role nor
      name; a sponsor has no role; a team member without a role but with a
      name is read as a sponsor. */
  lemma BranchPrecedence(s: Shape)
    ensures s.Info? ==> BranchOf(s) == InfoBranch
    ensures s.Backer? ==> BranchOf(s) != TeamBranch
    ensures s.Backer? ==> (BranchOf(s) == SponsorBranch <==>
      Truthy(StrValue(s.sponsor.name)) && HasLatitude(s.sponsor.gps))
    ensures s.Member? ==> (BranchOf(s) == TeamBranch <==>
      Truthy(StrValue(s.member.role)) && HasLatitude(s.member.gps))
    ensures s.Member? && !Truthy(StrValue(s.member.role)) ==>
      (BranchOf(s) == SponsorBranch <==> Truthy(StrValue(s.member.name)) && HasLatitude(s.member.gps))
  {
  }

  /** The argument names a prayer-site category of its own. */
  predicate PlaceArg(arg: MarkerArg)
  {
    match arg
    case Raw(_, t, _, _, _, _) => t.Some? && IsPlaceOrdinal(t.value)
    case Obj(s) => s.Info? && IsPlaceOrdinal(s.info.markerType)
  }

  /** A marker carries an icon exactly when its argument is a prayer site
      (Kaaba, Mosque, Mussala): team, sponsor and other markers never do. */
  lemma IconOnlyForPlaces(arg: MarkerArg, iconLoads: bool)
    requires ArgGps(arg).Some?
    ensures MarkerFor(arg, iconLoads).value.icon.Some? <==> PlaceArg(arg)
  {
    if arg.Obj? {
      BranchPrecedence(arg.shape);
    }
  }

  // ---------------------------------------------------------------------
  // Marker lists
  // ---------------------------------------------------------------------

  /** `sponsorMarkers`: one entry per sponsor; a sponsor without a position
      makes the guard `sponsor.gps || sponsor.gps.latitude` throw. */
  method SponsorMarkers(sponsors: seq<Sponsor>, iconLoads: bool) returns (r: Result<seq<Option<Marker>>, Error>)
    ensures r.Failure? <==> exists i :: 0 <= i < |sponsors| && sponsors[i].gps.None?
    ensures r.Success? ==> |r.value| == |sponsors|
    ensures r.Success? ==> forall i :: 0 <= i < |sponsors| ==>
      r.value[i].Some? && MarkerFor(Obj(Backer(sponsors[i])), iconLoads) == Success(r.value[i].value)
  {
    var markers: seq<Option<Marker>> := [];
    var i := 0;
    while i < |sponsors|
      invariant 0 <= i <= |sponsors|
      invariant |markers| == i
      invariant forall k :: 0 <= k < i ==> sponsors[k].gps.Some?
      invariant forall k :: 0 <= k < i ==>
        markers[k].Some? && MarkerFor(Obj(Backer(sponsors[k])), iconLoads) == Success(markers[k].value)
    {
      var sponsor := sponsors[i];
      if sponsor.gps.None? {
        return Failure(TypeError);
      }
      var m := CreateMarker(Obj(Backer(sponsor)), iconLoads);
      markers := markers + [Some(m.value)];
      i := i + 1;
    }
    return Success(markers);
  }

  /** `teamMarkers`: one entry per member; a member without a position or
      with a zero latitude leaves an `undefined` hole. */
  method TeamMarkers(team: seq<TeamMember>, iconLoads: bool) returns (r: seq<Option<Marker>>)
    ensures |r| == |team|
    ensures forall i :: 0 <= i < |team| ==> (r[i].Some? <==> HasLatitude(team[i].gps))
    ensures forall i :: 0 <= i < |team| && r[i].Some? ==>
      MarkerFor(Obj(Member(team[i])), iconLoads) == Success(r[i].value)
  {
    r := [];
    var i := 0;
    while i < |team|
      invariant 0 <= i <= |team|
      invariant |r| == i
      invariant forall k :: 0 <= k < i ==> (r[k].Some? <==> HasLatitude(team[k].gps))
      invariant forall k :: 0 <= k < i && r[k].Some? ==>
        MarkerFor(Obj(Member(team[k])), iconLoads) == Success(r[k].value)
    {
      var member := team[i];
      if HasLatitude(member.gps) {
        var m := CreateMarker(Obj(Member(member)), iconLoads);
        r := r + [Some(m.value)];
      } else {
        r := r + [None];
      }
      i := i + 1;
    }
  }

  /** `allMarkers`: the markers of the loaded records, then the sponsor
      entries, then the team entries; it throws when a sponsor has no
      position. */
  method AllMarkers(env: Env) returns (r: Result<seq<Option<Marker>>, Error>)
    ensures r.Failure? <==> exists i :: 0 <= i < |env.sponsors| && env.sponsors[i].gps.None?
    ensures r.Success? ==>
      |r.value| == |GetMarkersInfo(env.markersJson)| + |env.sponsors| + |env.team|
    ensures r.Success? ==> var infos := GetMarkersInfo(env.markersJson);
      forall i :: 0 <= i < |infos| ==>
        r.value[i].Some? && MarkerFor(Obj(Info(infos[i])), env.iconLoads) == Success(r.value[i].value)
    ensures r.Success? ==> var n := |GetMarkersInfo(env.markersJson)|;
      forall j :: 0 <= j < |env.sponsors| ==>
        r.value[n + j].Some? &&
        MarkerFor(Obj(Backer(env.sponsors[j])), env.iconLoads) == Success(r.value[n + j].value)
    ensures r.Success? ==> var n := |GetMarkersInfo(env.markersJson)| + |env.sponsors|;
      forall j :: 0 <= j < |env.team| ==>
        (r.value[n + j].Some? <==> HasLatitude(env.team[j].gps)) &&
        (r.value[n + j].Some? ==>
          MarkerFor(Obj(Member(env.team[j])), env.iconLoads) == Success(r.value[n + j].value))
  {
    var infos := GetMarkersInfo(env.markersJson);
    var markers: seq<Option<Marker>> := [];
    var i := 0;
    while i < |infos|
      invariant 0 <= i <= |infos|
      invariant |markers| == i
      invariant forall k :: 0 <= k < i ==>
        markers[k].Some? && MarkerFor(Obj(Info(infos[k])), env.iconLoads) == Success(markers[k].value)
    {
      var m := CreateMarker(Obj(Info(infos[i])), env.iconLoads);
      markers := markers + [Some(m.value)];
      i := i + 1;
    }
    var sponsorMarkers := SponsorMarkers(env.sponsors, env.iconLoads);
    if sponsorMarkers.Failure? {
      return Failure(sponsorMarkers.error);
    }
    markers := markers + sponsorMarkers.value;
    var teamMarkers := TeamMarkers(env.team, env.iconLoads);
    markers := markers + teamMarkers;
    return Success(markers);
  }

  // ---------------------------------------------------------------------
  // Nearest prayer site
  // ---------------------------------------------------------------------

  /** `findGPSInfoNearMussala`: a fixed coordinate, whatever the origin. */
  function FindGPSInfoNearMussala(gps: GPSInfo): (r: GPSInfo)
    ensures r == GPSInfo(-3.7214696, -38.5430259, None, None)
  {
    GPSInfo(-3.7214696, -38.5430259, None, None)
  }
}
