/** The location card of `app/LocationMap.js`: the display address composed from a
    reverse-geocode result, the serviceability and unit thresholds on the distance to
    the restaurant, the reset at the start of a locate, and when the parent is told.
    The distance itself (haversine) and the device services are inputs. */
module LocationMap {
  import opened JsCore

  const PermissionDenied := "Permission to access location was denied"
  const GeocodeFailed := "Couldn't fetch address details"
  const NotServiceableMessage := "Sorry, we are not serviceable in your area."
  const FetchingStreet := "Fetching location..."
  const Separator := ", "
  /** Metres within which the restaurant delivers (inclusive). */
  const ServiceRadius: real := 5000.0
  /** Metres above which the distance is shown in kilometres. */
  const KmThreshold: real := 1000.0

  /** The first result of a reverse-geocode lookup; a missing part is null. */
  datatype GeocodedAddress = GeocodedAddress(name: Option<string>, streetNumber: Option<string>, street: Option<string>, city: Option<string>)

  datatype AddressDetails = AddressDetails(building: string, street: Option<string>, city: Option<string>, fullAddress: string)

  /** The distance as displayed, before rounding: kilometres or metres. */
  datatype DistanceLabel = Kilometres(km: real) | Metres(m: real)

  datatype Serviceability = Serviceable | NotServiceable(message: string)

  /** What the card shows: a spinner, an error alone when out of range, an error with a
      retry button, or the address label with the distance. */
  datatype View = Spinner | OutOfRange(message: string) | Retry(message: string) | Card(caption: Option<string>, distance: Option<DistanceLabel>)

  /** What `onLocationUpdate` receives. */
  datatype LocationUpdate = LocationUpdate(details: AddressDetails, distance: Option<DistanceLabel>, isServiceable: bool)

  // ---------------------------------------------------------------------------
  // Address composition

  /** A part inside a template literal: null is written as the text "null". */
  function Interpolated(part: Option<string>): string {
    match part
    case Some(s) => s
    case None => "null"
  }

  /** `name || `${streetNumber} ${street}``. The fallback always holds a space, so the
      label is never empty, even when every part is missing. */
  function BuildingLabel(g: GeocodedAddress): (b: string)
    ensures Present(g.name) ==> b == g.name.value
    ensures !Present(g.name) ==> b == Interpolated(g.streetNumber) + " " + Interpolated(g.street)
    ensures b != ""
  {
    if Present(g.name) then g.name.value else Interpolated(g.streetNumber) + " " + Interpolated(g.street)
  }

  /** `[p].filter(Boolean)` for one optional string. */
  function Kept(p: Option<string>): seq<string> {
    if Present(p) then [p.value] else []
  }

  /** `filter(Boolean)` on a list of optional strings: the present ones, in order. */
  function PresentParts(parts: seq<Option<string>>): (r: seq<string>)
    ensures |r| <= |parts|
  {
    if parts == [] then [] else Kept(parts[0]) + PresentParts(parts[1..])
  }

  /** The kept parts are all non-empty, and none is kept exactly when every part is falsy. */
  lemma {:induction false} PresentPartsKept(parts: seq<Option<string>>)
    ensures var r := PresentParts(parts);
      && (forall i :: 0 <= i < |r| ==> r[i] != "")
      && (r == [] <==> forall i :: 0 <= i < |parts| ==> !Present(parts[i]))
  {
    if parts != [] {
      PresentPartsKept(parts[1..]);
      assert forall i :: 1 <= i < |parts| ==> parts[i] == parts[1..][i - 1];
    }
  }

  /** `xs.join(sep)`. */
  function Join(xs: seq<string>, sep: string): string {
    if xs == [] then ""
    else if |xs| == 1 then xs[0]
    else xs[0] + sep + Join(xs[1..], sep)
  }

  /** `[building, street, city].filter(Boolean).join(", ")`. */
  function FullAddress(building: string, street: Option<string>, city: Option<string>): string {
    Join(PresentParts([Some(building), street, city]), Separator)
  }

  /** `", " + part` for a present part, nothing otherwise. */
  function Segment(part: Option<string>): string {
    if Present(part) then Separator + part.value else ""
  }

  /** Filtering a list keeps its first part when present, then filters the rest. */
  lemma PresentPartsCons(p: Option<string>, rest: seq<Option<string>>)
    ensures PresentParts([p] + rest) == Kept(p) + PresentParts(rest)
  {
    assert ([p] + rest)[1..] == rest;
  }

  /** Filtering three parts keeps each present one, in order. */
  lemma PresentPartsOfThree(x: Option<string>, y: Option<string>, z: Option<string>)
    ensures PresentParts([x, y, z]) == Kept(x) + Kept(y) + Kept(z)
  {
    PresentPartsCons(z, []);
    assert [z] + [] == [z];
    PresentPartsCons(y, [z]);
    assert [y] + [z] == [y, z];
    PresentPartsCons(x, [y, z]);
    assert [x] + [y, z] == [x, y, z];
  }

  /** Joining one, two or three strings. */
  lemma JoinShort(a: string, b: string, c: string, sep: string)
    ensures Join([a], sep) == a
    ensures Join([a, b], sep) == a + (sep + b)
    ensures Join([a, b, c], sep) == a + (sep + b) + (sep + c)
  {
    assert [a, b][1..] == [b];
    assert [a, b, c][1..] == [b, c];
    assert Join([b, c], sep) == b + sep + c;
    assert a + sep + (b + sep + c) == a + (sep + b) + (sep + c);
  }

  /** Joining a first string with the kept parts gives that string followed by their segments. */
  lemma JoinKept(first: string, street: Option<string>, city: Option<string>)
    ensures Join([first] + Kept(street) + Kept(city), Separator) == first + Segment(street) + Segment(city)
  {
    var s := if Present(street) then street.value else "";
    var c := if Present(city) then city.value else "";
    JoinShort(first, s, c, Separator);
    if Present(street) && Present(city) {
      assert [first] + [s] + [c] == [first, s, c];
    } else if Present(street) {
      assert [first] + [s] + [] == [first, s];
    } else if Present(city) {
      JoinShort(first, c, "", Separator);
      assert [first] + [] + [c] == [first, c];
    } else {
      assert [first] + [] + [] == [first];
    }
  }

  /** The joined address spelled out: with a non-empty building it is the building,
      then ", street" when the street is present, then ", city" when the city is present. */
  lemma FullAddressSpelledOut(building: string, street: Option<string>, city: Option<string>)
    requires building != ""
    ensures FullAddress(building, street, city) == building + Segment(street) + Segment(city)
  {
    PresentPartsOfThree(Some(building), street, city);
    assert Kept(Some(building)) == [building];
    JoinKept(building, street, city);
  }

  /** Joining a list whose first string is non-empty never gives the empty string. */
  lemma JoinNonEmpty(xs: seq<string>, sep: string)
    requires xs != [] && xs[0] != ""
    ensures Join(xs, sep) != ""
  {
    if |xs| > 1 {
      assert Join(xs, sep) == xs[0] + sep + Join(xs[1..], sep);
    }
  }

  /** The address is empty exactly when the building is empty and street and city are missing. */
  lemma FullAddressEmptyIff(building: string, street: Option<string>, city: Option<string>)
    ensures FullAddress(building, street, city) == "" <==> building == "" && !Present(street) && !Present(city)
  {
    PresentPartsOfThree(Some(building), street, city);
    var present := PresentParts([Some(building), street, city]);
    if present != [] {
      PresentPartsKept([Some(building), street, city]);
      JoinNonEmpty(present, Separator);
    }
  }

  /** The address details a geocode result gives. */
  function ComposeAddress(g: GeocodedAddress): AddressDetails {
    var building := BuildingLabel(g);
    AddressDetails(building, g.street, g.city, FullAddress(building, g.street, g.city))
  }

  /** Every geocode result yields a non-empty address that starts with the building label. */
  lemma ComposedAddressNonEmpty(g: GeocodedAddress)
    ensures var d := ComposeAddress(g);
      && d.fullAddress != ""
      && d.fullAddress == d.building + Segment(g.street) + Segment(g.city)
  {
    FullAddressSpelledOut(BuildingLabel(g), g.street, g.city);
  }

  /** What `reverseGeocode` leaves: the first result composed, or the old details when there is none. */
  function GeocodedDetails(previous: AddressDetails, results: seq<GeocodedAddress>): AddressDetails {
    if |results| > 0 then ComposeAddress(results[0]) else previous
  }

  // ---------------------------------------------------------------------------
  // Distance rules

  /** The distance a label stands for, in metres. */
  function InMetres(l: DistanceLabel): real {
    match l
    case Kilometres(km) => km * 1000.0
    case Metres(m) => m
  }

  /** Kilometres strictly above 1000 m, metres otherwise; the label stands for the same distance. */
  function DistanceLabelFor(d: real): (l: DistanceLabel)
    ensures l.Kilometres? <==> d > KmThreshold
    ensures InMetres(l) == d
  {
    if d > KmThreshold then Kilometres(d / 1000.0) else Metres(d)
  }

  /** Serviceable up to and including 5000 m; beyond it, not serviceable with the fixed message. */
  function ServiceabilityOf(d: real): (s: Serviceability)
    ensures s.Serviceable? <==> d <= ServiceRadius
    ensures s.NotServiceable? ==> s.message == NotServiceableMessage
  {
    if d > ServiceRadius then NotServiceable(NotServiceableMessage) else Serviceable
  }

  /** Moving closer never loses service, and an unserviceable distance is always shown in kilometres. */
  lemma ServiceabilityRules(d1: real, d2: real)
    requires d1 <= d2
    ensures ServiceabilityOf(d2).Serviceable? ==> ServiceabilityOf(d1).Serviceable?
    ensures ServiceabilityOf(d2).NotServiceable? ==> DistanceLabelFor(d2).Kilometres?
  {
  }

  // ---------------------------------------------------------------------------
  // The screen

  class LocationMapScreen {
    var location: Option<Coords>
    var errorMsg: Option<string>
    var loading: bool
    var addressDetails: AddressDetails
    var distance: Option<DistanceLabel>
    var isServiceable: bool

    constructor ()
      ensures location == None && errorMsg == None && loading
      ensures addressDetails == AddressDetails("", Some(FetchingStreet), Some(""), "")
      ensures distance == None && isServiceable
    {
      location, errorMsg, loading := None, None, true;
      addressDetails := AddressDetails("", Some(FetchingStreet), Some(""), "");
      distance, isServiceable := None, true;
    }

    /** The effect on the address details: the parent is told only when the full address is non-empty. */
    function LocationUpdateFor(hasCallback: bool): (u: Option<LocationUpdate>)
      reads this
      ensures u.Some? <==> hasCallback && addressDetails.fullAddress != ""
      ensures u.Some? ==> u.value == LocationUpdate(addressDetails, distance, isServiceable)
    {
      if addressDetails.fullAddress != "" && hasCallback then Some(LocationUpdate(addressDetails, distance, isServiceable)) else None
    }

    /** The card rendered for the current state: loading wins, then an error (without a
        retry button when out of range), then the building label, or the street when the
        building is empty. */
    function CurrentView(): (v: View)
      reads this
      ensures v == Spinner <==> loading
      ensures v.OutOfRange? <==> !loading && Present(errorMsg) && !isServiceable
      ensures v.Retry? <==> !loading && Present(errorMsg) && isServiceable
      ensures (v.OutOfRange? || v.Retry?) ==> v.message == errorMsg.value
      ensures v.Card? ==> v.caption == (if addressDetails.building != "" then Some(addressDetails.building) else addressDetails.street)
    {
      if loading then Spinner
      else if Present(errorMsg) && !isServiceable then OutOfRange(errorMsg.value)
      else if Present(errorMsg) then Retry(errorMsg.value)
      else Card(if addressDetails.building != "" then Some(addressDetails.building) else addressDetails.street, distance)
    }

    /** Replaces the address details with the first geocode result, if any. */
    method ReverseGeocode(geocode: Reply<seq<GeocodedAddress>>)
      modifies this`addressDetails, this`errorMsg
      ensures geocode.Ok? ==> addressDetails == GeocodedDetails(old(addressDetails), geocode.data) && errorMsg == old(errorMsg)
      ensures geocode.Failed? ==> addressDetails == old(addressDetails) && errorMsg == Some(GeocodeFailed)
      ensures geocode.Ok? && |geocode.data| > 0 ==> addressDetails.fullAddress != ""
    {
      match geocode {
        case Ok(results) =>
          if |results| > 0 {
            ComposedAddressNonEmpty(results[0]);
            addressDetails := ComposeAddress(results[0]);
          }
        case Failed(_) =>
          errorMsg := Some(GeocodeFailed);
      }
    }

    /** Resets the error and serviceability, asks for permission (`permission` is the status
        the request settles with), takes the position and geocodes it. A status other than
        granted stops before locating; a failed permission or position request shows its message. */
    method FetchLocation(permission: Reply<string>, position: Reply<Coords>, geocode: Reply<seq<GeocodedAddress>>)
      modifies this`loading, this`errorMsg, this`isServiceable, this`location, this`addressDetails
      ensures !loading && isServiceable
      ensures permission.Failed? ==> errorMsg == permission.message && location == old(location) && addressDetails == old(addressDetails)
      ensures permission.Ok? && permission.data != Granted ==>
        errorMsg == Some(PermissionDenied) && location == old(location) && addressDetails == old(addressDetails)
      ensures permission == Ok(Granted) && position.Failed? ==>
        errorMsg == position.message && location == old(location) && addressDetails == old(addressDetails)
      ensures permission == Ok(Granted) && position.Ok? ==>
        && location == Some(position.data)
        && (geocode.Ok? ==> addressDetails == GeocodedDetails(old(addressDetails), geocode.data) && errorMsg == None)
        && (geocode.Failed? ==> addressDetails == old(addressDetails) && errorMsg == Some(GeocodeFailed))
      ensures permission == Ok(Granted) && position.Ok? && geocode.Ok? && |geocode.data| > 0 ==> LocationUpdateFor(true).Some?
    {
      loading := true;
      errorMsg := None;
      isServiceable := true;
      match permission {
        case Failed(message) =>
          errorMsg := message;
        case Ok(status) =>
          if status != Granted {
            errorMsg := Some(PermissionDenied);
            loading := false;
            return;
          }
          match position {
            case Ok(coords) =>
              location := Some(coords);
              ReverseGeocode(geocode);
            case Failed(message) =>
              errorMsg := message;
          }
      }
      loading := false;
    }

    /** The distance effect, once a location is known; `distanceInMeters` is the haversine
        distance from it to the restaurant. Without a location nothing changes. */
    method CalculateDistance(distanceInMeters: real)
      modifies this`distance, this`isServiceable, this`errorMsg
      ensures old(location).None? ==> distance == old(distance) && isServiceable == old(isServiceable) && errorMsg == old(errorMsg)
      ensures old(location).Some? ==>
        && distance == Some(DistanceLabelFor(distanceInMeters))
        && (isServiceable <==> ServiceabilityOf(distanceInMeters).Serviceable?)
        && (isServiceable ==> errorMsg == None)
        && (!isServiceable ==> errorMsg == Some(NotServiceableMessage))
    {
      if location.None? {
        return;
      }
      if distanceInMeters > KmThreshold {
        distance := Some(Kilometres(distanceInMeters / 1000.0));
      } else {
        distance := Some(Metres(distanceInMeters));
      }
      if distanceInMeters > ServiceRadius {
        isServiceable := false;
        errorMsg := Some(NotServiceableMessage);
      } else {
        isServiceable := true;
        errorMsg := None;
      }
    }
  }
}
