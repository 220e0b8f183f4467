/** Reverse geocoding: composing a readable address from the structured
    components of the address service's answer, with the service's full
    display string and then the coordinate pair as fallbacks. The HTTP
    exchange is replaced by its outcome. */
module Geocoding {
  import opened Prelude

  /** The structured address components of the service's answer; a
      component the service left out is `None`. */
  datatype AddressComponents = AddressComponents(
    road: Option<string>,
    suburb: Option<string>,
    city: Option<string>,
    town: Option<string>,
    village: Option<string>,
    state: Option<string>,
    country: Option<string>,
    postcode: Option<string>)

  /** How the request went: the request threw (network or body parsing),
      the service answered with a non-OK status, or it answered with a body
      whose `address` object may be missing. */
  datatype Response =
    | FetchThrew
    | NotOk(status: int)
    | Ok(displayName: string, address: Option<AddressComponents>)

  /** The settlement name: the first truthy of city, town and village. */
  function Locality(a: AddressComponents): (r: Option<string>)
    ensures r.Some? <==> Truthy(a.city) || Truthy(a.town) || Truthy(a.village)
    ensures Truthy(a.city) ==> r == a.city
    ensures !Truthy(a.city) && Truthy(a.town) ==> r == a.town
    ensures !Truthy(a.city) && !Truthy(a.town) && Truthy(a.village) ==> r == a.village
  {
    if Truthy(a.city) then a.city
    else if Truthy(a.town) then a.town
    else if Truthy(a.village) then a.village
    else None
  }

  /** The component as a list of at most one part: empty when it is absent
      or empty. */
  function PartIf(c: Option<string>): (ps: seq<string>)
    ensures |ps| <= 1
    ensures |ps| == 1 <==> Truthy(c)
    ensures |ps| == 1 ==> ps[0] == c.value
  {
    if Truthy(c) then [c.value] else []
  }

  /** The address parts, in order: state, locality, suburb, road. */
  function Parts(a: AddressComponents): (ps: seq<string>)
    ensures |ps| <= 4
    ensures forall i | 0 <= i < |ps| :: ps[i] != ""
  {
    PartIf(a.state) + PartIf(Locality(a)) + PartIf(a.suburb) + PartIf(a.road)
  }

  function Count(c: bool): nat {
    if c then 1 else 0
  }

  /** Each truthy component among state, locality, suburb and road occupies
      its own position, in that order, and nothing else is a part. */
  lemma PartsInOrder(a: AddressComponents)
    ensures var n := |Parts(a)|;
      var hasState := Truthy(a.state);
      var hasLocality := Locality(a).Some?;
      var hasSuburb := Truthy(a.suburb);
      var hasRoad := Truthy(a.road);
      && n == Count(hasState) + Count(hasLocality) + Count(hasSuburb) + Count(hasRoad)
      && (hasState ==> Parts(a)[0] == a.state.value)
      && (hasLocality ==> Parts(a)[Count(hasState)] == Locality(a).value)
      && (hasSuburb ==> Parts(a)[Count(hasState) + Count(hasLocality)] == a.suburb.value)
      && (hasRoad ==> Parts(a)[n - 1] == a.road.value)
  {
  }

  /** Only one of city, town and village contributes: a truthy city hides
      town and village, and a truthy town hides village. */
  lemma LocalityPreference(a: AddressComponents, town: Option<string>, village: Option<string>)
    ensures Truthy(a.city) ==> Parts(a.(town := town, village := village)) == Parts(a)
    ensures Truthy(a.town) ==> Parts(a.(village := village)) == Parts(a)
    ensures !Truthy(a.city) && !Truthy(a.town) && !Truthy(a.village) ==>
      |Parts(a)| == Count(Truthy(a.state)) + Count(Truthy(a.suburb)) + Count(Truthy(a.road))
  {
  }

  /** Country and postcode never contribute to the address. */
  lemma CountryAndPostcodeIgnored(a: AddressComponents, country: Option<string>, postcode: Option<string>)
    ensures Parts(a.(country := country, postcode := postcode)) == Parts(a)
  {
  }

  /** `reverseGeocode`: the parts joined by single spaces, or the display
      string when there are none; a failed, non-OK or address-less answer
      gives the coordinate pair, already formatted by the caller. Never
      throws. */
  function ReverseGeocode(resp: Response, coordinates: string): (address: string)
    ensures !resp.Ok? || resp.address.None? ==> address == coordinates
    ensures resp.Ok? && resp.address.Some? && |Parts(resp.address.value)| == 0 ==> address == resp.displayName
    ensures resp.Ok? && resp.address.Some? && |Parts(resp.address.value)| > 0 ==>
      address == Join(Parts(resp.address.value), " ")
  {
    match resp
    case Ok(displayName, Some(a)) =>
      var ps := Parts(a);
      if |ps| > 0 then Join(ps, " ") else displayName
    case _ => coordinates
  }

  /** A composed address is never empty and is exactly as long as its parts
      plus one space between each pair of neighbours. */
  lemma ComposedAddressLength(a: AddressComponents, displayName: string, coordinates: string)
    requires |Parts(a)| > 0
    ensures var address := ReverseGeocode(Ok(displayName, Some(a)), coordinates);
      |address| == TotalLength(Parts(a)) + |Parts(a)| - 1 && address != ""
  {
    JoinLength(Parts(a), " ");
  }

  /** The road comes last: with a truthy road and some other part, the
      composed address is the address without the road, a space, and the
      road. */
  lemma RoadComesLast(a: AddressComponents, displayName: string, coordinates: string)
    requires Truthy(a.road) && |Parts(a.(road := None))| > 0
    ensures ReverseGeocode(Ok(displayName, Some(a)), coordinates) ==
      ReverseGeocode(Ok(displayName, Some(a.(road := None))), coordinates) + " " + a.road.value
  {
    var rest := Parts(a.(road := None));
    assert Parts(a) == rest + [a.road.value];
    JoinSnoc(rest, a.road.value, " ");
  }
}
