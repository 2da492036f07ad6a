/**
 * frontend/src/app/shops/page.tsx: fetchShopsAndLocation, which fetches the shops for the
 * current search parameters, fills in missing coordinates, attaches distances and sorts the
 * shops nearest first when the user's location is known.
 */
module ShopsPage {
  import opened Wrappers
  import opened Text
  import opened ShopTypes
  import opened SearchParams
  import ShopActions

  // ---------------------------------------------------------------- coordinates

  /** A coordinate pair from the geocoding wrapper or the browser. */
  datatype LatLng = LatLng(lat: real, lng: real)

  /** The geocoding wrapper: None when it finds nothing. */
  type Geocoder = string -> Option<LatLng>

  /** The text sent to the geocoder: prefecture, city, town and street address, with no separator. */
  function GeocodeQuery(a: FormAddress): (q: string)
    ensures |q| == |Interpolated(a.prefecture)| + |Interpolated(a.city)| + |Interpolated(a.town)| + |Interpolated(a.streetAddress)|
    ensures q[..|Interpolated(a.prefecture)|] == Interpolated(a.prefecture)
  {
    Interpolated(a.prefecture) + Interpolated(a.city) + Interpolated(a.town) + Interpolated(a.streetAddress)
  }

  /** The coordinate fill-in for one shop. */
  function FillCoordinates(shop: Shop, geocode: Geocoder): (r: Shop)
    ensures shop.latitude.Truthy() && shop.longitude.Truthy() ==> r == shop
    ensures !(shop.latitude.Truthy() && shop.longitude.Truthy()) ==>
      match geocode(GeocodeQuery(shop.address))
      case Some(c) => r == shop.(latitude := Num(c.lat), longitude := Num(c.lng))
      case None => r == shop
    ensures r.id == shop.id && r.address == shop.address
  {
    if !shop.latitude.Truthy() || !shop.longitude.Truthy() then
      match geocode(GeocodeQuery(shop.address))
      case Some(c) => shop.(latitude := Num(c.lat), longitude := Num(c.lng))
      case None => shop
    else shop
  }

  function FillAll(shops: seq<Shop>, geocode: Geocoder): (r: seq<Shop>)
    ensures |r| == |shops|
    ensures forall i :: 0 <= i < |shops| ==> r[i] == FillCoordinates(shops[i], geocode)
  {
    seq(|shops|, i requires 0 <= i < |shops| => FillCoordinates(shops[i], geocode))
  }

  // ---------------------------------------------------------------- distances

  /** The browser location. */
  datatype Location = Location(latitude: real, longitude: real)

  /** calculateDistance, kept abstract: user location and the shop's two coordinates. */
  type DistanceFn = (Location, JsValue, JsValue) -> real

  /** A shop with its optional distance (ShopWithDistance). */
  datatype Placed = Placed(shop: Shop, distance: Option<real>)

  function AttachDistance(shop: Shop, location: Location, distance: DistanceFn): (p: Placed)
    ensures p.shop == shop
    ensures p.distance.Some? <==> shop.latitude.Truthy() && shop.longitude.Truthy()
    ensures p.distance.Some? ==> p.distance.value == distance(location, shop.latitude, shop.longitude)
  {
    Placed(shop, if shop.latitude.Truthy() && shop.longitude.Truthy()
                 then Some(distance(location, shop.latitude, shop.longitude)) else None)
  }

  function AttachDistances(shops: seq<Shop>, location: Location, distance: DistanceFn): (r: seq<Placed>)
    ensures |r| == |shops|
    ensures forall i :: 0 <= i < |shops| ==> r[i] == AttachDistance(shops[i], location, distance)
  {
    seq(|shops|, i requires 0 <= i < |shops| => AttachDistance(shops[i], location, distance))
  }

  /** Shops without a distance, as the list is shown when there is no location. */
  function Unplaced(shops: seq<Shop>): (r: seq<Placed>)
    ensures |r| == |shops|
    ensures forall i :: 0 <= i < |shops| ==> r[i] == Placed(shops[i], None)
  {
    seq(|shops|, i requires 0 <= i < |shops| => Placed(shops[i], None))
  }

  // ---------------------------------------------------------------- the distance sort

  /**
   * `(a.distance ?? Infinity) <= (b.distance ?? Infinity)` as the comparator sees it: a missing
   * distance is Infinity, and Infinity - Infinity is NaN, which the sort treats as equal.
   */
  predicate KeyLe(a: Placed, b: Placed)
  {
    match (a.distance, b.distance)
    case (Some(x), Some(y)) => x <= y
    case (_, None) => true
    case (None, Some(_)) => false
  }

  predicate SortedByDistance(s: seq<Placed>)
  {
    forall i, j :: 0 <= i < j < |s| ==> KeyLe(s[i], s[j])
  }

  /** Inserts `x` after every element that does not compare greater than it. */
  function Insert(s: seq<Placed>, x: Placed): (r: seq<Placed>)
    ensures |r| == |s| + 1
    ensures multiset(r) == multiset(s) + multiset{x}
    decreases |s|
  {
    if s == [] then [x]
    else if KeyLe(s[|s| - 1], x) then s + [x]
    else
      var init := s[..|s| - 1];
      assert s == init + [s[|s| - 1]];
      Insert(init, x) + [s[|s| - 1]]
  }

  /** The stable sort by distance that Array.prototype.sort performs with this comparator. */
  function StableSort(s: seq<Placed>): (r: seq<Placed>)
    ensures |r| == |s|
    decreases |s|
  {
    if s == [] then [] else Insert(StableSort(s[..|s| - 1]), s[|s| - 1])
  }

  lemma {:induction false} InsertSorted(s: seq<Placed>, x: Placed)
    requires SortedByDistance(s)
    ensures SortedByDistance(Insert(s, x))
    decreases |s|
  {
    if s != [] && !KeyLe(s[|s| - 1], x) {
      var init := s[..|s| - 1];
      var last := s[|s| - 1];
      InsertSorted(init, x);
      var r := Insert(init, x);
      forall i | 0 <= i < |r|
        ensures KeyLe(r[i], last)
      {
        assert r[i] in multiset(r);
        assert r[i] in multiset(init) || r[i] == x;
        if r[i] != x {
          var k :| 0 <= k < |init| && init[k] == r[i];
          assert s[k] == r[i];
        }
      }
    }
  }

  /** The sort leaves distances non-decreasing. */
  lemma {:induction false} StableSortSorted(s: seq<Placed>)
    ensures SortedByDistance(StableSort(s))
    decreases |s|
  {
    if s != [] {
      StableSortSorted(s[..|s| - 1]);
      InsertSorted(StableSort(s[..|s| - 1]), s[|s| - 1]);
    }
  }

  /** The sort is a permutation. */
  lemma {:induction false} StableSortPermutes(s: seq<Placed>)
    ensures multiset(StableSort(s)) == multiset(s)
    decreases |s|
  {
    if s != [] {
      StableSortPermutes(s[..|s| - 1]);
      assert s == s[..|s| - 1] + [s[|s| - 1]];
    }
  }

  /** The elements whose distance is `d`, in order. */
  function WithDistance(s: seq<Placed>, d: Option<real>): seq<Placed>
    decreases |s|
  {
    if s == [] then []
    else WithDistance(s[..|s| - 1], d) + (if s[|s| - 1].distance == d then [s[|s| - 1]] else [])
  }

  lemma {:induction false} WithDistanceAppend(s: seq<Placed>, x: Placed, d: Option<real>)
    ensures WithDistance(s + [x], d) == WithDistance(s, d) + (if x.distance == d then [x] else [])
  {
    assert (s + [x])[..|s + [x]| - 1] == s;
  }

  lemma {:induction false} InsertStable(s: seq<Placed>, x: Placed, d: Option<real>)
    ensures WithDistance(Insert(s, x), d) == WithDistance(s, d) + (if x.distance == d then [x] else [])
    decreases |s|
  {
    if s == [] {
      WithDistanceAppend([], x, d);
    } else if KeyLe(s[|s| - 1], x) {
      WithDistanceAppend(s, x, d);
    } else {
      var init := s[..|s| - 1];
      var last := s[|s| - 1];
      var ins := Insert(init, x);
      assert Insert(s, x) == ins + [last];
      assert s == init + [last];
      InsertStable(init, x, d);
      WithDistanceAppend(ins, last, d);
      WithDistanceAppend(init, last, d);
      if x.distance == d {
        assert last.distance != d;
        assert WithDistance(Insert(s, x), d) == WithDistance(init, d) + [x];
      } else {
        assert WithDistance(Insert(s, x), d) == WithDistance(init, d) + (if last.distance == d then [last] else []);
      }
    }
  }

  /** Shops with equal distances (or both without one) keep their relative order. */
  lemma {:induction false} StableSortStable(s: seq<Placed>, d: Option<real>)
    ensures WithDistance(StableSort(s), d) == WithDistance(s, d)
    decreases |s|
  {
    if s != [] {
      var init := s[..|s| - 1];
      StableSortStable(init, d);
      InsertStable(StableSort(init), s[|s| - 1], d);
    }
  }

  /** Every shop with a distance comes before every shop without one. */
  lemma PlacedFirst(s: seq<Placed>)
    ensures var r := StableSort(s);
      forall i, j :: (0 <= i < |r| && 0 <= j < |r| && r[i].distance.Some? && r[j].distance.None?) ==> i < j
  {
    StableSortSorted(s);
  }

  /** `shopsWithDistance.sort(...)`: the array ends up holding the stable sort of its old contents. */
  method SortInPlace(a: array<Placed>)
    modifies a
    ensures a[..] == StableSort(old(a[..]))
  {
    var sorted := StableSort(a[..]);
    var i := 0;
    while i < a.Length
      invariant 0 <= i <= a.Length
      invariant a[..i] == sorted[..i]
    {
      a[i] := sorted[i];
      i := i + 1;
    }
    assert a[..] == a[..a.Length];
  }

  // ---------------------------------------------------------------- the page state

  /** The area and keyword parameters read from the URL. */
  function ReadParam(params: Params, key: string): string
  {
    Get(params, key).GetOr("")
  }

  /** `searchParams.get(key)?.split(',') || []`: a present value always splits to a non-empty list. */
  function ReadList(params: Params, key: string): (r: seq<string>)
    ensures Get(params, key).Some? ==> r == Split(Get(params, key).value, ',')
    ensures Get(params, key).None? ==> r == []
  {
    if Get(params, key).Some? then Split(Get(params, key).value, ',') else []
  }

  /** The backend: the shops it returns for a search request, or None when the request fails. */
  type ShopsBackend = ShopActions.SearchRequest -> Option<seq<Shop>>

  class ShopsContent {
    var shops: seq<Placed>
    var loading: bool
    var error: Option<string>
    var userLocation: Option<Location>

    /** The initial state: no shops, loading, no error, no location. */
    constructor ()
      ensures shops == [] && loading && error.None? && userLocation.None?
    {
      shops := [];
      loading := true;
      error := None;
      userLocation := None;
    }

    /**
     * fetchShopsAndLocation. `location` is the geolocation outcome: a failed lookup is None. A
     * failed shop fetch sets the error and clears loading, and changes nothing else.
     */
    method FetchShopsAndLocation(searchParams: Option<Params>, backend: ShopsBackend, location: Option<Location>,
                                 geocode: Geocoder, distance: DistanceFn)
      modifies this
      ensures searchParams.None? ==> unchanged(this)
      ensures searchParams.Some? ==>
        var request := ShopActions.SearchRequest("/shops/shops/", ShopActions.ShopQuery(
          Some(ReadParam(searchParams.value, "keyword")),
          Some(ReadList(searchParams.value, "types")), Some(ReadList(searchParams.value, "concepts")),
          Some(ReadList(searchParams.value, "layouts")),
          Some(ReadParam(searchParams.value, "region")), Some(ReadParam(searchParams.value, "prefecture")),
          Some(ReadParam(searchParams.value, "city"))));
        match backend(request)
        case None =>
          error == Some("Failed to fetch shops") && !loading
          && shops == old(shops) && userLocation == old(userLocation)
        case Some(fetched) =>
          !loading && error == old(error) && userLocation == location
          && shops == (if location.Some?
                       then StableSort(AttachDistances(FillAll(fetched, geocode), location.value, distance))
                       else Unplaced(fetched))
    {
      if searchParams.None? {
        return;
      }
      var params := searchParams.value;
      var keyword := ReadParam(params, "keyword");
      var types := ReadList(params, "types");
      var concepts := ReadList(params, "concepts");
      var layouts := ReadList(params, "layouts");
      var region := ReadParam(params, "region");
      var prefecture := ReadParam(params, "prefecture");
      var city := ReadParam(params, "city");
      var request := ShopActions.GetShops(Some(keyword), Some(types), Some(concepts), Some(layouts),
                                          Some(region), Some(prefecture), Some(city));
      var response := backend(request);
      if response.None? {
        error := Some("Failed to fetch shops");
        loading := false;
        return;
      }
      var fetched := response.value;
      userLocation := location;
      var withCoordinates := FillAll(fetched, geocode);
      if location.Some? {
        var withDistance := AttachDistances(withCoordinates, location.value, distance);
        var a := new Placed[|withDistance|](i requires 0 <= i < |withDistance| => withDistance[i]);
        assert a[..] == withDistance;
        SortInPlace(a);
        shops := a[..];
      } else {
        shops := Unplaced(fetched);
      }
      loading := false;
    }
  }

  /**
   * Without a location the page shows the backend list itself, in backend order, with no
   * distances: coordinates filled in by geocoding are discarded.
   */
  lemma NoLocationKeepsBackendOrder(fetched: seq<Shop>)
    ensures |Unplaced(fetched)| == |fetched|
    ensures forall i :: 0 <= i < |fetched| ==> Unplaced(fetched)[i].shop == fetched[i]
    ensures forall i :: 0 <= i < |fetched| ==> Unplaced(fetched)[i].distance.None?
  {
  }

  /** With a location, the list shown is a permutation of the filled-in shops each with its distance. */
  lemma LocationListSpec(fetched: seq<Shop>, geocode: Geocoder, location: Location, distance: DistanceFn)
    ensures var placed := AttachDistances(FillAll(fetched, geocode), location, distance);
      multiset(StableSort(placed)) == multiset(placed)
      && SortedByDistance(StableSort(placed))
      && forall d :: WithDistance(StableSort(placed), d) == WithDistance(placed, d)
  {
    var placed := AttachDistances(FillAll(fetched, geocode), location, distance);
    StableSortPermutes(placed);
    StableSortSorted(placed);
    forall d
      ensures WithDistance(StableSort(placed), d) == WithDistance(placed, d)
    {
      StableSortStable(placed, d);
    }
  }
}
