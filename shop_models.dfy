/**
 * backend/shops/models.py: the catalog entities, the address row and its text form,
 * the shop row with its geocoding hook, and reviews.
 */
module ShopModels {
  import opened Wrappers

  // ---------------------------------------------------------------- catalog entities

  /** `max_length` of ShopType, ShopConcept and ShopLayout names. */
  const CatalogNameMaxLength := 50

  /** A row of ShopType, ShopConcept or ShopLayout. */
  datatype CatalogEntry = CatalogEntry(id: int, name: string)

  /** The column constraints of a catalog table: unique ids, unique names of at most 50 characters. */
  predicate ValidCatalog(table: seq<CatalogEntry>)
  {
    (forall i :: 0 <= i < |table| ==> |table[i].name| <= CatalogNameMaxLength)
    && (forall i, j :: 0 <= i < j < |table| ==> table[i].name != table[j].name && table[i].id != table[j].id)
  }

  datatype CatalogError = NameTooLong | NameTaken | IdTaken

  /** Saving a new catalog row: the database refuses an over-long or duplicate name. */
  function AddCatalogEntry(table: seq<CatalogEntry>, id: int, name: string): (r: Result<seq<CatalogEntry>, CatalogError>)
    ensures r.Failure? <==> (|name| > CatalogNameMaxLength
                             || (exists i :: 0 <= i < |table| && table[i].name == name)
                             || (exists i :: 0 <= i < |table| && table[i].id == id))
    ensures r.Success? ==> r.value == table + [CatalogEntry(id, name)]
  {
    if |name| > CatalogNameMaxLength then Failure(NameTooLong)
    else if exists i :: 0 <= i < |table| && table[i].name == name then Failure(NameTaken)
    else if exists i :: 0 <= i < |table| && table[i].id == id then Failure(IdTaken)
    else Success(table + [CatalogEntry(id, name)])
  }

  /** Every successful save keeps the table within its constraints. */
  lemma AddCatalogEntryPreservesValid(table: seq<CatalogEntry>, id: int, name: string)
    requires ValidCatalog(table)
    ensures AddCatalogEntry(table, id, name).Success? ==> ValidCatalog(AddCatalogEntry(table, id, name).value)
  {
  }

  // ---------------------------------------------------------------- address

  datatype Address = Address(
    postalCode: string,
    prefecture: string,
    city: string,
    district: string,
    town: string,
    streetAddress: string,
    building: string)

  /** `part` sits in `s` at offset `at`. */
  predicate SegmentAt(s: string, at: nat, part: string)
  {
    at + |part| <= |s| && s[at..at + |part|] == part
  }

  /**
   * Address.__str__: prefecture, city, district, town, street address and building laid end
   * to end with no separator; the postal code is not part of it.
   */
  function AddressText(a: Address): (s: string)
    ensures |s| == |a.prefecture| + |a.city| + |a.district| + |a.town| + |a.streetAddress| + |a.building|
    ensures SegmentAt(s, 0, a.prefecture)
    ensures SegmentAt(s, |a.prefecture|, a.city)
    ensures SegmentAt(s, |a.prefecture| + |a.city|, a.district)
    ensures SegmentAt(s, |a.prefecture| + |a.city| + |a.district|, a.town)
    ensures SegmentAt(s, |a.prefecture| + |a.city| + |a.district| + |a.town|, a.streetAddress)
    ensures SegmentAt(s, |a.prefecture| + |a.city| + |a.district| + |a.town| + |a.streetAddress|, a.building)
  {
    a.prefecture + a.city + a.district + a.town + a.streetAddress + a.building
  }

  /** The postal code never reaches the geocoder. */
  lemma AddressTextIgnoresPostalCode(a: Address, code: string)
    ensures AddressText(a.(postalCode := code)) == AddressText(a)
  {
  }

  // ---------------------------------------------------------------- geocoding

  /** A DecimalField coordinate that may be NULL. */
  type Coordinate = Option<real>

  /** Python truthiness of a coordinate: None and Decimal zero are both false. */
  predicate Missing(c: Coordinate)
  {
    c.None? || c.value == 0.0
  }

  datatype LatLng = LatLng(lat: real, lng: real)

  /** The parts of the Google geocoding reply the model reads: the status and the result locations. */
  datatype GeocodeReply = GeocodeReply(status: string, results: seq<LatLng>)

  /** What one geocoding attempt leaves behind: whether it raised, and the two coordinates. */
  datatype GeocodeOutcome = GeocodeOutcome(raised: bool, latitude: Coordinate, longitude: Coordinate)

  /** geocode_address raises on a reply exactly when the request or its decoding failed, or an "OK" came with no results. */
  predicate GeocodeRaises(reply: Option<GeocodeReply>)
  {
    reply.None? || (reply.value.status == "OK" && reply.value.results == [])
  }

  /**
   * geocode_address on a reply (None: the request or the JSON decoding raised). On "OK" both
   * coordinates come from the first result; an "OK" with no results raises IndexError; any other
   * status leaves both coordinates as they were.
   */
  function Geocoded(reply: Option<GeocodeReply>, latitude: Coordinate, longitude: Coordinate): (o: GeocodeOutcome)
    ensures o.raised <==> GeocodeRaises(reply)
    ensures reply.Some? && reply.value.status == "OK" && reply.value.results != [] ==>
      o.latitude == Some(reply.value.results[0].lat) && o.longitude == Some(reply.value.results[0].lng)
    ensures reply.Some? && reply.value.status != "OK" ==> o.latitude == latitude && o.longitude == longitude
    ensures o.raised ==> o.latitude == latitude && o.longitude == longitude
  {
    if reply.None? then GeocodeOutcome(true, latitude, longitude)
    else if reply.value.status == "OK" then
      if reply.value.results == [] then GeocodeOutcome(true, latitude, longitude)
      else GeocodeOutcome(false, Some(reply.value.results[0].lat), Some(reply.value.results[0].lng))
    else GeocodeOutcome(false, latitude, longitude)
  }

  /** The geocoding service: from the address text to its reply, None when the call raises. */
  type Geocoder = string -> Option<GeocodeReply>

  // ---------------------------------------------------------------- shop

  /** The columns the shop search reads, as one immutable snapshot. */
  datatype ShopRow = ShopRow(id: int, name: string, address: Address, types: set<int>, concepts: set<int>, layouts: set<int>)

  /** A Shop model instance. Many-to-many relations are the sets of related ids. */
  class Shop {
    var id: int
    var name: string
    var address: Address
    var phoneNumber: Option<string>
    var latitude: Coordinate
    var longitude: Coordinate
    var seatCount: Option<int>
    var capacity: Option<int>
    /** The JSON document stored in opening_hours, kept as its text. */
    var openingHours: Option<string>
    var createdBy: int
    var types: set<int>
    var concepts: set<int>
    var layouts: set<int>
    var iconImage: Option<string>

    constructor (id: int, name: string, address: Address, phoneNumber: Option<string>,
                 latitude: Coordinate, longitude: Coordinate, seatCount: Option<int>, capacity: Option<int>,
                 openingHours: Option<string>, createdBy: int, iconImage: Option<string>)
      ensures this.id == id && this.name == name && this.address == address
      ensures this.phoneNumber == phoneNumber && this.latitude == latitude && this.longitude == longitude
      ensures this.seatCount == seatCount && this.capacity == capacity && this.openingHours == openingHours
      ensures this.createdBy == createdBy && this.iconImage == iconImage
      ensures types == {} && concepts == {} && layouts == {}
    {
      this.id := id;
      this.name := name;
      this.address := address;
      this.phoneNumber := phoneNumber;
      this.latitude := latitude;
      this.longitude := longitude;
      this.seatCount := seatCount;
      this.capacity := capacity;
      this.openingHours := openingHours;
      this.createdBy := createdBy;
      this.iconImage := iconImage;
      types := {};
      concepts := {};
      layouts := {};
    }

    function Row(): (r: ShopRow)
      reads this
      ensures r.id == id && r.name == name && r.address == address
      ensures r.types == types && r.concepts == concepts && r.layouts == layouts
    {
      ShopRow(id, name, address, types, concepts, layouts)
    }

    /** geocode_address: asks the geocoder for this shop's address text and writes only the coordinates. */
    method GeocodeAddress(geocoder: Geocoder) returns (raised: bool)
      modifies this`latitude, this`longitude
      ensures GeocodeOutcome(raised, latitude, longitude)
              == Geocoded(geocoder(AddressText(address)), old(latitude), old(longitude))
    {
      var reply := geocoder(AddressText(address));
      if reply.None? {
        return true;
      }
      if reply.value.status == "OK" {
        if reply.value.results == [] {
          return true;
        }
        var location := reply.value.results[0];
        latitude := Some(location.lat);
        longitude := Some(location.lng);
      }
      return false;
    }

    /** The pre_save receiver geocode_shop_address: geocode iff either coordinate is falsy. */
    method PreSave(geocoder: Geocoder) returns (raised: bool)
      modifies this`latitude, this`longitude
      ensures GeocodeOutcome(raised, latitude, longitude)
              == PreSaveOutcome(geocoder(AddressText(address)), old(latitude), old(longitude))
    {
      raised := false;
      if Missing(latitude) || Missing(longitude) {
        raised := GeocodeAddress(geocoder);
      }
    }
  }

  /**
   * What the pre_save hook leaves for the geocoder's reply to the address text: a shop with both
   * coordinates set is saved as it is, any other shop is geocoded first.
   */
  function PreSaveOutcome(reply: Option<GeocodeReply>, latitude: Coordinate, longitude: Coordinate): (o: GeocodeOutcome)
    ensures !Missing(latitude) && !Missing(longitude) ==> o == GeocodeOutcome(false, latitude, longitude)
    ensures Missing(latitude) || Missing(longitude) ==> o == Geocoded(reply, latitude, longitude)
  {
    if Missing(latitude) || Missing(longitude) then Geocoded(reply, latitude, longitude)
    else GeocodeOutcome(false, latitude, longitude)
  }

  /**
   * Geocoding the same address again changes nothing: once a lookup has succeeded, a second
   * geocode_address or pre-save lookup keeps its coordinates, and a lookup after a pre-save lookup
   * ends where a single lookup on the starting coordinates does.
   */
  lemma GeocodeSettles(reply: Option<GeocodeReply>, latitude: Coordinate, longitude: Coordinate)
    requires !GeocodeRaises(reply)
    ensures var g := Geocoded(reply, latitude, longitude);
      Geocoded(reply, g.latitude, g.longitude) == g && PreSaveOutcome(reply, g.latitude, g.longitude) == g
    ensures var p := PreSaveOutcome(reply, latitude, longitude);
      Geocoded(reply, p.latitude, p.longitude) == Geocoded(reply, latitude, longitude)
  {
  }

  /** Pre-save geocoding is triggered by a zero coordinate exactly as by a NULL one. */
  lemma ZeroCountsAsMissing(latitude: Coordinate)
    ensures Missing(Some(0.0)) && Missing(None)
    ensures Missing(latitude) <==> latitude.None? || latitude == Some(0.0)
  {
  }

  // ---------------------------------------------------------------- review

  /** A Review row; `likes` is a PositiveIntegerField, so never negative. */
  datatype Review = Review(shop: int, user: int, title: string, content: string, likes: nat,
                           createdAt: int, updatedAt: int)

  /** The value a freshly created review's `likes` takes. */
  const DefaultLikes: nat := 0
}
