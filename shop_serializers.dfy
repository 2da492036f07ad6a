/**
 * backend/shops/serializers.py: validation of a shop payload and the create / update
 * semantics of ShopSerializer, and ReviewSerializer.create.
 */
module ShopSerializers {
  import opened Wrappers
  import opened ShopModels

  /** The address column names of AddressSerializer, in field order. */
  const AddressColumns: seq<string> := ["postal_code", "prefecture", "city", "district", "town", "street_address", "building"]

  /** The nested `address` of validated data: the address columns that were supplied. */
  type AddressData = map<string, string>

  function Column(data: AddressData, key: string, current: string): string
  {
    if key in data then data[key] else current
  }

  /** `address_serializer.update(address, data)`: every supplied column replaces the stored one. */
  function UpdateAddress(a: Address, data: AddressData): (r: Address)
    ensures "postal_code" in data ==> r.postalCode == data["postal_code"]
    ensures "postal_code" !in data ==> r.postalCode == a.postalCode
    ensures "prefecture" in data ==> r.prefecture == data["prefecture"]
    ensures "prefecture" !in data ==> r.prefecture == a.prefecture
    ensures "city" in data ==> r.city == data["city"]
    ensures "city" !in data ==> r.city == a.city
    ensures "district" in data ==> r.district == data["district"]
    ensures "district" !in data ==> r.district == a.district
    ensures "town" in data ==> r.town == data["town"]
    ensures "town" !in data ==> r.town == a.town
    ensures "street_address" in data ==> r.streetAddress == data["street_address"]
    ensures "street_address" !in data ==> r.streetAddress == a.streetAddress
    ensures "building" in data ==> r.building == data["building"]
    ensures "building" !in data ==> r.building == a.building
    ensures data == map[] ==> r == a
  {
    Address(
      Column(data, "postal_code", a.postalCode),
      Column(data, "prefecture", a.prefecture),
      Column(data, "city", a.city),
      Column(data, "district", a.district),
      Column(data, "town", a.town),
      Column(data, "street_address", a.streetAddress),
      Column(data, "building", a.building))
  }

  /** `Address.objects.create(**data)`: an unsupplied column takes the CharField default ''. */
  function AddressFromData(data: AddressData): (r: Address)
    ensures r.postalCode == (if "postal_code" in data then data["postal_code"] else "")
    ensures r.prefecture == (if "prefecture" in data then data["prefecture"] else "")
    ensures r.city == (if "city" in data then data["city"] else "")
    ensures r.district == (if "district" in data then data["district"] else "")
    ensures r.town == (if "town" in data then data["town"] else "")
    ensures r.streetAddress == (if "street_address" in data then data["street_address"] else "")
    ensures r.building == (if "building" in data then data["building"] else "")
  {
    UpdateAddress(Address("", "", "", "", "", "", ""), data)
  }

  /**
   * The plain columns of validated data. Each is None when its key is absent from the
   * validated data, and Some(v) when it carries v.
   */
  datatype ShopColumns = ShopColumns(
    name: Option<string>,
    phoneNumber: Option<Option<string>>,
    latitude: Option<Coordinate>,
    longitude: Option<Coordinate>,
    seatCount: Option<int>,
    capacity: Option<int>,
    openingHours: Option<Option<string>>,
    iconImage: Option<Option<string>>)

  /** Validated data of ShopSerializer, after the nested and related fields were parsed. */
  datatype ShopData = ShopData(
    address: Option<AddressData>,
    types: Option<seq<int>>,
    concepts: Option<seq<int>>,
    layouts: Option<seq<int>>,
    columns: ShopColumns)

  /** A declared `IntegerField(min_value=0)`: required, and not below zero. */
  predicate CountOk(v: Option<int>)
  {
    v.Some? && v.value >= 0
  }

  /**
   * The field errors of a payload. `otherErrors` stands for the checks DRF derives from the
   * model (lengths, types, existing related ids); the declared counts and the required
   * nested address are checked here.
   */
  function ValidationErrors(payload: ShopData, otherErrors: set<string>): (errors: set<string>)
    ensures "seat_count" in errors <==> "seat_count" in otherErrors || !CountOk(payload.columns.seatCount)
    ensures "capacity" in errors <==> "capacity" in otherErrors || !CountOk(payload.columns.capacity)
    ensures "address" in errors <==> "address" in otherErrors || payload.address.None?
    ensures otherErrors <= errors
    ensures errors <= otherErrors + {"seat_count", "capacity", "address"}
  {
    otherErrors
    + (if CountOk(payload.columns.seatCount) then {} else {"seat_count"})
    + (if CountOk(payload.columns.capacity) then {} else {"capacity"})
    + (if payload.address.Some? then {} else {"address"})
  }

  predicate IsValid(payload: ShopData, otherErrors: set<string>)
  {
    ValidationErrors(payload, otherErrors) == {}
  }

  /** A negative seat count or capacity is always rejected; valid data always carries an address. */
  lemma NegativeCountsRejected(payload: ShopData, otherErrors: set<string>)
    ensures payload.columns.seatCount.Some? && payload.columns.seatCount.value < 0 ==> !IsValid(payload, otherErrors)
    ensures payload.columns.capacity.Some? && payload.columns.capacity.value < 0 ==> !IsValid(payload, otherErrors)
    ensures IsValid(payload, otherErrors) ==>
              payload.address.Some?
              && payload.columns.seatCount.Some? && payload.columns.seatCount.value >= 0
              && payload.columns.capacity.Some? && payload.columns.capacity.value >= 0
  {
    assert "seat_count" in ValidationErrors(payload, otherErrors) <==> "seat_count" in otherErrors || !CountOk(payload.columns.seatCount);
    assert "capacity" in ValidationErrors(payload, otherErrors) <==> "capacity" in otherErrors || !CountOk(payload.columns.capacity);
    assert "address" in ValidationErrors(payload, otherErrors) <==> "address" in otherErrors || payload.address.None?;
  }

  /** A payload is valid exactly when the derived checks pass, both counts are present and not negative, and an address is given. */
  lemma ValidIff(payload: ShopData, otherErrors: set<string>)
    ensures IsValid(payload, otherErrors) <==>
      otherErrors == {} && CountOk(payload.columns.seatCount) && CountOk(payload.columns.capacity)
      && payload.address.Some?
  {
    var errors := ValidationErrors(payload, otherErrors);
    if IsValid(payload, otherErrors) {
      assert "seat_count" !in errors && "capacity" !in errors && "address" !in errors;
    } else {
      assert errors != {};
      var e :| e in errors;
      assert e in otherErrors || e in {"seat_count", "capacity", "address"};
    }
  }

  /** `related.set(ids)`: exactly the given ids, duplicates collapsed. */
  function IdSet(ids: seq<int>): (s: set<int>)
    ensures forall x :: x in s <==> x in ids
  {
    set x | x in ids
  }

  /**
   * The non-coordinate columns of a shop created from `data`: the new id, the requesting user as
   * creator, the address row built from the nested data, each supplied column, and the model
   * defaults ('' name, NULL phone and icon, 0 counts, '{}' hours) for the others.
   */
  predicate CreatedColumns(shop: Shop, data: ShopData, requestUser: int, newId: int)
    reads shop`id, shop`createdBy, shop`address, shop`name, shop`phoneNumber, shop`seatCount,
          shop`capacity, shop`openingHours, shop`iconImage
  {
    shop.id == newId && shop.createdBy == requestUser
    && data.address.Some? && shop.address == AddressFromData(data.address.value)
    && shop.name == data.columns.name.GetOr("")
    && shop.phoneNumber == data.columns.phoneNumber.GetOr(None)
    && shop.seatCount == Some(data.columns.seatCount.GetOr(0))
    && shop.capacity == Some(data.columns.capacity.GetOr(0))
    && shop.openingHours == data.columns.openingHours.GetOr(Some("{}"))
    && shop.iconImage == data.columns.iconImage.GetOr(None)
  }

  /** The relations of a created shop: exactly the listed ids, an absent list counting as empty. */
  predicate CreatedRelations(shop: Shop, data: ShopData)
    reads shop`types, shop`concepts, shop`layouts
  {
    shop.types == IdSet(data.types.GetOr([]))
    && shop.concepts == IdSet(data.concepts.GetOr([]))
    && shop.layouts == IdSet(data.layouts.GetOr([]))
  }

  /**
   * ShopSerializer.create: the address row is created first, then the shop (whose pre_save
   * hook may geocode or raise), then the three relations are set, absent lists counting as
   * empty. `raised` means the exception escapes and the relations are never set. An anonymous
   * requester (`requestUser` None) cannot be the shop's creator: building the shop raises, after
   * the address row exists, and no shop is made.
   */
  method Create(data: ShopData, requestUser: Option<int>, newId: int, geocoder: Geocoder)
    returns (address: Address, shop: Option<Shop>, raised: bool)
    requires data.address.Some?
    ensures address == AddressFromData(data.address.value)
    ensures requestUser.None? ==> raised && shop.None?
    ensures requestUser.Some? ==> shop.Some? && fresh(shop.value)
    ensures requestUser.Some? ==> CreatedColumns(shop.value, data, requestUser.value, newId)
    ensures requestUser.Some? ==>
      GeocodeOutcome(raised, shop.value.latitude, shop.value.longitude)
      == PreSaveOutcome(geocoder(AddressText(address)), data.columns.latitude.GetOr(None),
                        data.columns.longitude.GetOr(None))
    ensures requestUser.Some? && !raised ==> CreatedRelations(shop.value, data)
    ensures requestUser.Some? && raised ==> shop.value.types == {} && shop.value.concepts == {} && shop.value.layouts == {}
  {
    address := AddressFromData(data.address.value);
    if requestUser.None? {
      return address, None, true;
    }
    var s;
    s, raised := CreateShopRow(data, requestUser.value, newId, geocoder);
    shop := Some(s);
  }

  /**
   * `Shop.objects.create(...)` for a known creator, then the three `set()` calls: the row gets
   * the columns and the pre-save coordinates, and the relations are set unless the save raised.
   */
  method CreateShopRow(data: ShopData, requestUser: int, newId: int, geocoder: Geocoder) returns (shop: Shop, raised: bool)
    requires data.address.Some?
    ensures fresh(shop)
    ensures CreatedColumns(shop, data, requestUser, newId)
    ensures GeocodeOutcome(raised, shop.latitude, shop.longitude)
            == PreSaveOutcome(geocoder(AddressText(shop.address)), data.columns.latitude.GetOr(None),
                              data.columns.longitude.GetOr(None))
    ensures !raised ==> CreatedRelations(shop, data)
    ensures raised ==> shop.types == {} && shop.concepts == {} && shop.layouts == {}
  {
    var address := AddressFromData(data.address.value);
    var typesData := data.types.GetOr([]);
    var conceptsData := data.concepts.GetOr([]);
    var layoutsData := data.layouts.GetOr([]);
    var c := data.columns;
    shop := new Shop(newId, c.name.GetOr(""), address, c.phoneNumber.GetOr(None),
                     c.latitude.GetOr(None), c.longitude.GetOr(None),
                     Some(c.seatCount.GetOr(0)), Some(c.capacity.GetOr(0)),
                     c.openingHours.GetOr(Some("{}")), requestUser, c.iconImage.GetOr(None));
    ghost var row := (shop.id, shop.createdBy, shop.address, shop.name, shop.phoneNumber, shop.seatCount,
                      shop.capacity, shop.openingHours, shop.iconImage);
    raised := shop.PreSave(geocoder);
    assert (shop.id, shop.createdBy, shop.address, shop.name, shop.phoneNumber, shop.seatCount,
            shop.capacity, shop.openingHours, shop.iconImage) == row;
    ghost var coordinates := (shop.latitude, shop.longitude);
    if raised {
      return;
    }
    SetRelations(shop, IdSet(typesData), IdSet(conceptsData), IdSet(layoutsData));
    assert (shop.latitude, shop.longitude) == coordinates;
  }

  /** The three `related.set(ids)` calls after the shop row exists. */
  method SetRelations(shop: Shop, types: set<int>, concepts: set<int>, layouts: set<int>)
    modifies shop`types, shop`concepts, shop`layouts
    ensures shop.types == types && shop.concepts == concepts && shop.layouts == layouts
  {
    shop.types := types;
    shop.concepts := concepts;
    shop.layouts := layouts;
  }

  /**
   * ShopSerializer.update: a non-empty address payload updates the address row; each relation
   * is replaced when its key is present (an empty list clears it) and kept when absent; the
   * remaining supplied columns are assigned and the save runs the pre_save geocoding.
   */
  method Update(shop: Shop, data: ShopData, geocoder: Geocoder) returns (raised: bool)
    modifies shop
    ensures shop.id == old(shop.id) && shop.createdBy == old(shop.createdBy)
    ensures data.address.Some? && data.address.value != map[] ==>
      shop.address == UpdateAddress(old(shop.address), data.address.value)
    ensures data.address.None? || data.address.value == map[] ==> shop.address == old(shop.address)
    ensures shop.types == (if data.types.Some? then IdSet(data.types.value) else old(shop.types))
    ensures shop.concepts == (if data.concepts.Some? then IdSet(data.concepts.value) else old(shop.concepts))
    ensures shop.layouts == (if data.layouts.Some? then IdSet(data.layouts.value) else old(shop.layouts))
    ensures shop.name == data.columns.name.GetOr(old(shop.name))
    ensures shop.phoneNumber == data.columns.phoneNumber.GetOr(old(shop.phoneNumber))
    ensures shop.seatCount == (if data.columns.seatCount.Some? then data.columns.seatCount else old(shop.seatCount))
    ensures shop.capacity == (if data.columns.capacity.Some? then data.columns.capacity else old(shop.capacity))
    ensures shop.openingHours == data.columns.openingHours.GetOr(old(shop.openingHours))
    ensures shop.iconImage == data.columns.iconImage.GetOr(old(shop.iconImage))
    ensures GeocodeOutcome(raised, shop.latitude, shop.longitude)
            == PreSaveOutcome(geocoder(AddressText(shop.address)), data.columns.latitude.GetOr(old(shop.latitude)),
                              data.columns.longitude.GetOr(old(shop.longitude)))
  {
    UpdateNested(shop, data);
    raised := SaveColumns(shop, data.columns, geocoder);
  }

  /** The plain-column assignments of update followed by instance.save() and its pre_save hook. */
  method SaveColumns(shop: Shop, c: ShopColumns, geocoder: Geocoder) returns (raised: bool)
    modifies shop`name, shop`phoneNumber, shop`latitude, shop`longitude, shop`seatCount,
             shop`capacity, shop`openingHours, shop`iconImage
    ensures shop.name == c.name.GetOr(old(shop.name))
    ensures shop.phoneNumber == c.phoneNumber.GetOr(old(shop.phoneNumber))
    ensures shop.seatCount == (if c.seatCount.Some? then c.seatCount else old(shop.seatCount))
    ensures shop.capacity == (if c.capacity.Some? then c.capacity else old(shop.capacity))
    ensures shop.openingHours == c.openingHours.GetOr(old(shop.openingHours))
    ensures shop.iconImage == c.iconImage.GetOr(old(shop.iconImage))
    ensures GeocodeOutcome(raised, shop.latitude, shop.longitude)
            == PreSaveOutcome(geocoder(AddressText(shop.address)), c.latitude.GetOr(old(shop.latitude)),
                              c.longitude.GetOr(old(shop.longitude)))
  {
    AssignColumns(shop, c);
    raised := shop.PreSave(geocoder);
  }

  /** The nested address and the three relations, written before the plain columns. */
  method UpdateNested(shop: Shop, data: ShopData)
    modifies shop`address, shop`types, shop`concepts, shop`layouts
    ensures data.address.Some? && data.address.value != map[] ==>
      shop.address == UpdateAddress(old(shop.address), data.address.value)
    ensures data.address.None? || data.address.value == map[] ==> shop.address == old(shop.address)
    ensures shop.types == (if data.types.Some? then IdSet(data.types.value) else old(shop.types))
    ensures shop.concepts == (if data.concepts.Some? then IdSet(data.concepts.value) else old(shop.concepts))
    ensures shop.layouts == (if data.layouts.Some? then IdSet(data.layouts.value) else old(shop.layouts))
  {
    if data.address.Some? && data.address.value != map[] {
      shop.address := UpdateAddress(shop.address, data.address.value);
    }
    if data.types.Some? {
      shop.types := IdSet(data.types.value);
    }
    if data.concepts.Some? {
      shop.concepts := IdSet(data.concepts.value);
    }
    if data.layouts.Some? {
      shop.layouts := IdSet(data.layouts.value);
    }
  }

  /** The setattr loop of ModelSerializer.update over the supplied plain columns. */
  method AssignColumns(shop: Shop, c: ShopColumns)
    modifies shop`name, shop`phoneNumber, shop`latitude, shop`longitude, shop`seatCount,
             shop`capacity, shop`openingHours, shop`iconImage
    ensures shop.name == c.name.GetOr(old(shop.name))
    ensures shop.phoneNumber == c.phoneNumber.GetOr(old(shop.phoneNumber))
    ensures shop.latitude == c.latitude.GetOr(old(shop.latitude))
    ensures shop.longitude == c.longitude.GetOr(old(shop.longitude))
    ensures shop.seatCount == (if c.seatCount.Some? then c.seatCount else old(shop.seatCount))
    ensures shop.capacity == (if c.capacity.Some? then c.capacity else old(shop.capacity))
    ensures shop.openingHours == c.openingHours.GetOr(old(shop.openingHours))
    ensures shop.iconImage == c.iconImage.GetOr(old(shop.iconImage))
  {
    shop.name := c.name.GetOr(shop.name);
    shop.phoneNumber := c.phoneNumber.GetOr(shop.phoneNumber);
    shop.latitude := c.latitude.GetOr(shop.latitude);
    shop.longitude := c.longitude.GetOr(shop.longitude);
    if c.seatCount.Some? {
      shop.seatCount := c.seatCount;
    }
    if c.capacity.Some? {
      shop.capacity := c.capacity;
    }
    shop.openingHours := c.openingHours.GetOr(shop.openingHours);
    shop.iconImage := c.iconImage.GetOr(shop.iconImage);
  }

  // ---------------------------------------------------------------- reviews

  /**
   * A review submission as posted: `user`, `likes` and the timestamps may be present in the
   * request but are read-only fields of the serializer.
   */
  datatype ReviewPayload = ReviewPayload(shop: int, title: string, content: string,
                                         user: Option<int>, likes: Option<int>,
                                         createdAt: Option<int>, updatedAt: Option<int>)

  /**
   * ReviewSerializer.create on a payload: the author is the requesting user, likes start at
   * the model default, both timestamps are the creation time.
   */
  function CreateReview(payload: ReviewPayload, requestUser: int, now: int): (r: Review)
    ensures r.user == requestUser && r.likes == DefaultLikes
    ensures r.createdAt == now && r.updatedAt == now
    ensures r.shop == payload.shop && r.title == payload.title && r.content == payload.content
  {
    Review(payload.shop, requestUser, payload.title, payload.content, DefaultLikes, now, now)
  }

  /** Whatever user, likes or timestamps the client sends, the created review is the same. */
  lemma ReadOnlyFieldsIgnored(p: ReviewPayload, q: ReviewPayload, requestUser: int, now: int)
    requires p.shop == q.shop && p.title == q.title && p.content == q.content
    ensures CreateReview(p, requestUser, now) == CreateReview(q, requestUser, now)
  {
  }
}
