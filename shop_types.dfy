/**
 * The client-side records of frontend/src/types/shop.ts, with the JavaScript value
 * distinctions the handlers branch on (undefined, null, strings, numbers).
 */
module ShopTypes {
  import opened Wrappers

  /** A scalar JavaScript value held by a form field. NaN is not modelled. */
  datatype JsValue = Undefined | Null | Str(s: string) | Num(x: real)
  {
    /** JavaScript truthiness: '', 0, null and undefined are falsy. */
    predicate Truthy()
    {
      match this
      case Undefined => false
      case Null => false
      case Str(s) => s != ""
      case Num(x) => x != 0.0
    }
  }

  /** A browser File handle, identified by an opaque number. */
  datatype File = File(handle: nat)

  /**
   * An address as it sits in client state. A field is None when it holds no string
   * (undefined); `building` is optional in the declared type.
   */
  datatype FormAddress = FormAddress(
    postalCode: Option<string>,
    prefecture: Option<string>,
    city: Option<string>,
    district: Option<string>,
    town: Option<string>,
    streetAddress: Option<string>,
    building: Option<string>)

  /** The address keys in declaration (and Object.entries) order. */
  datatype AddressKey = PostalCode | Prefecture | City | District | Town | StreetAddress | Building

  const AddressKeys: seq<AddressKey> := [PostalCode, Prefecture, City, District, Town, StreetAddress, Building]

  function AddressKeyName(k: AddressKey): (name: string)
  {
    match k
    case PostalCode => "postal_code"
    case Prefecture => "prefecture"
    case City => "city"
    case District => "district"
    case Town => "town"
    case StreetAddress => "street_address"
    case Building => "building"
  }

  function AddressField(a: FormAddress, k: AddressKey): Option<string>
  {
    match k
    case PostalCode => a.postalCode
    case Prefecture => a.prefecture
    case City => a.city
    case District => a.district
    case Town => a.town
    case StreetAddress => a.streetAddress
    case Building => a.building
  }

  /** `{...address, [k]: v}` for a known key. */
  function WithAddressField(a: FormAddress, k: AddressKey, v: Option<string>): (r: FormAddress)
    ensures AddressField(r, k) == v
    ensures forall j :: j != k ==> AddressField(r, j) == AddressField(a, j)
  {
    match k
    case PostalCode => a.(postalCode := v)
    case Prefecture => a.(prefecture := v)
    case City => a.(city := v)
    case District => a.(district := v)
    case Town => a.(town := v)
    case StreetAddress => a.(streetAddress := v)
    case Building => a.(building := v)
  }

  const EmptyAddress := FormAddress(Some(""), Some(""), Some(""), Some(""), Some(""), Some(""), Some(""))

  /** One day of opening hours; each property may be missing. */
  datatype DayHours = DayHours(open: Option<string>, close: Option<string>, isOpen: Option<bool>)

  /** Opening hours keyed by day name. */
  type OpeningHours = map<string, DayHours>

  /** ShopType, ShopConcept and ShopLayout all have this shape. */
  datatype Entity = Entity(id: int, name: string)

  /** An entry of `shop.types` as it may arrive: a bare id, an object, or null/undefined. */
  datatype Ref = IdRef(id: int) | ObjRef(entity: Entity) | NoRef

  /**
   * A shop as the client receives it. Coordinates are any scalar (the API may send decimals as
   * text); the tag lists hold whatever entries the API sent.
   */
  datatype Shop = Shop(
    id: int,
    name: string,
    address: FormAddress,
    latitude: JsValue,
    longitude: JsValue,
    seatCount: JsValue,
    capacity: JsValue,
    phoneNumber: Option<string>,
    openingHours: Option<OpeningHours>,
    types: seq<Ref>,
    concepts: seq<Ref>,
    layouts: seq<Ref>,
    iconImage: Option<string>)

  /**
   * ShopFormData, in its property (and Object.entries) order. The tag-list entries have type `Id`:
   * numbers in a form being filled in, and whatever `.id` gave for a reloaded shop's entries.
   */
  datatype ShopFormOf<Id> = ShopForm(
    name: JsValue,
    address: FormAddress,
    phoneNumber: JsValue,
    latitude: JsValue,
    longitude: JsValue,
    seatCount: JsValue,
    capacity: JsValue,
    openingHours: Option<OpeningHours>,
    types: seq<Id>,
    concepts: seq<Id>,
    layouts: seq<Id>,
    iconImage: Option<File>)

  /** A form whose tag lists hold numbers. */
  type ShopForm = ShopFormOf<int>
}
