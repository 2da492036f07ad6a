/**
 * frontend/src/components/ShopCreateForm: the new-shop form state, the routing of input changes
 * to form fields, the postal-code autofill and the authenticated submit.
 */
module ShopCreateForm {
  import opened Wrappers
  import opened Text
  import opened ShopTypes
  import ShopActions
  import OpeningHoursInput

  /** The empty form: blank texts, zero counts, no ids and no opening hours entered. */
  const InitialForm: ShopForm :=
    ShopForm(Str(""), EmptyAddress, Str(""), Str(""), Str(""), Num(0.0), Num(0.0), Some(map[]), [], [], [], None)

  /** The scalar top-level fields an input can name. */
  datatype TopField = NameField | PhoneNumberField | LatitudeField | LongitudeField | SeatCountField | CapacityField

  function TopFieldName(t: TopField): string
  {
    match t
    case NameField => "name"
    case PhoneNumberField => "phone_number"
    case LatitudeField => "latitude"
    case LongitudeField => "longitude"
    case SeatCountField => "seat_count"
    case CapacityField => "capacity"
  }

  /** The top-level field an input name denotes, if it is one of them. */
  function TopFieldNamed(name: string): (r: Option<TopField>)
    ensures r.Some? ==> TopFieldName(r.value) == name
    ensures r.None? ==> forall t :: TopFieldName(t) != name
  {
    if name == "name" then Some(NameField)
    else if name == "phone_number" then Some(PhoneNumberField)
    else if name == "latitude" then Some(LatitudeField)
    else if name == "longitude" then Some(LongitudeField)
    else if name == "seat_count" then Some(SeatCountField)
    else if name == "capacity" then Some(CapacityField)
    else None
  }

  /** The address key a property name denotes, if it is one of them. */
  function AddressKeyNamed(name: string): (r: Option<AddressKey>)
    ensures r.Some? ==> AddressKeyName(r.value) == name
    ensures r.None? ==> forall k :: AddressKeyName(k) != name
  {
    if name == "postal_code" then Some(PostalCode)
    else if name == "prefecture" then Some(Prefecture)
    else if name == "city" then Some(City)
    else if name == "district" then Some(District)
    else if name == "town" then Some(Town)
    else if name == "street_address" then Some(StreetAddress)
    else if name == "building" then Some(Building)
    else None
  }

  /** `{ ...form, [name]: value }` for a top-level scalar field. */
  function WithTopField<Id>(form: ShopFormOf<Id>, t: TopField, v: JsValue): ShopFormOf<Id>
  {
    match t
    case NameField => form.(name := v)
    case PhoneNumberField => form.(phoneNumber := v)
    case LatitudeField => form.(latitude := v)
    case LongitudeField => form.(longitude := v)
    case SeatCountField => form.(seatCount := v)
    case CapacityField => form.(capacity := v)
  }

  /**
   * handleChange: a name starting with 'address.' writes the address property named by its second
   * dot-separated piece; any other name writes that top-level property. Input values are strings,
   * so a numeric field now holds text. A name outside the form's properties changes nothing here.
   */
  function ApplyChange<Id>(form: ShopFormOf<Id>, name: string, value: string): (r: ShopFormOf<Id>)
    ensures StartsWith(name, "address.") ==>
      match AddressKeyNamed(SecondPiece(name))
      case Some(k) => r == form.(address := WithAddressField(form.address, k, Some(value)))
      case None => r == form
    ensures !StartsWith(name, "address.") ==>
      match TopFieldNamed(name)
      case Some(t) => r == WithTopField(form, t, Str(value))
      case None => r == form
  {
    if StartsWith(name, "address.") then
      match AddressKeyNamed(SecondPiece(name))
      case Some(k) => form.(address := WithAddressField(form.address, k, Some(value)))
      case None => form
    else
      match TopFieldNamed(name)
      case Some(t) => WithTopField(form, t, Str(value))
      case None => form
  }

  /** `name.split('.')[1]`, for a name that starts with 'address.' and so has a second piece. */
  function SecondPiece(name: string): (piece: string)
    requires StartsWith(name, "address.")
    ensures |Split(name, '.')| >= 2 && piece == Split(name, '.')[1]
  {
    SplitHasTwoPieces(name);
    Split(name, '.')[1]
  }

  /** A name with a dot splits into at least two pieces. */
  lemma {:induction false} SplitHasTwoPieces(name: string)
    requires StartsWith(name, "address.")
    ensures |Split(name, '.')| >= 2
  {
    assert name == "address" + name[7..];
    SplitPrefix("address", name[7..], '.');
    assert name[7..] == "." + name[8..];
    assert Split(name[7..], '.') == [""] + Split(name[8..], '.');
  }

  /** `'address.' + k` splits into 'address' and `k` when `k` has no dot. */
  lemma SplitAddressName(k: string)
    requires '.' !in k
    ensures Split("address." + k, '.') == ["address", k]
  {
    SplitPrefix("address", "." + k, '.');
    assert "address" + ("." + k) == "address." + k;
    assert ("." + k)[1..] == k;
    assert Split("." + k, '.') == [""] + Split(k, '.');
    SplitJoin([k], '.');
    assert Join([k], '.') == k;
    assert "address" + "" == "address";
  }

  /** Editing `address.<k>` changes only that address property and nothing else in the form. */
  lemma AddressChangeTouchesOnlyIt(form: ShopForm, k: AddressKey, value: string)
    ensures var r := ApplyChange(form, "address." + AddressKeyName(k), value);
      AddressField(r.address, k) == Some(value)
      && (forall j :: j != k ==> AddressField(r.address, j) == AddressField(form.address, j))
      && r.(address := form.address) == form
  {
    var n := "address." + AddressKeyName(k);
    assert StartsWith(n, "address.");
    AddressKeyNamedInverse(k);
    SplitAddressName(AddressKeyName(k));
    assert SecondPiece(n) == AddressKeyName(k);
    assert ApplyChange(form, n, value) == form.(address := WithAddressField(form.address, k, Some(value)));
  }

  /** Every address key's name is found again by AddressKeyNamed and holds no dot. */
  lemma AddressKeyNamedInverse(k: AddressKey)
    ensures AddressKeyNamed(AddressKeyName(k)) == Some(k)
    ensures '.' !in AddressKeyName(k)
  {
    match k
    case PostalCode =>
    case Prefecture =>
    case City =>
    case District =>
    case Town =>
    case StreetAddress =>
    case Building =>
  }

  /** Editing a top-level field changes only that field. */
  lemma TopChangeTouchesOnlyIt(form: ShopForm, t: TopField, value: string)
    ensures ApplyChange(form, TopFieldName(t), value) == WithTopField(form, t, Str(value))
    ensures ApplyChange(form, TopFieldName(t), value).address == form.address
    ensures ApplyChange(form, TopFieldName(t), value).openingHours == form.openingHours
    ensures ApplyChange(form, TopFieldName(t), value).types == form.types
  {
    var n := TopFieldName(t);
    assert n[0] != 'a';
    assert |n| >= 8 ==> n[..8][0] == n[0];
  }

  /** `{ ...address, ...addressData }`: the six looked-up fields overwrite; the postal code stays. */
  function MergePostal(a: FormAddress, p: ShopActions.PostalAddress): (r: FormAddress)
    ensures r.postalCode == a.postalCode
    ensures r.prefecture == Some(p.prefecture) && r.city == Some(p.city) && r.town == Some(p.town)
    ensures r.district == Some(p.district) && r.streetAddress == Some(p.streetAddress) && r.building == Some(p.building)
  {
    a.(prefecture := Some(p.prefecture), city := Some(p.city), town := Some(p.town), district := Some(p.district),
       streetAddress := Some(p.streetAddress), building := Some(p.building))
  }

  /**
   * handlePostalCodeChange on an address: the code is always stored; at exactly seven characters
   * the lookup runs (its reply is `zip(value)`), and only a successful lookup fills the address.
   */
  function PostalChange(a: FormAddress, value: string, zip: string -> Option<ShopActions.ZipReply>): (r: FormAddress)
    ensures r.postalCode == Some(value)
    ensures |value| != 7 ==> r == a.(postalCode := Some(value))
    ensures |value| == 7 ==>
      match ShopActions.AddressFromPostalCode(zip(value))
      case Success(p) => r == MergePostal(a.(postalCode := Some(value)), p)
      case Failure(_) => r == a.(postalCode := Some(value))
  {
    var stored := a.(postalCode := Some(value));
    if |value| == 7 then
      match ShopActions.AddressFromPostalCode(zip(value))
      case Success(p) => MergePostal(stored, p)
      case Failure(_) => stored
    else stored
  }

  /** A postal lookup that finds nothing leaves the address as typed, with the new code. */
  lemma FailedLookupKeepsAddress(a: FormAddress, value: string, zip: string -> Option<ShopActions.ZipReply>)
    requires zip(value).None? || zip(value).value.results.None? || zip(value).value.results.value == []
    ensures PostalChange(a, value, zip) == a.(postalCode := Some(value))
  {
  }

  /** A successful lookup fills prefecture, city and town from the first result and blanks the rest. */
  lemma LookupFillsFromFirstResult(a: FormAddress, value: string, zip: string -> Option<ShopActions.ZipReply>)
    requires |value| == 7
    requires zip(value).Some? && zip(value).value.results.Some? && |zip(value).value.results.value| > 0
    ensures var first := zip(value).value.results.value[0];
      PostalChange(a, value, zip) ==
        FormAddress(Some(value), Some(first.address1), Some(first.address2), Some(""), Some(first.address3), Some(""), Some(""))
  {
  }

  /** The form, the chosen icon file and the outcome of the last submit. */
  class ShopCreateFormState {
    var form: ShopForm
    var iconImage: Option<File>

    constructor ()
      ensures form == InitialForm && iconImage.None?
    {
      form := InitialForm;
      iconImage := None;
    }

    method HandleChange(name: string, value: string)
      modifies this
      ensures form == ApplyChange(old(form), name, value) && iconImage == old(iconImage)
    {
      form := ApplyChange(form, name, value);
    }

    method HandlePostalCodeChange(value: string, zip: string -> Option<ShopActions.ZipReply>)
      modifies this
      ensures form == old(form).(address := PostalChange(old(form).address, value, zip))
      ensures iconImage == old(iconImage)
    {
      form := form.(address := form.address.(postalCode := Some(value)));
      if |value| == 7 {
        var found := ShopActions.AddressFromPostalCode(zip(value));
        if found.Success? {
          form := form.(address := MergePostal(form.address, found.value));
        }
      }
    }

    /** handleFileChange: the first chosen file, if any, becomes the icon. */
    method HandleFileChange(files: seq<File>)
      modifies this
      ensures files != [] ==> iconImage == Some(files[0])
      ensures files == [] ==> iconImage == old(iconImage)
      ensures form == old(form)
    {
      if files != [] {
        iconImage := Some(files[0]);
      }
    }

    /** The opening-hours editor's onChange. */
    method EditHours(day: string, edit: OpeningHoursInput.HoursEdit)
      modifies this
      ensures form == old(form).(openingHours := Some(OpeningHoursInput.HandleChange(old(form).openingHours.GetOr(map[]), day, edit)))
      ensures iconImage == old(iconImage)
    {
      form := form.(openingHours := Some(OpeningHoursInput.HandleChange(form.openingHours.GetOr(map[]), day, edit)));
    }

    /**
     * handleSubmit: without a session nothing is sent. Otherwise the form goes out with the ids
     * (already numbers, so Number keeps them) and the chosen file or no icon; success navigates
     * to /shops.
     */
    method HandleSubmit(authenticated: bool, created: bool)
      returns (request: Option<ShopActions.MultipartRequest>, navigation: Option<string>)
      ensures !authenticated ==> request.None? && navigation.None?
      ensures authenticated ==>
        request == Some(ShopActions.MultipartRequest("POST", "/shops/shops/",
                                                     ShopActions.ShopFormEntries(form.(iconImage := iconImage))))
      ensures authenticated ==> navigation == (if created then Some("/shops") else None)
    {
      if !authenticated {
        return None, None;
      }
      var submitted := form.(types := form.types, concepts := form.concepts, layouts := form.layouts,
                             iconImage := iconImage);
      var sent := ShopActions.CreateShop(submitted);
      request := Some(sent);
      navigation := if created then Some("/shops") else None;
    }
  }
}
