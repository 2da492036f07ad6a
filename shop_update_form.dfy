/**
 * frontend/src/components/ShopUpdateForm: the edit form loaded from an existing shop, its change
 * handlers and the authenticated update. Field routing and the postal autofill are the same code
 * as in the create form and are shared with it.
 */
module ShopUpdateForm {
  import opened Wrappers
  import opened Text
  import opened ShopTypes
  import ShopActions
  import OpeningHoursInput
  import ShopCreateForm

  /**
   * `t.id` for one tag entry: an object gives its id, a bare number gives undefined (None inside),
   * and null or undefined throws (the outer None).
   */
  function RefId(r: Ref): (id: Option<Option<int>>)
    ensures r.NoRef? <==> id.None?
    ensures r.ObjRef? ==> id == Some(Some(r.entity.id))
    ensures r.IdRef? ==> id == Some(None)
  {
    match r
    case ObjRef(e) => Some(Some(e.id))
    case IdRef(_) => Some(None)
    case NoRef => None
  }

  /** `tags.map(t => t.id)`: None when an entry throws, otherwise each entry's `.id` in order. */
  function Ids(tags: seq<Ref>): (ids: Option<seq<Option<int>>>)
    ensures ids.None? <==> NoRef in tags
    ensures ids.Some? ==> |ids.value| == |tags|
    ensures ids.Some? ==> forall i :: 0 <= i < |tags| ==> Some(ids.value[i]) == RefId(tags[i])
  {
    if NoRef in tags then None
    else Some(seq(|tags|, i requires 0 <= i < |tags| => RefId(tags[i]).value))
  }

  /** A tag list with no undefined entry, as numbers; None when some entry is undefined. */
  function Defined(ids: seq<Option<int>>): (r: Option<seq<int>>)
    ensures r.Some? <==> None !in ids
    ensures r.Some? ==> |r.value| == |ids| && forall i :: 0 <= i < |ids| ==> ids[i] == Some(r.value[i])
  {
    if None in ids then None
    else
      var r := seq(|ids|, i requires 0 <= i < |ids| => ids[i].value);
      assert forall i :: 0 <= i < |ids| ==> ids[i] in ids && ids[i] == Some(r[i]);
      Some(r)
  }

  /**
   * The form as updateShop can send it: None when some tag entry is undefined, because its
   * `item.toString()` throws while the FormData is built; otherwise the same form with number lists.
   */
  function SendableForm(f: ShopFormOf<Option<int>>): (r: Option<ShopForm>)
    ensures r.Some? <==> None !in f.types && None !in f.concepts && None !in f.layouts
    ensures r.Some? ==> r.value.name == f.name && r.value.address == f.address && r.value.phoneNumber == f.phoneNumber
    ensures r.Some? ==> r.value.latitude == f.latitude && r.value.longitude == f.longitude
    ensures r.Some? ==> r.value.seatCount == f.seatCount && r.value.capacity == f.capacity
    ensures r.Some? ==> r.value.openingHours == f.openingHours && r.value.iconImage == f.iconImage
    ensures r.Some? ==> Some(r.value.types) == Defined(f.types) && Some(r.value.concepts) == Defined(f.concepts)
    ensures r.Some? ==> Some(r.value.layouts) == Defined(f.layouts)
  {
    match (Defined(f.types), Defined(f.concepts), Defined(f.layouts))
    case (Some(ts), Some(cs), Some(ls)) =>
      Some(ShopForm(f.name, f.address, f.phoneNumber, f.latitude, f.longitude, f.seatCount, f.capacity,
                    f.openingHours, ts, cs, ls, f.iconImage))
    case _ => None
  }

  /** The reduce over the stored hours: every day keeps its times and is marked open. */
  function OpenAll(hours: OpeningHours): (r: OpeningHours)
    ensures r.Keys == hours.Keys
    ensures forall d :: d in hours ==> r[d] == hours[d].(isOpen := Some(true))
  {
    map d | d in hours :: hours[d].(isOpen := Some(true))
  }

  /** `phone_number || ''`. */
  function PhoneText(phone: Option<string>): (t: JsValue)
    ensures phone.Some? && phone.value != "" ==> t == Str(phone.value)
    ensures phone.None? || phone.value == "" ==> t == Str("")
  {
    if phone.Some? && phone.value != "" then Str(phone.value) else Str("")
  }

  /**
   * formDataFromShop: the shop as the form edits it; no icon file is chosen yet. None when a tag
   * entry's `.id` throws, which the surrounding try catches.
   */
  function FormDataFromShop(shop: Shop): (f: Option<ShopFormOf<Option<int>>>)
    ensures f.None? <==> NoRef in shop.types || NoRef in shop.concepts || NoRef in shop.layouts
    ensures f.Some? ==> f.value.name == Str(shop.name) && f.value.address == shop.address
    ensures f.Some? ==> f.value.phoneNumber == PhoneText(shop.phoneNumber)
    ensures f.Some? ==> f.value.latitude == shop.latitude && f.value.longitude == shop.longitude
    ensures f.Some? ==> f.value.seatCount == shop.seatCount && f.value.capacity == shop.capacity
    ensures f.Some? && shop.openingHours.None? ==> f.value.openingHours.None?
    ensures f.Some? && shop.openingHours.Some? ==> f.value.openingHours == Some(OpenAll(shop.openingHours.value))
    ensures f.Some? ==> Some(f.value.types) == Ids(shop.types) && Some(f.value.concepts) == Ids(shop.concepts)
    ensures f.Some? ==> Some(f.value.layouts) == Ids(shop.layouts)
    ensures f.Some? ==> f.value.iconImage.None?
  {
    match (Ids(shop.types), Ids(shop.concepts), Ids(shop.layouts))
    case (Some(ts), Some(cs), Some(ls)) =>
      Some(ShopForm(Str(shop.name), shop.address, PhoneText(shop.phoneNumber), shop.latitude, shop.longitude,
                    shop.seatCount, shop.capacity,
                    if shop.openingHours.Some? then Some(OpenAll(shop.openingHours.value)) else None,
                    ts, cs, ls, None))
    case _ => None
  }

  /** Every stored day is displayed ticked with its own times. */
  lemma LoadedDaysShowOpen(shop: Shop, day: string)
    requires shop.openingHours.Some? && day in shop.openingHours.value
    requires FormDataFromShop(shop).Some?
    ensures var f := FormDataFromShop(shop).value;
      OpeningHoursInput.RenderDay(DisplayedHours(f.openingHours), day) ==
        OpeningHoursInput.DayRow(true, Some((shop.openingHours.value[day].open.GetOr(""),
                                             shop.openingHours.value[day].close.GetOr(""))))
  {
  }

  const ClosedDay := DayHours(Some(""), Some(""), Some(false))

  /** The hours the editor shows: null hours appear as all seven days closed with empty times. */
  function DisplayedHours(hours: Option<OpeningHours>): (shown: OpeningHours)
    ensures hours.Some? ==> shown == hours.value
    ensures hours.None? ==> shown.Keys == set d | d in OpeningHoursInput.DaysOfWeek
    ensures hours.None? ==> forall d :: d in shown ==> shown[d] == ClosedDay
  {
    if hours.Some? then hours.value
    else map["月" := ClosedDay, "火" := ClosedDay, "水" := ClosedDay, "木" := ClosedDay,
             "金" := ClosedDay, "土" := ClosedDay, "日" := ClosedDay]
  }

  /** With null hours no day row is ticked. */
  lemma NullHoursShowClosed(day: string)
    ensures !OpeningHoursInput.RenderDay(DisplayedHours(None), day).checked
  {
  }

  class ShopUpdateFormState {
    var form: ShopFormOf<Option<int>>
    var iconImageUrl: Option<string>

    /** The placeholder form shown until the shop has loaded. */
    constructor ()
      ensures form == ShopForm(Str(""), EmptyAddress, Str(""), Null, Null, Num(0.0), Num(0.0), None, [], [], [], None)
      ensures iconImageUrl.None?
    {
      form := ShopForm(Str(""), EmptyAddress, Str(""), Null, Null, Num(0.0), Num(0.0), None, [], [], [], None);
      iconImageUrl := None;
    }

    /**
     * fetchData: `loaded` is the shop when all four requests succeeded, None when any of them
     * threw. A failed fetch, or a tag entry whose `.id` throws, changes nothing; otherwise the form
     * is replaced and a truthy icon URL replaces the preview.
     */
    method Load(loaded: Option<Shop>)
      modifies this
      ensures loaded.None? || FormDataFromShop(loaded.value).None? ==> unchanged(this)
      ensures loaded.Some? && FormDataFromShop(loaded.value).Some? ==> form == FormDataFromShop(loaded.value).value
      ensures loaded.Some? && FormDataFromShop(loaded.value).Some? ==>
        iconImageUrl == (if loaded.value.iconImage.Some? && loaded.value.iconImage.value != ""
                         then loaded.value.iconImage else old(iconImageUrl))
    {
      if loaded.None? {
        return;
      }
      var formData := FormDataFromShop(loaded.value);
      if formData.None? {
        return;
      }
      form := formData.value;
      if loaded.value.iconImage.Some? && loaded.value.iconImage.value != "" {
        iconImageUrl := loaded.value.iconImage;
      }
    }

    method HandleChange(name: string, value: string)
      modifies this
      ensures form == ShopCreateForm.ApplyChange(old(form), name, value) && iconImageUrl == old(iconImageUrl)
    {
      form := ShopCreateForm.ApplyChange(form, name, value);
    }

    method HandlePostalCodeChange(value: string, zip: string -> Option<ShopActions.ZipReply>)
      modifies this
      ensures form == old(form).(address := ShopCreateForm.PostalChange(old(form).address, value, zip))
      ensures iconImageUrl == old(iconImageUrl)
    {
      form := form.(address := form.address.(postalCode := Some(value)));
      if |value| == 7 {
        var found := ShopActions.AddressFromPostalCode(zip(value));
        if found.Success? {
          form := form.(address := ShopCreateForm.MergePostal(form.address, found.value));
        }
      }
    }

    /** handleFileChange: the first chosen file goes into the form and its object URL into the preview. */
    method HandleFileChange(files: seq<File>, objectUrl: File -> string)
      modifies this
      ensures files != [] ==> form == old(form).(iconImage := Some(files[0])) && iconImageUrl == Some(objectUrl(files[0]))
      ensures files == [] ==> unchanged(this)
    {
      if files != [] {
        form := form.(iconImage := Some(files[0]));
        iconImageUrl := Some(objectUrl(files[0]));
      }
    }

    /** The opening-hours editor edits what it displays. */
    method EditHours(day: string, edit: OpeningHoursInput.HoursEdit)
      modifies this
      ensures form == old(form).(openingHours := Some(OpeningHoursInput.HandleChange(DisplayedHours(old(form).openingHours), day, edit)))
      ensures iconImageUrl == old(iconImageUrl)
    {
      form := form.(openingHours := Some(OpeningHoursInput.HandleChange(DisplayedHours(form.openingHours), day, edit)));
    }

    /**
     * handleSubmit: without a session nothing is sent. With one, an undefined tag entry makes
     * updateShop throw before the request, which the catch swallows: nothing is sent and nothing
     * navigates. Otherwise the form is sent as an update, its icon only when it is a chosen File,
     * and success navigates back to the shop page.
     */
    method HandleSubmit(shopId: int, authenticated: bool, updated: bool)
      returns (request: Option<ShopActions.MultipartRequest>, navigation: Option<string>)
      ensures !authenticated || SendableForm(form).None? ==> request.None? && navigation.None?
      ensures authenticated && SendableForm(form).Some? ==>
        request == Some(ShopActions.MultipartRequest("PUT", "/shops/shops/" + IntToString(shopId) + "/",
                                                     ShopActions.ShopFormEntries(SendableForm(form).value)))
      ensures authenticated && SendableForm(form).Some? ==>
        navigation == (if updated then Some("/shops/" + IntToString(shopId)) else None)
    {
      if !authenticated {
        return None, None;
      }
      var submitted := form.(types := form.types, concepts := form.concepts, layouts := form.layouts,
                             iconImage := if form.iconImage.Some? then form.iconImage else None);
      var wire := SendableForm(submitted);
      if wire.None? {
        return None, None;
      }
      var sent := ShopActions.UpdateShop(shopId, wire.value);
      request := Some(sent);
      navigation := if updated then Some("/shops/" + IntToString(shopId)) else None;
    }
  }

  /** Loading a shop whose tags are objects and submitting it unchanged sends their ids in order. */
  lemma ReloadedIdsInOrder(shop: Shop)
    requires forall i :: 0 <= i < |shop.types| ==> shop.types[i].ObjRef?
    requires forall i :: 0 <= i < |shop.concepts| ==> shop.concepts[i].ObjRef?
    requires forall i :: 0 <= i < |shop.layouts| ==> shop.layouts[i].ObjRef?
    ensures FormDataFromShop(shop).Some? && SendableForm(FormDataFromShop(shop).value).Some?
    ensures var sent := SendableForm(FormDataFromShop(shop).value).value;
      |sent.types| == |shop.types| && |sent.concepts| == |shop.concepts| && |sent.layouts| == |shop.layouts|
      && (forall i :: 0 <= i < |shop.types| ==> sent.types[i] == shop.types[i].entity.id)
      && (forall i :: 0 <= i < |shop.concepts| ==> sent.concepts[i] == shop.concepts[i].entity.id)
      && (forall i :: 0 <= i < |shop.layouts| ==> sent.layouts[i] == shop.layouts[i].entity.id)
  {
  }

  /**
   * A shop as the API serializes it, with its tags as bare ids, loads into a form that can never be
   * sent while those entries stay: one bare id anywhere makes every submit send nothing.
   */
  lemma BareIdsNeverSent(shop: Shop)
    requires NoRef !in shop.types && NoRef !in shop.concepts && NoRef !in shop.layouts
    requires exists r :: r in shop.types + shop.concepts + shop.layouts && r.IdRef?
    ensures FormDataFromShop(shop).Some? && SendableForm(FormDataFromShop(shop).value).None?
  {
  }
}
