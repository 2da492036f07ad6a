/**
 * frontend/src/actions/shops.ts: the search query of getShops, the multipart flattening of
 * createShop and updateShop, and the postal-code lookup result mapping.
 */
module ShopActions {
  import opened Wrappers
  import opened Text
  import opened ShopTypes
  import opened SearchParams
  import ShopViews

  // ---------------------------------------------------------------- getShops

  /** The order in which getShops appends its parameters. */
  const QueryKeyOrder: seq<string> := ["keyword", "types", "concepts", "layouts", "region", "prefecture", "city"]

  /** Position of a key in QueryKeyOrder; 7 for any other key. */
  function Rank(key: string): (r: nat)
    ensures r <= |QueryKeyOrder|
  {
    if key == "keyword" then 0
    else if key == "types" then 1
    else if key == "concepts" then 2
    else if key == "layouts" then 3
    else if key == "region" then 4
    else if key == "prefecture" then 5
    else if key == "city" then 6
    else 7
  }

  /** `list && list.length > 0`. */
  predicate NonEmptyList(list: Option<seq<string>>)
  {
    list.Some? && |list.value| > 0
  }

  /** The seven guarded appends of getShops in order, for guards `c0`..`c6` and values `v0`..`v6`. */
  function GuardedQuery(c0: bool, c1: bool, c2: bool, c3: bool, c4: bool, c5: bool, c6: bool,
                        v0: string, v1: string, v2: string, v3: string, v4: string, v5: string, v6: string): Params
  {
    var p0 := AppendIf([], c0, "keyword", v0);
    var p1 := AppendIf(p0, c1, "types", v1);
    var p2 := AppendIf(p1, c2, "concepts", v2);
    var p3 := AppendIf(p2, c3, "layouts", v3);
    var p4 := AppendIf(p3, c4, "region", v4);
    var p5 := AppendIf(p4, c5, "prefecture", v5);
    AppendIf(p5, c6, "city", v6)
  }

  /** The parameters getShops sends: null, empty strings and empty lists are left out. */
  function ShopQuery(keyword: Option<string>, types: Option<seq<string>>, concepts: Option<seq<string>>,
                     layouts: Option<seq<string>>, region: Option<string>, prefecture: Option<string>,
                     city: Option<string>): Params
  {
    GuardedQuery(Truthy(keyword), NonEmptyList(types), NonEmptyList(concepts), NonEmptyList(layouts),
                 Truthy(region), Truthy(prefecture), Truthy(city),
                 keyword.GetOr(""), Join(types.GetOr([]), ','), Join(concepts.GetOr([]), ','),
                 Join(layouts.GetOr([]), ','), region.GetOr(""), prefecture.GetOr(""), city.GetOr(""))
  }

  /** A GET of `/shops/shops/` with its query parameters. */
  datatype SearchRequest = SearchRequest(path: string, params: Params)

  /** getShops: appends each parameter to a fresh URLSearchParams in turn. */
  method GetShops(keyword: Option<string>, types: Option<seq<string>>, concepts: Option<seq<string>>,
                  layouts: Option<seq<string>>, region: Option<string>, prefecture: Option<string>,
                  city: Option<string>) returns (request: SearchRequest)
    ensures request.path == "/shops/shops/"
    ensures request.params == ShopQuery(keyword, types, concepts, layouts, region, prefecture, city)
  {
    var params: Params := [];
    params := AppendIf(params, Truthy(keyword), "keyword", keyword.GetOr(""));
    params := AppendIf(params, NonEmptyList(types), "types", Join(types.GetOr([]), ','));
    params := AppendIf(params, NonEmptyList(concepts), "concepts", Join(concepts.GetOr([]), ','));
    params := AppendIf(params, NonEmptyList(layouts), "layouts", Join(layouts.GetOr([]), ','));
    params := AppendIf(params, Truthy(region), "region", region.GetOr(""));
    params := AppendIf(params, Truthy(prefecture), "prefecture", prefecture.GetOr(""));
    params := AppendIf(params, Truthy(city), "city", city.GetOr(""));
    return SearchRequest("/shops/shops/", params);
  }

  /** Keys strictly increase in rank, so each occurs at most once and in QueryKeyOrder. */
  predicate InKeyOrder(params: Params)
  {
    forall i, j :: 0 <= i < j < |params| ==> Rank(params[i].0) < Rank(params[j].0)
  }

  /** Every key ranks below `bound`. */
  predicate RanksBelow(params: Params, bound: nat)
  {
    forall i :: 0 <= i < |params| ==> Rank(params[i].0) < bound
  }

  lemma {:induction false} GetSnoc(params: Params, key: string, value: string, k: string)
    ensures Get(params + [(key, value)], k) ==
      (if Get(params, k).Some? then Get(params, k) else if key == k then Some(value) else None)
    decreases |params|
  {
    if params != [] {
      assert (params + [(key, value)])[1..] == params[1..] + [(key, value)];
      GetSnoc(params[1..], key, value, k);
    }
  }

  /** One ordered append keeps the keys in order. */
  lemma AppendInOrder(params: Params, cond: bool, key: string, value: string)
    requires InKeyOrder(params) && RanksBelow(params, Rank(key))
    ensures InKeyOrder(AppendIf(params, cond, key, value))
    ensures RanksBelow(AppendIf(params, cond, key, value), Rank(key) + 1)
  {
  }

  /** What a key reads after one guarded append: its earlier value if it had one, else the appended value. */
  lemma GetAppendIf(params: Params, cond: bool, key: string, value: string, k: string)
    ensures Get(AppendIf(params, cond, key, value), k) ==
      (if Get(params, k).Some? then Get(params, k) else if cond && key == k then Some(value) else None)
  {
    if cond {
      GetSnoc(params, key, value, k);
    }
  }

  /** The guarded appends keep the keys in QueryKeyOrder. */
  lemma GuardedQueryInKeyOrder(c0: bool, c1: bool, c2: bool, c3: bool, c4: bool, c5: bool, c6: bool,
                               v0: string, v1: string, v2: string, v3: string, v4: string, v5: string, v6: string)
    ensures InKeyOrder(GuardedQuery(c0, c1, c2, c3, c4, c5, c6, v0, v1, v2, v3, v4, v5, v6))
    ensures UniqueKeys(GuardedQuery(c0, c1, c2, c3, c4, c5, c6, v0, v1, v2, v3, v4, v5, v6))
  {
    var p0 := AppendIf([], c0, "keyword", v0);
    AppendInOrder([], c0, "keyword", v0);
    var p1 := AppendIf(p0, c1, "types", v1);
    AppendInOrder(p0, c1, "types", v1);
    var p2 := AppendIf(p1, c2, "concepts", v2);
    AppendInOrder(p1, c2, "concepts", v2);
    var p3 := AppendIf(p2, c3, "layouts", v3);
    AppendInOrder(p2, c3, "layouts", v3);
    var p4 := AppendIf(p3, c4, "region", v4);
    AppendInOrder(p3, c4, "region", v4);
    var p5 := AppendIf(p4, c5, "prefecture", v5);
    AppendInOrder(p4, c5, "prefecture", v5);
    AppendInOrder(p5, c6, "city", v6);
    OrderedKeysUnique(AppendIf(p5, c6, "city", v6));
  }

  /** Keys in strictly increasing rank are distinct. */
  lemma OrderedKeysUnique(params: Params)
    requires InKeyOrder(params)
    ensures UniqueKeys(params)
  {
    forall i, j | 0 <= i < j < |params|
      ensures params[i].0 != params[j].0
    {
      assert Rank(params[i].0) < Rank(params[j].0);
    }
  }

  /** What any key reads from the guarded query: the value of the append that carries it, when its guard held. */
  lemma GuardedQueryGet(c0: bool, c1: bool, c2: bool, c3: bool, c4: bool, c5: bool, c6: bool,
                        v0: string, v1: string, v2: string, v3: string, v4: string, v5: string, v6: string, k: string)
    ensures Get(GuardedQuery(c0, c1, c2, c3, c4, c5, c6, v0, v1, v2, v3, v4, v5, v6), k) ==
      if c0 && k == "keyword" then Some(v0)
      else if c1 && k == "types" then Some(v1)
      else if c2 && k == "concepts" then Some(v2)
      else if c3 && k == "layouts" then Some(v3)
      else if c4 && k == "region" then Some(v4)
      else if c5 && k == "prefecture" then Some(v5)
      else if c6 && k == "city" then Some(v6)
      else None
  {
    var p0 := AppendIf([], c0, "keyword", v0);
    GetAppendIf([], c0, "keyword", v0, k);
    var p1 := AppendIf(p0, c1, "types", v1);
    GetAppendIf(p0, c1, "types", v1, k);
    var p2 := AppendIf(p1, c2, "concepts", v2);
    GetAppendIf(p1, c2, "concepts", v2, k);
    var p3 := AppendIf(p2, c3, "layouts", v3);
    GetAppendIf(p2, c3, "layouts", v3, k);
    var p4 := AppendIf(p3, c4, "region", v4);
    GetAppendIf(p3, c4, "region", v4, k);
    var p5 := AppendIf(p4, c5, "prefecture", v5);
    GetAppendIf(p4, c5, "prefecture", v5, k);
    GetAppendIf(p5, c6, "city", v6, k);
  }

  /** Each key of the guarded query reads back its own value exactly when its own guard held. */
  lemma GuardedQueryValues(c0: bool, c1: bool, c2: bool, c3: bool, c4: bool, c5: bool, c6: bool,
                           v0: string, v1: string, v2: string, v3: string, v4: string, v5: string, v6: string)
    ensures Get(GuardedQuery(c0, c1, c2, c3, c4, c5, c6, v0, v1, v2, v3, v4, v5, v6), "keyword") == (if c0 then Some(v0) else None)
    ensures Get(GuardedQuery(c0, c1, c2, c3, c4, c5, c6, v0, v1, v2, v3, v4, v5, v6), "types") == (if c1 then Some(v1) else None)
    ensures Get(GuardedQuery(c0, c1, c2, c3, c4, c5, c6, v0, v1, v2, v3, v4, v5, v6), "concepts") == (if c2 then Some(v2) else None)
    ensures Get(GuardedQuery(c0, c1, c2, c3, c4, c5, c6, v0, v1, v2, v3, v4, v5, v6), "layouts") == (if c3 then Some(v3) else None)
    ensures Get(GuardedQuery(c0, c1, c2, c3, c4, c5, c6, v0, v1, v2, v3, v4, v5, v6), "region") == (if c4 then Some(v4) else None)
    ensures Get(GuardedQuery(c0, c1, c2, c3, c4, c5, c6, v0, v1, v2, v3, v4, v5, v6), "prefecture") == (if c5 then Some(v5) else None)
    ensures Get(GuardedQuery(c0, c1, c2, c3, c4, c5, c6, v0, v1, v2, v3, v4, v5, v6), "city") == (if c6 then Some(v6) else None)
  {
    GuardedQueryGet(c0, c1, c2, c3, c4, c5, c6, v0, v1, v2, v3, v4, v5, v6, "keyword");
    GuardedQueryGet(c0, c1, c2, c3, c4, c5, c6, v0, v1, v2, v3, v4, v5, v6, "types");
    GuardedQueryGet(c0, c1, c2, c3, c4, c5, c6, v0, v1, v2, v3, v4, v5, v6, "concepts");
    GuardedQueryGet(c0, c1, c2, c3, c4, c5, c6, v0, v1, v2, v3, v4, v5, v6, "layouts");
    GuardedQueryGet(c0, c1, c2, c3, c4, c5, c6, v0, v1, v2, v3, v4, v5, v6, "region");
    GuardedQueryGet(c0, c1, c2, c3, c4, c5, c6, v0, v1, v2, v3, v4, v5, v6, "prefecture");
    GuardedQueryGet(c0, c1, c2, c3, c4, c5, c6, v0, v1, v2, v3, v4, v5, v6, "city");
  }

  /** The query lists its keys in the order keyword, types, concepts, layouts, region, prefecture, city, each at most once. */
  lemma ShopQueryInKeyOrder(keyword: Option<string>, types: Option<seq<string>>, concepts: Option<seq<string>>,
                            layouts: Option<seq<string>>, region: Option<string>, prefecture: Option<string>,
                            city: Option<string>)
    ensures InKeyOrder(ShopQuery(keyword, types, concepts, layouts, region, prefecture, city))
    ensures UniqueKeys(ShopQuery(keyword, types, concepts, layouts, region, prefecture, city))
  {
    GuardedQueryInKeyOrder(Truthy(keyword), NonEmptyList(types), NonEmptyList(concepts), NonEmptyList(layouts),
                           Truthy(region), Truthy(prefecture), Truthy(city),
                           keyword.GetOr(""), Join(types.GetOr([]), ','), Join(concepts.GetOr([]), ','),
                           Join(layouts.GetOr([]), ','), region.GetOr(""), prefecture.GetOr(""), city.GetOr(""));
  }

  /**
   * Each parameter carries its own argument: the keyword and each area name when truthy, each
   * list comma-joined when non-empty. Region, prefecture and city are appended independently.
   */
  lemma ShopQueryValues(keyword: Option<string>, types: Option<seq<string>>, concepts: Option<seq<string>>,
                            layouts: Option<seq<string>>, region: Option<string>, prefecture: Option<string>,
                            city: Option<string>)
    ensures var q := ShopQuery(keyword, types, concepts, layouts, region, prefecture, city);
      Get(q, "keyword") == (if Truthy(keyword) then keyword else None)
      && Get(q, "types") == (if NonEmptyList(types) then Some(Join(types.value, ',')) else None)
      && Get(q, "concepts") == (if NonEmptyList(concepts) then Some(Join(concepts.value, ',')) else None)
      && Get(q, "layouts") == (if NonEmptyList(layouts) then Some(Join(layouts.value, ',')) else None)
      && Get(q, "region") == (if Truthy(region) then region else None)
      && Get(q, "prefecture") == (if Truthy(prefecture) then prefecture else None)
      && Get(q, "city") == (if Truthy(city) then city else None)
  {
    GuardedQueryValues(Truthy(keyword), NonEmptyList(types), NonEmptyList(concepts), NonEmptyList(layouts),
                       Truthy(region), Truthy(prefecture), Truthy(city),
                       keyword.GetOr(""), Join(types.GetOr([]), ','), Join(concepts.GetOr([]), ','),
                       Join(layouts.GetOr([]), ','), region.GetOr(""), prefecture.GetOr(""), city.GetOr(""));
    var q := ShopQuery(keyword, types, concepts, layouts, region, prefecture, city);
    assert Get(q, "keyword") == (if Truthy(keyword) then keyword else None);
    assert Get(q, "types") == (if NonEmptyList(types) then Some(Join(types.value, ',')) else None);
    assert Get(q, "concepts") == (if NonEmptyList(concepts) then Some(Join(concepts.value, ',')) else None);
    assert Get(q, "layouts") == (if NonEmptyList(layouts) then Some(Join(layouts.value, ',')) else None);
    assert Get(q, "region") == (if Truthy(region) then region else None);
    assert Get(q, "prefecture") == (if Truthy(prefecture) then prefecture else None);
  }

  /** With unique keys, the backend's QueryDict reads the same value as URLSearchParams.get. */
  lemma QueryDictAgrees(params: Params, key: string)
    requires UniqueKeys(params)
    ensures ShopViews.Param(ShopViews.QueryDict(params), key) == Get(params, key)
  {
    var g := Get(params, key);
    GetSpec(params, key);
    if g.Some? {
      var i :| 0 <= i < |params| && params[i] == (key, g.value);
      ShopViews.QueryDictSingle(params, i);
    }
  }

  /**
   * End to end: the backend reads from a getShops request the filters the client passed, and a
   * non-empty list of comma-free ids splits back into exactly the same pieces.
   */
  lemma BackendSeesClientLists(keyword: Option<string>, types: Option<seq<string>>, concepts: Option<seq<string>>,
                               layouts: Option<seq<string>>, region: Option<string>, prefecture: Option<string>,
                               city: Option<string>)
    requires NonEmptyList(types) && forall i :: 0 <= i < |types.value| ==> ',' !in types.value[i]
    ensures var d := ShopViews.QueryDict(ShopQuery(keyword, types, concepts, layouts, region, prefecture, city));
      "types" in d && Split(d["types"], ',') == types.value
      && ShopViews.Param(d, "keyword") == (if Truthy(keyword) then keyword else None)
      && ShopViews.Param(d, "city") == (if Truthy(city) then city else None)
      && ShopViews.Param(d, "prefecture") == (if Truthy(prefecture) then prefecture else None)
      && ShopViews.Param(d, "region") == (if Truthy(region) then region else None)
  {
    var q := ShopQuery(keyword, types, concepts, layouts, region, prefecture, city);
    ShopQueryInKeyOrder(keyword, types, concepts, layouts, region, prefecture, city);
    ShopQueryValues(keyword, types, concepts, layouts, region, prefecture, city);
    QueryDictAgrees(q, "types");
    QueryDictAgrees(q, "keyword");
    QueryDictAgrees(q, "city");
    QueryDictAgrees(q, "prefecture");
    QueryDictAgrees(q, "region");
    SplitJoin(types.value, ',');
  }

  // ---------------------------------------------------------------- multipart flattening

  /** The properties of ShopFormData, in declaration order. */
  datatype FormKey =
    | NameKey | AddressObjectKey | PhoneNumberKey | LatitudeKey | LongitudeKey | SeatCountKey
    | CapacityKey | OpeningHoursKey | TypesKey | ConceptsKey | LayoutsKey | IconImageKey

  /** The property order of ShopFormData, which Object.entries follows. */
  const FormKeyOrder: seq<FormKey> := [NameKey, AddressObjectKey, PhoneNumberKey, LatitudeKey, LongitudeKey,
    SeatCountKey, CapacityKey, OpeningHoursKey, TypesKey, ConceptsKey, LayoutsKey, IconImageKey]

  function FormKeyName(k: FormKey): string
  {
    match k
    case NameKey => "name"
    case AddressObjectKey => "address"
    case PhoneNumberKey => "phone_number"
    case LatitudeKey => "latitude"
    case LongitudeKey => "longitude"
    case SeatCountKey => "seat_count"
    case CapacityKey => "capacity"
    case OpeningHoursKey => "opening_hours"
    case TypesKey => "types"
    case ConceptsKey => "concepts"
    case LayoutsKey => "layouts"
    case IconImageKey => "icon_image"
  }

  /** A FormData entry name: `key`, `key[]` or `address.<k>`. */
  datatype EntryKey =
    | Plain(key: FormKey)
    | Item(key: FormKey)
    | AddressPart(part: AddressKey)

  /** The entry name as sent on the wire. */
  function EntryName(k: EntryKey): string
  {
    match k
    case Plain(key) => FormKeyName(key)
    case Item(key) => FormKeyName(key) + "[]"
    case AddressPart(part) => "address." + AddressKeyName(part)
  }

  /** One value appended to FormData. */
  datatype Part =
    | TextPart(s: string)      // a string
    | NumberText(x: real)      // Number.prototype.toString of a number
    | IntText(n: int)          // toString() of a list element
    | Upload(file: File)       // a File
    | Json(value: FieldValue)  // JSON.stringify of the value

  /** A property value of ShopFormData as Object.entries yields it. */
  datatype FieldValue =
    | Scalar(v: JsValue)
    | AddressObject(address: FormAddress)
    | HoursValue(hours: Option<OpeningHours>)
    | IdList(ids: seq<int>)
    | FileValue(file: File)

  type Entries = seq<(EntryKey, Part)>

  /** The value property `k` of a ShopFormData holds; an absent icon_image reads as undefined. */
  function FieldOf(f: ShopForm, k: FormKey): FieldValue
  {
    match k
    case NameKey => Scalar(f.name)
    case AddressObjectKey => AddressObject(f.address)
    case PhoneNumberKey => Scalar(f.phoneNumber)
    case LatitudeKey => Scalar(f.latitude)
    case LongitudeKey => Scalar(f.longitude)
    case SeatCountKey => Scalar(f.seatCount)
    case CapacityKey => Scalar(f.capacity)
    case OpeningHoursKey => HoursValue(f.openingHours)
    case TypesKey => IdList(f.types)
    case ConceptsKey => IdList(f.concepts)
    case LayoutsKey => IdList(f.layouts)
    case IconImageKey => if f.iconImage.Some? then FileValue(f.iconImage.value) else Scalar(Undefined)
  }

  /** Object.entries of a ShopFormData: every property with its value, in property order. */
  function FormFields(f: ShopForm): (fields: seq<(FormKey, FieldValue)>)
    ensures |fields| == |FormKeyOrder|
    ensures forall i :: 0 <= i < |fields| ==> fields[i] == (FormKeyOrder[i], FieldOf(f, FormKeyOrder[i]))
  {
    seq(|FormKeyOrder|, i requires 0 <= i < |FormKeyOrder| => (FormKeyOrder[i], FieldOf(f, FormKeyOrder[i])))
  }

  /** Object.entries of the address object, in key order. */
  function AddressPairs(a: FormAddress): (pairs: seq<(AddressKey, Option<string>)>)
    ensures |pairs| == |AddressKeys|
    ensures forall i :: 0 <= i < |pairs| ==> pairs[i] == (AddressKeys[i], AddressField(a, AddressKeys[i]))
  {
    seq(|AddressKeys|, i requires 0 <= i < |AddressKeys| => (AddressKeys[i], AddressField(a, AddressKeys[i])))
  }

  /** The `address.<k>` entries for the string-valued address fields among `pairs`. */
  function AddressEntries(pairs: seq<(AddressKey, Option<string>)>): Entries
    decreases |pairs|
  {
    if pairs == [] then []
    else
      var last := pairs[|pairs| - 1];
      AddressEntries(pairs[..|pairs| - 1])
      + (if last.1.Some? then [(AddressPart(last.0), TextPart(last.1.value))] else [])
  }

  /** One `key[]` entry per element, in order. */
  function ArrayEntries(key: FormKey, ids: seq<int>): (es: Entries)
    ensures |es| == |ids|
    ensures forall i :: 0 <= i < |ids| ==> es[i] == (Item(key), IntText(ids[i]))
  {
    seq(|ids|, i requires 0 <= i < |ids| => (Item(key), IntText(ids[i])))
  }

  /** The branch chain of the forEach body: address, File, opening_hours, arrays, other non-null values. */
  function FieldEntries(key: FormKey, value: FieldValue): Entries
  {
    if key == AddressObjectKey && value.AddressObject? then AddressEntries(AddressPairs(value.address))
    else if key == IconImageKey && value.FileValue? then [(Plain(key), Upload(value.file))]
    else if key == OpeningHoursKey then [(Plain(key), Json(value))]
    else if value.IdList? then ArrayEntries(key, value.ids)
    else
      match value
      case Scalar(Str(s)) => [(Plain(key), TextPart(s))]
      case Scalar(Num(x)) => [(Plain(key), NumberText(x))]
      case Scalar(_) => []
      case HoursValue(_) => [(Plain(key), TextPart("[object Object]"))]
      case AddressObject(_) => [(Plain(key), TextPart("[object Object]"))]
      case FileValue(_) => [(Plain(key), TextPart("[object File]"))]
      case IdList(_) => []
  }

  function FieldsEntries(fields: seq<(FormKey, FieldValue)>): Entries
    decreases |fields|
  {
    if fields == [] then []
    else FieldsEntries(fields[..|fields| - 1]) + FieldEntries(fields[|fields| - 1].0, fields[|fields| - 1].1)
  }

  /** Every entry the flattening of a ShopFormData produces, in append order. */
  function ShopFormEntries(f: ShopForm): Entries
  {
    FieldsEntries(FormFields(f))
  }

  /** The FormData building loop shared by createShop and updateShop. */
  method FlattenShopForm(f: ShopForm) returns (entries: Entries)
    ensures entries == ShopFormEntries(f)
  {
    var fields := FormFields(f);
    entries := [];
    var i := 0;
    while i < |fields|
      invariant 0 <= i <= |fields|
      invariant entries == FieldsEntries(fields[..i])
    {
      var (key, value) := fields[i];
      entries := AppendField(entries, key, value);
      assert fields[..i + 1][..i] == fields[..i];
      i := i + 1;
    }
    assert fields[..i] == fields;
  }

  /** The body of the forEach callback for one property. */
  method AppendField(entries: Entries, key: FormKey, value: FieldValue) returns (result: Entries)
    ensures result == entries + FieldEntries(key, value)
  {
    result := entries;
    if key == AddressObjectKey && value.AddressObject? {
      result := AppendAddress(result, value.address);
    } else if key == IconImageKey && value.FileValue? {
      result := result + [(Plain(key), Upload(value.file))];
    } else if key == OpeningHoursKey {
      result := result + [(Plain(key), Json(value))];
    } else if value.IdList? {
      result := AppendItems(result, key, value.ids);
    } else if value.Scalar? && value.v.Str? {
      result := result + [(Plain(key), TextPart(value.v.s))];
    } else if value.Scalar? && value.v.Num? {
      result := result + [(Plain(key), NumberText(value.v.x))];
    } else if !value.Scalar? {
      result := result + FieldEntries(key, value);
    }
  }

  /** The inner forEach over the address object. */
  method AppendAddress(entries: Entries, address: FormAddress) returns (result: Entries)
    ensures result == entries + AddressEntries(AddressPairs(address))
  {
    var pairs := AddressPairs(address);
    result := entries;
    var j := 0;
    while j < |pairs|
      invariant 0 <= j <= |pairs|
      invariant result == entries + AddressEntries(pairs[..j])
    {
      var (addressKey, addressValue) := pairs[j];
      if addressValue.Some? {
        result := result + [(AddressPart(addressKey), TextPart(addressValue.value))];
      }
      assert pairs[..j + 1][..j] == pairs[..j];
      j := j + 1;
    }
    assert pairs[..j] == pairs;
  }

  /** `value.forEach(item => formData.append(`${key}[]`, item.toString()))`. */
  method AppendItems(entries: Entries, key: FormKey, ids: seq<int>) returns (result: Entries)
    ensures result == entries + ArrayEntries(key, ids)
  {
    result := entries;
    var j := 0;
    while j < |ids|
      invariant 0 <= j <= |ids|
      invariant result == entries + ArrayEntries(key, ids[..j])
    {
      result := result + [(Item(key), IntText(ids[j]))];
      assert ArrayEntries(key, ids[..j + 1]) == ArrayEntries(key, ids[..j]) + [(Item(key), IntText(ids[j]))];
      j := j + 1;
    }
    assert ids[..j] == ids;
  }

  /** A multipart request to the shops endpoint. */
  datatype MultipartRequest = MultipartRequest(verb: string, path: string, entries: Entries)

  /** createShop: POST of the flattened form. */
  method CreateShop(f: ShopForm) returns (request: MultipartRequest)
    ensures request == MultipartRequest("POST", "/shops/shops/", ShopFormEntries(f))
  {
    var entries := FlattenShopForm(f);
    return MultipartRequest("POST", "/shops/shops/", entries);
  }

  /** updateShop: PUT of the same flattened form to the shop's own path. */
  method UpdateShop(id: int, f: ShopForm) returns (request: MultipartRequest)
    ensures request == MultipartRequest("PUT", "/shops/shops/" + IntToString(id) + "/", ShopFormEntries(f))
  {
    var entries := FlattenShopForm(f);
    return MultipartRequest("PUT", "/shops/shops/" + IntToString(id) + "/", entries);
  }

  // ---------------------------------------------------------------- properties of the entries

  /** The parts appended under `key`, in order. */
  function PartsFor(entries: Entries, key: EntryKey): seq<Part>
    decreases |entries|
  {
    if entries == [] then []
    else
      PartsFor(entries[..|entries| - 1], key)
      + (if entries[|entries| - 1].0 == key then [entries[|entries| - 1].1] else [])
  }

  lemma {:induction false} PartsForAppend(a: Entries, b: Entries, key: EntryKey)
    ensures PartsFor(a + b, key) == PartsFor(a, key) + PartsFor(b, key)
    decreases |b|
  {
    if b == [] {
      assert a + b == a;
    } else {
      var b' := b[..|b| - 1];
      assert (a + b)[..|a + b| - 1] == a + b';
      PartsForAppend(a, b', key);
    }
  }

  /** The entry names a property can produce. */
  predicate MayEmit(field: FormKey, key: EntryKey)
  {
    match key
    case Plain(k) => k == field
    case Item(k) => k == field
    case AddressPart(_) => field == AddressObjectKey
  }

  lemma {:induction false} AddressEntriesKeys(pairs: seq<(AddressKey, Option<string>)>, key: EntryKey)
    requires !key.AddressPart?
    ensures PartsFor(AddressEntries(pairs), key) == []
    decreases |pairs|
  {
    if pairs != [] {
      var last := pairs[|pairs| - 1];
      AddressEntriesKeys(pairs[..|pairs| - 1], key);
      PartsForAppend(AddressEntries(pairs[..|pairs| - 1]),
                     if last.1.Some? then [(AddressPart(last.0), TextPart(last.1.value))] else [], key);
    }
  }

  lemma {:induction false} ArrayEntriesKeys(field: FormKey, ids: seq<int>, key: EntryKey)
    requires key != Item(field)
    ensures PartsFor(ArrayEntries(field, ids), key) == []
    decreases |ids|
  {
    if ids != [] {
      var es := ArrayEntries(field, ids);
      assert es[..|es| - 1] == ArrayEntries(field, ids[..|ids| - 1]);
      ArrayEntriesKeys(field, ids[..|ids| - 1], key);
    }
  }

  lemma FieldEntriesKeys(field: FormKey, value: FieldValue, key: EntryKey)
    requires !MayEmit(field, key)
    ensures PartsFor(FieldEntries(field, value), key) == []
  {
    if field == AddressObjectKey && value.AddressObject? {
      AddressEntriesKeys(AddressPairs(value.address), key);
    } else if value.IdList? && field != OpeningHoursKey && !(field == IconImageKey && value.FileValue?) {
      ArrayEntriesKeys(field, value.ids, key);
    }
  }

  lemma {:induction false} NoFieldEmits(fields: seq<(FormKey, FieldValue)>, key: EntryKey)
    requires forall i :: 0 <= i < |fields| ==> !MayEmit(fields[i].0, key)
    ensures PartsFor(FieldsEntries(fields), key) == []
    decreases |fields|
  {
    if fields != [] {
      var n := |fields| - 1;
      PartsForAppend(FieldsEntries(fields[..n]), FieldEntries(fields[n].0, fields[n].1), key);
      NoFieldEmits(fields[..n], key);
      FieldEntriesKeys(fields[n].0, fields[n].1, key);
    }
  }

  /** Only the one property that can emit `key` contributes parts under it. */
  lemma {:induction false} PartsForOnlyField(fields: seq<(FormKey, FieldValue)>, j: nat, key: EntryKey)
    requires j < |fields|
    requires forall i :: 0 <= i < |fields| && i != j ==> !MayEmit(fields[i].0, key)
    ensures PartsFor(FieldsEntries(fields), key) == PartsFor(FieldEntries(fields[j].0, fields[j].1), key)
    decreases |fields|
  {
    var n := |fields| - 1;
    var init := fields[..n];
    PartsForAppend(FieldsEntries(init), FieldEntries(fields[n].0, fields[n].1), key);
    if j < n {
      PartsForOnlyField(init, j, key);
      FieldEntriesKeys(fields[n].0, fields[n].1, key);
    } else {
      NoFieldEmits(init, key);
      assert PartsFor([], key) == [];
    }
  }

  /** Position of a property in FormKeyOrder. */
  function FormKeyIndex(k: FormKey): (i: nat)
    ensures i < |FormKeyOrder| && FormKeyOrder[i] == k
  {
    match k
    case NameKey => 0
    case AddressObjectKey => 1
    case PhoneNumberKey => 2
    case LatitudeKey => 3
    case LongitudeKey => 4
    case SeatCountKey => 5
    case CapacityKey => 6
    case OpeningHoursKey => 7
    case TypesKey => 8
    case ConceptsKey => 9
    case LayoutsKey => 10
    case IconImageKey => 11
  }

  /** Each property occurs once in FormKeyOrder, at its own index. */
  lemma FormKeyOrderIndexed()
    ensures forall i :: 0 <= i < |FormKeyOrder| ==> FormKeyIndex(FormKeyOrder[i]) == i
  {
  }

  /** The parts under `key` are those of property `field` when no other property can emit `key`. */
  lemma OnlyField(f: ShopForm, field: FormKey, key: EntryKey)
    requires forall k: FormKey :: k != field ==> !MayEmit(k, key)
    ensures PartsFor(ShopFormEntries(f), key) == PartsFor(FieldEntries(field, FieldOf(f, field)), key)
  {
    var fields := FormFields(f);
    var j := FormKeyIndex(field);
    FormKeyOrderIndexed();
    forall i | 0 <= i < |fields| && i != j
      ensures !MayEmit(fields[i].0, key)
    {
      assert fields[i].0 == FormKeyOrder[i];
    }
    PartsForOnlyField(fields, j, key);
  }

  /** `opening_hours` is sent exactly once, as JSON text, even when it is null. */
  lemma OpeningHoursAlwaysSent(f: ShopForm)
    ensures PartsFor(ShopFormEntries(f), Plain(OpeningHoursKey)) == [Json(HoursValue(f.openingHours))]
  {
    OnlyField(f, OpeningHoursKey, Plain(OpeningHoursKey));
  }

  /** `icon_image` is sent only when it holds a File. */
  lemma IconImageOnlyAsFile(f: ShopForm)
    ensures PartsFor(ShopFormEntries(f), Plain(IconImageKey)) ==
      (if f.iconImage.Some? then [Upload(f.iconImage.value)] else [])
  {
    OnlyField(f, IconImageKey, Plain(IconImageKey));
  }

  /** The `key[]` parts of an id list: each element's text, in order. */
  function IdTexts(ids: seq<int>): (parts: seq<Part>)
    ensures |parts| == |ids|
    ensures forall i :: 0 <= i < |ids| ==> parts[i] == IntText(ids[i])
  {
    seq(|ids|, i requires 0 <= i < |ids| => IntText(ids[i]))
  }

  lemma {:induction false} ArrayPartsFor(field: FormKey, ids: seq<int>)
    ensures PartsFor(ArrayEntries(field, ids), Item(field)) == IdTexts(ids)
    decreases |ids|
  {
    if ids != [] {
      var es := ArrayEntries(field, ids);
      assert es[..|es| - 1] == ArrayEntries(field, ids[..|ids| - 1]);
      ArrayPartsFor(field, ids[..|ids| - 1]);
      assert IdTexts(ids) == IdTexts(ids[..|ids| - 1]) + [IntText(ids[|ids| - 1])];
    }
  }

  /** A list property sends one `key[]` part per element and nothing under `key` itself. */
  lemma ListSent(f: ShopForm, key: FormKey)
    requires key == TypesKey || key == ConceptsKey || key == LayoutsKey
    ensures FieldOf(f, key).IdList?
    ensures PartsFor(ShopFormEntries(f), Item(key)) == IdTexts(FieldOf(f, key).ids)
    ensures PartsFor(ShopFormEntries(f), Plain(key)) == []
  {
    var value := FieldOf(f, key);
    OnlyField(f, key, Item(key));
    OnlyField(f, key, Plain(key));
    ArrayPartsFor(key, value.ids);
    ArrayEntriesKeys(key, value.ids, Plain(key));
  }

  /** The parts of a scalar: its text when a string or number, nothing when null or undefined. */
  function ScalarParts(v: JsValue): (parts: seq<Part>)
    ensures parts == [] <==> v.Null? || v.Undefined?
  {
    match v
    case Str(s) => [TextPart(s)]
    case Num(x) => [NumberText(x)]
    case _ => []
  }

  /** A scalar entry under any key but the three special ones yields its ScalarParts. */
  lemma ScalarEntryParts(key: FormKey, v: JsValue)
    requires key != AddressObjectKey && key != IconImageKey && key != OpeningHoursKey
    ensures PartsFor(FieldEntries(key, Scalar(v)), Plain(key)) == ScalarParts(v)
  {
    var e := FieldEntries(key, Scalar(v));
    if e != [] {
      assert e[..0] == [];
    }
  }

  /** A scalar property is sent under its own name exactly when it is a string or a number. */
  lemma ScalarSent(f: ShopForm, key: FormKey)
    requires key == NameKey || key == PhoneNumberKey || key == LatitudeKey || key == LongitudeKey
             || key == SeatCountKey || key == CapacityKey
    ensures FieldOf(f, key).Scalar?
    ensures PartsFor(ShopFormEntries(f), Plain(key)) == ScalarParts(FieldOf(f, key).v)
  {
    ScalarEntryParts(key, FieldOf(f, key).v);
    OnlyField(f, key, Plain(key));
  }

  predicate DistinctAddressKeys(pairs: seq<(AddressKey, Option<string>)>)
  {
    forall i, j :: 0 <= i < j < |pairs| ==> pairs[i].0 != pairs[j].0
  }

  /** The values among `pairs` with key `k` that are strings, in order. */
  function StringsFor(pairs: seq<(AddressKey, Option<string>)>, k: AddressKey): seq<Part>
    decreases |pairs|
  {
    if pairs == [] then []
    else
      var last := pairs[|pairs| - 1];
      StringsFor(pairs[..|pairs| - 1], k) + (if last.0 == k && last.1.Some? then [TextPart(last.1.value)] else [])
  }

  /** The `address.<k>` parts of the address entries are the string values paired with `k`. */
  lemma {:induction false} AddressPartsAreStrings(pairs: seq<(AddressKey, Option<string>)>, k: AddressKey)
    ensures PartsFor(AddressEntries(pairs), AddressPart(k)) == StringsFor(pairs, k)
    decreases |pairs|
  {
    if pairs != [] {
      var n := |pairs| - 1;
      var tail: Entries := if pairs[n].1.Some? then [(AddressPart(pairs[n].0), TextPart(pairs[n].1.value))] else [];
      AddressPartsAreStrings(pairs[..n], k);
      PartsForAppend(AddressEntries(pairs[..n]), tail, AddressPart(k));
      if tail != [] {
        assert tail[..0] == [];
      }
    }
  }

  /** With distinct keys, the key at position `i` collects only that position's value. */
  lemma {:induction false} StringsForDistinct(pairs: seq<(AddressKey, Option<string>)>, i: nat)
    requires i < |pairs| && DistinctAddressKeys(pairs)
    ensures StringsFor(pairs, pairs[i].0) == (if pairs[i].1.Some? then [TextPart(pairs[i].1.value)] else [])
    decreases |pairs|
  {
    var n := |pairs| - 1;
    var init := pairs[..n];
    if i < n {
      assert init[i] == pairs[i];
      assert DistinctAddressKeys(init) by {
        forall a, b | 0 <= a < b < |init|
          ensures init[a].0 != init[b].0
        {
          assert init[a] == pairs[a] && init[b] == pairs[b];
        }
      }
      StringsForDistinct(init, i);
    } else {
      StringsForAbsent(init, pairs[i].0);
    }
  }

  lemma {:induction false} StringsForAbsent(pairs: seq<(AddressKey, Option<string>)>, k: AddressKey)
    requires forall j :: 0 <= j < |pairs| ==> pairs[j].0 != k
    ensures StringsFor(pairs, k) == []
    decreases |pairs|
  {
    if pairs != [] {
      var init := pairs[..|pairs| - 1];
      assert forall j :: 0 <= j < |init| ==> init[j] == pairs[j];
      StringsForAbsent(init, k);
    }
  }

  lemma AddressPartsFor(pairs: seq<(AddressKey, Option<string>)>, i: nat)
    requires i < |pairs| && DistinctAddressKeys(pairs)
    ensures PartsFor(AddressEntries(pairs), AddressPart(pairs[i].0)) ==
      (if pairs[i].1.Some? then [TextPart(pairs[i].1.value)] else [])
  {
    AddressPartsAreStrings(pairs, pairs[i].0);
    StringsForDistinct(pairs, i);
  }

  lemma AddressPairsDistinct(a: FormAddress)
    ensures DistinctAddressKeys(AddressPairs(a))
  {
    var pairs := AddressPairs(a);
    forall i, j | 0 <= i < j < |pairs|
      ensures pairs[i].0 != pairs[j].0
    {
      assert pairs[i].0 == AddressKeys[i] && pairs[j].0 == AddressKeys[j];
    }
  }

  /** Position of an address key in AddressKeys. */
  function AddressIndex(k: AddressKey): (i: nat)
    ensures i < |AddressKeys| && AddressKeys[i] == k
  {
    match k
    case PostalCode => 0
    case Prefecture => 1
    case City => 2
    case District => 3
    case Town => 4
    case StreetAddress => 5
    case Building => 6
  }

  lemma AddressSentFromPairs(f: ShopForm, k: AddressKey)
    ensures PartsFor(ShopFormEntries(f), AddressPart(k)) == PartsFor(AddressEntries(AddressPairs(f.address)), AddressPart(k))
  {
    OnlyField(f, AddressObjectKey, AddressPart(k));
  }

  /** `address.<k>` is sent exactly for the string-valued address fields: an undefined building sends nothing. */
  lemma AddressFieldSentIffString(f: ShopForm, k: AddressKey)
    ensures PartsFor(ShopFormEntries(f), AddressPart(k)) ==
      (if AddressField(f.address, k).Some? then [TextPart(AddressField(f.address, k).value)] else [])
  {
    AddressSentFromPairs(f, k);
    var pairs := AddressPairs(f.address);
    AddressPairsDistinct(f.address);
    var i := AddressIndex(k);
    assert pairs[i] == (k, AddressField(f.address, k));
    AddressPartsFor(pairs, i);
  }

  // ---------------------------------------------------------------- postal code lookup

  /** One zipcloud result row. */
  datatype ZipEntry = ZipEntry(address1: string, address2: string, address3: string)

  /** The zipcloud reply body: `results` is null when nothing matches. */
  datatype ZipReply = ZipReply(results: Option<seq<ZipEntry>>)

  /** The six address fields the lookup fills in. */
  datatype PostalAddress = PostalAddress(prefecture: string, city: string, town: string,
                                         district: string, streetAddress: string, building: string)

  datatype PostalError =
    | RequestFailed      // the request itself threw
    | NotFound           // `results` is null
    | NoFirstResult      // an empty `results` array: reading address1 of undefined throws

  /** The message thrown when `results` is null. */
  const NotFoundMessage := "郵便番号に該当する住所が見つかりませんでした。"

  /** getAddressFromPostalCode on the reply (None: the request threw). */
  function AddressFromPostalCode(reply: Option<ZipReply>): (r: Result<PostalAddress, PostalError>)
    ensures r.Success? <==> reply.Some? && reply.value.results.Some? && |reply.value.results.value| > 0
    ensures r.Success? ==>
      var first := reply.value.results.value[0];
      r.value == PostalAddress(first.address1, first.address2, first.address3, "", "", "")
    ensures reply.Some? && reply.value.results.None? ==> r == Failure(NotFound)
  {
    if reply.None? then Failure(RequestFailed)
    else if reply.value.results.None? then Failure(NotFound)
    else if reply.value.results.value == [] then Failure(NoFirstResult)
    else
      var first := reply.value.results.value[0];
      Success(PostalAddress(first.address1, first.address2, first.address3, "", "", ""))
  }
}
