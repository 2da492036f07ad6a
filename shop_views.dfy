/**
 * backend/shops/views.py: the shop search of ShopViewSet.get_queryset over an in-memory
 * table, the validating create action, and the review listing filter.
 */
module ShopViews {
  import opened Wrappers
  import opened Text
  import opened ShopModels
  import opened ShopSerializers

  // ---------------------------------------------------------------- query parameters

  /** `request.query_params` after parsing: one value per key. */
  type QueryParams = map<string, string>

  /** Django's QueryDict: `.get(key)` answers with the last value given for the key. */
  function QueryDict(pairs: seq<(string, string)>): (m: QueryParams)
    ensures forall k :: k in m <==> exists i :: 0 <= i < |pairs| && pairs[i].0 == k
    decreases |pairs|
  {
    if pairs == [] then map[]
    else
      var init := QueryDict(pairs[..|pairs| - 1]);
      assert forall i :: 0 <= i < |pairs| - 1 ==> pairs[..|pairs| - 1][i] == pairs[i];
      init[pairs[|pairs| - 1].0 := pairs[|pairs| - 1].1]
  }

  /** When a key occurs once, QueryDict gives its only value. */
  lemma {:induction false} QueryDictSingle(pairs: seq<(string, string)>, i: nat)
    requires i < |pairs|
    requires forall j :: 0 <= j < |pairs| && j != i ==> pairs[j].0 != pairs[i].0
    ensures pairs[i].0 in QueryDict(pairs) && QueryDict(pairs)[pairs[i].0] == pairs[i].1
    decreases |pairs|
  {
    if i < |pairs| - 1 {
      var init := pairs[..|pairs| - 1];
      assert forall j :: 0 <= j < |init| ==> init[j] == pairs[j];
      QueryDictSingle(init, i);
    }
  }

  /** `query_params.get(key, None)`. */
  function Param(p: QueryParams, key: string): Option<string>
  {
    if key in p then Some(p[key]) else None
  }

  /** Python truthiness of an optional string: present and non-empty. */
  predicate Given(v: Option<string>)
  {
    v.Some? && v.value != ""
  }

  /** Django's conversion of one `__in` value to an integer id; None where int() raises ValueError. */
  type IdParser = string -> Option<int>

  /** The ids of a comma-split list; None when any piece does not convert. */
  function ParseIds(pieces: seq<string>, parse: IdParser): (r: Option<set<int>>)
    ensures r.Some? <==> forall i :: 0 <= i < |pieces| ==> parse(pieces[i]).Some?
    ensures r.Some? ==> forall n :: n in r.value <==> exists i :: 0 <= i < |pieces| && parse(pieces[i]) == Some(n)
    decreases |pieces|
  {
    if pieces == [] then Some({})
    else
      var head := parse(pieces[0]);
      var rest := ParseIds(pieces[1..], parse);
      assert forall i :: 1 <= i < |pieces| ==> pieces[i] == pieces[1..][i - 1];
      if head.None? || rest.None? then
        assert head.None? ==> !parse(pieces[0]).Some?;
        None
      else
        assert forall n :: (exists i :: 1 <= i < |pieces| && parse(pieces[i]) == Some(n)) ==>
          (exists i :: 0 <= i < |pieces[1..]| && parse(pieces[1..][i]) == Some(n));
        Some({head.value} + rest.value)
  }

  // ---------------------------------------------------------------- filters

  /** The area condition: a city wins over a prefecture, which wins over a region. */
  datatype AreaFilter = AnyArea | CityIs(city: string) | PrefectureIs(prefecture: string) | RegionIn(region: string)

  datatype Filters = Filters(keyword: Option<string>, types: Option<set<int>>, concepts: Option<set<int>>,
                             layouts: Option<set<int>>, area: AreaFilter)

  datatype QueryError = InvalidId(param: string)

  function ReadIds(p: QueryParams, key: string, parse: IdParser): Result<Option<set<int>>, QueryError>
  {
    if !Given(Param(p, key)) then Success(None)
    else
      match ParseIds(Split(p[key], ','), parse)
      case None => Failure(InvalidId(key))
      case Some(ids) => Success(Some(ids))
  }

  function ReadArea(p: QueryParams): (a: AreaFilter)
    ensures Given(Param(p, "city")) ==> a == CityIs(p["city"])
    ensures !Given(Param(p, "city")) && Given(Param(p, "prefecture")) ==> a == PrefectureIs(p["prefecture"])
    ensures !Given(Param(p, "city")) && !Given(Param(p, "prefecture")) && Given(Param(p, "region")) ==> a == RegionIn(p["region"])
    ensures !Given(Param(p, "city")) && !Given(Param(p, "prefecture")) && !Given(Param(p, "region")) ==> a == AnyArea
  {
    if Given(Param(p, "city")) then CityIs(p["city"])
    else if Given(Param(p, "prefecture")) then PrefectureIs(p["prefecture"])
    else if Given(Param(p, "region")) then RegionIn(p["region"])
    else AnyArea
  }

  /** The parameters get_queryset reads, in the order its filters are applied; `lat`/`lon` are not among them. */
  function ReadFilters(p: QueryParams, parse: IdParser): Result<Filters, QueryError>
  {
    var types := ReadIds(p, "types", parse);
    var concepts := ReadIds(p, "concepts", parse);
    var layouts := ReadIds(p, "layouts", parse);
    if types.Failure? then Failure(types.error)
    else if concepts.Failure? then Failure(concepts.error)
    else if layouts.Failure? then Failure(layouts.error)
    else
      Success(Filters(if Given(Param(p, "keyword")) then Some(p["keyword"]) else None,
                      types.value, concepts.value, layouts.value, ReadArea(p)))
  }

  /** The keyword Q-object: name, prefecture, city or town contains it, ignoring case. */
  predicate KeywordMatches(s: ShopRow, keyword: string)
  {
    ContainsCI(s.name, keyword) || ContainsCI(s.address.prefecture, keyword)
    || ContainsCI(s.address.city, keyword) || ContainsCI(s.address.town, keyword)
  }

  /** `relation__id__in=ids`: at least one related id is listed. */
  predicate RelatedIn(related: set<int>, ids: Option<set<int>>)
  {
    ids.None? || related * ids.value != {}
  }

  predicate AreaMatches(s: ShopRow, a: AreaFilter)
  {
    match a
    case AnyArea => true
    case CityIs(c) => s.address.city == c
    case PrefectureIs(p) => s.address.prefecture == p
    case RegionIn(r) => ContainsCI(s.address.prefecture, r)
  }

  predicate Matches(s: ShopRow, f: Filters)
  {
    (f.keyword.Some? ==> KeywordMatches(s, f.keyword.value))
    && RelatedIn(s.types, f.types) && RelatedIn(s.concepts, f.concepts) && RelatedIn(s.layouts, f.layouts)
    && AreaMatches(s, f.area)
  }

  /** The chain of `.filter(...)` calls: the matching rows in table order. */
  function Select(shops: seq<ShopRow>, f: Filters): (r: seq<ShopRow>)
    ensures |r| <= |shops|
    ensures forall x :: x in r <==> x in shops && Matches(x, f)
    decreases |shops|
  {
    if shops == [] then []
    else
      var rest := Select(shops[..|shops| - 1], f);
      assert forall x :: x in shops <==> x in shops[..|shops| - 1] || x == shops[|shops| - 1];
      if Matches(shops[|shops| - 1], f) then rest + [shops[|shops| - 1]] else rest
  }

  predicate NoDuplicates(s: seq<ShopRow>)
  {
    forall i, j :: 0 <= i < j < |s| ==> s[i] != s[j]
  }

  /** `.distinct()`: later repetitions of a row are dropped. */
  function Distinct(s: seq<ShopRow>): (r: seq<ShopRow>)
    ensures NoDuplicates(r)
    ensures forall x :: x in r <==> x in s
    ensures |r| <= |s|
    decreases |s|
  {
    if s == [] then []
    else
      var init := Distinct(s[..|s| - 1]);
      assert forall x :: x in s <==> x in s[..|s| - 1] || x == s[|s| - 1];
      if s[|s| - 1] in init then init else init + [s[|s| - 1]]
  }

  /** get_queryset over the table `shops`; an unconvertible id raises (reported as a Failure). */
  function GetQueryset(shops: seq<ShopRow>, p: QueryParams, parse: IdParser): Result<seq<ShopRow>, QueryError>
  {
    match ReadFilters(p, parse)
    case Failure(e) => Failure(e)
    case Success(f) => Success(Distinct(Select(shops, f)))
  }

  /** The id list of a parameter as the filter sees it. */
  predicate ListedId(p: QueryParams, key: string, parse: IdParser, related: set<int>)
    requires key in p
  {
    exists piece :: piece in Split(p[key], ',') && parse(piece).Some? && parse(piece).value in related
  }

  /**
   * The search keeps exactly the shops that satisfy every active filter: the keyword in name,
   * prefecture, city or town ignoring case; a listed id in each given relation list; and the
   * area rule, where a city decides alone, else a prefecture, else a region inside the prefecture.
   */
  lemma QuerysetMembership(shops: seq<ShopRow>, p: QueryParams, parse: IdParser, x: ShopRow)
    requires GetQueryset(shops, p, parse).Success?
    ensures x in GetQueryset(shops, p, parse).value <==>
      x in shops
      && (Given(Param(p, "keyword")) ==> KeywordMatches(x, p["keyword"]))
      && (Given(Param(p, "types")) ==> ListedId(p, "types", parse, x.types))
      && (Given(Param(p, "concepts")) ==> ListedId(p, "concepts", parse, x.concepts))
      && (Given(Param(p, "layouts")) ==> ListedId(p, "layouts", parse, x.layouts))
      && (Given(Param(p, "city")) ==> x.address.city == p["city"])
      && (!Given(Param(p, "city")) && Given(Param(p, "prefecture")) ==> x.address.prefecture == p["prefecture"])
      && (!Given(Param(p, "city")) && !Given(Param(p, "prefecture")) && Given(Param(p, "region")) ==>
            ContainsCI(x.address.prefecture, p["region"]))
  {
    var f := ReadFilters(p, parse).value;
    RelatedListed(p, "types", parse, x.types);
    RelatedListed(p, "concepts", parse, x.concepts);
    RelatedListed(p, "layouts", parse, x.layouts);
  }

  lemma RelatedListed(p: QueryParams, key: string, parse: IdParser, related: set<int>)
    requires ReadIds(p, key, parse).Success?
    ensures Given(Param(p, key)) ==>
      (RelatedIn(related, ReadIds(p, key, parse).value) <==> ListedId(p, key, parse, related))
    ensures !Given(Param(p, key)) ==> ReadIds(p, key, parse).value.None?
  {
    if Given(Param(p, key)) {
      var pieces := Split(p[key], ',');
      var ids := ParseIds(pieces, parse).value;
      assert ReadIds(p, key, parse).value == Some(ids);
      if RelatedIn(related, Some(ids)) {
        var n := CommonId(related, ids);
        var i :| 0 <= i < |pieces| && parse(pieces[i]) == Some(n);
        assert pieces[i] in pieces;
      }
      if ListedId(p, key, parse, related) {
        var piece :| piece in pieces && parse(piece).Some? && parse(piece).value in related;
        var i :| 0 <= i < |pieces| && pieces[i] == piece;
        var n := parse(piece).value;
        assert n in ids;
        assert n in related * ids;
      }
    }
  }

  lemma CommonId(a: set<int>, b: set<int>) returns (n: int)
    requires a * b != {}
    ensures n in a && n in b
  {
    if forall m :: m !in a * b {
      assert false;
    }
    n :| n in a * b;
  }

  /** The search fails exactly when a given relation list holds a piece that is not an id. */
  lemma QuerysetFailsIff(shops: seq<ShopRow>, p: QueryParams, parse: IdParser)
    ensures GetQueryset(shops, p, parse).Failure? <==>
      exists key :: key in ["types", "concepts", "layouts"] && Given(Param(p, key))
        && exists piece :: piece in Split(p[key], ',') && parse(piece).None?
  {
    forall key | key in ["types", "concepts", "layouts"] && Given(Param(p, key))
      ensures ReadIds(p, key, parse).Failure? <==> exists piece :: piece in Split(p[key], ',') && parse(piece).None?
    {
      var pieces := Split(p[key], ',');
      if ReadIds(p, key, parse).Failure? {
        var i :| 0 <= i < |pieces| && parse(pieces[i]).None?;
        assert pieces[i] in pieces;
      }
    }
  }

  /** The coordinates sent with a search never change its result. */
  lemma LatLonIgnored(shops: seq<ShopRow>, p: QueryParams, parse: IdParser)
    ensures GetQueryset(shops, p, parse) == GetQueryset(shops, p - {"lat", "lon"}, parse)
  {
    var q := p - {"lat", "lon"};
    assert forall k :: k !in {"lat", "lon"} ==> Param(p, k) == Param(q, k);
    assert ReadIds(p, "types", parse) == ReadIds(q, "types", parse);
    assert ReadIds(p, "concepts", parse) == ReadIds(q, "concepts", parse);
    assert ReadIds(p, "layouts", parse) == ReadIds(q, "layouts", parse);
    assert ReadArea(p) == ReadArea(q);
  }

  /** The result lists each matching shop once, and only shops of the table. */
  lemma QuerysetIsDistinctSubset(shops: seq<ShopRow>, p: QueryParams, parse: IdParser)
    requires GetQueryset(shops, p, parse).Success?
    ensures NoDuplicates(GetQueryset(shops, p, parse).value)
    ensures forall x :: x in GetQueryset(shops, p, parse).value ==> x in shops
    ensures |GetQueryset(shops, p, parse).value| <= |shops|
  {
  }

  /** With no search parameters at all, every shop of the table is listed. */
  lemma NoParamsListsAll(shops: seq<ShopRow>, parse: IdParser)
    ensures GetQueryset(shops, map[], parse).Success?
    ensures forall x :: x in GetQueryset(shops, map[], parse).value <==> x in shops
  {
  }

  // ---------------------------------------------------------------- create

  /**
   * The coordinates a created shop ends with: one geocoding of its address text applied to the
   * submitted coordinates. The pre_save lookup, the explicit geocode_address and the second
   * save's lookup all ask the same address, so they settle on this.
   */
  function CreatedCoordinates(payload: ShopData, geocoder: Geocoder): GeocodeOutcome
    requires payload.address.Some?
  {
    Geocoded(geocoder(AddressText(AddressFromData(payload.address.value))),
             payload.columns.latitude.GetOr(None), payload.columns.longitude.GetOr(None))
  }

  /**
   * ShopViewSet.create: an invalid payload answers 400 with the errors and creates nothing.
   * A valid one is saved through the serializer, then geocoded once more and saved again;
   * a raise anywhere on that path answers 500. The view admits anonymous requests, whose save
   * always raises.
   */
  method CreateShop(payload: ShopData, otherErrors: set<string>, requestUser: Option<int>, newId: int,
                    geocoder: Geocoder)
    returns (status: int, errors: set<string>, created: Option<Shop>)
    ensures !IsValid(payload, otherErrors) ==>
      status == 400 && errors == ValidationErrors(payload, otherErrors) && created.None?
    ensures IsValid(payload, otherErrors) ==> errors == {} && (status == 201 || status == 500)
    ensures IsValid(payload, otherErrors) ==>
              (status == 500 <==>
                 requestUser.None? || GeocodeRaises(geocoder(AddressText(AddressFromData(payload.address.value)))))
    ensures status == 201 ==>
              requestUser.Some? && created.Some? && fresh(created.value)
              && CreatedColumns(created.value, payload, requestUser.value, newId)
              && CreatedRelations(created.value, payload)
              && created.value.latitude == CreatedCoordinates(payload, geocoder).latitude
              && created.value.longitude == CreatedCoordinates(payload, geocoder).longitude
  {
    errors := ValidationErrors(payload, otherErrors);
    if errors != {} {
      return 400, errors, None;
    }
    NegativeCountsRejected(payload, otherErrors);
    status, created := PerformCreate(payload, requestUser, newId, geocoder);
  }

  /**
   * perform_create: serializer.save(), then an unconditional geocode_address() and a second
   * save; a raise at any of the three answers 500.
   */
  method PerformCreate(payload: ShopData, requestUser: Option<int>, newId: int, geocoder: Geocoder)
    returns (status: int, created: Option<Shop>)
    requires payload.address.Some?
    ensures status == 201 || status == 500
    ensures status == 500 <==>
              requestUser.None? || GeocodeRaises(geocoder(AddressText(AddressFromData(payload.address.value))))
    ensures status == 201 ==>
              requestUser.Some? && created.Some? && fresh(created.value)
              && CreatedColumns(created.value, payload, requestUser.value, newId)
              && CreatedRelations(created.value, payload)
              && created.value.latitude == CreatedCoordinates(payload, geocoder).latitude
              && created.value.longitude == CreatedCoordinates(payload, geocoder).longitude
  {
    var address, saved, raised := Create(payload, requestUser, newId, geocoder);
    if raised {
      return 500, None;
    }
    var shop := saved.value;
    ghost var reply := geocoder(AddressText(shop.address));
    if !GeocodeRaises(reply) {
      GeocodeSettles(reply, payload.columns.latitude.GetOr(None), payload.columns.longitude.GetOr(None));
    }
    created := Some(shop);
    raised := Regeocode(shop, geocoder);
    status := if raised then 500 else 201;
  }

  /** The explicit geocode_address() of perform_create followed by the second save's pre-save lookup. */
  method Regeocode(shop: Shop, geocoder: Geocoder) returns (raised: bool)
    modifies shop`latitude, shop`longitude
    ensures raised <==> GeocodeRaises(geocoder(AddressText(shop.address)))
    ensures !raised ==>
      shop.latitude == Geocoded(geocoder(AddressText(shop.address)), old(shop.latitude), old(shop.longitude)).latitude
      && shop.longitude == Geocoded(geocoder(AddressText(shop.address)), old(shop.latitude), old(shop.longitude)).longitude
  {
    raised := shop.GeocodeAddress(geocoder);
    if raised {
      return;
    }
    GeocodeSettles(geocoder(AddressText(shop.address)), old(shop.latitude), old(shop.longitude));
    raised := shop.PreSave(geocoder);
  }

  // ---------------------------------------------------------------- reviews

  /**
   * ReviewViewSet.get_queryset: with `shop_id` present only that shop's reviews, otherwise
   * all; a value that is not an id makes the filter raise.
   */
  function ReviewQueryset(reviews: seq<Review>, p: QueryParams, parse: IdParser): (r: Result<seq<Review>, QueryError>)
    ensures "shop_id" !in p ==> r == Success(reviews)
    ensures "shop_id" in p ==> (r.Failure? <==> parse(p["shop_id"]).None?)
    ensures r.Success? && "shop_id" in p ==>
      forall x :: x in r.value <==> x in reviews && x.shop == parse(p["shop_id"]).value
  {
    if "shop_id" !in p then Success(reviews)
    else
      match parse(p["shop_id"])
      case None => Failure(InvalidId("shop_id"))
      case Some(id) => Success(ReviewsOf(reviews, id))
  }

  function ReviewsOf(reviews: seq<Review>, shop: int): (r: seq<Review>)
    ensures forall x :: x in r <==> x in reviews && x.shop == shop
    decreases |reviews|
  {
    if reviews == [] then []
    else
      var rest := ReviewsOf(reviews[1..], shop);
      assert forall x :: x in reviews <==> x == reviews[0] || x in reviews[1..];
      if reviews[0].shop == shop then [reviews[0]] + rest else rest
  }
}
