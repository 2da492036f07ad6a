/**
 * frontend/src/components/SearchModal: the tab-slide direction, the URL parameters of a search
 * and the clear button. The area slots are the AreaSearch state the modal owns.
 */
module SearchModal {
  import opened Wrappers
  import opened Text
  import opened SearchParams
  import ShopActions
  import AreaSearch

  const Tabs: seq<string> := ["condition", "reputation", "area"]

  /** `["condition", "reputation", "area"].indexOf(key)`: -1 for any other key. */
  function TabIndex(key: string): (i: int)
    ensures -1 <= i < |Tabs|
    ensures i >= 0 ==> Tabs[i] == key
    ensures i == -1 <==> key !in Tabs
  {
    if key == "condition" then 0 else if key == "reputation" then 1 else if key == "area" then 2 else -1
  }

  datatype Slide = NoSlide | SlideLeft | SlideRight

  /** `selectedRegion!` in an append: a null slot is sent as the text "null". */
  function NullText(s: Option<string>): string
  {
    if s.Some? then s.value else "null"
  }

  /**
   * The query a search navigates to: the keyword when non-empty, each list comma-joined when
   * non-empty, then the area keys of the deepest truthy slot (city, else prefecture, else region).
   */
  function ModalQuery(keyword: string, types: seq<string>, concepts: seq<string>, layouts: seq<string>,
                      region: Option<string>, prefecture: Option<string>, city: Option<string>): Params
  {
    ShopActions.GuardedQuery(keyword != "", |types| > 0, |concepts| > 0, |layouts| > 0,
                             Truthy(city) || Truthy(prefecture) || Truthy(region), Truthy(city) || Truthy(prefecture),
                             Truthy(city),
                             keyword, Join(types, ','), Join(concepts, ','), Join(layouts, ','),
                             NullText(region), NullText(prefecture), NullText(city))
  }

  class SearchModalState {
    var activeKey: string
    var slideDirection: Slide
    var keyword: string
    var selectedTypes: seq<string>
    var selectedConcepts: seq<string>
    var selectedLayouts: seq<string>
    const area: AreaSearch.AreaSelection

    constructor ()
      ensures activeKey == "condition" && slideDirection == NoSlide && keyword == ""
      ensures selectedTypes == [] && selectedConcepts == [] && selectedLayouts == []
      ensures fresh(area) && area.region.None? && area.prefecture.None? && area.city.None?
    {
      activeKey := "condition";
      slideDirection := NoSlide;
      keyword := "";
      selectedTypes := [];
      selectedConcepts := [];
      selectedLayouts := [];
      area := new AreaSearch.AreaSelection();
    }

    /** handleTabChange: slides left exactly when the new tab lies to the right of the old one. */
    method HandleTabChange(key: string)
      modifies this
      ensures activeKey == key
      ensures slideDirection == (if TabIndex(key) > TabIndex(old(activeKey)) then SlideLeft else SlideRight)
      ensures keyword == old(keyword) && selectedTypes == old(selectedTypes)
      ensures selectedConcepts == old(selectedConcepts) && selectedLayouts == old(selectedLayouts)
    {
      var prevIndex := TabIndex(activeKey);
      var newIndex := TabIndex(key);
      slideDirection := if newIndex > prevIndex then SlideLeft else SlideRight;
      activeKey := key;
    }

    /** handleSearch: the parameters of the `/shops?...` navigation, appended one by one. */
    method HandleSearch() returns (query: Params)
      ensures query == ModalQuery(keyword, selectedTypes, selectedConcepts, selectedLayouts,
                                  area.region, area.prefecture, area.city)
    {
      query := [];
      query := AppendIf(query, keyword != "", "keyword", keyword);
      query := AppendIf(query, |selectedTypes| > 0, "types", Join(selectedTypes, ','));
      query := AppendIf(query, |selectedConcepts| > 0, "concepts", Join(selectedConcepts, ','));
      query := AppendIf(query, |selectedLayouts| > 0, "layouts", Join(selectedLayouts, ','));
      if Truthy(area.city) {
        query := query + [("region", NullText(area.region))];
        query := query + [("prefecture", NullText(area.prefecture))];
        query := query + [("city", area.city.value)];
      } else if Truthy(area.prefecture) {
        query := query + [("region", NullText(area.region))];
        query := query + [("prefecture", area.prefecture.value)];
      } else if Truthy(area.region) {
        query := query + [("region", area.region.value)];
      }
    }

    /** handleClear: the keyword, every list and every area slot back to empty. */
    method HandleClear()
      modifies this, area
      ensures keyword == "" && selectedTypes == [] && selectedConcepts == [] && selectedLayouts == []
      ensures area.region.None? && area.prefecture.None? && area.city.None?
      ensures activeKey == old(activeKey) && slideDirection == old(slideDirection)
    {
      keyword := "";
      selectedTypes := [];
      selectedConcepts := [];
      selectedLayouts := [];
      area.region := None;
      area.prefecture := None;
      area.city := None;
    }
  }

  /** The tab indices increase left to right, so moving to a later tab slides left. */
  lemma SlideOrder()
    ensures TabIndex("condition") < TabIndex("reputation") < TabIndex("area")
    ensures TabIndex("unknown") < TabIndex("condition")
  {
  }

  /** Each key appears at most once, in the order keyword, types, concepts, layouts, region, prefecture, city. */
  lemma ModalQueryUniqueKeys(keyword: string, types: seq<string>, concepts: seq<string>, layouts: seq<string>,
                             region: Option<string>, prefecture: Option<string>, city: Option<string>)
    ensures ShopActions.InKeyOrder(ModalQuery(keyword, types, concepts, layouts, region, prefecture, city))
    ensures UniqueKeys(ModalQuery(keyword, types, concepts, layouts, region, prefecture, city))
  {
    ShopActions.GuardedQueryInKeyOrder(keyword != "", |types| > 0, |concepts| > 0, |layouts| > 0,
                                       Truthy(city) || Truthy(prefecture) || Truthy(region),
                                       Truthy(city) || Truthy(prefecture), Truthy(city),
                                       keyword, Join(types, ','), Join(concepts, ','), Join(layouts, ','),
                                       NullText(region), NullText(prefecture), NullText(city));
  }

  /**
   * The area keys: a city sends region, prefecture and city; else a prefecture sends region and
   * prefecture; else a region sends the region; otherwise no area key. Under the area hierarchy
   * none of them is the placeholder "null".
   */
  lemma ModalAreaKeys(keyword: string, types: seq<string>, concepts: seq<string>, layouts: seq<string>,
                      region: Option<string>, prefecture: Option<string>, city: Option<string>)
    ensures var q := ModalQuery(keyword, types, concepts, layouts, region, prefecture, city);
      Get(q, "city") == (if Truthy(city) then city else None)
      && Get(q, "prefecture") == (if Truthy(city) || Truthy(prefecture) then Some(NullText(prefecture)) else None)
      && Get(q, "region") == (if Truthy(city) || Truthy(prefecture) || Truthy(region) then Some(NullText(region)) else None)
    ensures (city.Some? ==> Truthy(prefecture)) && (prefecture.Some? ==> Truthy(region)) ==>
      var q := ModalQuery(keyword, types, concepts, layouts, region, prefecture, city);
      Get(q, "region") == (if Truthy(region) then region else None)
      && Get(q, "prefecture") == (if Truthy(prefecture) then prefecture else None)
  {
    ShopActions.GuardedQueryValues(keyword != "", |types| > 0, |concepts| > 0, |layouts| > 0,
                                   Truthy(city) || Truthy(prefecture) || Truthy(region),
                                   Truthy(city) || Truthy(prefecture), Truthy(city),
                                   keyword, Join(types, ','), Join(concepts, ','), Join(layouts, ','),
                                   NullText(region), NullText(prefecture), NullText(city));
  }

  /** The keyword and each list are sent only when non-empty, the lists comma-joined. */
  lemma ModalFilterKeys(keyword: string, types: seq<string>, concepts: seq<string>, layouts: seq<string>,
                        region: Option<string>, prefecture: Option<string>, city: Option<string>)
    ensures var q := ModalQuery(keyword, types, concepts, layouts, region, prefecture, city);
      Get(q, "keyword") == (if keyword != "" then Some(keyword) else None)
      && Get(q, "types") == (if |types| > 0 then Some(Join(types, ',')) else None)
      && Get(q, "concepts") == (if |concepts| > 0 then Some(Join(concepts, ',')) else None)
      && Get(q, "layouts") == (if |layouts| > 0 then Some(Join(layouts, ',')) else None)
  {
    ShopActions.GuardedQueryValues(keyword != "", |types| > 0, |concepts| > 0, |layouts| > 0,
                                   Truthy(city) || Truthy(prefecture) || Truthy(region),
                                   Truthy(city) || Truthy(prefecture), Truthy(city),
                                   keyword, Join(types, ','), Join(concepts, ','), Join(layouts, ','),
                                   NullText(region), NullText(prefecture), NullText(city));
  }
}
