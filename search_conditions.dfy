/**
 * frontend/src/components/SearchConditions: the condition bar over the results, which reads the
 * URL back into a keyword, chip names and an area label, and searches again by keyword alone.
 */
module SearchConditions {
  import opened Wrappers
  import opened Text
  import opened ShopTypes
  import opened SearchParams

  /** `${param}` in a template literal: a missing parameter renders as "null". */
  function Shown(s: Option<string>): string
  {
    if s.Some? then s.value else "null"
  }

  /**
   * The area label for the URL's region, prefecture and city; None when no area parameter is
   * truthy, in which case the label keeps its previous value.
   */
  function AreaLabel(region: Option<string>, prefecture: Option<string>, city: Option<string>): (shown: Option<string>)
    ensures Truthy(city) ==> shown == Some(Shown(region) + " > " + Shown(prefecture) + " > " + city.value)
    ensures !Truthy(city) && Truthy(prefecture) ==> shown == Some(Shown(region) + " > " + prefecture.value)
    ensures !Truthy(city) && !Truthy(prefecture) && Truthy(region) ==> shown == region
    ensures shown.None? <==> !Truthy(city) && !Truthy(prefecture) && !Truthy(region)
  {
    if Truthy(city) then Some(Shown(region) + " > " + Shown(prefecture) + " > " + city.value)
    else if Truthy(prefecture) then Some(Shown(region) + " > " + prefecture.value)
    else if Truthy(region) then region
    else None
  }

  /** `all.find(t => t.id.toString() === id)`. */
  function FindById(all: seq<Entity>, id: string): (r: Option<Entity>)
    ensures r.None? <==> forall k :: 0 <= k < |all| ==> IntToString(all[k].id) != id
    ensures r.Some? ==> exists k :: 0 <= k < |all| && all[k] == r.value && IntToString(all[k].id) == id
                                    && forall j :: 0 <= j < k ==> IntToString(all[j].id) != id
    decreases |all|
  {
    if all == [] then None
    else if IntToString(all[0].id) == id then Some(all[0])
    else
      var r := FindById(all[1..], id);
      assert forall j :: 1 <= j < |all| ==> all[j] == all[1..][j - 1];
      r
  }

  /** `find(...)?.name || ''`: the name of the first entity with this id, or '' when there is none. */
  function NameFor(all: seq<Entity>, id: string): (name: string)
    ensures (forall k :: 0 <= k < |all| ==> IntToString(all[k].id) != id) ==> name == ""
    ensures name != "" ==> exists k :: 0 <= k < |all| && IntToString(all[k].id) == id && all[k].name == name
  {
    match FindById(all, id)
    case Some(e) => e.name
    case None => ""
  }

  /** The names shown for a comma-separated id parameter: one per id, in order. */
  function IdsToNames(param: string, all: seq<Entity>): (names: seq<string>)
    ensures |names| == |Split(param, ',')|
    ensures forall i :: 0 <= i < |names| ==> names[i] == NameFor(all, Split(param, ',')[i])
  {
    var ids := Split(param, ',');
    seq(|ids|, i requires 0 <= i < |ids| => NameFor(all, ids[i]))
  }

  /** The first entity matching an id supplies its name, even when a later entity shares the id. */
  lemma FirstMatchWins(all: seq<Entity>, k: nat)
    requires k < |all|
    requires forall j :: 0 <= j < k ==> all[j].id != all[k].id
    ensures NameFor(all, IntToString(all[k].id)) == all[k].name
    decreases k
  {
    if k > 0 {
      assert IntToString(all[0].id) != IntToString(all[k].id) by {
        IntToStringInjective(all[0].id, all[k].id);
      }
      assert forall j :: 0 <= j < k - 1 ==> all[1..][j].id != all[1..][k - 1].id;
      FirstMatchWins(all[1..], k - 1);
      assert all[1..][k - 1] == all[k];
    }
  }

  /** The keyword slot after the effect: the parameter when truthy, else what it held. */
  function Kept(current: string, param: Option<string>): (r: string)
    ensures Truthy(param) ==> r == param.value
    ensures !Truthy(param) ==> r == current
  {
    if Truthy(param) then param.value else current
  }

  /** A chip list after the effect: the names for a truthy id parameter, else what it held. */
  function Chips(current: seq<string>, param: Option<string>, all: seq<Entity>): (r: seq<string>)
    ensures Truthy(param) ==> r == IdsToNames(param.value, all)
    ensures !Truthy(param) ==> r == current
  {
    if Truthy(param) then IdsToNames(param.value, all) else current
  }

  /** The area label after the effect: the new label when one of the area parameters is truthy, else what it held. */
  function Labelled(current: Option<string>, region: Option<string>, prefecture: Option<string>,
                    city: Option<string>): (r: Option<string>)
    ensures AreaLabel(region, prefecture, city).Some? ==> r == AreaLabel(region, prefecture, city)
    ensures !Truthy(city) && !Truthy(prefecture) && !Truthy(region) ==> r == current
  {
    var l := AreaLabel(region, prefecture, city);
    if l.Some? then l else current
  }

  /** The bar's state, filled from the URL by the effect. */
  class SearchConditionsState {
    var keyword: string
    var types: seq<string>
    var concepts: seq<string>
    var layouts: seq<string>
    var area: Option<string>

    constructor ()
      ensures keyword == "" && types == [] && concepts == [] && layouts == [] && area.None?
    {
      keyword := "";
      types := [];
      concepts := [];
      layouts := [];
      area := None;
    }

    /**
     * fetchConditionNames. Each slot is written only when its parameter is truthy; the entity lists
     * are the replies of getShopTypes, getShopConcepts and getShopLayouts.
     */
    method FetchConditionNames(searchParams: Option<Params>, allTypes: seq<Entity>, allConcepts: seq<Entity>,
                               allLayouts: seq<Entity>)
      modifies this
      ensures searchParams.None? ==> unchanged(this)
      ensures searchParams.Some? ==> keyword == Kept(old(keyword), Get(searchParams.value, "keyword"))
      ensures searchParams.Some? ==> types == Chips(old(types), Get(searchParams.value, "types"), allTypes)
      ensures searchParams.Some? ==> concepts == Chips(old(concepts), Get(searchParams.value, "concepts"), allConcepts)
      ensures searchParams.Some? ==> layouts == Chips(old(layouts), Get(searchParams.value, "layouts"), allLayouts)
      ensures searchParams.Some? ==>
        area == Labelled(old(area), Get(searchParams.value, "region"), Get(searchParams.value, "prefecture"),
                         Get(searchParams.value, "city"))
    {
      if searchParams.None? {
        return;
      }
      var p := searchParams.value;
      keyword := Kept(keyword, Get(p, "keyword"));
      types := Chips(types, Get(p, "types"), allTypes);
      concepts := Chips(concepts, Get(p, "concepts"), allConcepts);
      layouts := Chips(layouts, Get(p, "layouts"), allLayouts);
      area := Labelled(area, Get(p, "region"), Get(p, "prefecture"), Get(p, "city"));
    }

    /** handleSearch: the new query holds the keyword alone, and only when it is non-empty. */
    method HandleSearch() returns (query: Params)
      ensures query == (if keyword != "" then [("keyword", keyword)] else [])
      ensures forall i :: 0 <= i < |query| ==> query[i].0 == "keyword"
    {
      query := AppendIf([], keyword != "", "keyword", keyword);
    }
  }
}
