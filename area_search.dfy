/**
 * frontend/src/components/AreaSearch: the region, prefecture and city state slots, the three
 * select handlers and the two clearing effects.
 */
module AreaSearch {
  import opened Wrappers
  import opened SearchParams

  /** The three area slots the handlers set and clear. */
  class AreaSelection {
    var region: Option<string>
    var prefecture: Option<string>
    var city: Option<string>

    /** City set implies a truthy prefecture; prefecture set implies a truthy region. */
    predicate Valid()
      reads this
    {
      (city.Some? ==> Truthy(prefecture)) && (prefecture.Some? ==> Truthy(region))
    }

    /** The prefectures of a region are shown only while that region is selected. */
    predicate PrefectureOffered()
      reads this
    {
      Truthy(region)
    }

    /** The cities of a prefecture are shown only while that prefecture is selected (under its region). */
    predicate CityOffered()
      reads this
    {
      Truthy(prefecture) && Truthy(region)
    }

    constructor ()
      ensures region.None? && prefecture.None? && city.None?
      ensures Valid()
    {
      region := None;
      prefecture := None;
      city := None;
    }

    /** handleRegionSelect: sets the region and clears prefecture and city. */
    method SelectRegion(r: string)
      modifies this
      ensures region == Some(r) && prefecture.None? && city.None?
      ensures Valid()
    {
      region := Some(r);
      prefecture := None;
      city := None;
    }

    /** handlePrefectureSelect: sets the prefecture and clears the city; the region stays. */
    method SelectPrefecture(p: string)
      modifies this
      ensures region == old(region) && prefecture == Some(p) && city.None?
      ensures Valid() <==> old(PrefectureOffered())
    {
      prefecture := Some(p);
      city := None;
    }

    /** handleCitySelect: changes only the city. */
    method SelectCity(c: string)
      modifies this
      ensures region == old(region) && prefecture == old(prefecture) && city == Some(c)
      ensures old(CityOffered()) ==> Valid()
    {
      city := Some(c);
    }

    /** The first effect: a falsy region clears prefecture and city. */
    method RegionEffect()
      modifies this
      ensures region == old(region)
      ensures !Truthy(region) ==> prefecture.None? && city.None?
      ensures Truthy(region) ==> prefecture == old(prefecture) && city == old(city)
    {
      if !Truthy(region) {
        prefecture := None;
        city := None;
      }
    }

    /** The second effect: a falsy prefecture clears the city. */
    method PrefectureEffect()
      modifies this
      ensures region == old(region) && prefecture == old(prefecture)
      ensures !Truthy(prefecture) ==> city.None?
      ensures Truthy(prefecture) ==> city == old(city)
    {
      if !Truthy(prefecture) {
        city := None;
      }
    }

    /** Both effects, in declaration order: afterwards the hierarchy holds whatever the slots held. */
    method RunEffects()
      modifies this
      ensures region == old(region)
      ensures Valid()
      ensures old(Valid()) ==> prefecture == old(prefecture) && city == old(city)
    {
      RegionEffect();
      PrefectureEffect();
    }
  }

  /** The choices a user can make in the accordion. */
  datatype Pick = RegionPick(r: string) | PrefecturePick(p: string) | CityPick(c: string)

  /**
   * A run of picks, each made only where the accordion offers it, keeps the hierarchy after every
   * handler, starting from no selection.
   */
  method Session(picks: seq<Pick>) returns (area: AreaSelection)
    ensures fresh(area)
    ensures area.Valid()
  {
    area := new AreaSelection();
    var i := 0;
    while i < |picks|
      invariant 0 <= i <= |picks|
      invariant area.Valid()
    {
      match picks[i] {
        case RegionPick(r) =>
          area.SelectRegion(r);
        case PrefecturePick(p) =>
          if area.PrefectureOffered() {
            area.SelectPrefecture(p);
          }
        case CityPick(c) =>
          if area.CityOffered() {
            area.SelectCity(c);
          }
      }
      area.RunEffects();
      i := i + 1;
    }
  }
}
