/** frontend/src/components/OpeningHoursInput: the per-day opening-hours editor. */
module OpeningHoursInput {
  import opened Wrappers
  import opened ShopTypes

  const DaysOfWeek: seq<string> := ["月", "火", "水", "木", "金", "土", "日"]
  const DefaultOpen := "10:00"
  const DefaultClose := "22:00"

  /** The editor renders exactly seven distinct day rows. */
  lemma DaysOfWeekDistinct()
    ensures |DaysOfWeek| == 7
    ensures forall i, j :: 0 <= i < j < |DaysOfWeek| ==> DaysOfWeek[i] != DaysOfWeek[j]
  {
  }

  /** A checkbox change or a change in one of the two time inputs of a day row. */
  datatype HoursEdit = SetOpen(time: string) | SetClose(time: string) | SetIsOpen(checked: bool)

  /** `value[day]`, with a missing day read as an entry with no properties. */
  function DayOf(value: OpeningHours, day: string): DayHours
  {
    if day in value then value[day] else DayHours(None, None, None)
  }

  /** `a || fallback` for an optional string. */
  function OrDefault(a: Option<string>, fallback: string): string
  {
    if a.Some? && a.value != "" then a.value else fallback
  }

  /**
   * handleChange: `[field]: newValue` is written first and then overridden by the `open:` and
   * `close:` keys, so only the checkbox ever changes what is stored.
   */
  function HandleChange(value: OpeningHours, day: string, edit: HoursEdit): (r: OpeningHours)
    ensures day in r && r.Keys == value.Keys + {day}
  {
    var cur := DayOf(value, day);
    var written := match edit
      case SetOpen(t) => cur.(open := Some(t))
      case SetClose(t) => cur.(close := Some(t))
      case SetIsOpen(b) => cur.(isOpen := Some(b));
    var filling := edit.SetIsOpen? && edit.checked;
    value[day := written.(
      open := if filling then Some(OrDefault(cur.open, DefaultOpen)) else cur.open,
      close := if filling then Some(OrDefault(cur.close, DefaultClose)) else cur.close)]
  }

  /** Only the edited day's entry changes; every other day is untouched. */
  lemma OtherDaysUnchanged(value: OpeningHours, day: string, edit: HoursEdit, other: string)
    requires other != day
    ensures other in HandleChange(value, day, edit) <==> other in value
    ensures other in value ==> HandleChange(value, day, edit)[other] == value[other]
  {
  }

  /** Ticking a day fills a missing or empty time with the defaults and keeps existing ones. */
  lemma CheckingFillsDefaults(value: OpeningHours, day: string)
    ensures var d := HandleChange(value, day, SetIsOpen(true))[day];
      var cur := DayOf(value, day);
      d.isOpen == Some(true)
      && (cur.open.Some? && cur.open.value != "" ==> d.open == cur.open)
      && (cur.open.None? || cur.open.value == "" ==> d.open == Some(DefaultOpen))
      && (cur.close.Some? && cur.close.value != "" ==> d.close == cur.close)
      && (cur.close.None? || cur.close.value == "" ==> d.close == Some(DefaultClose))
  {
  }

  /** Unticking a day keeps its times as they were. */
  lemma UncheckingKeepsTimes(value: OpeningHours, day: string)
    ensures HandleChange(value, day, SetIsOpen(false))[day] == DayOf(value, day).(isOpen := Some(false))
  {
  }

  /** Typing a new opening or closing time stores nothing new: the day keeps its previous entry. */
  lemma TimeEditsAreOverridden(value: OpeningHours, day: string, time: string)
    ensures HandleChange(value, day, SetOpen(time))[day] == DayOf(value, day)
    ensures HandleChange(value, day, SetClose(time))[day] == DayOf(value, day)
  {
  }

  /** What one day row displays: the checkbox, and the two time fields when the day is open. */
  datatype DayRow = DayRow(checked: bool, times: Option<(string, string)>)

  function RenderDay(value: OpeningHours, day: string): (row: DayRow)
    ensures row.checked <==> DayOf(value, day).isOpen == Some(true)
    ensures row.times.Some? <==> row.checked
    ensures row.times.Some? ==>
      row.times.value == (DayOf(value, day).open.GetOr(""), DayOf(value, day).close.GetOr(""))
  {
    var d := DayOf(value, day);
    var checked := d.isOpen == Some(true);
    DayRow(checked, if checked then Some((d.open.GetOr(""), d.close.GetOr(""))) else None)
  }

  /** After a day is ticked its row shows the time fields, never blank. */
  lemma CheckedDayShowsTimes(value: OpeningHours, day: string)
    ensures var row := RenderDay(HandleChange(value, day, SetIsOpen(true)), day);
      row.checked && row.times.Some? && row.times.value.0 != "" && row.times.value.1 != ""
  {
  }
}
