/** The calendar constants: the calendar widget's view identifiers, the map
    from the three external view names onto them, the view options shown to
    the user, the check-in and check-out time slots, and the default colour
    palette for events and houses. */
module CalendarViews {
  import opened Options

  /** The calendar widget's views (`CalendarViewType`). */
  datatype ViewType = DayGridMonth | TimeGridWeek | TimeGridDay | ListWeek

  /** The view's identifier string. */
  function ViewName(v: ViewType): string {
    match v
    case DayGridMonth => "dayGridMonth"
    case TimeGridWeek => "timeGridWeek"
    case TimeGridDay => "timeGridDay"
    case ListWeek => "listWeek"
  }

  /** `VIEW_MAP`: external view name to widget view. */
  const ViewMap: map<string, ViewType> := map["month" := DayGridMonth, "week" := TimeGridWeek, "day" := TimeGridDay]

  datatype ViewOption = ViewOption(title: string, value: ViewType)

  /** `CALENDAR_VIEWS`: the views offered to the user, in display order. */
  const CalendarViewOptions: seq<ViewOption> :=
    [ViewOption("Month", DayGridMonth), ViewOption("Week", TimeGridWeek), ViewOption("Day", TimeGridDay)]

  /** The map covers exactly month, week and day, sends them to the month
      grid, week grid and day grid, and is injective; the list view is reached
      neither through it nor through the offered options. */
  lemma ViewMapFacts()
    ensures ViewMap.Keys == {"month", "week", "day"}
    ensures ViewMap["month"] == DayGridMonth && ViewMap["week"] == TimeGridWeek && ViewMap["day"] == TimeGridDay
    ensures forall a, b :: a in ViewMap && b in ViewMap && a != b ==> ViewMap[a] != ViewMap[b]
    ensures ListWeek !in ViewMap.Values
    ensures forall o :: o in CalendarViewOptions ==> o.value != ListWeek
  {
    assert ViewMap["month"] == DayGridMonth;
    assert ViewMap["week"] == TimeGridWeek;
    assert ViewMap["day"] == TimeGridDay;
  }

  /** The offered options, in order, are the images of month, week and day. */
  lemma CalendarViewsFollowViewMap()
    ensures |CalendarViewOptions| == 3
    ensures forall i :: 0 <= i < 3 ==> CalendarViewOptions[i].value == ViewMap[["month", "week", "day"][i]]
  {
  }

  // ------------------------------------------------------------- time slots

  datatype TimeSlot = TimeSlot(caption: string, value: string)

  /** `CHECK_IN_TIME_SLOTS`. */
  const CheckInTimeSlots: seq<TimeSlot> := [
    TimeSlot("12:00 PM", "12:00"),
    TimeSlot("1:00 PM", "13:00"),
    TimeSlot("2:00 PM", "14:00"),
    TimeSlot("3:00 PM", "15:00"),
    TimeSlot("4:00 PM", "16:00"),
    TimeSlot("5:00 PM", "17:00"),
    TimeSlot("6:00 PM", "18:00")]

  /** `CHECK_OUT_TIME_SLOTS`. */
  const CheckOutTimeSlots: seq<TimeSlot> := [
    TimeSlot("8:00 AM", "08:00"),
    TimeSlot("9:00 AM", "09:00"),
    TimeSlot("10:00 AM", "10:00"),
    TimeSlot("11:00 AM", "11:00"),
    TimeSlot("12:00 PM", "12:00")]

  function DigitChar(d: int): char
    requires 0 <= d < 10
  {
    "0123456789"[d]
  }

  predicate IsDigit(c: char) {
    '0' <= c <= '9'
  }

  function DigitValue(c: char): int {
    c as int - '0' as int
  }

  /** The `HH:mm` value of a whole hour of the day. */
  function ClockValue(h: int): string
    requires 0 <= h < 24
  {
    [DigitChar(h / 10), DigitChar(h % 10), ':', '0', '0']
  }

  /** The 12-hour rendering of a whole hour: hours 0 and 12 show as 12, the
      hour has no leading zero, and AM runs up to 11. */
  function TwelveHourLabel(h: int): string
    requires 0 <= h < 24
  {
    var h12 := if h % 12 == 0 then 12 else h % 12;
    var half := if h < 12 then 'A' else 'P';
    if h12 < 10 then [DigitChar(h12), ':', '0', '0', ' ', half, 'M']
    else [DigitChar(h12 / 10), DigitChar(h12 % 10), ':', '0', '0', ' ', half, 'M']
  }

  /** The slot of a whole hour: its 12-hour label and its `HH:mm` value. */
  function HourSlot(h: int): TimeSlot
    requires 0 <= h < 24
  {
    TimeSlot(TwelveHourLabel(h), ClockValue(h))
  }

  /** Minutes since midnight of an `HH:mm` string; `None` if it is not one. */
  function ParseClock(s: string): (r: Option<int>)
    ensures r.Some? ==> 0 <= r.value < 24 * 60
  {
    if |s| == 5 && IsDigit(s[0]) && IsDigit(s[1]) && s[2] == ':' && IsDigit(s[3]) && IsDigit(s[4]) then
      var h := DigitValue(s[0]) * 10 + DigitValue(s[1]);
      var m := DigitValue(s[3]) * 10 + DigitValue(s[4]);
      if h < 24 && m < 60 then Some(h * 60 + m) else None
    else None
  }

  /** A whole hour's `HH:mm` value reads back as that hour. */
  lemma ParseClockValue(h: int)
    requires 0 <= h < 24
    ensures ParseClock(ClockValue(h)) == Some(h * 60)
  {
    var s := ClockValue(h);
    assert s[0] == DigitChar(h / 10) && s[1] == DigitChar(h % 10) && s[2] == ':' && s[3] == '0' && s[4] == '0';
    assert DigitValue(DigitChar(h / 10)) == h / 10;
    assert DigitValue(DigitChar(h % 10)) == h % 10;
  }

  /** The check-in slots are the hours 12 to 18 and the check-out slots the
      hours 8 to 12, each labelled with its 12-hour rendering. */
  lemma SlotsAreHourly()
    ensures |CheckInTimeSlots| == 7 && forall i :: 0 <= i < 7 ==> CheckInTimeSlots[i] == HourSlot(12 + i)
    ensures |CheckOutTimeSlots| == 5 && forall i :: 0 <= i < 5 ==> CheckOutTimeSlots[i] == HourSlot(8 + i)
  {
    forall i | 0 <= i < 7 ensures CheckInTimeSlots[i] == HourSlot(12 + i) {
      AfternoonSlotsSpelled(12 + i);
    }
    forall i | 0 <= i < 5 ensures CheckOutTimeSlots[i] == HourSlot(8 + i) {
      MorningSlotsSpelled(8 + i);
    }
  }

  /** The morning hours' slots, spelled out. */
  lemma MorningSlotsSpelled(h: int)
    requires 8 <= h <= 12
    ensures h == 8 ==> HourSlot(h) == TimeSlot("8:00 AM", "08:00")
    ensures h == 9 ==> HourSlot(h) == TimeSlot("9:00 AM", "09:00")
    ensures h == 10 ==> HourSlot(h) == TimeSlot("10:00 AM", "10:00")
    ensures h == 11 ==> HourSlot(h) == TimeSlot("11:00 AM", "11:00")
    ensures h == 12 ==> HourSlot(h) == TimeSlot("12:00 PM", "12:00")
  {
  }

  /** The afternoon hours' slots, spelled out. */
  lemma AfternoonSlotsSpelled(h: int)
    requires 12 <= h <= 18
    ensures h == 12 ==> HourSlot(h) == TimeSlot("12:00 PM", "12:00")
    ensures h == 13 ==> HourSlot(h) == TimeSlot("1:00 PM", "13:00")
    ensures h == 14 ==> HourSlot(h) == TimeSlot("2:00 PM", "14:00")
    ensures h == 15 ==> HourSlot(h) == TimeSlot("3:00 PM", "15:00")
    ensures h == 16 ==> HourSlot(h) == TimeSlot("4:00 PM", "16:00")
    ensures h == 17 ==> HourSlot(h) == TimeSlot("5:00 PM", "17:00")
    ensures h == 18 ==> HourSlot(h) == TimeSlot("6:00 PM", "18:00")
  {
  }

  /** Slot values, read as times of day, increase by exactly one hour from
      slot to slot: check-in from 12:00 to 18:00, check-out from 08:00 to
      12:00. */
  lemma SlotValuesIncreaseHourly()
    ensures forall i :: 0 <= i < |CheckInTimeSlots| ==> ParseClock(CheckInTimeSlots[i].value) == Some((12 + i) * 60)
    ensures forall i :: 0 <= i < |CheckOutTimeSlots| ==> ParseClock(CheckOutTimeSlots[i].value) == Some((8 + i) * 60)
  {
    SlotsAreHourly();
    forall i | 0 <= i < |CheckInTimeSlots| ensures ParseClock(CheckInTimeSlots[i].value) == Some((12 + i) * 60) {
      ParseClockValue(12 + i);
    }
    forall i | 0 <= i < |CheckOutTimeSlots| ensures ParseClock(CheckOutTimeSlots[i].value) == Some((8 + i) * 60) {
      ParseClockValue(8 + i);
    }
  }

  // ---------------------------------------------------------------- colours

  /** `DEFAULT_COLORS`. */
  const DefaultColors: seq<string> := [
    "#2979ff", "#43a047", "#e53935", "#ff9800", "#9c27b0",
    "#00acc1", "#5e35b1", "#f44336", "#3f51b5", "#4caf50"]

  predicate IsHexDigit(c: char) {
    '0' <= c <= '9' || 'a' <= c <= 'f' || 'A' <= c <= 'F'
  }

  /** `#` followed by six hexadecimal digits. */
  predicate IsHexColor(s: string) {
    |s| == 7 && s[0] == '#' && forall i :: 1 <= i < 7 ==> IsHexDigit(s[i])
  }

  /** Ten colours, each a hex colour, no two the same. */
  lemma DefaultColorsAreDistinctHexColors()
    ensures |DefaultColors| == 10
    ensures forall i :: 0 <= i < 10 ==> IsHexColor(DefaultColors[i])
    ensures forall i, j :: 0 <= i < j < 10 ==> DefaultColors[i] != DefaultColors[j]
  {
  }
}
