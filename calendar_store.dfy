/** The calendar store: the list of calendar events, the current view, the
    selected date and event, the widget configuration, the active filters and
    the `loading`/`error` flags; the `filteredEvents` getter and the actions.
    Event times are integers standing for the ISO-8601 strings, so the date
    comparison of the filter is integer comparison. */
module Calendar {
  import opened Options
  import opened Seqs
  import opened Entities
  import opened CalendarViews

  datatype EventType = Cleaning | Inspection | Maintenance | OtherEvent
  datatype EventStatus = EventScheduled | EventInProgress | EventCompleted | EventCancelled

  datatype EventAssignee = EventAssignee(userId: string, name: string)

  datatype ExtendedProps = ExtendedProps(
    jobId: Option<string>,
    assignedTo: Option<EventAssignee>,
    notes: seq<string>,
    suppliesNeeded: seq<string>,
    specialInstructions: seq<string>,
    checkInTime: Option<string>,
    checkOutTime: Option<string>)

  /** A calendar event apart from its id and timestamps. `userId` and
      `houseId` are not among the declared fields of an event, but the filter
      reads them, so an event may or may not carry them. */
  datatype EventData = EventData(
    propertyId: string,
    userId: Option<string>,
    houseId: Option<string>,
    title: string,
    start: int,
    end: int,
    allDay: bool,
    kind: EventType,
    status: EventStatus,
    color: string,
    extendedProps: ExtendedProps)

  type Event = Record<EventData>

  /** `Partial<CalendarEvent>` without the shared fields. */
  datatype EventUpdates = EventUpdates(
    propertyId: Option<string>,
    userId: Option<string>,
    houseId: Option<string>,
    title: Option<string>,
    start: Option<int>,
    end: Option<int>,
    allDay: Option<bool>,
    kind: Option<EventType>,
    status: Option<EventStatus>,
    color: Option<string>,
    extendedProps: Option<ExtendedProps>)

  type EventPatch = Patch<EventUpdates>

  datatype DateRange = DateRange(start: int, end: int)

  /** The filter criteria. The declared criteria are `propertyId`,
      `assignedTo`, `type`, `status` and `dateRange`; the filter itself reads
      `userId`, `houseId` and `dateRange` only. */
  datatype Filters = Filters(
    propertyId: Option<string>,
    assignedTo: Option<string>,
    kind: Option<string>,
    status: Option<string>,
    dateRange: Option<DateRange>,
    userId: Option<string>,
    houseId: Option<string>)

  /** `{}`: no criterion set. */
  const NoFilters := Filters(None, None, None, None, None, None, None)

  /** JavaScript truthiness of an optional string: present and non-empty. */
  predicate Truthy(s: Option<string>) {
    s.Some? && s.value != ""
  }

  /** `filteredEvents`: a copy of the events, narrowed by user when the user
      criterion is truthy, then by house when the house criterion is truthy,
      then by the inclusive date range when one is given. */
  function FilteredEvents(events: seq<Event>, f: Filters): (r: seq<Event>)
    ensures forall e :: e in r <==> e in events && Matches(f, e)
    ensures |r| <= |events|
  {
    var byUser := if Truthy(f.userId) then Filter(events, (e: Event) => e.data.userId == f.userId) else events;
    var byHouse := if Truthy(f.houseId) then Filter(byUser, (e: Event) => e.data.houseId == f.houseId) else byUser;
    if f.dateRange.Some? then Filter(byHouse, (e: Event) => InRange(f.dateRange.value, e)) else byHouse
  }

  /** The event starts within the range, both ends included. */
  predicate InRange(range: DateRange, e: Event) {
    range.start <= e.data.start <= range.end
  }

  /** The criteria an event must meet to be shown: each set criterion holds. */
  predicate Matches(f: Filters, e: Event) {
    (Truthy(f.userId) ==> e.data.userId == f.userId) &&
    (Truthy(f.houseId) ==> e.data.houseId == f.houseId) &&
    (f.dateRange.Some? ==> InRange(f.dateRange.value, e))
  }

  /** Filtering with a criterion only when it is set is filtering with the
      criterion "set implies holds". */
  lemma FilterWhen(s: seq<Event>, c: bool, p: Event -> bool, q: Event -> bool)
    requires forall e :: q(e) == (c ==> p(e))
    ensures (if c then Filter(s, p) else s) == Filter(s, q)
  {
    if c {
      FilterExtensional(s, p, q);
    } else {
      FilterKeepsAll(s, q);
    }
  }

  /** The three successive filters are one order-preserving filter by
      `Matches`. */
  lemma FilteredEventsIsOnePass(events: seq<Event>, f: Filters)
    ensures FilteredEvents(events, f) == Filter(events, (e: Event) => Matches(f, e))
  {
    var pu := (e: Event) => Truthy(f.userId) ==> e.data.userId == f.userId;
    var ph := (e: Event) => Truthy(f.houseId) ==> e.data.houseId == f.houseId;
    var pd := (e: Event) => f.dateRange.Some? ==> InRange(f.dateRange.value, e);
    var byUser := if Truthy(f.userId) then Filter(events, (e: Event) => e.data.userId == f.userId) else events;
    FilterWhen(events, Truthy(f.userId), (e: Event) => e.data.userId == f.userId, pu);
    var byHouse := if Truthy(f.houseId) then Filter(byUser, (e: Event) => e.data.houseId == f.houseId) else byUser;
    FilterWhen(byUser, Truthy(f.houseId), (e: Event) => e.data.houseId == f.houseId, ph);
    if f.dateRange.Some? {
      FilterExtensional(byHouse, (e: Event) => InRange(f.dateRange.value, e), pd);
    } else {
      FilterKeepsAll(byHouse, pd);
    }
    assert FilteredEvents(events, f) == Filter(byHouse, pd);
    var puh := (e: Event) => pu(e) && ph(e);
    FilterFilter(events, pu, ph, puh);
    FilterFilter(events, puh, pd, (e: Event) => Matches(f, e));
  }

  /** The filtered events keep the order they have in the list. */
  lemma FilteredEventsKeepOrder(events: seq<Event>, f: Filters)
    ensures IsSubsequence(FilteredEvents(events, f), events)
  {
    FilteredEventsIsOnePass(events, f);
    FilterIsSubsequence(events, (e: Event) => Matches(f, e));
  }

  /** Filtering the filtered events again by the same criteria changes
      nothing. */
  lemma FilteredEventsIdempotent(events: seq<Event>, f: Filters)
    ensures FilteredEvents(FilteredEvents(events, f), f) == FilteredEvents(events, f)
  {
    FilteredEventsIsOnePass(events, f);
    FilteredEventsIsOnePass(FilteredEvents(events, f), f);
    FilterIdempotent(events, (e: Event) => Matches(f, e));
  }

  /** With no criterion set, every event is shown; an empty user or house
      criterion counts as absent; the declared but unread criteria have no
      effect. */
  lemma FilterCriteriaThatDoNotNarrow(events: seq<Event>, f: Filters, p: Option<string>,
                                      a: Option<string>, k: Option<string>, s: Option<string>)
    ensures FilteredEvents(events, NoFilters) == events
    ensures f.userId == Some("") ==> FilteredEvents(events, f) == FilteredEvents(events, f.(userId := None))
    ensures f.houseId == Some("") ==> FilteredEvents(events, f) == FilteredEvents(events, f.(houseId := None))
    ensures FilteredEvents(events, f.(propertyId := p, assignedTo := a, kind := k, status := s))
         == FilteredEvents(events, f)
  {
  }

  /** Appending an event shows it at the end of the filtered events exactly
      when it meets the criteria. */
  lemma FilteredEventsAfterAppend(events: seq<Event>, x: Event, f: Filters)
    ensures FilteredEvents(events + [x], f)
         == FilteredEvents(events, f) + (if Matches(f, x) then [x] else [])
  {
    var p := (e: Event) => Matches(f, e);
    FilteredEventsIsOnePass(events + [x], f);
    FilteredEventsIsOnePass(events, f);
    FilterConcat(events, [x], p);
    assert Filter([x], p) == (if p(x) then [x] else []) + Filter([], p);
  }

  /** Deleting an event and then filtering is filtering and then deleting. */
  lemma FilteredEventsAfterRemove(events: seq<Event>, id: string, f: Filters)
    ensures FilteredEvents(RemoveById(events, id), f) == RemoveById(FilteredEvents(events, f), id)
  {
    var p := (e: Event) => Matches(f, e);
    var q := (e: Event) => e.id != id;
    assert RemoveById(events, id) == Filter(events, q);
    assert RemoveById(Filter(events, p), id) == Filter(Filter(events, p), q);
    FilteredEventsIsOnePass(RemoveById(events, id), f);
    FilteredEventsIsOnePass(events, f);
    var both := (e: Event) => p(e) && q(e);
    FilterFilter(events, q, p, both);
    FilterFilter(events, p, q, both);
  }

  // ---------------------------------------------------------------- updates

  /** `{...event, ...updates, updatedAt: now}`. */
  function MergeEvent(event: Event, patch: EventPatch, now: int): Event {
    var u := patch.data;
    var d := event.data;
    Merge(event, patch, EventData(
      u.propertyId.GetOr(d.propertyId),
      u.userId.OrElse(d.userId),
      u.houseId.OrElse(d.houseId),
      u.title.GetOr(d.title),
      u.start.GetOr(d.start),
      u.end.GetOr(d.end),
      u.allDay.GetOr(d.allDay),
      u.kind.GetOr(d.kind),
      u.status.GetOr(d.status),
      u.color.GetOr(d.color),
      u.extendedProps.GetOr(d.extendedProps)), now)
  }

  const NoEventUpdates := EventUpdates(None, None, None, None, None, None, None, None, None, None, None)

  /** An empty update only refreshes `updatedAt`; an update that moves the
      start changes only the start; applying an update twice is applying it
      once. */
  lemma MergeEventProperties(event: Event, patch: EventPatch, start: int, now: int)
    ensures MergeEvent(event, Patch(None, None, None, NoEventUpdates), now) == event.(updatedAt := now)
    ensures MergeEvent(event, Patch(None, None, None, NoEventUpdates.(start := Some(start))), now)
         == event.(updatedAt := now, data := event.data.(start := start))
    ensures MergeEvent(MergeEvent(event, patch, now), patch, now) == MergeEvent(event, patch, now)
  {
  }

  /** The event list after `updateEvent`. */
  function EventsAfterUpdate(events: seq<Event>, id: string, patch: EventPatch, now: int): seq<Event> {
    ApplyFirst(events, id, (e: Event) => MergeEvent(e, patch, now))
  }

  // ---------------------------------------------------------- configuration

  datatype EventDisplay = Block | ListItem | Background | InverseBackground | NoDisplay
  datatype DigitStyle = Numeric | TwoDigit
  datatype TimeFormat = TimeFormat(hour: DigitStyle, minute: DigitStyle, hour12: bool)

  /** Business days (0 is Sunday) and the `HH:mm` opening and closing times. */
  datatype BusinessHours = BusinessHours(daysOfWeek: seq<int>, startTime: string, endTime: string)

  datatype Config = Config(
    initialView: ViewType,
    editable: bool,
    selectable: bool,
    businessHours: BusinessHours,
    eventDisplay: Option<EventDisplay>,
    eventTimeFormat: Option<TimeFormat>)

  /** `Partial<CalendarConfig>`. */
  datatype ConfigPatch = ConfigPatch(
    initialView: Option<ViewType>,
    editable: Option<bool>,
    selectable: Option<bool>,
    businessHours: Option<BusinessHours>,
    eventDisplay: Option<EventDisplay>,
    eventTimeFormat: Option<TimeFormat>)

  /** The initial configuration: the month grid, editable and selectable,
      open Monday to Friday from 09:00 to 17:00. */
  const DefaultConfig := Config(DayGridMonth, true, true, BusinessHours([1, 2, 3, 4, 5], "09:00", "17:00"), None, None)

  /** The default business days are exactly Monday to Friday, and the hours
      run from 09:00 to 17:00. */
  lemma DefaultBusinessHoursWellFormed()
    ensures forall d :: d in DefaultConfig.businessHours.daysOfWeek ==> 1 <= d <= 5
    ensures (set d | d in DefaultConfig.businessHours.daysOfWeek) == {1, 2, 3, 4, 5}
    ensures ParseClock(DefaultConfig.businessHours.startTime) == Some(9 * 60)
    ensures ParseClock(DefaultConfig.businessHours.endTime) == Some(17 * 60)
  {
    assert DefaultConfig.businessHours.startTime == ClockValue(9);
    assert DefaultConfig.businessHours.endTime == ClockValue(17);
    ParseClockValue(9);
    ParseClockValue(17);
  }

  /** `{...config, ...patch}`: a shallow merge, so a supplied `businessHours`
      replaces the whole nested record. */
  function MergeConfig(config: Config, patch: ConfigPatch): Config {
    Config(
      patch.initialView.GetOr(config.initialView),
      patch.editable.GetOr(config.editable),
      patch.selectable.GetOr(config.selectable),
      patch.businessHours.GetOr(config.businessHours),
      patch.eventDisplay.OrElse(config.eventDisplay),
      patch.eventTimeFormat.OrElse(config.eventTimeFormat))
  }

  /** An empty update changes nothing, merging is idempotent, and a later
      update wins over an earlier one key by key. */
  lemma MergeConfigProperties(config: Config, p: ConfigPatch, q: ConfigPatch)
    ensures MergeConfig(config, ConfigPatch(None, None, None, None, None, None)) == config
    ensures MergeConfig(MergeConfig(config, p), p) == MergeConfig(config, p)
    ensures MergeConfig(MergeConfig(config, p), q)
         == MergeConfig(config, ConfigPatch(
              q.initialView.OrElse(p.initialView), q.editable.OrElse(p.editable),
              q.selectable.OrElse(p.selectable), q.businessHours.OrElse(p.businessHours),
              q.eventDisplay.OrElse(p.eventDisplay), q.eventTimeFormat.OrElse(p.eventTimeFormat)))
  {
  }

  // ---------------------------------------------------------------- the store

  class CalendarStore {
    var events: seq<Event>
    var currentView: ViewType
    /** The selected date, as an integer time. */
    var selectedDate: Option<int>
    var selectedEvent: Option<Event>
    var config: Config
    var filters: Filters
    var loading: bool
    var error: Option<string>

    constructor ()
      ensures events == [] && currentView == DayGridMonth && selectedDate == None && selectedEvent == None
      ensures config == DefaultConfig && filters == NoFilters && !loading && error == None
    {
      events := [];
      currentView := DayGridMonth;
      selectedDate := None;
      selectedEvent := None;
      config := DefaultConfig;
      filters := NoFilters;
      loading := false;
      error := None;
    }

    /** The `filteredEvents` getter over the current state. */
    function Filtered(): seq<Event>
      reads this
    {
      FilteredEvents(events, filters)
    }

    /** Everything but the event list, the filters and the two flags. */
    twostate predicate ViewStateUnchanged()
      reads this
    {
      currentView == old(currentView) && selectedDate == old(selectedDate) &&
      selectedEvent == old(selectedEvent) && config == old(config)
    }

    /** The stubbed fetch stores the criteria and empties the list. */
    method FetchEvents(f: Filters := NoFilters)
      modifies this
      ensures filters == f && events == []
      ensures ViewStateUnchanged() && !loading && error == None
    {
      loading := true;
      error := None;
      filters := f;
      events := [];
      loading := false;
    }

    method AddEvent(event: EventData, freshId: string, now: int) returns (newEvent: Event)
      modifies this
      ensures newEvent == Stamp(event, freshId, now)
      ensures events == old(events) + [newEvent] && filters == old(filters)
      ensures ViewStateUnchanged() && !loading && error == None
    {
      loading := true;
      error := None;
      newEvent := Stamp(event, freshId, now);
      events := events + [newEvent];
      loading := false;
    }

    method UpdateEvent(eventId: string, updates: EventPatch, now: int)
      modifies this
      ensures events == EventsAfterUpdate(old(events), eventId, updates, now) && filters == old(filters)
      ensures ViewStateUnchanged() && !loading && error == None
    {
      loading := true;
      error := None;
      var index := IndexOf(events, eventId);
      if index != -1 {
        events := events[index := MergeEvent(events[index], updates, now)];
      }
      loading := false;
    }

    method DeleteEvent(eventId: string)
      modifies this
      ensures events == RemoveById(old(events), eventId) && filters == old(filters)
      ensures ViewStateUnchanged() && !loading && error == None
    {
      loading := true;
      error := None;
      events := RemoveById(events, eventId);
      loading := false;
    }

    method SetCurrentView(view: ViewType)
      modifies this
      ensures currentView == view
      ensures events == old(events) && selectedDate == old(selectedDate) && selectedEvent == old(selectedEvent)
      ensures config == old(config) && filters == old(filters) && loading == old(loading) && error == old(error)
    {
      currentView := view;
    }

    method SetSelectedDate(date: Option<int>)
      modifies this
      ensures selectedDate == date
      ensures events == old(events) && currentView == old(currentView) && selectedEvent == old(selectedEvent)
      ensures config == old(config) && filters == old(filters) && loading == old(loading) && error == old(error)
    {
      selectedDate := date;
    }

    method SetSelectedEvent(event: Option<Event>)
      modifies this
      ensures selectedEvent == event
      ensures events == old(events) && currentView == old(currentView) && selectedDate == old(selectedDate)
      ensures config == old(config) && filters == old(filters) && loading == old(loading) && error == old(error)
    {
      selectedEvent := event;
    }

    method UpdateConfig(patch: ConfigPatch)
      modifies this
      ensures config == MergeConfig(old(config), patch)
      ensures events == old(events) && currentView == old(currentView) && selectedDate == old(selectedDate)
      ensures selectedEvent == old(selectedEvent) && filters == old(filters)
      ensures loading == old(loading) && error == old(error)
    {
      config := MergeConfig(config, patch);
    }
  }
}
