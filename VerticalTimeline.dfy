/** The vertical timeline of subscription-television history: date texts
    such as "1995.8" shown as "August 1995" and turned into numeric sort keys,
    the provider and event-type filters, the lists of distinct values the
    filter menus offer, the legacy merge of provider timelines into one list,
    and the grouping of events by year.

    Dates here are the texts of the data files; numeric dates are not
    modelled. A JavaScript `NaN` is `None`. */
module VerticalTimeline {
  import opened Wrappers
  import opened Text
  import opened Seqs
  import opened Collate
  import opened YearMonth

  // ---------------------------------------------------------------------------
  // Events
  // ---------------------------------------------------------------------------

  /** An event of the curated collection. */
  datatype VerticalEvent = VerticalEvent(
    date: string,
    description: Option<string>,
    event_type: seq<string>,
    providers: seq<string>,
    tags: Option<seq<string>>,
    title: string)

  /** An event ready for display; `sortKey` is `None` where the source
      computes `NaN`, and `title` is `None` where it is `undefined`. */
  datatype FormattedEvent = FormattedEvent(
    date: string,
    description: Option<string>,
    event_type: seq<string>,
    providers: seq<string>,
    sortKey: Option<real>,
    tags: Option<seq<string>>,
    title: Option<string>)

  // ---------------------------------------------------------------------------
  // Dates
  // ---------------------------------------------------------------------------

  /** `Math.round`: halves go up. */
  function Round(x: real): (r: int)
    ensures x - 0.5 < r as real <= x + 0.5
  {
    (x + 0.5).Floor
  }

  /** `Math.max(1, Math.min(12, month))`; `NaN` stays `NaN`. */
  function ClampMonth(month: Option<int>): (r: Option<int>)
    ensures r.Some? <==> month.Some?
    ensures r.Some? ==> 1 <= r.value <= 12
    ensures month.Some? && 1 <= month.value <= 12 ==> r == month
    ensures month.Some? && month.value > 12 ==> r == Some(12)
    ensures month.Some? && month.value < 1 ==> r == Some(1)
  {
    match month
    case None => None
    case Some(m) => Some(if m > 12 then 12 else if m < 1 then 1 else m)
  }

  /** `monthNames[month - 1] || ""`. */
  function MonthLabel(month: Option<int>): (r: string)
    ensures month.Some? && 1 <= month.value <= 12 ==> r == MonthNames[month.value - 1]
    ensures !(month.Some? && 1 <= month.value <= 12) ==> r == ""
  {
    if month.Some? && 1 <= month.value <= 12 then MonthNames[month.value - 1] else ""
  }

  /** The month of a date text: the digits after the point when there are
      any, otherwise the first decimal digit of the fraction. */
  function MonthOf(date: string, decimal: Option<real>): Option<int> {
    var monthStr := MonthPart(date);
    if monthStr != "" then JsParseInt(monthStr)
    else match decimal
      case None => None
      case Some(d) => Some(Round(d * 10.0))
  }

  /** `formatDate` on a text: a whole year is shown alone, otherwise the
      clamped month's name and the year. */
  function FormatDate(date: string): string {
    match JsParseFloat(date)
    case None => MonthLabel(ClampMonth(MonthOf(date, None))) + " " + YearText(None)
    case Some(v) =>
      var year := v.Floor;
      var decimal := v - year as real;
      if decimal == 0.0 then YearText(Some(year))
      else MonthLabel(ClampMonth(MonthOf(date, Some(decimal)))) + " " + YearText(Some(year))
  }

  /** `dateToSortKey` on a text: the year plus the month in hundredths, so
      that "1985.10" (1985.10) sorts after "1985.2" (1985.02). */
  function DateToSortKey(date: string): Option<real> {
    var yearStr := YearPart(date);
    // `parts[0] || "0"`: an empty year part reads as 0 (ZeroParses)
    var year := if yearStr == "" then Some(0) else JsParseInt(yearStr);
    var monthStr := MonthPart(date);
    if monthStr == "" then
      (match year case None => None case Some(y) => Some(y as real))
    else
      match (year, JsParseInt(monthStr))
      case (Some(y), Some(m)) => Some(YearMonthKey(y, m))
      case _ => None
  }

  /** `year + month / 100`. */
  function YearMonthKey(year: int, month: int): real {
    year as real + month as real / 100.0
  }

  /** A whole number plus a proper fraction has the whole number as floor. */
  lemma FloorOfFraction(w: nat, n: nat, d: nat)
    requires n < d
    ensures (w as real + n as real / d as real).Floor == w
    ensures w as real + n as real / d as real - w as real == 0.0 <==> n == 0
  {
    var f := n as real / d as real;
    assert f * d as real == n as real;
    assert 0.0 <= f < 1.0;
  }

  /** The fraction of "year.month" lies in [0, 1), so the year is its floor. */
  lemma DecimalFloor(y: string, m: string)
    requires AllDigits(y) && AllDigits(m)
    ensures DecimalValue(y, m).Floor == DigitsValue(y)
    ensures DecimalValue(y, m) - DecimalValue(y, m).Floor as real == 0.0 <==> DigitsValue(m) == 0
  {
    DigitsBelowPow10(m);
    FloorOfFraction(DigitsValue(y), DigitsValue(m), Pow10(|m|));
  }

  /** `formatDate` of a whole number. */
  lemma FormatDateWhole(date: string, v: real)
    requires JsParseFloat(date) == Some(v) && v - v.Floor as real == 0.0
    ensures FormatDate(date) == IntToString(v.Floor)
  {
  }

  /** `formatDate` of a number with a fraction, given the month it reads. */
  lemma FormatDateMonth(date: string, v: real, month: int)
    requires JsParseFloat(date) == Some(v) && v - v.Floor as real != 0.0
    requires MonthOf(date, Some(v - v.Floor as real)) == Some(month)
    requires 1 <= month <= 12
    ensures FormatDate(date) == MonthNames[month - 1] + " " + IntToString(v.Floor)
  {
    assert FormatDate(date) == MonthLabel(ClampMonth(Some(month))) + " " + YearText(Some(v.Floor));
    NamedMonth(month);
  }

  lemma NamedMonth(month: int)
    requires 1 <= month <= 12
    ensures MonthLabel(ClampMonth(Some(month))) == MonthNames[month - 1]
  {
  }

  /** `formatDate` of a number with a fraction whose month is above 12. */
  lemma FormatDateDecember(date: string, v: real, year: int, month: int)
    requires JsParseFloat(date) == Some(v) && v - v.Floor as real != 0.0
    requires MonthOf(date, Some(v - v.Floor as real)) == Some(month)
    requires month > 12
    requires v.Floor == year
    ensures FormatDate(date) == MonthNames[11] + " " + IntToString(year)
  {
    var decimal := v - v.Floor as real;
    assert FormatDate(date) == MonthLabel(ClampMonth(MonthOf(date, Some(decimal)))) + " " + YearText(Some(year));
    assert MonthLabel(ClampMonth(Some(month))) == MonthNames[11];
  }

  lemma SameText(a: int, b: int)
    requires a == b
    ensures IntToString(a) == IntToString(b)
  {
  }

  /** A bare year is shown as its number. */
  lemma FormatDateOfYear(y: string)
    requires y != [] && AllDigits(y)
    ensures FormatDate(y) == IntToString(DigitsValue(y))
  {
    ParseFloatOfDigits(y);
    FloorOfFraction(DigitsValue(y), 0, 1);
    FormatDateWhole(y, DigitsValue(y) as real);
  }

  /** The month `formatDate` reads from "year.month". */
  lemma MonthOfYearMonth(y: string, m: string, decimal: Option<real>)
    requires AllDigits(y) && m != [] && AllDigits(m)
    ensures MonthOf(y + "." + m, decimal) == Some(DigitsValue(m))
  {
    DigitParts(y, m);
    DigitsParse(m);
  }

  /** "year.month" is shown as the month's name and the year; a month above
      12 is shown as December, and a month of zero leaves the year alone. */
  lemma FormatDateOfYearMonth(y: string, m: string)
    requires y != [] && AllDigits(y) && m != [] && AllDigits(m)
    ensures DigitsValue(m) == 0 ==> FormatDate(y + "." + m) == IntToString(DigitsValue(y))
    ensures 1 <= DigitsValue(m) <= 12 ==>
      FormatDate(y + "." + m) == MonthNames[DigitsValue(m) - 1] + " " + IntToString(DigitsValue(y))
    ensures DigitsValue(m) > 12 ==> FormatDate(y + "." + m) == MonthNames[11] + " " + IntToString(DigitsValue(y))
  {
    var v := DecimalValue(y, m);
    ParseFloatOfDecimal(y, m);
    DecimalFloor(y, m);
    if DigitsValue(m) == 0 {
      FormatDateWhole(y + "." + m, v);
    } else {
      MonthOfYearMonth(y, m, Some(v - v.Floor as real));
      if DigitsValue(m) <= 12 {
        FormatDateMonth(y + "." + m, v, DigitsValue(m));
        SameText(v.Floor, DigitsValue(y));
      } else {
        FormatDateDecember(y + "." + m, v, DigitsValue(y), DigitsValue(m));
      }
    }
  }

  /** A bare year's key is the year. */
  lemma SortKeyOfYear(y: string)
    requires y != [] && AllDigits(y)
    ensures DateToSortKey(y) == Some(DigitsValue(y) as real)
  {
    DigitsHaveNoPoint(y);
    SplitYearOnly(y);
    DigitsParse(y);
  }

  /** `dateToSortKey` once the parts of the text have been read. */
  lemma SortKeyOfParts(date: string, year: Option<int>, month: int)
    requires MonthPart(date) != "" && JsParseInt(MonthPart(date)) == Some(month)
    requires year == if YearPart(date) == "" then Some(0) else JsParseInt(YearPart(date))
    requires year.Some?
    ensures DateToSortKey(date) == Some(YearMonthKey(year.value, month))
  {
  }

  /** The key of "year.month" once both parts have been read. */
  lemma SortKeyOfReadParts(y: string, m: string, year: nat, month: nat)
    requires y != [] && m != []
    requires YearPart(y + "." + m) == y && MonthPart(y + "." + m) == m
    requires JsParseInt(y) == Some(year) && JsParseInt(m) == Some(month)
    ensures DateToSortKey(y + "." + m) == Some(YearMonthKey(year, month))
  {
    SortKeyOfParts(y + "." + m, Some(year), month);
  }

  /** The key of "year.month" is the year plus the month in hundredths. */
  lemma SortKeyOfYearMonth(y: string, m: string)
    requires y != [] && AllDigits(y) && m != [] && AllDigits(m)
    ensures DateToSortKey(y + "." + m) == Some(YearMonthKey(DigitsValue(y), DigitsValue(m)))
  {
    DigitParts(y, m);
    DigitsParse(m);
    DigitsParse(y);
    SortKeyOfReadParts(y, m, DigitsValue(y), DigitsValue(m));
  }

  /** A date with no year before the point counts as year 0. */
  lemma SortKeyOfMonthOnly(m: string)
    requires m != [] && AllDigits(m)
    ensures DateToSortKey("." + m) == Some(YearMonthKey(0, DigitsValue(m)))
  {
    DigitParts("", m);
    assert "" + "." + m == "." + m;
    DigitsParse(m);
    SortKeyOfParts("." + m, Some(0), DigitsValue(m));
  }

  /** `parseInt("0")` is 0. */
  lemma ZeroParses()
    ensures JsParseInt("0") == Some(0)
  {
    DigitsParse("0");
    assert DigitsValue("0") == 0;
  }

  /** Keys of months below 100 order dates by year, then by month. */
  lemma KeyOrder(y1: nat, m1: nat, y2: nat, m2: nat)
    requires m1 < 100 && m2 < 100
    ensures YearMonthKey(y1, m1) < YearMonthKey(y2, m2) <==> y1 < y2 || (y1 == y2 && m1 < m2)
  {
    assert YearMonthKey(y1, m1) == (100 * y1 + m1) as real / 100.0;
    assert YearMonthKey(y2, m2) == (100 * y2 + m2) as real / 100.0;
  }

  /** The floor of a key is its year. */
  lemma KeyYear(y: nat, m: nat)
    requires m < 100
    ensures YearMonthKey(y, m).Floor == y
  {
    FloorOfFraction(y, m, 100);
  }

  /** Sort keys of "year.month" dates (`SortKeyOfYearMonth`) put the dates
      in calendar order when months are below 100. */
  lemma SortKeyChronological(d1: string, d2: string, y1: nat, m1: nat, y2: nat, m2: nat)
    requires DateToSortKey(d1) == Some(YearMonthKey(y1, m1)) && m1 < 100
    requires DateToSortKey(d2) == Some(YearMonthKey(y2, m2)) && m2 < 100
    ensures DateToSortKey(d1).value < DateToSortKey(d2).value <==> y1 < y2 || (y1 == y2 && m1 < m2)
  {
    KeyOrder(y1, m1, y2, m2);
  }

  /** The floor of the key of "year.month" is the year. */
  lemma SortKeyYear(y: string, m: string)
    requires y != [] && AllDigits(y) && m != [] && AllDigits(m) && DigitsValue(m) < 100
    ensures DateToSortKey(y + "." + m).Some? && DateToSortKey(y + "." + m).value.Floor == DigitsValue(y)
  {
    SortKeyOfYearMonth(y, m);
    KeyYear(DigitsValue(y), DigitsValue(m));
  }

  // ---------------------------------------------------------------------------
  // Filtering and sorting the curated events
  // ---------------------------------------------------------------------------

  /** A selection filter: absent or empty keeps everything, otherwise one
      of the values must be selected. */
  predicate Passes(selected: Option<seq<string>>, values: seq<string>) {
    if selected.Some? && |selected.value| > 0 then
      exists i | 0 <= i < |values| :: values[i] in selected.value
    else true
  }

  function Kept(selectedProviderIds: Option<seq<string>>, selectedEventTypes: Option<seq<string>>): VerticalEvent -> bool {
    (e: VerticalEvent) => Passes(selectedProviderIds, e.providers) && Passes(selectedEventTypes, e.event_type)
  }

  function Format(e: VerticalEvent): FormattedEvent {
    FormattedEvent(FormatDate(e.date), e.description, e.event_type, e.providers,
                   DateToSortKey(e.date), e.tags, Some(e.title))
  }

  /** The comparator `a.sortKey - b.sortKey` read as "a first": a `NaN`
      difference counts as equal. */
  predicate AscendingLe(a: FormattedEvent, b: FormattedEvent) {
    if a.sortKey.Some? && b.sortKey.Some? then a.sortKey.value <= b.sortKey.value else true
  }

  predicate HasKey(e: FormattedEvent) { e.sortKey.Some? }

  /** The events kept by both filters, formatted, oldest first. */
  function FormattedEvents(events: seq<VerticalEvent>, selectedProviderIds: Option<seq<string>>,
                           selectedEventTypes: Option<seq<string>>): seq<FormattedEvent> {
    SortBy(MapSeq(Select(events, Kept(selectedProviderIds, selectedEventTypes), true), Format), AscendingLe)
  }

  /** `formatVerticalTimelineEvents`: the push loop, then the sort. */
  method FormatVerticalTimelineEvents(events: seq<VerticalEvent>, selectedProviderIds: Option<seq<string>>,
                                      selectedEventTypes: Option<seq<string>>)
    returns (r: seq<FormattedEvent>)
    ensures r == FormattedEvents(events, selectedProviderIds, selectedEventTypes)
  {
    var formatted: seq<FormattedEvent> := [];
    for i := 0 to |events|
      invariant formatted == MapSeq(Select(events[..i], Kept(selectedProviderIds, selectedEventTypes), true), Format)
    {
      formatted := PushIfSelected(formatted, events, i, selectedProviderIds, selectedEventTypes);
    }
    assert events[..|events|] == events;
    r := SortBy(formatted, AscendingLe);
  }

  /** One pass of the push loop: the event is formatted and pushed unless a
      filter rejects it. */
  method PushIfSelected(formatted: seq<FormattedEvent>, events: seq<VerticalEvent>, i: nat,
                        selectedProviderIds: Option<seq<string>>, selectedEventTypes: Option<seq<string>>)
    returns (out: seq<FormattedEvent>)
    requires i < |events|
    requires formatted == MapSeq(Select(events[..i], Kept(selectedProviderIds, selectedEventTypes), true), Format)
    ensures out == MapSeq(Select(events[..i + 1], Kept(selectedProviderIds, selectedEventTypes), true), Format)
  {
    var kept := Kept(selectedProviderIds, selectedEventTypes);
    var event := events[i];
    assert events[..i + 1] == events[..i] + [event];
    SelectSnoc(events[..i], event, kept, true);
    assert kept(event) == (Passes(selectedProviderIds, event.providers) && Passes(selectedEventTypes, event.event_type));
    out := formatted;
    if selectedProviderIds.Some? && |selectedProviderIds.value| > 0 {
      var hasMatchingProvider := exists j | 0 <= j < |event.providers| :: event.providers[j] in selectedProviderIds.value;
      assert hasMatchingProvider == Passes(selectedProviderIds, event.providers);
      if !hasMatchingProvider {
        return;
      }
    }
    if selectedEventTypes.Some? && |selectedEventTypes.value| > 0 {
      var hasMatchingEventType := exists j | 0 <= j < |event.event_type| :: event.event_type[j] in selectedEventTypes.value;
      assert hasMatchingEventType == Passes(selectedEventTypes, event.event_type);
      if !hasMatchingEventType {
        return;
      }
    }
    MapSeqSnoc(Select(events[..i], kept, true), event, Format);
    out := formatted + [Format(event)];
  }

  /** The ascending comparator is consistent on events that have a key. */
  lemma AscendingConsistent()
    ensures TotalPreorderOn(HasKey, AscendingLe)
  {
  }

  /** The output holds exactly the formatted events that pass both filters. */
  lemma FormattedEventsMembers(events: seq<VerticalEvent>, selectedProviderIds: Option<seq<string>>,
                               selectedEventTypes: Option<seq<string>>)
    ensures forall x :: x in FormattedEvents(events, selectedProviderIds, selectedEventTypes) <==>
      exists i | 0 <= i < |events| :: Kept(selectedProviderIds, selectedEventTypes)(events[i]) && x == Format(events[i])
  {
    SortMapSelectMembers(events, Kept(selectedProviderIds, selectedEventTypes), Format, AscendingLe);
  }

  /** The output is in ascending key order when every date has a key. */
  lemma FormattedEventsSorted(events: seq<VerticalEvent>, selectedProviderIds: Option<seq<string>>,
                              selectedEventTypes: Option<seq<string>>)
    requires forall i | 0 <= i < |events| :: DateToSortKey(events[i].date).Some?
    ensures var r := FormattedEvents(events, selectedProviderIds, selectedEventTypes);
      (forall i | 0 <= i < |r| :: r[i].sortKey.Some?) &&
      forall i, j | 0 <= i < j < |r| :: r[i].sortKey.value <= r[j].sortKey.value
  {
    var kept := Kept(selectedProviderIds, selectedEventTypes);
    var selected := Select(events, kept, true);
    var formatted := MapSeq(selected, Format);
    var r := SortBy(formatted, AscendingLe);
    SelectMembers(events, kept, true);
    forall k | 0 <= k < |formatted| ensures HasKey(formatted[k]) {
      assert selected[k] in selected;
    }
    AscendingConsistent();
    SortBySortedOn(formatted, HasKey, AscendingLe);
    forall i | 0 <= i < |r| ensures r[i].sortKey.Some? {
      assert r[i] in multiset(formatted);
    }
  }

  /** Absent or empty selections keep every event. */
  lemma NoSelectionKeepsAll(events: seq<VerticalEvent>, selectedProviderIds: Option<seq<string>>,
                            selectedEventTypes: Option<seq<string>>)
    requires selectedProviderIds.None? || selectedProviderIds.value == []
    requires selectedEventTypes.None? || selectedEventTypes.value == []
    ensures FormattedEvents(events, selectedProviderIds, selectedEventTypes) == SortBy(MapSeq(events, Format), AscendingLe)
  {
    SelectEvery(events, Kept(selectedProviderIds, selectedEventTypes), true);
  }

  /** A non-empty provider selection keeps an event iff one of its
      providers is selected; the event-type selection works the same way. */
  lemma SelectionMeans(e: VerticalEvent, selectedProviderIds: seq<string>, selectedEventTypes: Option<seq<string>>)
    requires selectedProviderIds != []
    requires selectedEventTypes.None? || selectedEventTypes.value == []
    ensures Kept(Some(selectedProviderIds), selectedEventTypes)(e) <==> exists p :: p in e.providers && p in selectedProviderIds
  {
    if exists p :: p in e.providers && p in selectedProviderIds {
      var p :| p in e.providers && p in selectedProviderIds;
      var j :| 0 <= j < |e.providers| && e.providers[j] == p;
    }
  }

  // ---------------------------------------------------------------------------
  // Values offered by the filter menus
  // ---------------------------------------------------------------------------

  function EventTypes(e: VerticalEvent): seq<string> { e.event_type }

  function ProviderIds(e: VerticalEvent): seq<string> { e.providers }

  /** The nested loop filling a `Set`: every value of `field` over the
      events, once each, in first-seen order. */
  method CollectValues(events: seq<VerticalEvent>, field: VerticalEvent -> seq<string>) returns (seen: seq<string>)
    ensures seen == Distinct(ConcatMap(events, field))
  {
    seen := [];
    for i := 0 to |events|
      invariant seen == Distinct(ConcatMap(events[..i], field))
    {
      var values := field(events[i]);
      assert ConcatMap(events[..i], field) + values[..0] == ConcatMap(events[..i], field);
      for j := 0 to |values|
        invariant seen == Distinct(ConcatMap(events[..i], field) + values[..j])
      {
        ConcatMapStep(events, field, i, j);
        var before := ConcatMap(events[..i], field) + values[..j];
        assert (before + [values[j]])[..|before|] == before;
        if values[j] !in seen {
          seen := seen + [values[j]];
        }
      }
      ConcatMapNext(events, field, i);
    }
    assert events[..|events|] == events;
  }

  /** `Array.from(set).sort()`: the values, sorted by code points, each once,
      exactly those some event lists. */
  method SortedValues(events: seq<VerticalEvent>, field: VerticalEvent -> seq<string>) returns (r: seq<string>)
    ensures SortedBy(r, LexLe) && NoDuplicates(r)
    ensures forall x :: x in r <==> exists i | 0 <= i < |events| :: x in field(events[i])
  {
    var seen := CollectValues(events, field);
    r := SortBy(seen, LexLe);
    TextOrder();
    DistinctMembers(ConcatMap(events, field));
    ConcatMapMembers(events, field);
    SortDistinct(seen, LexLe);
  }

  /** `getEventTypesFromEvents`. */
  method GetEventTypesFromEvents(events: seq<VerticalEvent>) returns (r: seq<string>)
    ensures SortedBy(r, LexLe) && NoDuplicates(r)
    ensures forall x :: x in r <==> exists i | 0 <= i < |events| :: x in events[i].event_type
  {
    r := SortedValues(events, EventTypes);
  }

  /** `getProvidersFromEvents`. */
  method GetProvidersFromEvents(events: seq<VerticalEvent>) returns (r: seq<string>)
    ensures SortedBy(r, LexLe) && NoDuplicates(r)
    ensures forall x :: x in r <==> exists i | 0 <= i < |events| :: x in events[i].providers
  {
    r := SortedValues(events, ProviderIds);
  }

  // ---------------------------------------------------------------------------
  // Legacy merge of provider timelines
  // ---------------------------------------------------------------------------

  /** An event of a provider's own timeline; `kind` is its `type` and
      `caption` its `label`. */
  datatype ProviderEvent = ProviderEvent(when: string, kind: string, caption: Option<string>, note: Option<string>)

  /** A timeline provider; `events` is its `data.events`. */
  datatype TimelineProvider = TimelineProvider(category: string, events: seq<ProviderEvent>)

  /** A provider event as the merge loop sees it: with the id of its
      provider and the `sortKey` and `dateStr` computed for it. */
  datatype Item = Item(providerId: string, event: ProviderEvent, sortKey: Option<real>, dateStr: string)

  /** The map key `${sortKey}-${event.label}`, kept as its two parts. */
  type EventKey = (Option<real>, string)

  /** A label interpolated into a template: a missing one reads "undefined". */
  function LabelText(caption: Option<string>): string {
    if caption.Some? then caption.value else "undefined"
  }

  function Visit(providerId: string): ProviderEvent -> Item {
    (event: ProviderEvent) => Item(providerId, event, DateToSortKey(event.when), FormatDate(event.when))
  }

  /** A provider's events, in order, as the loop visits them. */
  function Visited(entry: (string, TimelineProvider)): seq<Item> {
    MapSeq(entry.1.events, Visit(entry.0))
  }

  function ItemKey(item: Item): EventKey {
    (item.sortKey, LabelText(item.event.caption))
  }

  /** The key a merged event was filed under, read back from the event. */
  function EntryKey(e: FormattedEvent): EventKey {
    (e.sortKey, LabelText(e.title))
  }

  /** The event created the first time a key is seen. */
  function NewEvent(item: Item): FormattedEvent {
    FormattedEvent(item.dateStr, item.event.note, [item.event.kind], [item.providerId], item.sortKey, None, item.event.caption)
  }

  /** One step of the merge: a known key gains the provider unless it is
      already listed; an unknown key gets a new event. */
  function MergeItem(m: seq<(EventKey, FormattedEvent)>, item: Item): seq<(EventKey, FormattedEvent)> {
    var k := ItemKey(item);
    match Lookup(m, k)
    case Some(existing) =>
      if item.providerId in existing.providers then m
      else Upsert(m, k, existing.(providers := existing.providers + [item.providerId]))
    case None => Upsert(m, k, NewEvent(item))
  }

  function MergeAll(items: seq<Item>): seq<(EventKey, FormattedEvent)> {
    if items == [] then [] else MergeItem(MergeAll(items[..|items| - 1]), items[|items| - 1])
  }

  function IdIn(ids: seq<string>): ((string, TimelineProvider)) -> bool {
    (entry: (string, TimelineProvider)) => entry.0 in ids
  }

  /** A selection, when given at all, keeps the listed ids; an empty one is
      still a selection (an empty array is truthy) and keeps nothing. */
  function SelectedProviders(providers: seq<(string, TimelineProvider)>, selectedProviderIds: Option<seq<string>>)
    : seq<(string, TimelineProvider)>
  {
    match selectedProviderIds
    case None => providers
    case Some(ids) => Select(providers, IdIn(ids), true)
  }

  /** The events of the selected providers, provider by provider. */
  function Items(providers: seq<(string, TimelineProvider)>, selectedProviderIds: Option<seq<string>>): seq<Item> {
    ConcatMap(SelectedProviders(providers, selectedProviderIds), Visited)
  }

  /** The comparator `b.sortKey - a.sortKey`: newest first. */
  predicate DescendingLe(a: FormattedEvent, b: FormattedEvent) {
    if a.sortKey.Some? && b.sortKey.Some? then b.sortKey.value <= a.sortKey.value else true
  }

  function ExtractedEvents(providers: seq<(string, TimelineProvider)>, selectedProviderIds: Option<seq<string>>)
    : seq<FormattedEvent>
  {
    SortBy(Values(MergeAll(Items(providers, selectedProviderIds))), DescendingLe)
  }

  lemma MergeAllSnoc(items: seq<Item>, x: Item)
    ensures MergeAll(items + [x]) == MergeItem(MergeAll(items), x)
  {
    assert (items + [x])[..|items|] == items;
  }

  /** The body of the inner loop of `extractTimelineEvents`: event `j` of
      the provider merged into the map. */
  method MergeEvent(eventMap: seq<(EventKey, FormattedEvent)>, providerId: string, provider: TimelineProvider, j: nat)
    returns (merged: seq<(EventKey, FormattedEvent)>)
    requires j < |provider.events|
    ensures merged == MergeItem(eventMap, Visited((providerId, provider))[j])
  {
    var event := provider.events[j];
    var sortKey := DateToSortKey(event.when);
    var dateStr := FormatDate(event.when);
    assert Visited((providerId, provider))[j] == Item(providerId, event, sortKey, dateStr);
    var eventKey := (sortKey, LabelText(event.caption));
    var existing := Lookup(eventMap, eventKey);
    merged := eventMap;
    if existing.Some? {
      if providerId !in existing.value.providers {
        merged := Upsert(eventMap, eventKey, existing.value.(providers := existing.value.providers + [providerId]));
      }
    } else {
      merged := Upsert(eventMap, eventKey,
        FormattedEvent(dateStr, event.note, [event.kind], [providerId], sortKey, None, event.caption));
    }
  }

  /** The inner loop of `extractTimelineEvents`: one provider's events
      merged, in order, into the map built from the items `done` before it. */
  method MergeProvider(eventMap: seq<(EventKey, FormattedEvent)>, ghost done: seq<Item>,
                       providerId: string, provider: TimelineProvider)
    returns (merged: seq<(EventKey, FormattedEvent)>)
    requires eventMap == MergeAll(done)
    ensures merged == MergeAll(done + Visited((providerId, provider)))
  {
    merged := eventMap;
    ghost var visited := Visited((providerId, provider));
    assert done + visited[..0] == done;
    for j := 0 to |provider.events|
      invariant merged == MergeAll(done + visited[..j])
    {
      TakeSnoc(visited, j);
      ConcatAssoc(done, visited[..j], [visited[j]]);
      MergeAllSnoc(done + visited[..j], visited[j]);
      merged := MergeEvent(merged, providerId, provider, j);
    }
    assert visited[..|provider.events|] == visited;
  }

  /** `extractTimelineEvents`: the nested merge loop, then the sort. */
  method ExtractTimelineEvents(providers: seq<(string, TimelineProvider)>, selectedProviderIds: Option<seq<string>>)
    returns (r: seq<FormattedEvent>)
    ensures r == ExtractedEvents(providers, selectedProviderIds)
  {
    var eventMap: seq<(EventKey, FormattedEvent)> := [];
    var providerList := SelectedProviders(providers, selectedProviderIds);
    for i := 0 to |providerList|
      invariant eventMap == MergeAll(ConcatMap(providerList[..i], Visited))
    {
      var (providerId, provider) := providerList[i];
      eventMap := MergeProvider(eventMap, ConcatMap(providerList[..i], Visited), providerId, provider);
      ConcatMapNext(providerList, Visited, i);
      assert Visited(providerList[i])[..|Visited(providerList[i])|] == Visited(providerList[i]);
    }
    assert providerList[..|providerList|] == providerList;
    r := SortBy(Values(eventMap), DescendingLe);
  }

  /** Some item has key `k`. */
  ghost predicate HasItem(items: seq<Item>, k: EventKey) {
    exists i | 0 <= i < |items| :: ItemKey(items[i]) == k
  }

  /** Provider `id` has an item with key `k`. */
  ghost predicate FromProvider(items: seq<Item>, k: EventKey, id: string) {
    exists i | 0 <= i < |items| :: ItemKey(items[i]) == k && items[i].providerId == id
  }

  /** What the merge map holds after `items`: one entry per key that occurs,
      filed under the key the event itself carries, listing each provider
      that has an item with that key, once. */
  ghost predicate Merged(m: seq<(EventKey, FormattedEvent)>, items: seq<Item>) {
    && NoDuplicates(Keys(m))
    && (forall k :: k in Keys(m) <==> HasItem(items, k))
    && forall k | Lookup(m, k).Some? ::
         && EntryKey(Lookup(m, k).value) == k
         && NoDuplicates(Lookup(m, k).value.providers)
         && forall id :: id in Lookup(m, k).value.providers <==> FromProvider(items, k, id)
  }

  lemma ItemsSnoc(items: seq<Item>, x: Item)
    ensures forall k :: HasItem(items + [x], k) <==> HasItem(items, k) || ItemKey(x) == k
    ensures forall k, id :: FromProvider(items + [x], k, id) <==> FromProvider(items, k, id) || (ItemKey(x) == k && x.providerId == id)
  {
    var s := items + [x];
    assert forall i | 0 <= i < |items| :: s[i] == items[i];
    assert s[|items|] == x;
  }

  /** Merging an item whose key is known and whose provider is listed. */
  lemma MergeListed(m: seq<(EventKey, FormattedEvent)>, items: seq<Item>, x: Item)
    requires Merged(m, items)
    requires Lookup(m, ItemKey(x)).Some? && x.providerId in Lookup(m, ItemKey(x)).value.providers
    ensures Merged(m, items + [x])
  {
    ItemsSnoc(items, x);
    LookupKeys(m, ItemKey(x));
  }

  /** Merging an item whose key is known and whose provider is new to it. */
  lemma MergeUnlisted(m: seq<(EventKey, FormattedEvent)>, items: seq<Item>, x: Item)
    requires Merged(m, items)
    requires Lookup(m, ItemKey(x)).Some? && x.providerId !in Lookup(m, ItemKey(x)).value.providers
    ensures var e := Lookup(m, ItemKey(x)).value;
      Merged(Upsert(m, ItemKey(x), e.(providers := e.providers + [x.providerId])), items + [x])
  {
    var k0 := ItemKey(x);
    var e := Lookup(m, k0).value;
    var m' := Upsert(m, k0, e.(providers := e.providers + [x.providerId]));
    ItemsSnoc(items, x);
    LookupKeys(m, k0);
    forall k | k != k0 ensures Lookup(m', k) == Lookup(m, k) {
      UpsertOther(m, k0, e.(providers := e.providers + [x.providerId]), k);
    }
  }

  /** Merging an item with a key not seen before. */
  lemma MergeNew(m: seq<(EventKey, FormattedEvent)>, items: seq<Item>, x: Item)
    requires Merged(m, items)
    requires Lookup(m, ItemKey(x)).None?
    ensures Merged(Upsert(m, ItemKey(x), NewEvent(x)), items + [x])
  {
    var k0 := ItemKey(x);
    var m' := Upsert(m, k0, NewEvent(x));
    ItemsSnoc(items, x);
    LookupKeys(m, k0);
    assert !HasItem(items, k0);
    forall k | k != k0 ensures Lookup(m', k) == Lookup(m, k) {
      UpsertOther(m, k0, NewEvent(x), k);
    }
  }

  lemma MergeStep(m: seq<(EventKey, FormattedEvent)>, items: seq<Item>, x: Item)
    requires Merged(m, items)
    ensures Merged(MergeItem(m, x), items + [x])
  {
    match Lookup(m, ItemKey(x))
    case Some(e) =>
      if x.providerId in e.providers { MergeListed(m, items, x); } else { MergeUnlisted(m, items, x); }
    case None => MergeNew(m, items, x);
  }

  lemma {:induction false} MergeAllMerged(items: seq<Item>)
    ensures Merged(MergeAll(items), items)
  {
    if items != [] {
      var init, x := items[..|items| - 1], items[|items| - 1];
      assert init + [x] == items;
      assert MergeAll(items) == MergeItem(MergeAll(init), x);
      assert Merged(MergeItem(MergeAll(init), x), init + [x]) by {
        MergeAllMerged(init);
        MergeStep(MergeAll(init), init, x);
      }
    }
  }

  /** Reading the merge map back: its values are distinct, each is what its
      own key finds, and the keys are exactly the keys of the values. */
  lemma ValuesMerged(m: seq<(EventKey, FormattedEvent)>, items: seq<Item>)
    requires Merged(m, items)
    ensures NoDuplicates(Values(m))
    ensures forall x | x in Values(m) :: Lookup(m, EntryKey(x)) == Some(x)
    ensures forall k :: k in Keys(m) <==> exists x | x in Values(m) :: EntryKey(x) == k
  {
    forall j | 0 <= j < |m| ensures Lookup(m, m[j].0) == Some(m[j].1) && EntryKey(m[j].1) == m[j].0 {
      LookupAt(m, j);
    }
    forall i, j | 0 <= i < j < |m| ensures Values(m)[i] != Values(m)[j] {
      assert Keys(m)[i] != Keys(m)[j];
    }
    forall k | k in Keys(m) ensures exists x | x in Values(m) :: EntryKey(x) == k {
      var j :| 0 <= j < |m| && Keys(m)[j] == k;
      assert Values(m)[j] in Values(m);
    }
    forall x | x in Values(m) ensures EntryKey(x) in Keys(m) {
      var j :| 0 <= j < |m| && Values(m)[j] == x;
      assert Keys(m)[j] == EntryKey(x);
    }
  }

  /** `extractTimelineEvents` lists one event per distinct (sort key, label)
      pair among the selected providers' events, each event once; an event
      lists, once each, exactly the providers that have an event with its
      key. */
  lemma ExtractedEventsMerged(providers: seq<(string, TimelineProvider)>, selectedProviderIds: Option<seq<string>>)
    ensures var items := Items(providers, selectedProviderIds);
      var r := ExtractedEvents(providers, selectedProviderIds);
      && NoDuplicates(r)
      && (forall k :: HasItem(items, k) <==> exists x | x in r :: EntryKey(x) == k)
      && (forall x | x in r :: NoDuplicates(x.providers) && forall id :: id in x.providers <==> FromProvider(items, EntryKey(x), id))
      && (forall x, y | x in r && y in r && EntryKey(x) == EntryKey(y) :: x == y)
  {
    var items := Items(providers, selectedProviderIds);
    var m := MergeAll(items);
    var r := SortBy(Values(m), DescendingLe);
    MergeAllMerged(items);
    ValuesMerged(m, items);
    DistinctPermutation(Values(m), r);
    assert forall x :: x in r <==> x in multiset(r);
    assert forall x :: x in Values(m) <==> x in multiset(Values(m));
  }

  lemma VisitedMembers(p: (string, TimelineProvider))
    ensures forall item :: item in Visited(p) <==> item.event in p.1.events && item == Visit(p.0)(item.event)
  {
    forall item: Item | item.event in p.1.events && item == Visit(p.0)(item.event) ensures item in Visited(p) {
      var j :| 0 <= j < |p.1.events| && p.1.events[j] == item.event;
      assert Visited(p)[j] == item;
    }
  }

  /** The items are the selected providers' events, each visited for its
      provider. */
  lemma ItemsMembers(providers: seq<(string, TimelineProvider)>, selectedProviderIds: Option<seq<string>>)
    ensures forall item :: item in Items(providers, selectedProviderIds) <==>
      exists p | p in providers && (selectedProviderIds.None? || p.0 in selectedProviderIds.value) ::
        item.event in p.1.events && item == Visit(p.0)(item.event)
  {
    var selected := SelectedProviders(providers, selectedProviderIds);
    assert Items(providers, selectedProviderIds) == ConcatMap(selected, Visited);
    ConcatMapMembers(selected, Visited);
    if selectedProviderIds.Some? {
      SelectMembers(providers, IdIn(selectedProviderIds.value), true);
    }
    assert forall p :: p in selected <==> p in providers && (selectedProviderIds.None? || p.0 in selectedProviderIds.value);
    forall item: Item ensures item in ConcatMap(selected, Visited) <==>
      exists p | p in selected :: item.event in p.1.events && item == Visit(p.0)(item.event)
    {
      if item in ConcatMap(selected, Visited) {
        var i :| 0 <= i < |selected| && item in Visited(selected[i]);
        VisitedMembers(selected[i]);
        assert selected[i] in selected;
      }
      if exists p | p in selected :: item.event in p.1.events && item == Visit(p.0)(item.event) {
        var p :| p in selected && item.event in p.1.events && item == Visit(p.0)(item.event);
        var i :| 0 <= i < |selected| && selected[i] == p;
        VisitedMembers(p);
      }
    }
  }

  /** An empty selection (truthy in JavaScript) picks no provider. */
  lemma EmptySelectionExtractsNothing(providers: seq<(string, TimelineProvider)>)
    ensures ExtractedEvents(providers, Some([])) == []
  {
    SelectEmpty(providers, IdIn([]));
  }

  predicate HasSortKey(e: FormattedEvent) { e.sortKey.Some? }

  /** Every item has a key when every provider event's date has one. */
  lemma ItemsDated(providers: seq<(string, TimelineProvider)>, selectedProviderIds: Option<seq<string>>)
    requires forall p, ev | p in providers && ev in p.1.events :: DateToSortKey(ev.when).Some?
    ensures var items := Items(providers, selectedProviderIds);
      forall i | 0 <= i < |items| :: items[i].sortKey.Some?
  {
    var items := Items(providers, selectedProviderIds);
    ItemsMembers(providers, selectedProviderIds);
    forall i | 0 <= i < |items| ensures items[i].sortKey.Some? {
      assert items[i] in items;
    }
  }

  /** The merged list is newest first when every date has a key. */
  lemma ExtractedEventsSorted(providers: seq<(string, TimelineProvider)>, selectedProviderIds: Option<seq<string>>)
    requires forall p, ev | p in providers && ev in p.1.events :: DateToSortKey(ev.when).Some?
    ensures var r := ExtractedEvents(providers, selectedProviderIds);
      (forall i | 0 <= i < |r| :: r[i].sortKey.Some?) &&
      forall i, j | 0 <= i < j < |r| :: r[j].sortKey.value <= r[i].sortKey.value
  {
    var items := Items(providers, selectedProviderIds);
    var m := MergeAll(items);
    var r := SortBy(Values(m), DescendingLe);
    ItemsDated(providers, selectedProviderIds);
    MergeAllMerged(items);
    ValuesMerged(m, items);
    forall k | 0 <= k < |Values(m)| ensures HasSortKey(Values(m)[k]) {
      var x := Values(m)[k];
      assert x in Values(m);
      assert EntryKey(x) in Keys(m);
    }
    assert TotalPreorderOn(HasSortKey, DescendingLe);
    SortBySortedOn(Values(m), HasSortKey, DescendingLe);
    forall i | 0 <= i < |r| ensures r[i].sortKey.Some? {
      assert r[i] in multiset(Values(m));
    }
  }

  // ---------------------------------------------------------------------------
  // Subscription providers and grouping by year
  // ---------------------------------------------------------------------------

  predicate IsSubscription(entry: (string, TimelineProvider)) {
    entry.1.category == "Subscription"
  }

  /** `getSubscriptionProviders`: the providers whose category is
      "Subscription", in their original order. */
  method GetSubscriptionProviders(providers: seq<(string, TimelineProvider)>)
    returns (filtered: seq<(string, TimelineProvider)>)
    ensures filtered == Select(providers, IsSubscription, true)
    ensures forall e :: e in filtered <==> e in providers && e.1.category == "Subscription"
  {
    filtered := [];
    for i := 0 to |providers|
      invariant filtered == Select(providers[..i], IsSubscription, true)
    {
      SelectSnoc(providers[..i], providers[i], IsSubscription, true);
      assert providers[..i + 1] == providers[..i] + [providers[i]];
      if providers[i].1.category == "Subscription" {
        filtered := filtered + [providers[i]];
      }
    }
    assert providers[..|providers|] == providers;
    SelectMembers(providers, IsSubscription, true);
  }

  /** `Math.floor(event.sortKey)`, `None` for `NaN`. */
  function YearOf(e: FormattedEvent): Option<int> {
    if e.sortKey.Some? then Some(e.sortKey.value.Floor) else None
  }

  /** `groupEventsByYear`: one group per year that occurs, holding that
      year's events in their original order. */
  method GroupEventsByYear(events: seq<FormattedEvent>) returns (grouped: map<Option<int>, seq<FormattedEvent>>)
    ensures grouped == GroupBy(events, YearOf)
    ensures grouped.Keys == KeySet(events, YearOf)
    ensures forall y | y in grouped :: grouped[y] == Select(events, KeyIs(YearOf, y), true)
  {
    grouped := map[];
    for i := 0 to |events|
      invariant grouped == GroupBy(events[..i], YearOf)
    {
      var year := YearOf(events[i]);
      if year !in grouped {
        grouped := grouped[year := []];
      }
      grouped := grouped[year := grouped[year] + [events[i]]];
      assert events[..i + 1][..i] == events[..i];
    }
    assert events[..|events|] == events;
    GroupByGroups(events, YearOf);
  }
}
