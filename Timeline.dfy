/** The horizontal channel timeline: "year.month" positions ("2010.10" is
    October 2010) turned into decimal years and display labels, the layout
    of one span on the axis, the structural check of a timeline document,
    and the conversion of channel histories grouped by channel number into
    the rows the timeline draws.

    A JavaScript number is carried as the text its `toString()` gives (the
    text `formatYearMonth` and `String.split` see, which `parseFloat` reads
    back as the number); exponent forms are not modelled. `NaN` is `None`. */
module Timeline {
  import opened Wrappers
  import opened Text
  import opened Seqs
  import opened YearMonth

  /** The narrowest a span is ever drawn, in pixels. */
  const MinSpanWidth: real := 40.0

  /** A `number | string` position on the axis. */
  datatype YearNumber = Num(shown: string) | Str(text: string)

  /** The text `toString()` gives for the value. */
  function Shown(v: YearNumber): string {
    match v
    case Num(t) => t
    case Str(t) => t
  }

  /** The value is present and truthy: not `undefined`, not `0`, not `NaN`
      and not the empty text. */
  predicate Given(v: Option<YearNumber>) {
    match v
    case None => false
    case Some(Num(t)) => JsParseFloat(t).Some? && JsParseFloat(t).value != 0.0
    case Some(Str(t)) => t != ""
  }

  // ---------------------------------------------------------------------------
  // Numbers
  // ---------------------------------------------------------------------------

  function Max(a: real, b: real): (r: real)
    ensures r >= a && r >= b && (r == a || r == b)
  {
    if a >= b then a else b
  }

  function Min(a: real, b: real): (r: real)
    ensures r <= a && r <= b && (r == a || r == b)
  {
    if a <= b then a else b
  }

  /** `clamp`: `n` pulled into `[lo, hi]`. With `lo > hi` the lower bound
      wins, as `Math.max(lo, Math.min(hi, n))` gives. */
  function Clamp(n: real, lo: real, hi: real): (r: real)
    ensures lo <= hi ==> lo <= r <= hi
    ensures lo <= n <= hi ==> r == n
    ensures n < lo ==> r == lo
    ensures lo <= hi < n ==> r == hi
    ensures hi < lo ==> r == lo
  {
    Max(lo, Min(hi, n))
  }

  /** A month of a year as a decimal year: `year + month / 12`, so that
      December 2002 is 2003. */
  function MonthDecimal(year: int, month: int): real {
    year as real + month as real / 12.0
  }

  /** With months 1..12 a month lies in (year, year + 1]. */
  lemma MonthDecimalWithinYear(year: int, month: int)
    requires 1 <= month <= 12
    ensures year as real < MonthDecimal(year, month) <= year as real + 1.0
  {
  }

  /** With months 1..12 the decimal years are in calendar order: one month
      comes strictly before another exactly when its decimal is smaller. */
  lemma MonthDecimalOrder(y1: int, m1: int, y2: int, m2: int)
    requires 1 <= m1 <= 12 && 1 <= m2 <= 12
    ensures (y1 < y2 || (y1 == y2 && m1 < m2)) <==> MonthDecimal(y1, m1) < MonthDecimal(y2, m2)
  {
    MonthDecimalWithinYear(y1, m1);
    MonthDecimalWithinYear(y2, m2);
    if y1 < y2 {
      assert y1 as real + 1.0 <= y2 as real;
    } else if y2 < y1 {
      assert y2 as real + 1.0 <= y1 as real;
    }
  }

  /** `parts[1] ? parseInt(parts[1], 10) : 0`. */
  function MonthNumber(s: string): Option<int> {
    var monthText := MonthPart(s);
    if monthText != "" then JsParseInt(monthText) else Some(0)
  }

  /** `yearMonthToDecimal`. A text: its year part plus its month part in
      twelfths. A number: itself when whole, otherwise its floor plus the
      digits after its point read as a month. */
  function YearMonthToDecimal(v: YearNumber): (r: Option<real>)
    ensures v.Num? && '.' !in v.shown ==> r == JsParseFloat(v.shown)
  {
    match v
    case Str(s) =>
      (match (JsParseInt(YearPart(s)), MonthNumber(s))
       case (Some(y), Some(m)) => Some(MonthDecimal(y, m))
       case _ => None)
    case Num(t) =>
      match JsParseFloat(t)
      case None => None
      case Some(x) =>
        if '.' !in t then Some(x)
        else
          match MonthNumber(t)
          case None => None
          case Some(m) => Some(MonthDecimal(x.Floor, m))
  }

  /** `yearMonthToDecimal` of a text once its parts have been read. */
  lemma DecimalOfParts(s: string, year: int, month: int)
    requires JsParseInt(YearPart(s)) == Some(year) && MonthNumber(s) == Some(month)
    ensures YearMonthToDecimal(Str(s)) == Some(MonthDecimal(year, month))
  {
  }

  /** A month part of digits reads as its value. */
  lemma MonthNumberOfDigits(s: string, m: string)
    requires MonthPart(s) == m && m != [] && AllDigits(m)
    ensures MonthNumber(s) == Some(DigitsValue(m))
  {
    DigitsParse(m);
  }

  /** "2002.4" is 2002 + 4/12 and "2010.10" is 2010 + 10/12. */
  lemma DecimalOfYearMonth(y: string, m: string)
    requires y != [] && AllDigits(y) && m != [] && AllDigits(m)
    ensures YearMonthToDecimal(Str(y + "." + m)) == Some(MonthDecimal(DigitsValue(y), DigitsValue(m)))
  {
    DigitParts(y, m);
    DigitsParse(y);
    MonthNumberOfDigits(y + "." + m, m);
    DecimalOfParts(y + "." + m, DigitsValue(y), DigitsValue(m));
  }

  /** A text without a month is the whole year. */
  lemma DecimalOfYear(y: string)
    requires y != [] && AllDigits(y)
    ensures YearMonthToDecimal(Str(y)) == Some(DigitsValue(y) as real)
  {
    DigitsHaveNoPoint(y);
    SplitYearOnly(y);
    DigitsParse(y);
    DecimalOfParts(y, DigitsValue(y), 0);
  }

  // ---------------------------------------------------------------------------
  // Labels
  // ---------------------------------------------------------------------------

  /** `formatYearMonth` on the `toString()` text of its argument: a text
      without a point is shown as it is; a month 1..12 as "<Month> <year>";
      any other month as the value with two decimals; a month part that
      does not read as a number indexes past the names and shows as
      "undefined <year>". */
  function FormatYearMonth(shown: string): (r: string)
    ensures '.' !in shown ==> r == shown
  {
    if '.' !in shown then shown
    else MonthYearLabel(shown, JsParseInt(YearPart(shown)), MonthNumber(shown))
  }

  /** The label of a text with a point, from the year and month it reads. */
  function MonthYearLabel(shown: string, year: Option<int>, month: Option<int>): string {
    match month
    case None => "undefined " + YearText(year)
    case Some(m) =>
      if m < 1 || m > 12 then
        (match JsParseFloat(shown)
         case None => "NaN"
         case Some(x) => ToFixed2(x))
      else MonthNames[m - 1] + " " + YearText(year)
  }

  /** A "year.month" text whose month is 1..12 is named after the month. */
  lemma FormatNamedParts(s: string, year: int, month: int)
    requires '.' in s && JsParseInt(YearPart(s)) == Some(year) && MonthNumber(s) == Some(month)
    requires 1 <= month <= 12
    ensures FormatYearMonth(s) == MonthNames[month - 1] + " " + IntToString(year)
  {
    assert FormatYearMonth(s) == MonthYearLabel(s, Some(year), Some(month));
    NamedLabel(s, year, month);
  }

  lemma NamedLabel(s: string, year: int, month: int)
    requires 1 <= month <= 12
    ensures MonthYearLabel(s, Some(year), Some(month)) == MonthNames[month - 1] + " " + IntToString(year)
  {
    assert YearText(Some(year)) == IntToString(year);
  }

  /** Any other month reads the whole text as a number with two decimals. */
  lemma FormatFixedParts(s: string, month: int, x: real)
    requires '.' in s && MonthNumber(s) == Some(month) && JsParseFloat(s) == Some(x)
    requires month < 1 || month > 12
    ensures FormatYearMonth(s) == ToFixed2(x)
  {
    assert FormatYearMonth(s) == MonthYearLabel(s, JsParseInt(YearPart(s)), Some(month));
  }

  /** A month part that is not a number. */
  lemma FormatUndefinedParts(s: string, year: int)
    requires '.' in s && JsParseInt(YearPart(s)) == Some(year) && MonthNumber(s) == None
    ensures FormatYearMonth(s) == "undefined " + IntToString(year)
  {
    assert FormatYearMonth(s) == MonthYearLabel(s, Some(year), None);
  }

  /** "2000.8" is "August 2000" and "2000.12" is "December 2000". */
  lemma FormatMonthName(y: string, m: string)
    requires y != [] && AllDigits(y) && m != [] && AllDigits(m)
    requires 1 <= DigitsValue(m) <= 12
    ensures FormatYearMonth(y + "." + m) == MonthNames[DigitsValue(m) - 1] + " " + IntToString(DigitsValue(y))
  {
    var s := y + "." + m;
    assert '.' in s by { assert s[|y|] == '.'; }
    assert JsParseInt(YearPart(s)) == Some(DigitsValue(y)) by { DigitParts(y, m); DigitsParse(y); }
    assert MonthNumber(s) == Some(DigitsValue(m)) by { DigitParts(y, m); MonthNumberOfDigits(s, m); }
    FormatNamedParts(s, DigitsValue(y), DigitsValue(m));
  }

  /** Month 0, a month past 12, or an empty month part ("2000.") falls back
      to the value with two decimals: "2000.0" is "2000.00". */
  lemma FormatOutOfRange(y: string, m: string)
    requires y != [] && AllDigits(y) && AllDigits(m)
    requires DigitsValue(m) == 0 || DigitsValue(m) > 12
    ensures FormatYearMonth(y + "." + m) == ToFixed2(DecimalValue(y, m))
  {
    var s := y + "." + m;
    DigitParts(y, m);
    assert s[|y|] == '.';
    ParseFloatOfDecimal(y, m);
    if m != [] {
      MonthNumberOfDigits(s, m);
    }
    FormatFixedParts(s, DigitsValue(m), DecimalValue(y, m));
  }

  /** A month part that is not a number ("2000.x") passes the range test,
      since comparisons with `NaN` are false, and shows as "undefined". */
  lemma FormatUnreadableMonth(y: string, m: string)
    requires y != [] && AllDigits(y) && '.' !in m
    requires m != [] && !IsDigit(m[0]) && !IsSpace(m[0]) && m[0] != '-' && m[0] != '+'
    ensures FormatYearMonth(y + "." + m) == "undefined " + IntToString(DigitsValue(y))
  {
    var s := y + "." + m;
    DigitsHaveNoPoint(y);
    SplitYearMonth(y, m);
    assert s[|y|] == '.';
    DigitsParse(y);
    assert JsParseInt(m) == None;
    FormatUndefinedParts(s, DigitsValue(y));
  }

  // ---------------------------------------------------------------------------
  // Span layout
  // ---------------------------------------------------------------------------

  /** The axis of a timeline; its ends are numbers. */
  datatype Axis = Axis(start: string, end: string)

  /** A bar on a row. `to` is `None` where the span has none. */
  datatype Span = Span(from: YearNumber, genre: Option<string>, note: string, text: string, to: Option<YearNumber>)

  /** Where a span is drawn, in pixels; `None` is `NaN`. */
  datatype SpanPosition = SpanPosition(left: Option<real>, textMinWidth: nat, width: Option<real>)

  /** `clamp` of three decimals, `NaN` when any of them is. */
  function ClampDecimal(n: Option<real>, lo: Option<real>, hi: Option<real>): Option<real> {
    if n.Some? && lo.Some? && hi.Some? then Some(Clamp(n.value, lo.value, hi.value)) else None
  }

  /** `calculateSpanPosition`: both ends are clamped to the axis, a span
      without an end runs to the axis end, the left edge has a 20 pixel
      margin, and the width is the time width but never less than
      `MinSpanWidth`. */
  function CalculateSpanPosition(span: Span, axis: Axis, pxPerYear: real): (r: SpanPosition)
    ensures r.textMinWidth == |span.text| * 8 + 20
    ensures r.width.Some? ==> r.width.value >= MinSpanWidth
  {
    SpanLayout(YearMonthToDecimal(span.from), YearMonthToDecimal(span.to.GetOr(Num(axis.end))),
      YearMonthToDecimal(Num(axis.start)), YearMonthToDecimal(Num(axis.end)), |span.text|, pxPerYear)
  }

  /** A length in years as pixels. */
  function Scale(years: real, pxPerYear: real): real {
    years * pxPerYear
  }

  /** The layout from the decimal years of the span's ends and the axis. */
  function SpanLayout(from: Option<real>, to: Option<real>, start: Option<real>, end: Option<real>,
                      textLength: nat, pxPerYear: real): (r: SpanPosition)
    ensures r.textMinWidth == textLength * 8 + 20
    ensures r.width.Some? ==> r.width.value >= MinSpanWidth
    ensures r.left.Some? <==> from.Some? && start.Some? && end.Some?
    ensures r.width.Some? <==> r.left.Some? && to.Some?
  {
    var clampedFrom := ClampDecimal(from, start, end);
    var clampedTo := ClampDecimal(to, start, end);
    var left := if clampedFrom.Some? then Some(Scale(clampedFrom.value - start.value, pxPerYear) + 20.0) else None;
    var width :=
      if clampedFrom.Some? && clampedTo.Some? then Some(Max(MinSpanWidth, Scale(clampedTo.value - clampedFrom.value, pxPerYear)))
      else None;
    SpanPosition(left, textLength * 8 + 20, width)
  }

  /** On an axis from `start` to `end` at a non-negative scale a span starts
      within the axis, and unless it is widened to the minimum it also ends
      within it. */
  lemma SpanWithinAxis(from: real, to: real, start: real, end: real, textLength: nat, pxPerYear: real)
    requires start <= end && pxPerYear >= 0.0
    ensures var p := SpanLayout(Some(from), Some(to), Some(start), Some(end), textLength, pxPerYear);
      && p.left.Some? && p.width.Some?
      && 20.0 <= p.left.value <= Scale(end - start, pxPerYear) + 20.0
      && (p.width.value == MinSpanWidth || p.left.value + p.width.value <= Scale(end - start, pxPerYear) + 20.0)
  {
    var f := Clamp(from, start, end);
    var t := Clamp(to, start, end);
    var p := SpanLayout(Some(from), Some(to), Some(start), Some(end), textLength, pxPerYear);
    assert ClampDecimal(Some(from), Some(start), Some(end)) == Some(f);
    assert ClampDecimal(Some(to), Some(start), Some(end)) == Some(t);
    assert p.left == Some(Scale(f - start, pxPerYear) + 20.0);
    assert p.width == Some(Max(MinSpanWidth, Scale(t - f, pxPerYear)));
    ScaleNonNegative(f - start, pxPerYear);
    ScaleNonNegative(end - f, pxPerYear);
    ScaleSplit(end, f, start, pxPerYear);
    if p.width.value != MinSpanWidth {
      ScaleNonNegative(end - t, pxPerYear);
      ScaleSplit(end, t, start, pxPerYear);
      ScaleSplit(t, f, start, pxPerYear);
    }
  }

  lemma ScaleNonNegative(d: real, pxPerYear: real)
    requires d >= 0.0 && pxPerYear >= 0.0
    ensures Scale(d, pxPerYear) >= 0.0
  {
  }

  /** Scaling distributes over a split of an interval at `b`. */
  lemma ScaleSplit(a: real, b: real, c: real, pxPerYear: real)
    ensures Scale(a - c, pxPerYear) == Scale(a - b, pxPerYear) + Scale(b - c, pxPerYear)
  {
  }

  // ---------------------------------------------------------------------------
  // Document check
  // ---------------------------------------------------------------------------

  /** A parsed JSON value; an object is its members in order, and a key
      given twice holds its last value, as `JSON.parse` keeps it. */
  datatype Json =
    | JNull
    | JBool(b: bool)
    | JNumber(n: real)
    | JString(s: string)
    | JArray(items: seq<Json>)
    | JObject(members: seq<(string, Json)>)

  /** `v[key]`: `None` is `undefined`. Only objects have the keys looked up
      here. */
  function Get(v: Json, key: string): Option<Json> {
    if v.JObject? then LastValue(v.members, key) else None
  }

  function GetIn(v: Option<Json>, key: string): Option<Json> {
    if v.Some? then Get(v.value, key) else None
  }

  /** JavaScript truthiness. */
  predicate Truthy(v: Option<Json>) {
    match v
    case None => false
    case Some(JNull) => false
    case Some(JBool(b)) => b
    case Some(JNumber(n)) => n != 0.0
    case Some(JString(s)) => s != ""
    case Some(_) => true
  }

  /** `typeof v === "object"`: objects, arrays and `null`. */
  predicate IsObjectType(v: Json) {
    v.JNull? || v.JArray? || v.JObject?
  }

  predicate IsNumber(v: Option<Json>) { v.Some? && v.value.JNumber? }
  predicate IsString(v: Option<Json>) { v.Some? && v.value.JString? }
  predicate IsArray(v: Option<Json>) { v.Some? && v.value.JArray? }

  /** A row: an object with a text `id`, a text `label` and a `spans` array. */
  predicate RowValid(row: Json) {
    && Truthy(Some(row)) && IsObjectType(row)
    && IsString(Get(row, "id")) && IsString(Get(row, "label")) && IsArray(Get(row, "spans"))
  }

  /** `validateTimelineDoc`. */
  function ValidateTimelineDoc(doc: Json): (r: bool)
    ensures r ==> doc.JObject?
    ensures r ==> IsNumber(GetIn(Get(doc, "axis"), "start")) && IsNumber(GetIn(Get(doc, "axis"), "end"))
    ensures r ==> GetIn(Get(doc, "axis"), "start").value.n < GetIn(Get(doc, "axis"), "end").value.n
    ensures r ==> IsArray(Get(doc, "rows"))
    ensures r ==> forall i | 0 <= i < |Get(doc, "rows").value.items| ::
      var row := Get(doc, "rows").value.items[i];
      row.JObject? && IsString(Get(row, "id")) && IsString(Get(row, "label")) && IsArray(Get(row, "spans"))
  {
    if !(Truthy(Some(doc)) && IsObjectType(doc)) then false
    else
      var axis := Get(doc, "axis");
      var rows := Get(doc, "rows");
      if !(Truthy(axis) && Truthy(rows) && IsArray(rows)) then false
      else if !(IsNumber(GetIn(axis, "start")) && IsNumber(GetIn(axis, "end"))) then false
      else if GetIn(axis, "start").value.n >= GetIn(axis, "end").value.n then false
      else forall i | 0 <= i < |rows.value.items| :: RowValid(rows.value.items[i])
  }

  // ---------------------------------------------------------------------------
  // Channel histories as rows
  // ---------------------------------------------------------------------------

  /** One period of a channel number's history. */
  datatype ChannelItem = ChannelItem(
    from: Option<YearNumber>,
    to: Option<YearNumber>,
    channelName: string,
    channelGenre: Option<string>,
    channelNetwork: Option<string>,
    channelNotes: Option<string>)

  /** A standalone event; the conversion copies its fields unchanged. */
  datatype TimelineEvent = TimelineEvent(
    when: YearNumber,
    kind: string,
    caption: Option<string>,
    note: Option<string>,
    href: Option<string>)

  /** Channel histories keyed by channel number, in the order of
      `Object.entries`. */
  datatype GroupedDoc = GroupedDoc(
    title: string,
    axis: Axis,
    channels: seq<(string, seq<ChannelItem>)>,
    events: Option<seq<TimelineEvent>>)

  datatype Row = Row(id: string, rowLabel: string, spans: seq<Span>, events: Option<seq<TimelineEvent>>)

  datatype TimelineDoc = TimelineDoc(axis: Axis, rows: seq<Row>, title: string)

  /** Which field colours a span. */
  datatype ColorBy = ColorByGenre | ColorByNetwork

  /** The start the span sort compares: 0 for a falsy `from`, else its
      `parseFloat`. */
  function ItemFrom(item: ChannelItem): Option<real> {
    if Given(item.from) then JsParseFloat(Shown(item.from.value)) else Some(0.0)
  }

  /** `aFrom - bFrom <= 0`; a `NaN` difference leaves the pair in place. */
  predicate ItemLe(a: ChannelItem, b: ChannelItem) {
    match (ItemFrom(a), ItemFrom(b))
    case (Some(x), Some(y)) => x <= y
    case _ => true
  }

  /** One end of the tooltip's period. */
  function PeriodEnd(v: Option<YearNumber>, missing: string): string {
    if Given(v) then FormatYearMonth(Shown(v.value)) else missing
  }

  /** The last part of the tooltip: the period from "Unknown" or the start
      to "Present" or the end. */
  function Period(item: ChannelItem): string {
    "\n\nPeriod: " + PeriodEnd(item.from, "Unknown") + " - " + PeriodEnd(item.to, "Present")
  }

  /** The tooltip: the channel name, the notes when there are any, and the
      period. */
  function Tooltip(item: ChannelItem): string {
    item.channelName + NotesPart(item) + Period(item)
  }

  /** The notes after a blank line, or nothing when there are none. */
  function NotesPart(item: ChannelItem): string {
    if item.channelNotes.Some? && item.channelNotes.value != "" then "\n\n" + item.channelNotes.value else ""
  }

  function Colour(item: ChannelItem, colorBy: ColorBy): Option<string> {
    if colorBy == ColorByNetwork then item.channelNetwork else item.channelGenre
  }

  /** The span of one period; a missing start becomes 0 and a missing end
      the axis end. */
  function SpanOf(axisEnd: string, colorBy: ColorBy): ChannelItem -> Span {
    (item: ChannelItem) =>
      Span(
        if Given(item.from) then item.from.value else Num("0"),
        Colour(item, colorBy),
        Tooltip(item),
        item.channelName,
        Some(if Given(item.to) then item.to.value else Num(axisEnd)))
  }

  /** The row of one channel number: its periods in order of start. */
  function ChannelRow(axisEnd: string, colorBy: ColorBy): ((string, seq<ChannelItem>)) -> Row {
    (entry: (string, seq<ChannelItem>)) =>
      Row("ch-" + entry.0, entry.0, MapSeq(SortBy(entry.1, ItemLe), SpanOf(axisEnd, colorBy)), None)
  }

  /** `parseInt(a.label) - parseInt(b.label) <= 0`, `NaN` leaving the pair. */
  predicate RowLe(a: Row, b: Row) {
    match (JsParseInt(a.rowLabel), JsParseInt(b.rowLabel))
    case (Some(x), Some(y)) => x <= y
    case _ => true
  }

  function ChannelRows(doc: GroupedDoc, colorBy: ColorBy): seq<Row> {
    SortBy(MapSeq(doc.channels, ChannelRow(doc.axis.end, colorBy)), RowLe)
  }

  predicate HasEvents(doc: GroupedDoc) {
    doc.events.Some? && |doc.events.value| > 0
  }

  function EventsRow(events: seq<TimelineEvent>): Row {
    Row("standalone-events", "Events", [], Some(events))
  }

  /** The rows `convertSimplifiedToRows` returns. */
  function SimplifiedRows(doc: GroupedDoc, colorBy: ColorBy): seq<Row> {
    if HasEvents(doc) then [EventsRow(doc.events.value)] + ChannelRows(doc, colorBy)
    else ChannelRows(doc, colorBy)
  }

  /** `convertSimplifiedToRows`: a row per channel number, collected in a
      loop, sorted by channel number, with the events row put in front. */
  method ConvertSimplifiedToRows(groupedDoc: GroupedDoc, colorBy: ColorBy) returns (doc: TimelineDoc)
    ensures doc == TimelineDoc(groupedDoc.axis, SimplifiedRows(groupedDoc, colorBy), groupedDoc.title)
  {
    var channels := groupedDoc.channels;
    var rows: seq<Row> := [];
    var i := 0;
    while i < |channels|
      invariant 0 <= i <= |channels|
      invariant rows == MapSeq(channels[..i], ChannelRow(groupedDoc.axis.end, colorBy))
    {
      var (channelNumber, items) := channels[i];
      var sortedItems := SortBy(items, ItemLe);
      var spans := MapSeq(sortedItems, SpanOf(groupedDoc.axis.end, colorBy));
      TakeSnoc(channels, i);
      MapSeqSnoc(channels[..i], channels[i], ChannelRow(groupedDoc.axis.end, colorBy));
      rows := rows + [Row("ch-" + channelNumber, channelNumber, spans, None)];
      i := i + 1;
    }
    assert channels[..|channels|] == channels;
    rows := SortBy(rows, RowLe);
    if groupedDoc.events.Some? && |groupedDoc.events.value| > 0 {
      rows := [EventsRow(groupedDoc.events.value)] + rows;
    }
    doc := TimelineDoc(groupedDoc.axis, rows, groupedDoc.title);
  }

  /** The start a span is drawn from, read as a number. */
  function SpanStart(span: Span): Option<real> {
    JsParseFloat(Shown(span.from))
  }

  /** `ItemLe` orders every pair of periods whose starts are numbers. */
  lemma ItemLeConsistent()
    ensures TotalPreorderOn((item: ChannelItem) => ItemFrom(item).Some?, ItemLe)
  {
  }

  /** `RowLe` orders every pair of rows whose labels are integers. */
  lemma RowLeConsistent()
    ensures TotalPreorderOn((row: Row) => JsParseInt(row.rowLabel).Some?, RowLe)
  {
  }

  /** The span of a period: its text is the channel name, its tooltip starts
      with the name and ends with the period, a missing start is year 0, a
      missing end is the axis end, and its colour follows `colorBy`. */
  lemma SpanOfItem(axisEnd: string, colorBy: ColorBy, item: ChannelItem)
    ensures var span := SpanOf(axisEnd, colorBy)(item);
      && span.text == item.channelName && span.note == Tooltip(item)
      && SpanStart(span) == ItemFrom(item)
      && span.to.Some?
      && (Given(item.to) ==> span.to == item.to)
      && (!Given(item.to) ==> span.to == Some(Num(axisEnd)))
      && (colorBy == ColorByGenre ==> span.genre == item.channelGenre)
      && (colorBy == ColorByNetwork ==> span.genre == item.channelNetwork)
    ensures var note := Tooltip(item);
      var period := Period(item);
      && |item.channelName| + |period| <= |note|
      && note[..|item.channelName|] == item.channelName
      && note[|note| - |period|..] == period
  {
    SpanStartOf(axisEnd, colorBy, item);
    TooltipEnds(item);
  }

  /** The tooltip starts with the channel name and ends with the period. */
  lemma TooltipEnds(item: ChannelItem)
    ensures var note := Tooltip(item);
      var period := Period(item);
      && |item.channelName| + |period| <= |note|
      && note[..|item.channelName|] == item.channelName
      && note[|note| - |period|..] == period
  {
    OuterParts(item.channelName, NotesPart(item), Period(item));
  }

  /** The outer parts of a three-part sequence. */
  lemma OuterParts<T>(x: seq<T>, m: seq<T>, p: seq<T>)
    ensures |x| + |p| <= |x + m + p|
    ensures (x + m + p)[..|x|] == x
    ensures (x + m + p)[|x + m + p| - |p|..] == p
  {
  }

  /** The tooltip carries the notes exactly when there are some. */
  lemma TooltipNotes(item: ChannelItem)
    ensures item.channelNotes.Some? && item.channelNotes.value != "" ==>
      var notes := "\n\n" + item.channelNotes.value;
      var note := Tooltip(item);
      |item.channelName| + |notes| <= |note| && note[|item.channelName|..|item.channelName| + |notes|] == notes
    ensures !(item.channelNotes.Some? && item.channelNotes.value != "") ==>
      Tooltip(item)[|item.channelName|..][..9] == "\n\nPeriod:"
  {
  }

  /** Every span starts at a number, none later than the next. */
  predicate SpansInOrder(spans: seq<Span>) {
    forall i, j | 0 <= i < j < |spans| :: StartsInOrder(spans[i], spans[j])
  }

  predicate StartsInOrder(a: Span, b: Span) {
    SpanStart(a).Some? && SpanStart(b).Some? && SpanStart(a).value <= SpanStart(b).value
  }

  /** Every row's label is an integer, none greater than the next. */
  predicate RowsInOrder(rows: seq<Row>) {
    forall i, j | 0 <= i < j < |rows| :: LabelsInOrder(rows[i], rows[j])
  }

  predicate LabelsInOrder(a: Row, b: Row) {
    && JsParseInt(a.rowLabel).Some? && JsParseInt(b.rowLabel).Some?
    && JsParseInt(a.rowLabel).value <= JsParseInt(b.rowLabel).value
  }

  /** The spans of a channel number's periods. */
  function RowSpans(axisEnd: string, colorBy: ColorBy, items: seq<ChannelItem>): seq<Span> {
    ChannelRow(axisEnd, colorBy)(("", items)).spans
  }

  /** The row of a channel number: id "ch-" and the number, the number as
      label, no events, and one span per period. */
  lemma RowOfChannel(axisEnd: string, colorBy: ColorBy, entry: (string, seq<ChannelItem>))
    ensures var row := ChannelRow(axisEnd, colorBy)(entry);
      && row.id == "ch-" + entry.0 && row.rowLabel == entry.0 && row.events == None
      && row.spans == RowSpans(axisEnd, colorBy, entry.1)
      && |row.spans| == |entry.1|
  {
  }

  /** A row has the span of every period and no other. */
  lemma SpansOfRow(axisEnd: string, colorBy: ColorBy, items: seq<ChannelItem>)
    ensures forall span ::
      span in RowSpans(axisEnd, colorBy, items) <==>
      exists i | 0 <= i < |items| :: span == SpanOf(axisEnd, colorBy)(items[i])
  {
    MapSortMembers(items, ItemLe, SpanOf(axisEnd, colorBy));
  }

  /** A row's spans are in order of start when every start is a number. */
  lemma {:induction false} SpansOfRowInOrder(axisEnd: string, colorBy: ColorBy, items: seq<ChannelItem>)
    requires forall i | 0 <= i < |items| :: ItemFrom(items[i]).Some?
    ensures SpansInOrder(RowSpans(axisEnd, colorBy, items))
  {
    var sorted := SortBy(items, ItemLe);
    var spans := MapSeq(sorted, SpanOf(axisEnd, colorBy));
    assert RowSpans(axisEnd, colorBy, items) == spans;
    var ok := (item: ChannelItem) => ItemFrom(item).Some?;
    ItemLeConsistent();
    SortBySortedOn(items, ok, ItemLe);
    SortMembers(items, ItemLe);
    forall i, j | 0 <= i < j < |spans| ensures StartsInOrder(spans[i], spans[j]) {
      assert sorted[i] in items && sorted[j] in items;
      assert spans[i] == SpanOf(axisEnd, colorBy)(sorted[i]) && spans[j] == SpanOf(axisEnd, colorBy)(sorted[j]);
      SpanStartOf(axisEnd, colorBy, sorted[i]);
      SpanStartOf(axisEnd, colorBy, sorted[j]);
      assert ItemLe(sorted[i], sorted[j]);
    }
  }

  /** A span starts where its period's start reads, 0 when it is missing. */
  lemma SpanStartOf(axisEnd: string, colorBy: ColorBy, item: ChannelItem)
    ensures SpanStart(SpanOf(axisEnd, colorBy)(item)) == ItemFrom(item)
  {
    if !Given(item.from) {
      ParseFloatOfDigits("0");
      assert DigitsValue("0") == 0;
    }
  }

  /** The channel rows are exactly the rows of the channel numbers, one
      each. */
  lemma {:induction false} ChannelRowsMembers(doc: GroupedDoc, colorBy: ColorBy)
    ensures |ChannelRows(doc, colorBy)| == |doc.channels|
    ensures forall row ::
      row in ChannelRows(doc, colorBy) <==>
      exists i | 0 <= i < |doc.channels| :: row == ChannelRow(doc.axis.end, colorBy)(doc.channels[i])
    ensures multiset(ChannelRows(doc, colorBy)) == multiset(MapSeq(doc.channels, ChannelRow(doc.axis.end, colorBy)))
  {
    var f := ChannelRow(doc.axis.end, colorBy);
    MapMembers(doc.channels, f);
    SortMembers(MapSeq(doc.channels, f), RowLe);
  }

  /** When every channel number is an integer, the rows are in increasing
      order of it. */
  lemma {:induction false} RowsSortedByLabel(doc: GroupedDoc, colorBy: ColorBy)
    requires forall i | 0 <= i < |doc.channels| :: JsParseInt(doc.channels[i].0).Some?
    ensures RowsInOrder(ChannelRows(doc, colorBy))
  {
    var f := ChannelRow(doc.axis.end, colorBy);
    var ok := (row: Row) => JsParseInt(row.rowLabel).Some?;
    forall i | 0 <= i < |doc.channels| ensures ok(f(doc.channels[i])) {
      RowOfChannel(doc.axis.end, colorBy, doc.channels[i]);
    }
    RowLeConsistent();
    SortMappedOn(doc.channels, f, ok, RowLe);
    var rows := ChannelRows(doc, colorBy);
    forall i, j | 0 <= i < j < |rows| ensures LabelsInOrder(rows[i], rows[j]) {
      assert RowLe(rows[i], rows[j]);
    }
  }

  /** No channel row has the events row's id. */
  lemma ChannelRowIds(doc: GroupedDoc, colorBy: ColorBy)
    ensures forall i | 0 <= i < |ChannelRows(doc, colorBy)| :: ChannelRows(doc, colorBy)[i].id != "standalone-events"
  {
    var channelRows := ChannelRows(doc, colorBy);
    ChannelRowsMembers(doc, colorBy);
    forall i | 0 <= i < |channelRows| ensures channelRows[i].id != "standalone-events" {
      assert channelRows[i] in channelRows;
      var j :| 0 <= j < |doc.channels| && channelRows[i] == ChannelRow(doc.axis.end, colorBy)(doc.channels[j]);
      assert channelRows[i].id[0] == 'c';
    }
  }

  /** A row with id "standalone-events" is there exactly when the document
      has events; it is then the first row and the channel rows follow. */
  lemma EventsRowIff(doc: GroupedDoc, colorBy: ColorBy)
    ensures var rows := SimplifiedRows(doc, colorBy);
      (exists i | 0 <= i < |rows| :: rows[i].id == "standalone-events") <==> HasEvents(doc)
    ensures HasEvents(doc) ==>
      var rows := SimplifiedRows(doc, colorBy);
      rows[0] == EventsRow(doc.events.value) && rows[1..] == ChannelRows(doc, colorBy)
    ensures !HasEvents(doc) ==> SimplifiedRows(doc, colorBy) == ChannelRows(doc, colorBy)
  {
    var channelRows := ChannelRows(doc, colorBy);
    ChannelRowIds(doc, colorBy);
    if HasEvents(doc) {
      ConsTail(EventsRow(doc.events.value), channelRows);
      assert SimplifiedRows(doc, colorBy)[0].id == "standalone-events";
    }
  }

  // ---------------------------------------------------------------------------
  // Documents as JSON
  // ---------------------------------------------------------------------------

  /** A number as `JSON.stringify` writes it; `NaN` becomes `null`. */
  function NumberJson(shown: string): Json {
    match JsParseFloat(shown)
    case Some(x) => JNumber(x)
    case None => JNull
  }

  function SpanJson(span: Span): Json {
    JObject([("text", JString(span.text)), ("note", JString(span.note))])
  }

  function RowJson(row: Row): Json {
    JObject([("id", JString(row.id)), ("label", JString(row.rowLabel)), ("spans", JArray(MapSeq(row.spans, SpanJson)))])
  }

  /** A document as the JSON the timeline component receives. */
  function EncodeDoc(doc: TimelineDoc): Json {
    JObject([
      ("axis", JObject([("start", NumberJson(doc.axis.start)), ("end", NumberJson(doc.axis.end)), ("unit", JString("year"))])),
      ("rows", JArray(MapSeq(doc.rows, RowJson))),
      ("title", JString(doc.title))])
  }

  /** A key of a three-member object holds its last value. */
  lemma GetOfThree(k1: string, v1: Json, k2: string, v2: Json, k3: string, v3: Json, k: string)
    ensures Get(JObject([(k1, v1), (k2, v2), (k3, v3)]), k) ==
      if k == k3 then Some(v3) else if k == k2 then Some(v2) else if k == k1 then Some(v1) else None
  {
    var ps := [(k1, v1), (k2, v2), (k3, v3)];
    assert ps[..2] == [(k1, v1), (k2, v2)];
    assert ps[..2][..1] == [(k1, v1)];
    assert ps[..2][..1][..0] == [];
    assert LastValue([(k1, v1)], k) == if k == k1 then Some(v1) else None;
    assert LastValue([(k1, v1), (k2, v2)], k) == if k == k2 then Some(v2) else LastValue([(k1, v1)], k);
    assert LastValue(ps, k) == if k == k3 then Some(v3) else LastValue([(k1, v1), (k2, v2)], k);
  }

  /** Every encoded row is an object with a text `id`, a text `label` and
      a `spans` array. */
  lemma EncodedRowsValid(rows: seq<Row>)
    ensures forall i | 0 <= i < |MapSeq(rows, RowJson)| :: RowValid(MapSeq(rows, RowJson)[i])
  {
    forall i | 0 <= i < |rows| ensures RowValid(MapSeq(rows, RowJson)[i]) {
      var row := rows[i];
      var spans := JArray(MapSeq(row.spans, SpanJson));
      GetOfThree("id", JString(row.id), "label", JString(row.rowLabel), "spans", spans, "id");
      GetOfThree("id", JString(row.id), "label", JString(row.rowLabel), "spans", spans, "label");
      GetOfThree("id", JString(row.id), "label", JString(row.rowLabel), "spans", spans, "spans");
    }
  }

  /** The check on a document whose axis holds `start` and `end`. */
  lemma ValidateAxis(start: Json, end: Json, rows: seq<Row>, title: string)
    ensures var json := JObject([
        ("axis", JObject([("start", start), ("end", end), ("unit", JString("year"))])),
        ("rows", JArray(MapSeq(rows, RowJson))),
        ("title", JString(title))]);
      ValidateTimelineDoc(json) <==> start.JNumber? && end.JNumber? && start.n < end.n
  {
    EncodedRowsValid(rows);
    var axis := JObject([("start", start), ("end", end), ("unit", JString("year"))]);
    var items := JArray(MapSeq(rows, RowJson));
    GetOfThree("axis", axis, "rows", items, "title", JString(title), "axis");
    GetOfThree("axis", axis, "rows", items, "title", JString(title), "rows");
    GetOfThree("start", start, "end", end, "unit", JString("year"), "start");
    GetOfThree("start", start, "end", end, "unit", JString("year"), "end");
  }

  /** Every document built from rows, such as the one
      `ConvertSimplifiedToRows` returns, passes `validateTimelineDoc`
      exactly when its axis start and end are numbers and the start is
      before the end. */
  lemma EncodedDocValidates(doc: TimelineDoc)
    ensures ValidateTimelineDoc(EncodeDoc(doc)) <==>
      && JsParseFloat(doc.axis.start).Some? && JsParseFloat(doc.axis.end).Some?
      && JsParseFloat(doc.axis.start).value < JsParseFloat(doc.axis.end).value
  {
    ValidateAxis(NumberJson(doc.axis.start), NumberJson(doc.axis.end), doc.rows, doc.title);
  }
}
