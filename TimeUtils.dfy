/** Projection of programmes into a viewer's timezone and the per-day gap
    filling of backend/app/utils/time_utils.py.

    Times are whole seconds. A timezone is two functions: the UTC offset in
    force at an instant (what `astimezone` applies) and the offset pytz
    `localize` picks for a wall-clock time, so daylight saving is a parameter
    rather than a table. */
module TimeUtils {
  import opened Wrappers
  import opened Text
  import opened Seqs

  const DaySeconds := 86400
  /** 23:59:59 as seconds after midnight. */
  const LastSecond := 86399

  datatype Zone = Zone(offsetAt: int -> int, localOffset: int -> int)

  /** A timestamp as a programme record carries it: wall-clock seconds counted
      from 1970-01-01 00:00:00, and the UTC offset when the ISO text has one. */
  datatype Time = Time(wall: int, offset: Option<int>)

  /** An aware datetime: wall clock and UTC offset. */
  datatype Stamp = Stamp(wall: int, offset: int) {
    function Instant(): int { wall - offset }
    /** `isoformat()`: the text keeps wall clock and offset. */
    function ToTime(): Time { Time(wall, Some(offset)) }
  }

  /** The local calendar day of a wall-clock time (the ISO text before "T"). */
  function DayOf(wall: int): int { wall / DaySeconds }

  /** A local calendar date, numbered in days from 1970-01-01. */
  datatype Date = Date(day: int)

  function SecondOfDay(wall: int): (s: int)
    ensures 0 <= s < DaySeconds
    ensures wall == DayOf(wall) * DaySeconds + s
  {
    wall % DaySeconds
  }

  /** The `length` of a record: the text it was loaded with, or for a filler
      the timedelta `end - start`, whose `str()` is the text written out. */
  datatype Length = LengthText(text: string) | Elapsed(seconds: int)

  /** A programme record (the keys the backend reads or writes). */
  datatype Program = Program(
    start_time: Time, end_time: Time,
    start: string, end: string, length: Length,
    channel: string, title: string, subtitle: string, description: string,
    categories: seq<string>, episode: string, original_air_date: string, rating: string)

  // ---------------------------------------------------------------------------
  // Timezones and parsing
  // ---------------------------------------------------------------------------

  /** `tz.localize(dt)`: the wall clock is kept, the zone supplies the offset. */
  function Localize(wall: int, tz: Zone): (r: Stamp)
    ensures r.wall == wall && r.offset == tz.localOffset(wall)
  {
    Stamp(wall, tz.localOffset(wall))
  }

  /** `dt.astimezone(tz)` on an aware datetime: the instant is kept, the
      zone's offset at that instant is applied. */
  function Convert(instant: int, tz: Zone): (r: Stamp)
    ensures r.Instant() == instant && r.offset == tz.offsetAt(instant)
  {
    Stamp(instant + tz.offsetAt(instant), tz.offsetAt(instant))
  }

  /** `parse_datetime`: naive text is localized, aware text is converted. */
  function ParseDatetime(t: Time, tz: Zone): (r: Stamp)
    ensures t.offset.None? ==> r.wall == t.wall && r.offset == tz.localOffset(t.wall)
    ensures t.offset.Some? ==> r.Instant() == t.wall - t.offset.value && r.offset == tz.offsetAt(r.Instant())
  {
    match t.offset
    case None => Localize(t.wall, tz)
    case Some(o) => Convert(t.wall - o, tz)
  }

  /** The instant a record's timestamp denotes once read in zone `tz`. */
  function InstantOf(t: Time, tz: Zone): int {
    ParseDatetime(t, tz).Instant()
  }

  /** Reading back what `parse_datetime` produced changes nothing, provided
      a localized time lies where the zone itself would place it (it does
      except inside a daylight-saving gap). */
  lemma ParseDatetimeIdempotent(t: Time, tz: Zone)
    requires t.offset.None? ==> tz.offsetAt(t.wall - tz.localOffset(t.wall)) == tz.localOffset(t.wall)
    ensures ParseDatetime(ParseDatetime(t, tz).ToTime(), tz) == ParseDatetime(t, tz)
  {
  }

  /** The argument `process_timezone` accepts: a zone name, a zone object, or anything else. */
  datatype TimezoneArg = ZoneName(name: string) | ZoneObject(zone: Zone) | OtherValue

  /** `process_timezone`; `lookup` stands for pytz's database, `None` for an unknown name. */
  function ProcessTimezone(arg: TimezoneArg, lookup: string -> Option<Zone>): (r: Result<Zone, string>)
    ensures arg.ZoneObject? ==> r == Success(arg.zone)
    ensures arg.ZoneName? ==> (r.Success? <==> lookup(arg.name).Some?)
    ensures arg.ZoneName? && r.Success? ==> r.value == lookup(arg.name).value
    ensures arg.OtherValue? ==> r.Failure?
  {
    match arg
    case ZoneName(name) =>
      (match lookup(name)
       case Some(z) => Success(z)
       case None => Failure("Unknown timezone"))
    case ZoneObject(z) => Success(z)
    case OtherValue => Failure("Invalid timezone format. Expected string or pytz.BaseTzInfo object.")
  }

  // ---------------------------------------------------------------------------
  // adjust_programming
  // ---------------------------------------------------------------------------

  /** The instant a stored timestamp denotes; naive text is read in the
      machine's own zone `system`, as `astimezone` does. */
  function TimeInstant(t: Time, system: Zone): int {
    match t.offset
    case Some(o) => t.wall - o
    case None => t.wall - system.localOffset(t.wall)
  }

  /** `datetime.fromisoformat(text).astimezone(tz)`. */
  function AsTimezone(t: Time, tz: Zone, system: Zone): (r: Stamp)
    ensures r.Instant() == TimeInstant(t, system)
    ensures r.offset == tz.offsetAt(TimeInstant(t, system))
  {
    Convert(TimeInstant(t, system), tz)
  }

  /** Whether a programme's local start and end fall on different local dates. */
  predicate CrossesDate(p: Program, tz: Zone, system: Zone) {
    DayOf(AsTimezone(p.start_time, tz, system).wall) != DayOf(AsTimezone(p.end_time, tz, system).wall)
  }

  /** Whether the programme crosses a local date and its local end is after
      that day's 00:00:00 (`next_day < local_end`): the only case in which the
      continuation piece is written and `title` is read. */
  predicate HasContinuation(p: Program, tz: Zone, system: Zone) {
    CrossesDate(p, tz, system) && SecondOfDay(AsTimezone(p.end_time, tz, system).wall) > 0
  }

  /** The records one programme becomes. */
  function AdjustOne(p: Program, tz: Zone, system: Zone): seq<Program> {
    var ls := AsTimezone(p.start_time, tz, system);
    var le := AsTimezone(p.end_time, tz, system);
    if DayOf(ls.wall) != DayOf(le.wall) then
      // `replace` keeps the tzinfo, so these compare as wall clocks.
      var midnight := Stamp(DayOf(ls.wall) * DaySeconds + LastSecond, ls.offset);
      var nextDay := Stamp(DayOf(le.wall) * DaySeconds, le.offset);
      (if ls.wall < midnight.wall then [p.(start_time := ls.ToTime(), end_time := midnight.ToTime())] else [])
      + (if nextDay.wall < le.wall
         then [p.(start_time := nextDay.ToTime(), end_time := le.ToTime(), title := p.title + " (cont)")]
         else [])
    else
      [p.(start_time := ls.ToTime(), end_time := le.ToTime())]
  }

  /** The result of `adjust_programming` on `ps`. */
  function Adjusted(ps: seq<Program>, tz: Zone, system: Zone): seq<Program> {
    if ps == [] then [] else Adjusted(ps[..|ps| - 1], tz, system) + AdjustOne(ps[|ps| - 1], tz, system)
  }

  /** The loop body of `adjust_programming` for one programme. */
  method AdjustProgram(program: Program, tz: Zone, system: Zone) returns (records: seq<Program>)
    ensures records == AdjustOne(program, tz, system)
  {
    records := [];
    var localStart := AsTimezone(program.start_time, tz, system);
    var localEnd := AsTimezone(program.end_time, tz, system);
    if DayOf(localStart.wall) != DayOf(localEnd.wall) {
      var midnight := Stamp(DayOf(localStart.wall) * DaySeconds + LastSecond, localStart.offset);
      if localStart.wall < midnight.wall {
        records := [program.(start_time := localStart.ToTime(), end_time := midnight.ToTime())];
      }
      var nextDay := Stamp(DayOf(localEnd.wall) * DaySeconds, localEnd.offset);
      if nextDay.wall < localEnd.wall {
        records := records + [program.(start_time := nextDay.ToTime(), end_time := localEnd.ToTime(),
                                         title := program.title + " (cont)")];
      }
    } else {
      records := [program.(start_time := localStart.ToTime(), end_time := localEnd.ToTime())];
    }
  }

  /** `adjust_programming`. */
  method AdjustProgramming(programming: seq<Program>, tz: Zone, system: Zone) returns (adjusted: seq<Program>)
    ensures adjusted == Adjusted(programming, tz, system)
  {
    adjusted := [];
    var i := 0;
    while i < |programming|
      invariant 0 <= i <= |programming|
      invariant adjusted == Adjusted(programming[..i], tz, system)
    {
      AdjustedPrefixStep(programming, i, tz, system);
      var records := AdjustProgram(programming[i], tz, system);
      adjusted := adjusted + records;
      i := i + 1;
    }
    assert programming[..i] == programming;
  }

  /** Adjusting one more programme of `ps` appends the records it becomes. */
  lemma AdjustedPrefixStep(ps: seq<Program>, i: nat, tz: Zone, system: Zone)
    requires i < |ps|
    ensures Adjusted(ps[..i + 1], tz, system) == Adjusted(ps[..i], tz, system) + AdjustOne(ps[i], tz, system)
  {
    assert ps[..i + 1][..i] == ps[..i];
  }

  /** A record with its timestamps and title blanked: the fields `**program` copies verbatim. */
  function Rest(p: Program): Program {
    p.(start_time := Time(0, None), end_time := Time(0, None), title := "")
  }

  /** A programme within one local date yields one record: the same instants
      expressed in `tz`, every other field copied. */
  lemma AdjustSameDate(p: Program, tz: Zone, system: Zone)
    requires !CrossesDate(p, tz, system)
    ensures var r := AdjustOne(p, tz, system);
      && |r| == 1 && Rest(r[0]) == Rest(p) && r[0].title == p.title
      && TimeInstant(r[0].start_time, system) == TimeInstant(p.start_time, system)
      && TimeInstant(r[0].end_time, system) == TimeInstant(p.end_time, system)
      && r[0].start_time.offset == Some(tz.offsetAt(TimeInstant(p.start_time, system)))
      && r[0].end_time.offset == Some(tz.offsetAt(TimeInstant(p.end_time, system)))
  {
  }

  /** A programme crossing a local date splits into at most two non-empty
      pieces, each within one local date: the first, ending at 23:59:59, only
      if the local start is before 23:59:59; the second, starting at 00:00:00
      of the end date and titled "<title> (cont)", only if the local end is
      after midnight. */
  lemma AdjustSplit(p: Program, tz: Zone, system: Zone)
    requires CrossesDate(p, tz, system)
    ensures var r := AdjustOne(p, tz, system);
      var ls := AsTimezone(p.start_time, tz, system);
      var le := AsTimezone(p.end_time, tz, system);
      && |r| == (if SecondOfDay(ls.wall) < LastSecond then 1 else 0) + (if SecondOfDay(le.wall) > 0 then 1 else 0)
      && (forall q :: q in r ==> Rest(q) == Rest(p))
      && (forall q :: q in r ==>
            && q.start_time.offset.Some? && q.end_time.offset == q.start_time.offset
            && q.start_time.wall < q.end_time.wall
            && DayOf(q.start_time.wall) == DayOf(q.end_time.wall))
      && (SecondOfDay(ls.wall) < LastSecond ==>
            && r[0].title == p.title && r[0].start_time == ls.ToTime()
            && DayOf(r[0].end_time.wall) == DayOf(ls.wall) && SecondOfDay(r[0].end_time.wall) == LastSecond)
      && (SecondOfDay(le.wall) > 0 ==>
            && r[|r| - 1].title == p.title + " (cont)" && r[|r| - 1].end_time == le.ToTime()
            && DayOf(r[|r| - 1].start_time.wall) == DayOf(le.wall) && SecondOfDay(r[|r| - 1].start_time.wall) == 0)
  {
    var ls := AsTimezone(p.start_time, tz, system);
    var le := AsTimezone(p.end_time, tz, system);
    assert DayOf(DayOf(ls.wall) * DaySeconds + LastSecond) == DayOf(ls.wall);
    assert DayOf(DayOf(le.wall) * DaySeconds) == DayOf(le.wall);
  }

  /** The title is read exactly when a record titled "<title> (cont)" is
      written: a programme ending at local 00:00:00 of a later date yields no
      continuation piece and never looks its title up. */
  lemma ContinuationReadsTitle(p: Program, tz: Zone, system: Zone)
    ensures HasContinuation(p, tz, system) <==>
      exists i | 0 <= i < |AdjustOne(p, tz, system)| :: AdjustOne(p, tz, system)[i].title == p.title + " (cont)"
  {
    var r := AdjustOne(p, tz, system);
    if CrossesDate(p, tz, system) {
      AdjustSplit(p, tz, system);
      var ls := AsTimezone(p.start_time, tz, system);
      if HasContinuation(p, tz, system) {
        assert r[|r| - 1].title == p.title + " (cont)";
      } else {
        assert forall i | 0 <= i < |r| :: r[i].title == p.title by {
          if SecondOfDay(ls.wall) < LastSecond {
            assert |r| == 1;
          }
        }
        assert |p.title + " (cont)"| != |p.title|;
      }
    } else {
      AdjustSameDate(p, tz, system);
      assert |p.title + " (cont)"| != |p.title|;
    }
  }

  /** Adjusting a concatenation adjusts each part: records keep input order. */
  lemma {:induction false} AdjustedAppend(a: seq<Program>, b: seq<Program>, tz: Zone, system: Zone)
    ensures Adjusted(a + b, tz, system) == Adjusted(a, tz, system) + Adjusted(b, tz, system)
  {
    if b != [] {
      var b' := b[..|b| - 1];
      assert (a + b)[..|a + b| - 1] == a + b';
      assert (a + b)[|a + b| - 1] == b[|b| - 1];
      AdjustedAppend(a, b', tz, system);
    } else {
      assert a + b == a;
    }
  }

  /** Each programme yields one or two records. */
  lemma {:induction false} AdjustedLength(ps: seq<Program>, tz: Zone, system: Zone)
    ensures |Adjusted(ps, tz, system)| <= 2 * |ps|
  {
    if ps != [] {
      AdjustedLength(ps[..|ps| - 1], tz, system);
    }
  }

  // ---------------------------------------------------------------------------
  // The filler record and its length text
  // ---------------------------------------------------------------------------

  const NoDataTitle := "No Data Available"
  const NA := "N/A"

  /** `H:MM:SS` of a time of day, as `str(timedelta)` writes it. */
  function ClockText(secs: nat): string
    requires secs < DaySeconds
  {
    NatToString(secs / 3600) + ":" + Pad2(secs / 60 % 60) + ":" + Pad2(secs % 60)
  }

  /** `str(timedelta(seconds=d))`: "[D day[s], ]H:MM:SS", days rounded down. */
  function TimedeltaText(d: int): string {
    var days := d / DaySeconds;
    var clock := ClockText(d % DaySeconds);
    if days == 0 then clock else IntToString(days) + " " + DayWord(days) + ", " + clock
  }

  function DayWord(days: int): string {
    if days == 1 || days == -1 then "day" else "days"
  }

  /** Reads "H:MM:SS" back into seconds. */
  function ParseClock(s: string): Option<int> {
    var parts := Split(s, ':');
    if |parts| == 3 && parts[0] != [] && AllDigits(parts[0])
       && |parts[1]| == 2 && AllDigits(parts[1]) && |parts[2]| == 2 && AllDigits(parts[2])
    then Some(DigitsValue(parts[0]) * 3600 + DigitsValue(parts[1]) * 60 + DigitsValue(parts[2]))
    else None
  }

  /** Reads the text of a timedelta back into seconds. */
  function ParseTimedelta(s: string): Option<int> {
    var parts := Split(s, ',');
    if |parts| == 1 then ParseClock(s)
    else if |parts| == 2 && parts[1] != [] && parts[1][0] == ' ' then
      var words := Split(parts[0], ' ');
      if |words| == 2 && (words[1] == "day" || words[1] == "days") then
        match ParseInt(words[0])
        case Some(n) =>
          (match ParseClock(parts[1][1..])
           case Some(c) => Some(n * DaySeconds + c)
           case None => None)
        case None => None
      else None
    else None
  }

  lemma ClockArithmetic(secs: nat)
    ensures (secs / 3600) * 3600 + (secs / 60 % 60) * 60 + secs % 60 == secs
  {
    var a := secs / 3600;
    var r := secs % 3600;
    assert secs / 60 == a * 60 + r / 60;
  }

  lemma {:induction false} ClockTextChars(secs: nat)
    requires secs < DaySeconds
    ensures forall c :: c in ClockText(secs) ==> IsDigit(c) || c == ':'
  {
  }

  lemma {:induction false} ClockRoundTrip(secs: nat)
    requires secs < DaySeconds
    ensures ParseClock(ClockText(secs)) == Some(secs)
  {
    var h, m, s := NatToString(secs / 3600), Pad2(secs / 60 % 60), Pad2(secs % 60);
    assert ClockText(secs) == h + [':'] + (m + [':'] + s);
    DigitsLackChar(h, ':');
    DigitsLackChar(m, ':');
    DigitsLackChar(s, ':');
    SplitAtFirst(h, m + [':'] + s, ':');
    SplitAtFirst(m, s, ':');
    SplitWithoutSeparator(s, ':');
    assert Split(ClockText(secs), ':') == [h, m, s];
    DigitsValueOfNatToString(secs / 3600);
    Pad2Value(secs / 60 % 60);
    Pad2Value(secs % 60);
    ClockArithmetic(secs);
  }

  lemma {:induction false} IntToStringChars(i: int)
    ensures forall c :: c in IntToString(i) ==> IsDigit(c) || c == '-'
  {
    if i < 0 {
      assert forall c :: c in IntToString(i) ==> c in "-" || c in NatToString(-i);
    }
  }

  /** The two pieces of "<n> day[s], H:MM:SS" split at the comma and at the space. */
  lemma {:induction false} DaysTextSplits(num: string, word: string, clock: string)
    requires forall c :: c in num ==> IsDigit(c) || c == '-'
    requires word == "day" || word == "days"
    requires forall c :: c in clock ==> IsDigit(c) || c == ':'
    ensures Split(num + " " + word + ", " + clock, ',') == [num + " " + word, " " + clock]
    ensures Split(num + " " + word, ' ') == [num, word]
  {
    var head := num + [' '] + word;
    assert num + " " + word + ", " + clock == head + [','] + (" " + clock);
    assert ',' !in head;
    SplitAtFirst(head, " " + clock, ',');
    SplitWithoutSeparator(" " + clock, ',');
    assert num + " " + word == num + [' '] + word;
    SplitAtFirst(num, word, ' ');
    SplitWithoutSeparator(word, ' ');
  }

  /** `ParseTimedelta` on text in the "<n> day[s], <clock>" form. */
  lemma ParseDaysForm(s: string, num: string, word: string, clock: string, n: int, c: int)
    requires Split(s, ',') == [num + " " + word, " " + clock]
    requires Split(num + " " + word, ' ') == [num, word]
    requires word == "day" || word == "days"
    requires ParseInt(num) == Some(n) && ParseClock(clock) == Some(c)
    ensures ParseTimedelta(s) == Some(n * DaySeconds + c)
  {
    assert (" " + clock)[1..] == clock;
  }

  lemma {:induction false} DaysTextParse(days: int, secs: nat)
    requires secs < DaySeconds
    ensures ParseTimedelta(IntToString(days) + " " + DayWord(days) + ", " + ClockText(secs)) == Some(days * DaySeconds + secs)
  {
    ClockTextChars(secs);
    IntToStringChars(days);
    DaysTextSplits(IntToString(days), DayWord(days), ClockText(secs));
    ClockRoundTrip(secs);
    ParseIntOfIntToString(days);
    ParseDaysForm(IntToString(days) + " " + DayWord(days) + ", " + ClockText(secs),
                  IntToString(days), DayWord(days), ClockText(secs), days, secs);
  }

  lemma DaysTextRoundTrip(d: int)
    requires d / DaySeconds != 0
    ensures ParseTimedelta(TimedeltaText(d)) == Some(d)
  {
    var days, secs := d / DaySeconds, d % DaySeconds;
    assert TimedeltaText(d) == IntToString(days) + " " + DayWord(days) + ", " + ClockText(secs);
    DaysTextParse(days, secs);
    assert days * DaySeconds + secs == d;
  }

  /** The length text of a filler reads back as its duration. */
  lemma TimedeltaRoundTrip(d: int)
    ensures ParseTimedelta(TimedeltaText(d)) == Some(d)
  {
    if d / DaySeconds == 0 {
      ClockTextChars(d % DaySeconds);
      ClockRoundTrip(d % DaySeconds);
      SplitWithoutSeparator(ClockText(d % DaySeconds), ',');
    } else {
      DaysTextRoundTrip(d);
    }
  }

  /** A record marked as having no guide data. */
  predicate IsNoData(p: Program) {
    && p.title == NoDataTitle
    && p.start == NA && p.end == NA && p.subtitle == NA && p.description == NA
    && p.categories == [NA] && p.episode == NA && p.original_air_date == NA && p.rating == NA
  }

  /** `create_no_data_program`. */
  function NoDataProgram(start: Stamp, end: Stamp, channel: string): (p: Program)
    ensures IsNoData(p) && p.channel == channel
    ensures p.start_time == start.ToTime() && p.end_time == end.ToTime()
  {
    Program(start.ToTime(), end.ToTime(), NA, NA, Elapsed(end.Instant() - start.Instant()),
            channel, NoDataTitle, NA, NA, [NA], NA, NA, NA)
  }

  /** The text of a record's `length` as written out. */
  function LengthString(l: Length): string {
    match l
    case LengthText(t) => t
    case Elapsed(d) => TimedeltaText(d)
  }

  /** A filler's length text reads back as the time from its start to its end. */
  lemma NoDataLength(start: Stamp, end: Stamp, channel: string)
    ensures ParseTimedelta(LengthString(NoDataProgram(start, end, channel).length)) == Some(end.Instant() - start.Instant())
  {
    TimedeltaRoundTrip(end.Instant() - start.Instant());
  }

  // ---------------------------------------------------------------------------
  // Filling one day
  // ---------------------------------------------------------------------------

  /** The cursor after walking `ps` from `start`: the end of the last programme,
      whatever the ends before it were. */
  function Cursor(ps: seq<Program>, start: Stamp, tz: Zone): Stamp {
    if ps == [] then start else ParseDatetime(ps[|ps| - 1].end_time, tz)
  }

  /** One iteration: a filler for the gap before `p` if there is one, then `p`. */
  function Step(cursor: Stamp, p: Program, tz: Zone): seq<Program> {
    var programStart := ParseDatetime(p.start_time, tz);
    (if cursor.Instant() < programStart.Instant() then [NoDataProgram(cursor, programStart, p.channel)] else [])
    + [p]
  }

  /** The records appended while walking `ps` from `start`. */
  function Walk(ps: seq<Program>, start: Stamp, tz: Zone): seq<Program> {
    if ps == [] then []
    else
      var init := ps[..|ps| - 1];
      Walk(init, start, tz) + Step(Cursor(init, start, tz), ps[|ps| - 1], tz)
  }

  /** A day's records: the walk, then a filler up to `dayEnd` if the cursor is before it. */
  function FillDay(ps: seq<Program>, dayStart: Stamp, dayEnd: Stamp, trailChannel: string, tz: Zone): seq<Program> {
    var c := Cursor(ps, dayStart, tz);
    Walk(ps, dayStart, tz) + (if c.Instant() < dayEnd.Instant() then [NoDataProgram(c, dayEnd, trailChannel)] else [])
  }

  /** The inner loop shared by both grouping functions. */
  method WalkDay(dayPrograms: seq<Program>, dayStart: Stamp, tz: Zone) returns (filled: seq<Program>, cursor: Stamp)
    ensures filled == Walk(dayPrograms, dayStart, tz)
    ensures cursor == Cursor(dayPrograms, dayStart, tz)
  {
    filled := [];
    cursor := dayStart;
    var i := 0;
    while i < |dayPrograms|
      invariant 0 <= i <= |dayPrograms|
      invariant filled == Walk(dayPrograms[..i], dayStart, tz)
      invariant cursor == Cursor(dayPrograms[..i], dayStart, tz)
    {
      var program := dayPrograms[i];
      WalkPrefixStep(dayPrograms, i, dayStart, tz);
      var programStart := ParseDatetime(program.start_time, tz);
      var programEnd := ParseDatetime(program.end_time, tz);
      ghost var before := filled;
      if cursor.Instant() < programStart.Instant() {
        filled := filled + [NoDataProgram(cursor, programStart, program.channel)];
      }
      filled := filled + [program];
      assert filled == before + Step(cursor, program, tz);
      cursor := programEnd;
      i := i + 1;
    }
    assert dayPrograms[..i] == dayPrograms;
  }

  /** Walking one more programme of `ps` appends its step. */
  lemma WalkPrefixStep(ps: seq<Program>, i: nat, start: Stamp, tz: Zone)
    requires i < |ps|
    ensures Walk(ps[..i + 1], start, tz) == Walk(ps[..i], start, tz) + Step(Cursor(ps[..i], start, tz), ps[i], tz)
    ensures Cursor(ps[..i + 1], start, tz) == ParseDatetime(ps[i].end_time, tz)
  {
    assert ps[..i + 1][..i] == ps[..i];
  }

  /** The records that are not fillers. */
  function Programmes(s: seq<Program>): (r: seq<Program>)
    ensures |r| <= |s|
  {
    if s == [] then []
    else Programmes(s[..|s| - 1]) + (if s[|s| - 1].title == NoDataTitle then [] else [s[|s| - 1]])
  }

  lemma {:induction false} ProgrammesAppend(a: seq<Program>, b: seq<Program>)
    ensures Programmes(a + b) == Programmes(a) + Programmes(b)
  {
    if b == [] {
      assert a + b == a;
    } else {
      assert (a + b)[..|a + b| - 1] == a + b[..|b| - 1];
      ProgrammesAppend(a, b[..|b| - 1]);
    }
  }

  predicate NoFillerTitles(ps: seq<Program>) {
    forall i :: 0 <= i < |ps| ==> ps[i].title != NoDataTitle
  }

  lemma NoFillerTitlesInit(ps: seq<Program>)
    requires ps != [] && NoFillerTitles(ps)
    ensures NoFillerTitles(ps[..|ps| - 1])
  {
  }

  /** Every input programme appears exactly once, in input order, among the fillers. */
  lemma ProgrammesStep(c: Stamp, p: Program, tz: Zone)
    requires p.title != NoDataTitle
    ensures Programmes(Step(c, p, tz)) == [p]
  {
    var step := Step(c, p, tz);
    assert step[..|step| - 1] == [] || step[..|step| - 1] == [step[0]];
    assert [step[0]][..0] == [];
  }

  lemma {:induction false} WalkKeepsProgrammes(ps: seq<Program>, start: Stamp, tz: Zone)
    requires NoFillerTitles(ps)
    ensures Programmes(Walk(ps, start, tz)) == ps
  {
    if ps != [] {
      var init, last := ps[..|ps| - 1], ps[|ps| - 1];
      assert ps == init + [last];
      NoFillerTitlesInit(ps);
      WalkKeepsProgrammes(init, start, tz);
      WalkSnocProgrammes(init, last, start, tz);
    }
  }

  /** The last programme adds exactly itself to the programmes of the walk. */
  lemma WalkSnocProgrammes(init: seq<Program>, last: Program, start: Stamp, tz: Zone)
    requires last.title != NoDataTitle
    requires Programmes(Walk(init, start, tz)) == init
    ensures Programmes(Walk(init + [last], start, tz)) == init + [last]
  {
    var ps := init + [last];
    var step := Step(Cursor(init, start, tz), last, tz);
    assert Walk(ps, start, tz) == Walk(init, start, tz) + step by {
      assert ps[..|ps| - 1] == init;
    }
    ProgrammesAppend(Walk(init, start, tz), step);
    ProgrammesStep(Cursor(init, start, tz), last, tz);
  }

  lemma FillDayKeepsProgrammes(ps: seq<Program>, dayStart: Stamp, dayEnd: Stamp, trailChannel: string, tz: Zone)
    requires NoFillerTitles(ps)
    ensures Programmes(FillDay(ps, dayStart, dayEnd, trailChannel, tz)) == ps
  {
    var c := Cursor(ps, dayStart, tz);
    var tail := if c.Instant() < dayEnd.Instant() then [NoDataProgram(c, dayEnd, trailChannel)] else [];
    WalkKeepsProgrammes(ps, dayStart, tz);
    ProgrammesAppend(Walk(ps, dayStart, tz), tail);
    if tail != [] {
      assert tail[..0] == [];
    }
  }

  /** A filler spanning a non-empty interval. */
  predicate IsGapFiller(o: Program, tz: Zone) {
    IsNoData(o) && InstantOf(o.start_time, tz) < InstantOf(o.end_time, tz)
  }

  /** Every record of a filled day is an input programme or a non-empty filler. */
  lemma {:induction false} FillDayRecords(ps: seq<Program>, dayStart: Stamp, dayEnd: Stamp, trailChannel: string, tz: Zone)
    ensures forall o :: o in FillDay(ps, dayStart, dayEnd, trailChannel, tz) ==> o in ps || IsGapFiller(o, tz)
  {
    WalkRecords(ps, dayStart, tz);
  }

  lemma {:induction false} WalkRecords(ps: seq<Program>, start: Stamp, tz: Zone)
    ensures forall o :: o in Walk(ps, start, tz) ==> o in ps || IsGapFiller(o, tz)
  {
    if ps != [] {
      var init := ps[..|ps| - 1];
      WalkRecords(init, start, tz);
      forall o | o in init ensures o in ps {
        var k :| 0 <= k < |init| && init[k] == o;
        assert ps[k] == o;
      }
    }
  }

  /** The number of records is the number of programmes plus at most one
      filler before each and one at the end. */
  lemma {:induction false} FillDayLength(ps: seq<Program>, dayStart: Stamp, dayEnd: Stamp, trailChannel: string, tz: Zone)
    ensures |ps| <= |FillDay(ps, dayStart, dayEnd, trailChannel, tz)| <= 2 * |ps| + 1
  {
    WalkLength(ps, dayStart, tz);
  }

  lemma {:induction false} WalkLength(ps: seq<Program>, start: Stamp, tz: Zone)
    ensures |ps| <= |Walk(ps, start, tz)| <= 2 * |ps|
  {
    if ps != [] {
      WalkLength(ps[..|ps| - 1], start, tz);
    }
  }

  /** `out` runs without gap or overlap from instant `from` to instant `to`. */
  ghost predicate Chain(out: seq<Program>, from: int, to: int, tz: Zone) {
    if out == [] then from == to
    else
      && InstantOf(out[0].start_time, tz) == from
      && InstantOf(out[|out| - 1].end_time, tz) == to
      && forall k :: 0 <= k < |out| - 1 ==> InstantOf(out[k].end_time, tz) == InstantOf(out[k + 1].start_time, tz)
  }

  lemma ChainAppend(a: seq<Program>, b: seq<Program>, x: int, y: int, z: int, tz: Zone)
    requires Chain(a, x, y, tz) && Chain(b, y, z, tz)
    ensures Chain(a + b, x, z, tz)
  {
    if a != [] && b != [] {
      var ab := a + b;
      forall k | 0 <= k < |ab| - 1 ensures InstantOf(ab[k].end_time, tz) == InstantOf(ab[k + 1].start_time, tz) {
        if k < |a| - 1 {
        } else if k == |a| - 1 {
        } else {
          assert ab[k] == b[k - |a|] && ab[k + 1] == b[k + 1 - |a|];
        }
      }
    } else if a == [] {
      assert a + b == b;
    } else {
      assert a + b == a;
    }
  }

  /** Programmes that start no earlier than the day, each ending no later
      than the next one starts. */
  ghost predicate Ordered(ps: seq<Program>, dayStart: Stamp, tz: Zone) {
    && (ps != [] ==> dayStart.Instant() <= InstantOf(ps[0].start_time, tz))
    && forall k :: 0 <= k < |ps| - 1 ==> InstantOf(ps[k].end_time, tz) <= InstantOf(ps[k + 1].start_time, tz)
  }

  lemma {:induction false} WalkChain(ps: seq<Program>, start: Stamp, tz: Zone)
    requires Ordered(ps, start, tz)
    requires forall k :: 0 <= k < |ps| ==> InstantOf(ps[k].start_time, tz) <= InstantOf(ps[k].end_time, tz)
    ensures Chain(Walk(ps, start, tz), start.Instant(), Cursor(ps, start, tz).Instant(), tz)
  {
    if ps != [] {
      var init := ps[..|ps| - 1];
      var p := ps[|ps| - 1];
      assert Ordered(init, start, tz);
      WalkChain(init, start, tz);
      var c := Cursor(init, start, tz);
      var ps0 := ParseDatetime(p.start_time, tz);
      assert c.Instant() <= ps0.Instant() by {
        if init != [] {
          assert ps[|ps| - 2] == init[|init| - 1];
        }
      }
      var step := Step(c, p, tz);
      assert Chain(step, c.Instant(), InstantOf(p.end_time, tz), tz) by {
        if c.Instant() < ps0.Instant() {
          var f := NoDataProgram(c, ps0, p.channel);
          assert step == [f, p];
          assert InstantOf(f.start_time, tz) == c.Instant();
          assert InstantOf(f.end_time, tz) == ps0.Instant();
        }
      }
      ChainAppend(Walk(init, start, tz), step, start.Instant(), c.Instant(), InstantOf(p.end_time, tz), tz);
    }
  }

  /** For programmes in order within the day, the filled day covers it
      exactly: from 00:00:00 to 23:59:59 with no gap and no overlap. */
  lemma FillDayTiles(ps: seq<Program>, dayStart: Stamp, dayEnd: Stamp, trailChannel: string, tz: Zone)
    requires dayStart.Instant() < dayEnd.Instant()
    requires Ordered(ps, dayStart, tz)
    requires forall k :: 0 <= k < |ps| ==> InstantOf(ps[k].start_time, tz) <= InstantOf(ps[k].end_time, tz)
    requires ps != [] ==> InstantOf(ps[|ps| - 1].end_time, tz) <= dayEnd.Instant()
    ensures Chain(FillDay(ps, dayStart, dayEnd, trailChannel, tz), dayStart.Instant(), dayEnd.Instant(), tz)
  {
    WalkChain(ps, dayStart, tz);
    var c := Cursor(ps, dayStart, tz);
    if c.Instant() < dayEnd.Instant() {
      var f := NoDataProgram(c, dayEnd, trailChannel);
      assert InstantOf(f.start_time, tz) == c.Instant();
      assert Chain([f], c.Instant(), dayEnd.Instant(), tz);
      ChainAppend(Walk(ps, dayStart, tz), [f], dayStart.Instant(), c.Instant(), dayEnd.Instant(), tz);
    } else {
      assert FillDay(ps, dayStart, dayEnd, trailChannel, tz) == Walk(ps, dayStart, tz);
    }
  }

  /** Because the cursor becomes the end of the last programme rather than
      the latest end so far, a programme nested inside another lets the
      trailing filler start inside the outer one, overlapping it. */
  lemma NestedProgrammeOverlap(outer: Program, inner: Program, dayStart: Stamp, dayEnd: Stamp, trailChannel: string, tz: Zone)
    requires dayStart.Instant() <= InstantOf(outer.start_time, tz) <= InstantOf(inner.start_time, tz)
    requires InstantOf(inner.start_time, tz) <= InstantOf(inner.end_time, tz)
    requires InstantOf(inner.end_time, tz) < InstantOf(outer.end_time, tz) <= dayEnd.Instant()
    ensures var out := FillDay([outer, inner], dayStart, dayEnd, trailChannel, tz);
      && |out| >= 3 && out[|out| - 3] == outer && out[|out| - 2] == inner && IsNoData(out[|out| - 1])
      && InstantOf(out[|out| - 1].start_time, tz) == InstantOf(inner.end_time, tz)
      && InstantOf(out[|out| - 1].start_time, tz) < InstantOf(outer.end_time, tz)
  {
    var ps := [outer, inner];
    assert ps[..1] == [outer];
    assert [outer][..0] == [];
    var w1 := Walk([outer], dayStart, tz);
    assert w1 == Walk([], dayStart, tz) + Step(Cursor([], dayStart, tz), outer, tz);
    assert w1[|w1| - 1] == outer;
    assert Cursor([outer], dayStart, tz) == ParseDatetime(outer.end_time, tz);
    assert Step(ParseDatetime(outer.end_time, tz), inner, tz) == [inner];
    assert Walk(ps, dayStart, tz) == w1 + [inner];
    var c := Cursor(ps, dayStart, tz);
    assert c == ParseDatetime(inner.end_time, tz);
    var f := NoDataProgram(c, dayEnd, trailChannel);
    assert FillDay(ps, dayStart, dayEnd, trailChannel, tz) == w1 + [inner, f];
  }

  // ---------------------------------------------------------------------------
  // Grouping by local date (and channel)
  // ---------------------------------------------------------------------------

  /** The grouping key: the date part of `start_time`. */
  function DateKey(p: Program): Date { Date(DayOf(p.start_time.wall)) }

  function ChannelOf(p: Program): string { p.channel }

  /** The sort key `x["start_time"]`, compared by wall clock. The backend
      sorts the ISO text of `start_time`; the two orders agree except on two
      starts with the same wall clock and different offsets (the repeated
      hour when daylight saving ends), which the text orders by offset and
      this order leaves tied. */
  function ByStart(a: Program, b: Program): bool { a.start_time.wall <= b.start_time.wall }

  lemma ByStartPreorder()
    ensures TotalPreorder(ByStart)
  {
  }

  /** 00:00:00 and 23:59:59 of day `d`, localized. */
  function DayStart(d: Date, tz: Zone): Stamp { Localize(d.day * DaySeconds, tz) }
  function DayEnd(d: Date, tz: Zone): Stamp { Localize(d.day * DaySeconds + LastSecond, tz) }

  /** The programmes dated `d`, in input order. */
  function OnDate(ps: seq<Program>, d: Date): seq<Program> {
    if ps == [] then []
    else OnDate(ps[..|ps| - 1], d) + (if DateKey(ps[|ps| - 1]) == d then [ps[|ps| - 1]] else [])
  }

  /** The programmes dated `d` on channel `c`, in input order. */
  function OnDateChannel(ps: seq<Program>, d: Date, c: string): seq<Program> {
    if ps == [] then []
    else OnDateChannel(ps[..|ps| - 1], d, c)
         + (if DateKey(ps[|ps| - 1]) == d && ps[|ps| - 1].channel == c then [ps[|ps| - 1]] else [])
  }

  /** A date's group holds exactly the input programmes of that date. */
  lemma {:induction false} OnDateMembers(ps: seq<Program>, d: Date)
    ensures forall p :: p in OnDate(ps, d) <==> p in ps && DateKey(p) == d
  {
    if ps != [] {
      var init := ps[..|ps| - 1];
      OnDateMembers(init, d);
      assert ps == init + [ps[|ps| - 1]];
    }
  }

  /** A (date, channel) group holds exactly the input programmes of that date on that channel. */
  lemma {:induction false} OnDateChannelMembers(ps: seq<Program>, d: Date, c: string)
    ensures forall p :: p in OnDateChannel(ps, d, c) <==> p in ps && DateKey(p) == d && p.channel == c
  {
    if ps != [] {
      var init := ps[..|ps| - 1];
      OnDateChannelMembers(init, d, c);
      assert ps == init + [ps[|ps| - 1]];
    }
  }

  /** The records `group_and_fill_programs` gives date `d`; the trailing
      filler takes the channel of the last programme. */
  function FillDate(ps: seq<Program>, d: Date, tz: Zone): seq<Program> {
    FillGroup(OnDate(ps, d), d, tz)
  }

  /** One date's group sorted by start and filled from 00:00:00 to 23:59:59. */
  function FillGroup(group: seq<Program>, d: Date, tz: Zone): seq<Program> {
    var sorted := SortBy(group, ByStart);
    var trail := if sorted == [] then "" else sorted[|sorted| - 1].channel;
    FillDay(sorted, DayStart(d, tz), DayEnd(d, tz), trail, tz)
  }

  /** The records `group_and_fill_programschannels` gives date `d`, channel `c`. */
  function FillDateChannel(ps: seq<Program>, d: Date, c: string, tz: Zone): seq<Program> {
    FillDay(SortBy(OnDateChannel(ps, d, c), ByStart), DayStart(d, tz), DayEnd(d, tz), c, tz)
  }

  /** The dict `grouped` of `group_and_fill_programs` after its first loop. */
  function ByDate(ps: seq<Program>): map<Date, seq<Program>> {
    if ps == [] then map[]
    else
      var m := ByDate(ps[..|ps| - 1]);
      var p := ps[|ps| - 1];
      m[DateKey(p) := (if DateKey(p) in m then m[DateKey(p)] else []) + [p]]
  }

  /** The first loop files each programme under its date, in input order. */
  lemma {:induction false} ByDateGroups(ps: seq<Program>)
    ensures ByDate(ps).Keys == KeySet(ps, DateKey)
    ensures forall d :: d in ByDate(ps) ==> ByDate(ps)[d] == OnDate(ps, d)
    ensures forall d :: d !in ByDate(ps) ==> OnDate(ps, d) == []
  {
    if ps != [] {
      ByDateGroups(ps[..|ps| - 1]);
    }
  }

  method GroupByDate(programs: seq<Program>) returns (groups: map<Date, seq<Program>>)
    ensures groups == ByDate(programs)
  {
    groups := map[];
    var i := 0;
    while i < |programs|
      invariant 0 <= i <= |programs|
      invariant groups == ByDate(programs[..i])
    {
      var program := programs[i];
      var date := DateKey(program);
      var current := if date in groups then groups[date] else [];
      groups := groups[date := current + [program]];
      assert programs[..i + 1][..i] == programs[..i];
      i := i + 1;
    }
    assert programs[..i] == programs;
  }

  /** The second loop of `group_and_fill_programs` on one date's group. */
  method FillDayGroup(date: Date, group: seq<Program>, tz: Zone) returns (filled: seq<Program>)
    requires group != []
    ensures filled == FillGroup(group, date, tz)
  {
    var dayPrograms := SortBy(group, ByStart);
    var current;
    filled, current := WalkDay(dayPrograms, DayStart(date, tz), tz);
    var dayEnd := DayEnd(date, tz);
    if current.Instant() < dayEnd.Instant() {
      filled := filled + [NoDataProgram(current, dayEnd, dayPrograms[|dayPrograms| - 1].channel)];
    }
  }

  /** What `group_and_fill_programs` returns: every group of `ByDate` filled. */
  function Grouped(ps: seq<Program>, tz: Zone): map<Date, seq<Program>> {
    map d | d in ByDate(ps) :: FillGroup(ByDate(ps)[d], d, tz)
  }

  /** Each date of the input maps to its own programmes, sorted and filled. */
  lemma GroupedDates(ps: seq<Program>, tz: Zone)
    ensures Grouped(ps, tz).Keys == KeySet(ps, DateKey)
    ensures forall d :: d in Grouped(ps, tz) ==> Grouped(ps, tz)[d] == FillDate(ps, d, tz)
  {
    ByDateGroups(ps);
  }

  /** `group_and_fill_programs` for an already resolved zone. */
  method GroupAndFillPrograms(programs: seq<Program>, tz: Zone) returns (grouped: map<Date, seq<Program>>)
    ensures grouped == Grouped(programs, tz)
  {
    var groups := GroupByDate(programs);
    grouped := map[];
    var todo := groups.Keys;
    while todo != {}
      invariant todo <= groups.Keys
      invariant grouped.Keys == groups.Keys - todo
      invariant forall d :: d in grouped ==> grouped[d] == FillGroup(groups[d], d, tz)
      decreases todo
    {
      var date :| date in todo;
      ByDateNonEmpty(programs, date);
      var filled := FillDayGroup(date, groups[date], tz);
      grouped := grouped[date := filled];
      todo := todo - {date};
    }
  }

  /** No date's group is empty. */
  lemma {:induction false} ByDateNonEmpty(ps: seq<Program>, d: Date)
    requires d in ByDate(ps)
    ensures ByDate(ps)[d] != []
  {
    var init := ps[..|ps| - 1];
    if d in ByDate(init) {
      ByDateNonEmpty(init, d);
    }
  }

  lemma OnDateNonEmpty(ps: seq<Program>, d: Date)
    requires d in KeySet(ps, DateKey)
    ensures OnDate(ps, d) != []
  {
    KeySetMembers(ps, DateKey);
    var i :| 0 <= i < |ps| && DateKey(ps[i]) == d;
    OnDateMembers(ps, d);
    assert ps[i] in OnDate(ps, d);
  }

  /** The dict `grouped` of `group_and_fill_programschannels` after its first loop. */
  function ByDateChannel(ps: seq<Program>): map<Date, map<string, seq<Program>>> {
    if ps == [] then map[]
    else
      var m := ByDateChannel(ps[..|ps| - 1]);
      var p := ps[|ps| - 1];
      var channels := if DateKey(p) in m then m[DateKey(p)] else map[];
      m[DateKey(p) := channels[p.channel := (if p.channel in channels then channels[p.channel] else []) + [p]]]
  }

  lemma KeySetSnoc<T, K>(s: seq<T>, x: T, key: T -> K)
    ensures KeySet(s + [x], key) == KeySet(s, key) + {key(x)}
  {
    assert (s + [x])[..|s|] == s;
  }

  /** The first loop of `group_and_fill_programschannels` creates one entry per date of the input. */
  lemma {:induction false} ByDateChannelKeys(ps: seq<Program>)
    ensures ByDateChannel(ps).Keys == KeySet(ps, DateKey)
  {
    if ps != [] {
      ByDateChannelKeys(ps[..|ps| - 1]);
    }
  }

  /** A date's entry holds one channel per channel of that date's programmes. */
  lemma {:induction false} ByDateChannelChannels(ps: seq<Program>, d: Date)
    requires d in ByDateChannel(ps)
    ensures ByDateChannel(ps)[d].Keys == KeySet(OnDate(ps, d), ChannelOf)
  {
    var init := ps[..|ps| - 1];
    var p := ps[|ps| - 1];
    if DateKey(p) == d {
      assert OnDate(ps, d) == OnDate(init, d) + [p];
      KeySetSnoc(OnDate(init, d), p, ChannelOf);
      if d in ByDateChannel(init) {
        ByDateChannelChannels(init, d);
      } else {
        ByDateChannelCell(init, d, p.channel);
        OnDateEmpty(init, d);
      }
    } else {
      assert OnDate(ps, d) == OnDate(init, d);
      ByDateChannelChannels(init, d);
    }
  }

  /** Without an entry for the date, the date has no programmes. */
  lemma {:induction false} OnDateEmpty(ps: seq<Program>, d: Date)
    requires d !in ByDateChannel(ps)
    ensures OnDate(ps, d) == []
  {
    if ps != [] {
      OnDateEmpty(ps[..|ps| - 1], d);
    }
  }

  /** Each (date, channel) cell holds exactly the input programmes of that
      date on that channel, in input order; absent cells have none. */
  lemma {:induction false} ByDateChannelCell(ps: seq<Program>, d: Date, c: string)
    ensures OnDateChannel(ps, d, c) ==
      if d in ByDateChannel(ps) && c in ByDateChannel(ps)[d] then ByDateChannel(ps)[d][c] else []
  {
    if ps != [] {
      ByDateChannelCell(ps[..|ps| - 1], d, c);
    }
  }

  method GroupByDateChannel(programs: seq<Program>) returns (groups: map<Date, map<string, seq<Program>>>)
    ensures groups == ByDateChannel(programs)
  {
    groups := map[];
    var i := 0;
    while i < |programs|
      invariant 0 <= i <= |programs|
      invariant groups == ByDateChannel(programs[..i])
    {
      var program := programs[i];
      var date := DateKey(program);
      var channel := program.channel;
      var channels := if date in groups then groups[date] else map[];
      var current := if channel in channels then channels[channel] else [];
      groups := groups[date := channels[channel := current + [program]]];
      assert programs[..i + 1][..i] == programs[..i];
      i := i + 1;
    }
    assert programs[..i] == programs;
  }

  /** The inner loop of `group_and_fill_programschannels` for one date. */
  function FilledChannels(date: Date, channels: map<string, seq<Program>>, tz: Zone): map<string, seq<Program>> {
    map c | c in channels :: FillDay(SortBy(channels[c], ByStart), DayStart(date, tz), DayEnd(date, tz), c, tz)
  }

  method FillChannels(date: Date, channels: map<string, seq<Program>>, tz: Zone) returns (filled: map<string, seq<Program>>)
    ensures filled == FilledChannels(date, channels, tz)
  {
    var dayStart := DayStart(date, tz);
    var dayEnd := DayEnd(date, tz);
    filled := map[];
    var todo := channels.Keys;
    while todo != {}
      invariant todo <= channels.Keys
      invariant filled.Keys == channels.Keys - todo
      invariant forall c :: c in filled ==>
        filled[c] == FillDay(SortBy(channels[c], ByStart), dayStart, dayEnd, c, tz)
      decreases todo
    {
      var channel :| channel in todo;
      var channelPrograms := SortBy(channels[channel], ByStart);
      var records, current := WalkDay(channelPrograms, dayStart, tz);
      if current.Instant() < dayEnd.Instant() {
        records := records + [NoDataProgram(current, dayEnd, channel)];
      }
      assert records == FillDay(channelPrograms, dayStart, dayEnd, channel, tz);
      filled := filled[channel := records];
      todo := todo - {channel};
    }
  }

  /** What `group_and_fill_programschannels` returns: every channel of every date filled. */
  function GroupedChannels(ps: seq<Program>, tz: Zone): map<Date, map<string, seq<Program>>> {
    map d | d in ByDateChannel(ps) :: FilledChannels(d, ByDateChannel(ps)[d], tz)
  }

  /** Each date of the input maps to its channels, and each channel to its
      own programmes of that date, sorted and filled. */
  lemma GroupedChannelsDates(ps: seq<Program>, tz: Zone)
    ensures GroupedChannels(ps, tz).Keys == KeySet(ps, DateKey)
    ensures forall d :: d in GroupedChannels(ps, tz) ==> GroupedChannels(ps, tz)[d].Keys == KeySet(OnDate(ps, d), ChannelOf)
    ensures forall d, c :: d in GroupedChannels(ps, tz) && c in GroupedChannels(ps, tz)[d] ==>
      GroupedChannels(ps, tz)[d][c] == FillDateChannel(ps, d, c, tz)
  {
    ByDateChannelKeys(ps);
    forall d | d in GroupedChannels(ps, tz)
      ensures GroupedChannels(ps, tz)[d].Keys == KeySet(OnDate(ps, d), ChannelOf)
    {
      ByDateChannelChannels(ps, d);
    }
    forall d, c | d in GroupedChannels(ps, tz) && c in GroupedChannels(ps, tz)[d]
      ensures GroupedChannels(ps, tz)[d][c] == FillDateChannel(ps, d, c, tz)
    {
      ByDateChannelCell(ps, d, c);
    }
  }

  /** `group_and_fill_programschannels` for an already resolved zone. */
  method GroupAndFillProgramsChannels(programs: seq<Program>, tz: Zone)
    returns (grouped: map<Date, map<string, seq<Program>>>)
    ensures grouped == GroupedChannels(programs, tz)
  {
    var groups := GroupByDateChannel(programs);
    grouped := map[];
    var todo := groups.Keys;
    while todo != {}
      invariant todo <= groups.Keys
      invariant grouped.Keys == groups.Keys - todo
      invariant forall d :: d in grouped ==> grouped[d] == FilledChannels(d, groups[d], tz)
      decreases todo
    {
      var date :| date in todo;
      var filled := FillChannels(date, groups[date], tz);
      grouped := grouped[date := filled];
      todo := todo - {date};
    }
  }

  /** Every programme of a filled date is one of that date's programmes,
      each exactly once, sorted by start. */
  lemma FillDateProgrammes(ps: seq<Program>, d: Date, tz: Zone)
    requires NoFillerTitles(ps)
    ensures var kept := Programmes(FillDate(ps, d, tz));
      && SortedBy(kept, ByStart)
      && multiset(kept) == multiset(OnDate(ps, d))
  {
    var group := OnDate(ps, d);
    var sorted := SortBy(group, ByStart);
    NoFillerTitlesOnDate(ps, d);
    NoFillerTitlesPermuted(group, sorted);
    var trail := if sorted == [] then "" else sorted[|sorted| - 1].channel;
    FillDayKeepsProgrammes(sorted, DayStart(d, tz), DayEnd(d, tz), trail, tz);
    ByStartPreorder();
    SortBySorted(group, ByStart);
  }

  lemma {:induction false} NoFillerTitlesOnDate(ps: seq<Program>, d: Date)
    requires NoFillerTitles(ps)
    ensures NoFillerTitles(OnDate(ps, d))
  {
    if ps != [] {
      NoFillerTitlesInit(ps);
      NoFillerTitlesOnDate(ps[..|ps| - 1], d);
    }
  }

  lemma NoFillerTitlesPermuted(a: seq<Program>, b: seq<Program>)
    requires NoFillerTitles(a) && multiset(a) == multiset(b)
    ensures NoFillerTitles(b)
  {
    forall i | 0 <= i < |b| ensures b[i].title != NoDataTitle {
      assert b[i] in multiset(a);
      var j :| 0 <= j < |a| && a[j] == b[i];
    }
  }

  /** Every record filed under a channel, filler or programme, carries that channel. */
  lemma FillDateChannelChannel(ps: seq<Program>, d: Date, c: string, tz: Zone)
    ensures forall o :: o in FillDateChannel(ps, d, c, tz) ==> o.channel == c
  {
    var sorted := SortBy(OnDateChannel(ps, d, c), ByStart);
    OnDateChannelMembers(ps, d, c);
    forall p | p in sorted ensures p.channel == c {
      assert p in multiset(OnDateChannel(ps, d, c));
    }
    WalkChannel(sorted, DayStart(d, tz), c, tz);
  }

  lemma {:induction false} WalkChannel(ps: seq<Program>, start: Stamp, c: string, tz: Zone)
    requires forall p :: p in ps ==> p.channel == c
    ensures forall o :: o in Walk(ps, start, tz) ==> o.channel == c
  {
    if ps != [] {
      var init := ps[..|ps| - 1];
      forall p | p in init ensures p.channel == c {
        var k :| 0 <= k < |init| && init[k] == p;
        assert ps[k] == p;
      }
      WalkChannel(init, start, c, tz);
    }
  }

  /** The trailing filler of a date in `group_and_fill_programs` takes the
      channel of the date's last programme in start order. */
  lemma FillDateTrailingChannel(ps: seq<Program>, d: Date, tz: Zone)
    requires d in KeySet(ps, DateKey)
    ensures var sorted := SortBy(OnDate(ps, d), ByStart);
      var out := FillDate(ps, d, tz);
      var c := Cursor(sorted, DayStart(d, tz), tz);
      && sorted != []
      && (c.Instant() < DayEnd(d, tz).Instant() ==>
        && IsNoData(out[|out| - 1])
        && out[|out| - 1].channel == sorted[|sorted| - 1].channel
        && InstantOf(out[|out| - 1].end_time, tz) == DayEnd(d, tz).Instant())
  {
    OnDateNonEmpty(ps, d);
  }
}
