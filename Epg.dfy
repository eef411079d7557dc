/** The guide queries of backend/app/routers/epg.py: the date-overlap test,
    the channel slug list, the sports and movies category tests, the
    by-channel selection and the sports/movies look-ahead window with its
    nested per-channel, per-date grouping.

    Loading the JSON files, resolving the timezone name and reading the clock
    happen before these functions; their results are parameters. */
module Epg {
  import opened Wrappers
  import opened Text
  import opened Seqs
  import opened Records
  import opened TimeUtils

  /** What a route ends with other than a response: a Python exception, or
      `ProgrammingNotFoundError`. */
  datatype EpgError = Raised(error: Error) | ProgrammingNotFound

  // ---------------------------------------------------------------------------
  // Timestamps of a programme record
  // ---------------------------------------------------------------------------

  /** `datetime.fromisoformat(program[key].replace("Z", "+00:00"))`; `parse`
      stands for that conversion of the text, `None` for its ValueError. */
  function TimeField(p: Record, key: string, parse: string -> Option<Time>): (r: Result<Time, Error>)
    ensures key !in p ==> r == Failure(KeyError(key))
    ensures key in p && !p[key].Str? ==> r == Failure(AttributeError)
    ensures key in p && p[key].Str? && parse(p[key].s).None? ==> r == Failure(ValueError(p[key].s))
    ensures r.Success? <==> key in p && p[key].Str? && parse(p[key].s).Some?
    ensures r.Success? ==> Some(r.value) == parse(p[key].s)
  {
    if key !in p then Failure(KeyError(key))
    else match p[key]
      case Str(s) =>
        (match parse(s)
         case Some(t) => Success(t)
         case None => Failure(ValueError(s)))
      case _ => Failure(AttributeError)
  }

  // ---------------------------------------------------------------------------
  // program_overlaps_date
  // ---------------------------------------------------------------------------

  /** `x` lies in the closed interval from `a` to `b`. */
  predicate InSpan(x: int, a: int, b: int) { a <= x <= b }

  /** `program_overlaps_date`: the programme starts no later than 23:59:59
      and ends no earlier than 00:00:00 of `date` in zone `tz`. Naive texts
      are read in the machine's zone `system`. Whole seconds make the bound
      23:59:59.999999 the same as 23:59:59. */
  function ProgramOverlapsDate(p: Record, date: Date, tz: Zone, system: Zone, parse: string -> Option<Time>): (r: Result<bool, Error>)
    ensures TimeField(p, "start_time", parse).Failure? ==> r == Failure(TimeField(p, "start_time", parse).error)
    ensures TimeField(p, "start_time", parse).Success? && TimeField(p, "end_time", parse).Failure? ==>
      r == Failure(TimeField(p, "end_time", parse).error)
    ensures r.Success? <==> TimeField(p, "start_time", parse).Success? && TimeField(p, "end_time", parse).Success?
  {
    match TimeField(p, "start_time", parse)
    case Failure(e) => Failure(e)
    case Success(start) =>
      match TimeField(p, "end_time", parse)
      case Failure(e) => Failure(e)
      case Success(end) =>
        Success(TimeInstant(start, system) <= DayEnd(date, tz).Instant()
                && TimeInstant(end, system) >= DayStart(date, tz).Instant())
  }

  /** For a programme that does not end before it starts, on a date whose
      local midnight precedes its local 23:59:59, the test holds exactly when
      the programme and the date share an instant. */
  lemma OverlapsShareInstant(p: Record, date: Date, tz: Zone, system: Zone, parse: string -> Option<Time>)
    requires ProgramOverlapsDate(p, date, tz, system, parse).Success?
    requires TimeInstant(TimeField(p, "start_time", parse).value, system) <= TimeInstant(TimeField(p, "end_time", parse).value, system)
    requires DayStart(date, tz).Instant() <= DayEnd(date, tz).Instant()
    ensures var s, e := TimeInstant(TimeField(p, "start_time", parse).value, system), TimeInstant(TimeField(p, "end_time", parse).value, system);
      ProgramOverlapsDate(p, date, tz, system, parse).value <==>
        exists x :: InSpan(x, s, e) && InSpan(x, DayStart(date, tz).Instant(), DayEnd(date, tz).Instant())
  {
    var s, e := TimeInstant(TimeField(p, "start_time", parse).value, system), TimeInstant(TimeField(p, "end_time", parse).value, system);
    var a, b := DayStart(date, tz).Instant(), DayEnd(date, tz).Instant();
    if s <= b && e >= a {
      var x := if s < a then a else s;
      assert InSpan(x, s, e) && InSpan(x, a, b);
    }
  }

  // ---------------------------------------------------------------------------
  // get_all_channels
  // ---------------------------------------------------------------------------

  /** `[channel["channel_slug"] for channel in channels_data]`. */
  function GetAllChannels(channels: seq<Record>): (r: Result<seq<Value>, Error>)
    ensures r.Failure? <==> exists i | 0 <= i < |channels| :: "channel_slug" !in channels[i]
    ensures r.Failure? ==> r.error == KeyError("channel_slug")
    ensures r.Success? ==> |r.value| == |channels|
    ensures r.Success? ==> forall i | 0 <= i < |channels| :: r.value[i] == channels[i]["channel_slug"]
  {
    if channels == [] then Success([])
    else if "channel_slug" !in channels[0] then Failure(KeyError("channel_slug"))
    else
      match GetAllChannels(channels[1..])
      case Failure(e) => Failure(e)
      case Success(rest) =>
        assert forall i | 1 <= i < |channels| :: channels[i] == channels[1..][i - 1];
        Success([channels[0]["channel_slug"]] + rest)
  }

  // ---------------------------------------------------------------------------
  // is_sports_program / is_movies_program
  // ---------------------------------------------------------------------------

  const SportsKeywords: seq<string> := ["sports", "sport", "athletic", "match", "race", "tournament"]
  const MoviesKeywords: seq<string> := ["movie"]

  function LowerText(v: Value): string {
    if v.Str? then Lower(v.s) else ""
  }

  function LowerLetter(c: char): string {
    [LowerChar(c)]
  }

  /** The texts `cat.lower() for cat in program["categories"]` yields: a list
      must hold only texts (anything else has no `lower`), a text is iterated
      character by character, and `None` or a number is not iterable. */
  function CategoryTexts(v: Value): (r: Result<seq<string>, Error>)
    ensures v.List? ==> (r.Success? <==> forall i | 0 <= i < |v.items| :: v.items[i].Str?)
    ensures v.List? && r.Success? ==> |r.value| == |v.items| && forall i | 0 <= i < |v.items| :: r.value[i] == Lower(v.items[i].s)
    ensures v.List? && r.Failure? ==> r.error == AttributeError
    ensures v.Str? ==> r.Success? && |r.value| == |v.s| && forall i | 0 <= i < |v.s| :: r.value[i] == [LowerChar(v.s[i])]
    ensures !v.List? && !v.Str? ==> r == Failure(TypeError)
  {
    match v
    case List(items) =>
      if forall i | 0 <= i < |items| :: items[i].Str? then Success(MapSeq(items, LowerText))
      else Failure(AttributeError)
    case Str(s) => Success(MapSeq(s, LowerLetter))
    case _ => Failure(TypeError)
  }

  /** `" ".join(...)` of the lowered categories, `None` without the key. */
  function CategoriesText(p: Record): Result<Option<string>, Error> {
    if "categories" !in p then Success(None)
    else
      match CategoryTexts(p["categories"])
      case Failure(e) => Failure(e)
      case Success(ts) => Success(Some(Join(ts, " ")))
  }

  /** `any(keyword in text for keyword in keywords)`. */
  predicate AnyKeyword(text: string, keywords: seq<string>) {
    exists k | 0 <= k < |keywords| :: Contains(text, keywords[k])
  }

  /** The test both predicates share, over their keyword lists. */
  function HasKeyword(p: Record, keywords: seq<string>): (r: Result<bool, Error>)
    ensures "categories" !in p ==> r == Success(false)
  {
    match CategoriesText(p)
    case Failure(e) => Failure(e)
    case Success(None) => Success(false)
    case Success(Some(text)) => Success(AnyKeyword(text, keywords))
  }

  /** `is_sports_program`. */
  function IsSportsProgram(p: Record): Result<bool, Error> {
    HasKeyword(p, SportsKeywords)
  }

  /** `is_movies_program`. */
  function IsMoviesProgram(p: Record): Result<bool, Error> {
    HasKeyword(p, MoviesKeywords)
  }

  /** Keywords that are not empty and hold no space. */
  predicate PlainWords(keywords: seq<string>) {
    forall k | 0 <= k < |keywords| :: keywords[k] != [] && ' ' !in keywords[k]
  }

  /** Some lowered category contains some keyword. */
  predicate SomeCategoryHas(ts: seq<string>, keywords: seq<string>) {
    exists i, k | 0 <= i < |ts| && 0 <= k < |keywords| :: Contains(ts[i], keywords[k])
  }

  /** For keywords without spaces the joined text matches exactly when a
      single lowered category contains a keyword: joining with a space cannot
      create a match across two categories. */
  lemma HasKeywordIff(p: Record, keywords: seq<string>)
    requires PlainWords(keywords)
    requires "categories" in p && CategoryTexts(p["categories"]).Success?
    ensures HasKeyword(p, keywords) == Success(SomeCategoryHas(CategoryTexts(p["categories"]).value, keywords))
  {
    var ts := CategoryTexts(p["categories"]).value;
    var text := Join(ts, " ");
    if SomeCategoryHas(ts, keywords) {
      var i, k :| 0 <= i < |ts| && 0 <= k < |keywords| && Contains(ts[i], keywords[k]);
      JoinContains(ts, " ", i);
      ContainsTransitive(text, ts[i], keywords[k]);
    }
    if AnyKeyword(text, keywords) {
      var k :| 0 <= k < |keywords| && Contains(text, keywords[k]);
      ContainedInPart(ts, ' ', keywords[k]);
    }
  }

  lemma SportsKeywordsPlain()
    ensures PlainWords(SportsKeywords)
  {
  }

  lemma MoviesKeywordsPlain()
    ensures PlainWords(MoviesKeywords)
  {
  }

  /** `is_sports_program` holds exactly when some category, lowered, contains
      one of the sports keywords; it is false without categories. */
  lemma IsSportsProgramIff(p: Record)
    ensures "categories" !in p ==> IsSportsProgram(p) == Success(false)
    ensures "categories" in p && CategoryTexts(p["categories"]).Success? ==>
      IsSportsProgram(p) == Success(SomeCategoryHas(CategoryTexts(p["categories"]).value, SportsKeywords))
    ensures "categories" in p && CategoryTexts(p["categories"]).Failure? ==>
      IsSportsProgram(p) == Failure(CategoryTexts(p["categories"]).error)
  {
    if "categories" in p && CategoryTexts(p["categories"]).Success? {
      SportsKeywordsPlain();
      HasKeywordIff(p, SportsKeywords);
    }
  }

  /** `is_movies_program` holds exactly when some category, lowered, contains
      "movie"; it is false without categories. */
  lemma IsMoviesProgramIff(p: Record)
    ensures "categories" !in p ==> IsMoviesProgram(p) == Success(false)
    ensures "categories" in p && CategoryTexts(p["categories"]).Success? ==>
      IsMoviesProgram(p) == Success(SomeCategoryHas(CategoryTexts(p["categories"]).value, MoviesKeywords))
    ensures "categories" in p && CategoryTexts(p["categories"]).Failure? ==>
      IsMoviesProgram(p) == Failure(CategoryTexts(p["categories"]).error)
  {
    if "categories" in p && CategoryTexts(p["categories"]).Success? {
      MoviesKeywordsPlain();
      HasKeywordIff(p, MoviesKeywords);
    }
  }

  /** "sports" adds nothing to the list: every text containing it contains "sport". */
  lemma SportsKeywordRedundant(p: Record)
    ensures IsSportsProgram(p) == HasKeyword(p, SportsKeywords[1..])
  {
    match CategoriesText(p)
    case Failure(_) =>
    case Success(None) =>
    case Success(Some(text)) =>
      if Contains(text, "sports") {
        assert OccursAt("sports", "sport", 0);
        ContainsTransitive(text, "sports", "sport");
        assert SportsKeywords[1..][0] == "sport";
      }
      if AnyKeyword(text, SportsKeywords) {
        var k :| 0 <= k < |SportsKeywords| && Contains(text, SportsKeywords[k]);
        if k > 0 {
          assert SportsKeywords[1..][k - 1] == SportsKeywords[k];
        }
      }
      if AnyKeyword(text, SportsKeywords[1..]) {
        var k :| 0 <= k < |SportsKeywords[1..]| && Contains(text, SportsKeywords[1..][k]);
        assert SportsKeywords[k + 1] == SportsKeywords[1..][k];
      }
  }

  /** A categories value that is a single text, not a list, never matches a
      keyword longer than one letter: iterating it yields single letters. */
  lemma TextCategoriesNeverMatch(p: Record, keywords: seq<string>)
    requires "categories" in p && p["categories"].Str?
    requires PlainWords(keywords) && forall k | 0 <= k < |keywords| :: |keywords[k]| > 1
    ensures HasKeyword(p, keywords) == Success(false)
  {
    HasKeywordIff(p, keywords);
  }

  // ---------------------------------------------------------------------------
  // get_programming_by_channel
  // ---------------------------------------------------------------------------

  /** What the route returns besides its clock reading and echoed arguments. */
  datatype ChannelProgramming = ChannelProgramming(channel: Record, programs: map<Date, seq<Program>>)

  function SlugIs(channel: string): Record -> bool {
    (ch: Record) => Get(ch, "channel_slug") == Str(channel)
  }

  function OnChannel(channel: string): Record -> bool {
    (p: Record) => Get(p, "channel") == Str(channel)
  }

  /** One record as `adjust_programming` reads it: both times, then the
      `title` when the programme crosses a local date and ends after that
      date's 00:00:00, since only the continuation piece looks it up. `fields` gives the other keys the
      record carries into the output. */
  function ReadForAdjust(p: Record, fields: Record -> Program, parse: string -> Option<Time>,
                         tz: Zone, system: Zone): (r: Result<Program, Error>)
    ensures IsoField(p, "start_time", parse).Failure? ==> r == Failure(IsoField(p, "start_time", parse).error)
    ensures IsoField(p, "start_time", parse).Success? && IsoField(p, "end_time", parse).Failure? ==>
      r == Failure(IsoField(p, "end_time", parse).error)
    ensures IsoField(p, "start_time", parse).Success? && IsoField(p, "end_time", parse).Success? ==>
      var prog := fields(p).(start_time := IsoField(p, "start_time", parse).value,
                             end_time := IsoField(p, "end_time", parse).value);
      && (r.Failure? <==> HasContinuation(prog, tz, system) && "title" !in p)
      && (r.Failure? ==> r.error == KeyError("title"))
      && (r.Success? ==> r.value == prog)
  {
    match IsoField(p, "start_time", parse)
    case Failure(e) => Failure(e)
    case Success(st) =>
      match IsoField(p, "end_time", parse)
      case Failure(e) => Failure(e)
      case Success(et) =>
        var prog := fields(p).(start_time := st, end_time := et);
        if HasContinuation(prog, tz, system) && "title" !in p then Failure(KeyError("title"))
        else Success(prog)
  }

  /** `get_programming_by_channel` after loading: the first channel whose
      `channel_slug` is the requested slug, the programmes whose `channel` is
      it, adjusted to `tz` and grouped and filled per date. The first
      programme that `adjust_programming` cannot read ends the route with
      its exception. */
  function ProgrammingByChannel(programs: seq<Record>, channels: seq<Record>, channel: string,
                                fields: Record -> Program, parse: string -> Option<Time>,
                                tz: Zone, system: Zone): Result<ChannelProgramming, EpgError> {
    var metadata := FirstWhere(channels, SlugIs(channel));
    var filtered := Select(programs, OnChannel(channel), true);
    if filtered == [] || metadata.None? || metadata.value == map[] then Failure(ProgrammingNotFound)
    else
      match Collect(filtered, (p: Record) => ReadForAdjust(p, fields, parse, tz, system), Never)
      case Failure(e) => Failure(Raised(e))
      case Success(read) => Success(ChannelProgramming(metadata.value, Grouped(Adjusted(read, tz, system), tz)))
  }

  /** The route fails with `ProgrammingNotFoundError` iff no programme is on
      the channel or no channel has the slug. Otherwise it fails iff some
      programme on the channel cannot be read, and then with the exception
      of the first such programme. */
  lemma ProgrammingByChannelFails(programs: seq<Record>, channels: seq<Record>, channel: string,
                                  fields: Record -> Program, parse: string -> Option<Time>, tz: Zone, system: Zone)
    ensures var r := ProgrammingByChannel(programs, channels, channel, fields, parse, tz, system);
      r == Failure(ProgrammingNotFound) <==>
        (forall i | 0 <= i < |programs| :: Get(programs[i], "channel") != Str(channel)) ||
        (forall i | 0 <= i < |channels| :: Get(channels[i], "channel_slug") != Str(channel))
    ensures var r := ProgrammingByChannel(programs, channels, channel, fields, parse, tz, system);
      var filtered := Select(programs, OnChannel(channel), true);
      r.Failure? && r.error.Raised? <==>
        && r != Failure(ProgrammingNotFound)
        && exists i | 0 <= i < |filtered| :: ReadForAdjust(filtered[i], fields, parse, tz, system).Failure?
    ensures var r := ProgrammingByChannel(programs, channels, channel, fields, parse, tz, system);
      var filtered := Select(programs, OnChannel(channel), true);
      r.Failure? && r.error.Raised? ==>
        exists i | 0 <= i < |filtered| ::
          && ReadForAdjust(filtered[i], fields, parse, tz, system) == Failure(r.error.error)
          && forall j | 0 <= j < i :: ReadForAdjust(filtered[j], fields, parse, tz, system).Success?
  {
    ProgrammingByChannelNotFound(programs, channels, channel, fields, parse, tz, system);
    ProgrammingByChannelRaised(programs, channels, channel, fields, parse, tz, system);
  }

  lemma ProgrammingByChannelNotFound(programs: seq<Record>, channels: seq<Record>, channel: string,
                                     fields: Record -> Program, parse: string -> Option<Time>, tz: Zone, system: Zone)
    ensures var r := ProgrammingByChannel(programs, channels, channel, fields, parse, tz, system);
      r == Failure(ProgrammingNotFound) <==>
        (forall i | 0 <= i < |programs| :: Get(programs[i], "channel") != Str(channel)) ||
        (forall i | 0 <= i < |channels| :: Get(channels[i], "channel_slug") != Str(channel))
  {
    var filtered := Select(programs, OnChannel(channel), true);
    var metadata := FirstWhere(channels, SlugIs(channel));
    if metadata.Some? {
      assert "channel_slug" in metadata.value;
    }
    assert ProgrammingByChannel(programs, channels, channel, fields, parse, tz, system) == Failure(ProgrammingNotFound)
      <==> filtered == [] || metadata.None?;
    assert filtered == [] <==> forall i | 0 <= i < |programs| :: Get(programs[i], "channel") != Str(channel) by {
      SelectEmpty(programs, OnChannel(channel));
      assert forall i | 0 <= i < |programs| :: OnChannel(channel)(programs[i]) == (Get(programs[i], "channel") == Str(channel));
    }
    assert metadata.None? <==> forall i | 0 <= i < |channels| :: Get(channels[i], "channel_slug") != Str(channel) by {
      FirstWhereEarliest(channels, SlugIs(channel));
      assert forall i | 0 <= i < |channels| :: SlugIs(channel)(channels[i]) == (Get(channels[i], "channel_slug") == Str(channel));
    }
  }

  lemma ProgrammingByChannelRaised(programs: seq<Record>, channels: seq<Record>, channel: string,
                                   fields: Record -> Program, parse: string -> Option<Time>, tz: Zone, system: Zone)
    ensures var r := ProgrammingByChannel(programs, channels, channel, fields, parse, tz, system);
      var filtered := Select(programs, OnChannel(channel), true);
      r.Failure? && r.error.Raised? <==>
        && r != Failure(ProgrammingNotFound)
        && exists i | 0 <= i < |filtered| :: ReadForAdjust(filtered[i], fields, parse, tz, system).Failure?
    ensures var r := ProgrammingByChannel(programs, channels, channel, fields, parse, tz, system);
      var filtered := Select(programs, OnChannel(channel), true);
      r.Failure? && r.error.Raised? ==>
        exists i | 0 <= i < |filtered| ::
          && ReadForAdjust(filtered[i], fields, parse, tz, system) == Failure(r.error.error)
          && forall j | 0 <= j < i :: ReadForAdjust(filtered[j], fields, parse, tz, system).Success?
  {
    var filtered := Select(programs, OnChannel(channel), true);
    var f := (p: Record) => ReadForAdjust(p, fields, parse, tz, system);
    CollectAll(filtered, f);
    CollectFirstFailure(filtered, f);
  }

  /** On success the metadata is the first channel with the slug, and the
      dates are exactly those of the channel's adjusted programmes, each
      filled from its own programmes; the programmes are the channel's
      records as read, one to one and in order. */
  lemma ProgrammingByChannelFound(programs: seq<Record>, channels: seq<Record>, channel: string,
                                  fields: Record -> Program, parse: string -> Option<Time>, tz: Zone, system: Zone)
    requires ProgrammingByChannel(programs, channels, channel, fields, parse, tz, system).Success?
    ensures var r := ProgrammingByChannel(programs, channels, channel, fields, parse, tz, system).value;
      exists i | 0 <= i < |channels| :: channels[i] == r.channel && Get(channels[i], "channel_slug") == Str(channel)
        && forall j | 0 <= j < i :: Get(channels[j], "channel_slug") != Str(channel)
    ensures var filtered := Select(programs, OnChannel(channel), true);
      var read := Collect(filtered, (p: Record) => ReadForAdjust(p, fields, parse, tz, system), Never);
      && read.Success? && |read.value| == |filtered|
      && (forall i | 0 <= i < |filtered| :: Success(read.value[i]) == ReadForAdjust(filtered[i], fields, parse, tz, system))
    ensures var r := ProgrammingByChannel(programs, channels, channel, fields, parse, tz, system).value;
      var filtered := Select(programs, OnChannel(channel), true);
      var read := Collect(filtered, (p: Record) => ReadForAdjust(p, fields, parse, tz, system), Never);
      var adjusted := Adjusted(read.value, tz, system);
      && r.programs.Keys == KeySet(adjusted, DateKey)
      && forall d | d in r.programs :: r.programs[d] == FillDate(adjusted, d, tz)
  {
    var filtered := Select(programs, OnChannel(channel), true);
    var f := (p: Record) => ReadForAdjust(p, fields, parse, tz, system);
    FirstWhereEarliest(channels, SlugIs(channel));
    CollectAll(filtered, f);
    GroupedDates(Adjusted(Collect(filtered, f, Never).value, tz, system), tz);
  }

  // ---------------------------------------------------------------------------
  // get_sports_programming / get_movies_programming
  // ---------------------------------------------------------------------------

  /** The two look-ahead routes differ only in their category test and in
      the query name they report. */
  datatype Kind = Sports | Movies {
    function Keywords(): seq<string> {
      match this
      case Sports => SportsKeywords
      case Movies => MoviesKeywords
    }

    function QueryName(): string {
      match this
      case Sports => "epg/sports"
      case Movies => "epg/movies"
    }
  }

  /** The test of a route: `is_sports_program` or `is_movies_program`. */
  function Matches(kind: Kind, p: Record): (r: Result<bool, Error>)
    ensures kind.Sports? ==> r == IsSportsProgram(p)
    ensures kind.Movies? ==> r == IsMoviesProgram(p)
  {
    HasKeyword(p, kind.Keywords())
  }

  /** What a look-ahead request was given: the channel list, the clock
      reading `now` in the target zone, the number of days, the target zone
      `tz`, the machine's zone `system`, the ISO parse and `isoformat`. */
  datatype Request = Request(
    channels: seq<Record>, now: Stamp, days: int, tz: Zone, system: Zone,
    parse: string -> Option<Time>, iso: Stamp -> string)

  /** `datetime.now(tz).replace(hour=0, minute=0, second=0, microsecond=0)`:
      local midnight, keeping the offset of the current moment. */
  function WindowStart(now: Stamp): (r: Stamp)
    ensures r.offset == now.offset && SecondOfDay(r.wall) == 0 && DayOf(r.wall) == DayOf(now.wall)
  {
    Stamp(DayOf(now.wall) * DaySeconds, now.offset)
  }

  /** `start_date + timedelta(days=days)`: the wall clock moves, the offset stays. */
  function WindowEnd(now: Stamp, days: int): (r: Stamp)
    ensures r.offset == now.offset && r.Instant() == WindowStart(now).Instant() + days * DaySeconds
  {
    Stamp(WindowStart(now).wall + days * DaySeconds, now.offset)
  }

  /** `start_date <= start < end_date`, compared as instants. */
  predicate InWindow(instant: int, req: Request) {
    WindowStart(req.now).Instant() <= instant < WindowEnd(req.now, req.days).Instant()
  }

  /** The `channel` of a programme, when it has one. */
  function ChannelField(p: Record): Option<Value> {
    if "channel" in p then Some(p["channel"]) else None
  }

  /** The generator stops at a channel without a slug (the KeyError), or, for
      a programme without `channel`, at the first channel (the KeyError), or
      at the first channel whose slug matches. */
  function StopsAt(slug: Option<Value>): Record -> bool {
    (c: Record) => "channel_slug" !in c || slug.None? || c["channel_slug"] == slug.value
  }

  /** `next((c for c in channels_data if c["channel_slug"] == slug), None)`,
      where an absent `slug` is a `program["channel"]` lookup that fails. */
  function FindChannel(channels: seq<Record>, slug: Option<Value>): (r: Result<Option<Record>, Error>)
    ensures r == Success(None) <==> forall i | 0 <= i < |channels| :: !StopsAt(slug)(channels[i])
    ensures r.Success? && r.value.Some? ==>
      && slug.Some? && r.value.value in channels
      && "channel_slug" in r.value.value && r.value.value["channel_slug"] == slug.value
    ensures r.Failure? ==> r.error == KeyError("channel_slug") || (r.error == KeyError("channel") && slug.None?)
  {
    match FirstIndexWhere(channels, StopsAt(slug))
    case None => Success(None)
    case Some(i) =>
      if "channel_slug" !in channels[i] then Failure(KeyError("channel_slug"))
      else if slug.None? then Failure(KeyError("channel"))
      else Success(Some(channels[i]))
  }

  /** The first channel carrying the slug, when every channel before it has
      a slug, is found. */
  lemma FindChannelFirst(channels: seq<Record>, slug: Value, i: nat)
    requires i < |channels| && "channel_slug" in channels[i] && channels[i]["channel_slug"] == slug
    requires forall j | 0 <= j < i :: "channel_slug" in channels[j] && channels[j]["channel_slug"] != slug
    ensures FindChannel(channels, Some(slug)) == Success(Some(channels[i]))
  {
    FirstIndexWhereAt(channels, StopsAt(Some(slug)), i);
  }

  /** The `program_info` dict of `process_sports_program` and
      `process_movies_program`; `start` and `end` are `isoformat()` texts. */
  datatype ProgramInfo = ProgramInfo(
    title: Value, start: string, end: string, description: Value, categories: Value,
    subtitle: Value, episode: Value, originalAirDate: Value, rating: Value)

  /** `process_sports_program` / `process_movies_program`: both times read in
      `tz`, the local date of the start, and the listed fields with their
      defaults. */
  function ProcessProgram(p: Record, req: Request): (r: Result<(Date, ProgramInfo), Error>)
    ensures r.Success? <==>
      TimeField(p, "start_time", req.parse).Success? && TimeField(p, "end_time", req.parse).Success? && "title" in p
    ensures r.Success? ==>
      var ls := AsTimezone(TimeField(p, "start_time", req.parse).value, req.tz, req.system);
      var le := AsTimezone(TimeField(p, "end_time", req.parse).value, req.tz, req.system);
      && r.value.0 == Date(DayOf(ls.wall))
      && r.value.1.title == p["title"] && r.value.1.start == req.iso(ls) && r.value.1.end == req.iso(le)
      && r.value.1.description == GetOr(p, "description", Str(""))
      && r.value.1.categories == GetOr(p, "categories", List([]))
  {
    match TimeField(p, "start_time", req.parse)
    case Failure(e) => Failure(e)
    case Success(st) =>
      match TimeField(p, "end_time", req.parse)
      case Failure(e) => Failure(e)
      case Success(et) =>
        if "title" !in p then Failure(KeyError("title"))
        else
          var ls := AsTimezone(st, req.tz, req.system);
          var le := AsTimezone(et, req.tz, req.system);
          Success((Date(DayOf(ls.wall)),
                   ProgramInfo(p["title"], req.iso(ls), req.iso(le),
                               GetOr(p, "description", Str("")), GetOr(p, "categories", List([])),
                               GetOr(p, "subtitle", Str("")), GetOr(p, "episode", Str("")),
                               GetOr(p, "original_air_date", Str("")), GetOr(p, "rating", Str("")))))
  }

  /** One pass of the gathering loop: the programme's channel, date and info
      when it is kept, `None` when it is passed over. */
  function Examine(kind: Kind, req: Request, p: Record): (r: Result<Option<(Value, Date, ProgramInfo)>, Error>)
    ensures r.Success? && r.value.Some? ==>
      && TimeField(p, "start_time", req.parse).Success?
      && InWindow(TimeInstant(TimeField(p, "start_time", req.parse).value, req.system), req)
      && Matches(kind, p) == Success(true)
      && "channel" in p && r.value.value.0 == p["channel"]
      && FindChannel(req.channels, Some(p["channel"])).Success?
      && FindChannel(req.channels, Some(p["channel"])).value.Some?
      && ProcessProgram(p, req) == Success((r.value.value.1, r.value.value.2))
    ensures
      && TimeField(p, "start_time", req.parse).Success?
      && InWindow(TimeInstant(TimeField(p, "start_time", req.parse).value, req.system), req)
      && Matches(kind, p) == Success(true)
      && "channel" in p && FindChannel(req.channels, Some(p["channel"])).Success?
      && FindChannel(req.channels, Some(p["channel"])).value.Some?
      && ProcessProgram(p, req).Success?
      ==> r == Success(Some((p["channel"], ProcessProgram(p, req).value.0, ProcessProgram(p, req).value.1)))
    ensures
      && TimeField(p, "start_time", req.parse).Success?
      && !InWindow(TimeInstant(TimeField(p, "start_time", req.parse).value, req.system), req)
      ==> r == Success(None)
  {
    match TimeField(p, "start_time", req.parse)
    case Failure(e) => Failure(e)
    case Success(st) =>
      if !InWindow(TimeInstant(st, req.system), req) then Success(None)
      else
        match Matches(kind, p)
        case Failure(e) => Failure(e)
        case Success(false) => Success(None)
        case Success(true) =>
          match FindChannel(req.channels, ChannelField(p))
          case Failure(e) => Failure(e)
          case Success(None) => Success(None)
          case Success(Some(_)) =>
            match ProcessProgram(p, req)
            case Failure(e) => Failure(e)
            case Success(info) => Success(Some((p["channel"], info.0, info.1)))
  }

  function Examiner(kind: Kind, req: Request): Record -> Result<Option<(Value, Date, ProgramInfo)>, Error> {
    (p: Record) => Examine(kind, req, p)
  }

  /** The kept programmes in input order, or the first exception. */
  function Gathered(kind: Kind, programs: seq<Record>, req: Request): Result<seq<(Value, Date, ProgramInfo)>, Error> {
    match Collect(programs, Examiner(kind, req), Never)
    case Failure(e) => Failure(e)
    case Success(found) => Success(Somes(found))
  }

  /** The nested `defaultdict` after the gathering loop: channel, then date,
      then the infos in input order. */
  function ByChannelDate(ts: seq<(Value, Date, ProgramInfo)>): seq<(Value, seq<(Date, seq<ProgramInfo>)>)> {
    Nest(ts)
  }

  /** One channel of the response: its details and its programmes by date. */
  datatype ChannelBlock = ChannelBlock(
    id: Value, name: Value, icon: Value, slug: Value, lcn: Value, group: Value,
    programs: seq<(Date, seq<ProgramInfo>)>)

  const BlockKeys: seq<string> := ["channel_id", "channel_name", "channel_logo", "channel_slug", "channel_number", "channel_group"]

  function Lacks(c: Record): string -> bool {
    (k: string) => k !in c
  }

  /** The `channel` dict of one response entry: the first missing key raises. */
  function Block(c: Record, programs: seq<(Date, seq<ProgramInfo>)>): (r: Result<ChannelBlock, Error>)
    ensures r.Success? <==> forall k | 0 <= k < |BlockKeys| :: BlockKeys[k] in c
    ensures r.Failure? ==> exists k | 0 <= k < |BlockKeys| :: r.error == KeyError(BlockKeys[k]) && BlockKeys[k] !in c
    ensures r.Success? ==>
      && "channel_id" in c && "channel_name" in c && "channel_logo" in c
      && "channel_slug" in c && "channel_number" in c && "channel_group" in c
      && r.value == ChannelBlock(c["channel_id"], c["channel_name"], c["channel_logo"],
                                 c["channel_slug"], c["channel_number"], c["channel_group"], programs)
  {
    match FirstIndexWhere(BlockKeys, Lacks(c))
    case Some(k) => Failure(KeyError(BlockKeys[k]))
    case None =>
      BlockKeysPresent(c);
      Success(ChannelBlock(c["channel_id"], c["channel_name"], c["channel_logo"],
                           c["channel_slug"], c["channel_number"], c["channel_group"], programs))
  }

  /** A record that lacks none of the block keys has each of them. */
  lemma BlockKeysPresent(c: Record)
    requires forall k | 0 <= k < |BlockKeys| :: !Lacks(c)(BlockKeys[k])
    ensures "channel_id" in c && "channel_name" in c && "channel_logo" in c
    ensures "channel_slug" in c && "channel_number" in c && "channel_group" in c
  {
    assert !Lacks(c)(BlockKeys[0]) && !Lacks(c)(BlockKeys[1]) && !Lacks(c)(BlockKeys[2]);
    assert !Lacks(c)(BlockKeys[3]) && !Lacks(c)(BlockKeys[4]) && !Lacks(c)(BlockKeys[5]);
  }

  /** One pass of the response loop: the entry of a gathered channel, or
      `None` when no channel carries its slug. */
  function Entry(req: Request, g: (Value, seq<(Date, seq<ProgramInfo>)>)): Result<Option<ChannelBlock>, Error> {
    match FindChannel(req.channels, Some(g.0))
    case Failure(e) => Failure(e)
    case Success(None) => Success(None)
    case Success(Some(c)) =>
      match Block(c, g.1)
      case Failure(e) => Failure(e)
      case Success(b) => Success(Some(b))
  }

  function Entries(req: Request): ((Value, seq<(Date, seq<ProgramInfo>)>)) -> Result<Option<ChannelBlock>, Error> {
    (g: (Value, seq<(Date, seq<ProgramInfo>)>)) => Entry(req, g)
  }

  /** The response of a look-ahead route, less its clock reading and echoed
      arguments: the query name, `start_date` and `end_date` as ISO texts,
      and one entry per gathered channel. */
  datatype WindowResponse = WindowResponse(query: string, startDate: string, endDate: string, channels: seq<ChannelBlock>)

  /** `get_sports_programming` / `get_movies_programming` after loading. */
  function WindowProgramming(kind: Kind, programs: seq<Record>, req: Request): Result<WindowResponse, EpgError> {
    match Gathered(kind, programs, req)
    case Failure(e) => Failure(Raised(e))
    case Success(ts) =>
      var groups := ByChannelDate(ts);
      if groups == [] then Failure(ProgrammingNotFound)
      else
        match Collect(groups, Entries(req), Never)
        case Failure(e) => Failure(Raised(e))
        case Success(entries) =>
          Success(WindowResponse(kind.QueryName(), req.iso(WindowStart(req.now)),
                                 req.iso(WindowEnd(req.now, req.days)), Somes(entries)))
  }

  /** The gathering fails iff some programme raises; otherwise it holds
      exactly the programmes that are kept, each from some programme. */
  lemma GatheredMembers(kind: Kind, programs: seq<Record>, req: Request)
    ensures Gathered(kind, programs, req).Success? <==>
      forall i | 0 <= i < |programs| :: Examine(kind, req, programs[i]).Success?
    ensures Gathered(kind, programs, req).Success? ==>
      forall t | t in Gathered(kind, programs, req).value ::
        exists i | 0 <= i < |programs| :: Examine(kind, req, programs[i]) == Success(Some(t))
    ensures Gathered(kind, programs, req).Success? ==>
      forall i | 0 <= i < |programs| && Examine(kind, req, programs[i]).value.Some? ::
        Examine(kind, req, programs[i]).value.value in Gathered(kind, programs, req).value
  {
    var f := Examiner(kind, req);
    assert forall i | 0 <= i < |programs| :: f(programs[i]) == Examine(kind, req, programs[i]);
    CollectMembers(programs, f, Never);
    if Collect(programs, f, Never).Success? {
      var found := Collect(programs, f, Never).value;
      SomesMembers(found);
    }
  }

  /** `ProgrammingNotFoundError` is raised exactly when the pass succeeds
      and keeps nothing. */
  lemma WindowNotFound(kind: Kind, programs: seq<Record>, req: Request)
    ensures WindowProgramming(kind, programs, req) == Failure(ProgrammingNotFound) <==>
      Gathered(kind, programs, req) == Success([])
    ensures Gathered(kind, programs, req).Failure? ==>
      WindowProgramming(kind, programs, req) == Failure(Raised(Gathered(kind, programs, req).error))
  {
    if Gathered(kind, programs, req).Success? {
      NestEmpty(Gathered(kind, programs, req).value);
    }
  }

  /** The response loop's lookup of a gathered channel finds the channel
      the gathering loop found for it. */
  lemma GroupChannelFound(kind: Kind, programs: seq<Record>, req: Request, j: nat)
    requires Gathered(kind, programs, req).Success? && j < |ByChannelDate(Gathered(kind, programs, req).value)|
    ensures var g := ByChannelDate(Gathered(kind, programs, req).value)[j];
      FindChannel(req.channels, Some(g.0)).Success? && FindChannel(req.channels, Some(g.0)).value.Some?
  {
    var ts := Gathered(kind, programs, req).value;
    NestKeyFrom(ts, j);
    var i :| 0 <= i < |ts| && ts[i].0 == Nest(ts)[j].0;
    var m := GatheredSource(kind, programs, req, ts[i]);
    ExaminedFound(kind, req, programs[m], ts[i]);
  }

  /** Every gathered programme comes from some input programme. */
  lemma GatheredSource(kind: Kind, programs: seq<Record>, req: Request, t: (Value, Date, ProgramInfo)) returns (m: nat)
    requires Gathered(kind, programs, req).Success? && t in Gathered(kind, programs, req).value
    ensures m < |programs| && Examine(kind, req, programs[m]) == Success(Some(t))
  {
    GatheredMembers(kind, programs, req);
    m :| 0 <= m < |programs| && Examine(kind, req, programs[m]) == Success(Some(t));
  }

  /** A programme kept by the examination belongs to a channel the lookup
      finds. */
  lemma ExaminedFound(kind: Kind, req: Request, p: Record, t: (Value, Date, ProgramInfo))
    requires Examine(kind, req, p) == Success(Some(t))
    ensures FindChannel(req.channels, Some(t.0)).Success? && FindChannel(req.channels, Some(t.0)).value.Some?
  {
  }

  /** A gathered channel whose lookup finds a channel gets an entry with its
      slug and its programmes. */
  lemma EntryOfFound(req: Request, g: (Value, seq<(Date, seq<ProgramInfo>)>))
    requires FindChannel(req.channels, Some(g.0)).Success? && FindChannel(req.channels, Some(g.0)).value.Some?
    requires Entry(req, g).Success?
    ensures Entry(req, g).value.Some? && Entry(req, g).value.value.slug == g.0 && Entry(req, g).value.value.programs == g.1
  {
  }

  /** Every gathered channel gets its entry, in the order the channels were
      first gathered, holding that channel's programmes by date. */
  lemma WindowComplete(kind: Kind, programs: seq<Record>, req: Request)
    requires WindowProgramming(kind, programs, req).Success?
    ensures var groups, r := ByChannelDate(Gathered(kind, programs, req).value), WindowProgramming(kind, programs, req).value;
      && |r.channels| == |groups|
      && forall j | 0 <= j < |groups| :: r.channels[j].slug == groups[j].0 && r.channels[j].programs == groups[j].1
  {
    var groups := ByChannelDate(Gathered(kind, programs, req).value);
    forall j | 0 <= j < |groups|
      ensures FindChannel(req.channels, Some(groups[j].0)).Success? && FindChannel(req.channels, Some(groups[j].0)).value.Some?
    {
      GroupChannelFound(kind, programs, req, j);
    }
    EntriesComplete(req, groups);
  }

  /** When every group's channel is found, the entries are the groups' slugs
      and programmes, in order. */
  lemma EntriesComplete(req: Request, groups: seq<(Value, seq<(Date, seq<ProgramInfo>)>)>)
    requires forall j | 0 <= j < |groups| ::
      FindChannel(req.channels, Some(groups[j].0)).Success? && FindChannel(req.channels, Some(groups[j].0)).value.Some?
    requires Collect(groups, Entries(req), Never).Success?
    ensures var r := Somes(Collect(groups, Entries(req), Never).value);
      && |r| == |groups|
      && forall j | 0 <= j < |groups| :: r[j].slug == groups[j].0 && r[j].programs == groups[j].1
  {
    var f := Entries(req);
    CollectAll(groups, f);
    var entries := Collect(groups, f, Never).value;
    forall j | 0 <= j < |groups|
      ensures entries[j].Some? && entries[j].value.slug == groups[j].0 && entries[j].value.programs == groups[j].1
    {
      assert f(groups[j]) == Entry(req, groups[j]);
      EntryOfFound(req, groups[j]);
    }
    SomesAll(entries);
  }

  /** The body of the gathering loop for one programme. */
  method ExamineProgram(kind: Kind, req: Request, program: Record) returns (outcome: Result<Option<(Value, Date, ProgramInfo)>, Error>)
    ensures outcome == Examine(kind, req, program)
  {
    outcome := Success(None);
    var start := TimeField(program, "start_time", req.parse);
    if start.Failure? {
      return Failure(start.error);
    }
    if InWindow(TimeInstant(start.value, req.system), req) {
      var matches := Matches(kind, program);
      if matches.Failure? {
        return Failure(matches.error);
      }
      if matches.value {
        var channelInfo := FindChannel(req.channels, ChannelField(program));
        if channelInfo.Failure? {
          return Failure(channelInfo.error);
        }
        if channelInfo.value.Some? {
          var processed := ProcessProgram(program, req);
          if processed.Failure? {
            return Failure(processed.error);
          }
          outcome := Success(Some((program["channel"], processed.value.0, processed.value.1)));
        }
      }
    }
  }

  /** The gathering loop: `d[channel][date].append(info)` for each kept
      programme, stopping at the first exception. */
  method GatherPrograms(kind: Kind, programs: seq<Record>, req: Request)
    returns (r: Result<seq<(Value, seq<(Date, seq<ProgramInfo>)>)>, Error>)
    ensures Gathered(kind, programs, req).Failure? ==> r == Failure(Gathered(kind, programs, req).error)
    ensures Gathered(kind, programs, req).Success? ==> r == Success(ByChannelDate(Gathered(kind, programs, req).value))
  {
    var examine := Examiner(kind, req);
    var groups: seq<(Value, seq<(Date, seq<ProgramInfo>)>)> := [];
    ghost var found: seq<Option<(Value, Date, ProgramInfo)>> := [];
    for i := 0 to |programs|
      invariant Collect(programs[..i], examine, Never) == Success(found)
      invariant groups == Nest(Somes(found))
    {
      var outcome := ExamineProgram(kind, req, programs[i]);
      assert outcome == examine(programs[i]);
      GatherStep(programs, i, examine, found, outcome);
      if outcome.Failure? {
        return Failure(outcome.error);
      }
      if outcome.value.Some? {
        var t := outcome.value.value;
        groups := NestedAppend(groups, t.0, t.1, t.2);
      }
      found := found + [outcome.value];
    }
    assert programs[..|programs|] == programs;
    assert Collect(programs, examine, Never) == Success(found);
    return Success(groups);
  }

  /** The body of the response loop for one gathered channel. */
  method EntryFor(req: Request, g: (Value, seq<(Date, seq<ProgramInfo>)>)) returns (r: Result<Option<ChannelBlock>, Error>)
    ensures r == Entry(req, g)
  {
    var channelInfo := FindChannel(req.channels, Some(g.0));
    if channelInfo.Failure? {
      return Failure(channelInfo.error);
    }
    if channelInfo.value.None? {
      return Success(None);
    }
    var block := Block(channelInfo.value.value, g.1);
    if block.Failure? {
      return Failure(block.error);
    }
    return Success(Some(block.value));
  }

  /** The response loop: one entry per gathered channel whose slug is listed. */
  method ChannelEntries(req: Request, groups: seq<(Value, seq<(Date, seq<ProgramInfo>)>)>) returns (r: Result<seq<ChannelBlock>, Error>)
    ensures Collect(groups, Entries(req), Never).Failure? ==> r == Failure(Collect(groups, Entries(req), Never).error)
    ensures Collect(groups, Entries(req), Never).Success? ==> r == Success(Somes(Collect(groups, Entries(req), Never).value))
  {
    var entry := Entries(req);
    var channels: seq<ChannelBlock> := [];
    ghost var entries: seq<Option<ChannelBlock>> := [];
    for j := 0 to |groups|
      invariant Collect(groups[..j], entry, Never) == Success(entries)
      invariant channels == Somes(entries)
    {
      var e := EntryFor(req, groups[j]);
      assert e == entry(groups[j]);
      KeepStep(groups, j, entry, entries, e);
      if e.Failure? {
        return Failure(e.error);
      }
      if e.value.Some? {
        channels := channels + [e.value.value];
      }
      entries := entries + [e.value];
    }
    assert groups[..|groups|] == groups;
    return Success(channels);
  }

  /** `get_sports_programming` / `get_movies_programming` after loading. */
  method GetWindowProgramming(kind: Kind, programs: seq<Record>, req: Request) returns (r: Result<WindowResponse, EpgError>)
    ensures r == WindowProgramming(kind, programs, req)
  {
    var gathered := GatherPrograms(kind, programs, req);
    if gathered.Failure? {
      return Failure(Raised(gathered.error));
    }
    if gathered.value == [] {
      return Failure(ProgrammingNotFound);
    }
    var channels := ChannelEntries(req, gathered.value);
    if channels.Failure? {
      return Failure(Raised(channels.error));
    }
    return Success(WindowResponse(kind.QueryName(), req.iso(WindowStart(req.now)),
                                  req.iso(WindowEnd(req.now, req.days)), channels.value));
  }
}
