/** The programme side of the XMLEPG export: programme de-duplication,
    minute rounding, and the normalisation each guide row goes through
    before it is written to a provider's programme file (times rounded and
    re-rendered, channel references rewritten, blank fields set to "N/A",
    categories split into a clean list). */
module XmlEpgPrograms {
  import opened Wrappers
  import opened Text
  import opened Seqs
  import opened Records
  import opened TimeUtils
  import XmlEpgMerge

  // ---------------------------------------------------------------------------
  // deduplicate_programs
  // ---------------------------------------------------------------------------

  /** `guideid_channel_start_title`, where the channel is the `guide_id`
      when it is truthy and the `channel` otherwise; absent fields read as "". */
  function ProgramKey(p: Record): string {
    var guideId := GetOr(p, "guide_id", Str(""));
    var channelId := if Truthy(guideId) then guideId else GetOr(p, "channel", Str(""));
    StrOf(GetOr(p, "guideid", Str(""))) + "_" + StrOf(channelId) + "_"
      + StrOf(GetOr(p, "start_time", Str(""))) + "_" + StrOf(GetOr(p, "title", Str("")))
  }

  /** Two programmes from the same guide row id, original channel, start and
      title collide, whatever channel slug they were given. */
  lemma SameGuideIdCollides(p: Record, q: Record)
    requires Truthy(GetOr(p, "guide_id", Str("")))
    requires forall f | f in ["guideid", "guide_id", "start_time", "title"] :: GetOr(p, f, Str("")) == GetOr(q, f, Str(""))
    ensures ProgramKey(p) == ProgramKey(q)
  {
    assert "guideid" in ["guideid", "guide_id", "start_time", "title"];
    assert "guide_id" in ["guideid", "guide_id", "start_time", "title"];
    assert "start_time" in ["guideid", "guide_id", "start_time", "title"];
    assert "title" in ["guideid", "guide_id", "start_time", "title"];
  }

  /** `deduplicate_programs`: the first programme with each key is kept, in
      order. */
  method DeduplicatePrograms(programs: seq<Record>) returns (unique: seq<Record>)
    ensures unique == FirstByKey(programs, ProgramKey)
  {
    unique := DeduplicateBy(programs, ProgramKey);
  }

  /** The seen-set loop of `deduplicate_programs`, for any key. */
  method DeduplicateBy<T, K(==)>(programs: seq<T>, key: T -> K) returns (unique: seq<T>)
    ensures unique == FirstByKey(programs, key)
  {
    var seen: set<K> := {};
    unique := [];
    var i := 0;
    while i < |programs|
      invariant 0 <= i <= |programs|
      invariant unique == FirstByKey(programs[..i], key)
      invariant seen == KeySet(programs[..i], key)
    {
      var k := key(programs[i]);
      assert programs[..i + 1] == programs[..i] + [programs[i]];
      FirstByKeySnoc(programs[..i], programs[i], key);
      if k !in seen {
        seen := seen + {k};
        unique := unique + [programs[i]];
      }
      i := i + 1;
    }
    assert programs[..i] == programs;
  }

  /** The de-duplicated programmes have pairwise distinct keys, lose no key,
      and de-duplicating them again changes nothing. */
  lemma DeduplicateProgramsProperties(programs: seq<Record>)
    ensures DistinctKeys(FirstByKey(programs, ProgramKey), ProgramKey)
    ensures KeySet(FirstByKey(programs, ProgramKey), ProgramKey) == KeySet(programs, ProgramKey)
    ensures FirstByKey(FirstByKey(programs, ProgramKey), ProgramKey) == FirstByKey(programs, ProgramKey)
  {
    FirstByKeyDistinct(programs, ProgramKey);
    FirstByKeyKeepsKeys(programs, ProgramKey);
    FirstByKeyIdempotent(programs, ProgramKey);
  }

  /** A programme whose key no earlier programme has survives de-duplication. */
  lemma FirstProgramKept(programs: seq<Record>, i: nat)
    requires i < |programs|
    requires ProgramKey(programs[i]) !in KeySet(programs[..i], ProgramKey)
    ensures programs[i] in FirstByKey(programs, ProgramKey)
  {
    FirstOccurrenceKept(programs, ProgramKey, i);
  }

  // ---------------------------------------------------------------------------
  // round_to_nearest_minute
  // ---------------------------------------------------------------------------

  /** Seconds set to zero, plus one minute when they were 30 or more. */
  function RoundToNearestMinute(t: Stamp): (r: Stamp)
    ensures r.offset == t.offset
    ensures r.wall % 60 == 0
    ensures t.wall - 30 < r.wall <= t.wall + 30
    ensures r.wall >= t.wall <==> t.wall % 60 == 0 || t.wall % 60 >= 30
  {
    var sec := t.wall % 60;
    Stamp(t.wall - sec + (if sec >= 30 then 60 else 0), t.offset)
  }

  /** The rounded time is the only whole minute less than 30 seconds before
      or at most 30 seconds after the time: rounding to nearest, ties up. */
  lemma RoundingIsNearest(t: Stamp, m: int)
    requires m % 60 == 0 && t.wall - 30 < m <= t.wall + 30
    ensures m == RoundToNearestMinute(t).wall
  {
    var r := RoundToNearestMinute(t).wall;
    assert (m - r) % 60 == 0;
    assert -60 < m - r < 60;
  }

  lemma RoundingIdempotent(t: Stamp)
    ensures RoundToNearestMinute(RoundToNearestMinute(t)) == RoundToNearestMinute(t)
  {
    var r := RoundToNearestMinute(t);
    RoundingIsNearest(r, r.wall);
  }

  // ---------------------------------------------------------------------------
  // "N/A" filling
  // ---------------------------------------------------------------------------

  /** `"N/A"` for a `None` or blank text, the value itself otherwise. */
  function Filled(v: Value): (r: Value)
    ensures !Blank(r)
    ensures r == v || (Blank(v) && r == Str(NA))
  {
    if Blank(v) then Str(NA) else v
  }

  /** Every field of the record filled. */
  function FillBlanks(p: Record): (q: Record)
    ensures q.Keys == p.Keys
    ensures forall k | k in q :: !Blank(q[k])
    ensures forall k | k in q :: q[k] == p[k] || (Blank(p[k]) && q[k] == Str(NA))
  {
    map k | k in p :: Filled(p[k])
  }

  /** The loop over the record's items that overwrites blank values. */
  method FillNotAvailable(p: Record) returns (q: Record)
    ensures q == FillBlanks(p)
  {
    q := p;
    var todo := p.Keys;
    while todo != {}
      invariant todo <= p.Keys && q.Keys == p.Keys
      invariant forall k | k in p :: q[k] == (if k in todo then p[k] else Filled(p[k]))
      decreases |todo|
    {
      var k :| k in todo;
      if Blank(q[k]) {
        q := q[k := Str(NA)];
      }
      todo := todo - {k};
    }
  }

  // ---------------------------------------------------------------------------
  // Categories
  // ---------------------------------------------------------------------------

  /** A category as the export writes it: a non-empty text without
      surrounding white space. */
  predicate CleanCategory(v: Value) {
    v.Str? && v.s != "" && !IsSpace(v.s[0]) && !IsSpace(v.s[|v.s| - 1])
  }

  /** One piece stripped, kept when it is not empty. */
  function Cleaned(piece: string): (r: seq<Value>)
    ensures forall k | 0 <= k < |r| :: CleanCategory(r[k])
    ensures r == (if Strip(piece) != "" then [Str(Strip(piece))] else [])
  {
    StripTrims(piece);
    var c := Strip(piece);
    if c != "" then [Str(c)] else []
  }

  /** Clean categories followed by clean categories. */
  lemma CleanConcat(a: seq<Value>, b: seq<Value>)
    requires forall k | 0 <= k < |a| :: CleanCategory(a[k])
    requires forall k | 0 <= k < |b| :: CleanCategory(b[k])
    ensures forall k | 0 <= k < |a + b| :: CleanCategory((a + b)[k])
  {
    forall k | 0 <= k < |a + b| ensures CleanCategory((a + b)[k]) {
      if k >= |a| {
        assert (a + b)[k] == b[k - |a|];
      } else {
        assert (a + b)[k] == a[k];
      }
    }
  }

  /** `[c.strip() for c in pieces if c.strip()]`. */
  function CleanPieces(pieces: seq<string>): (r: seq<Value>)
    ensures forall k | 0 <= k < |r| :: CleanCategory(r[k])
    ensures |r| <= |pieces|
  {
    if pieces == [] then []
    else
      var rest := CleanPieces(pieces[1..]);
      CleanConcat(Cleaned(pieces[0]), rest);
      Cleaned(pieces[0]) + rest
  }

  /** The same over a list value; `.strip()` on a non-text item raises
      `AttributeError`. */
  function CleanItems(items: seq<Value>): (r: Result<seq<Value>, Error>)
    ensures r.Success? ==> forall k | 0 <= k < |r.value| :: CleanCategory(r.value[k])
    ensures r.Failure? <==> exists k | 0 <= k < |items| :: !items[k].Str?
  {
    if items == [] then Success([])
    else if !items[0].Str? then Failure(AttributeError)
    else
      NonTextInTail(items);
      match CleanItems(items[1..])
      case Failure(e) => Failure(e)
      case Success(rest) =>
        CleanConcat(Cleaned(items[0].s), rest);
        Success(Cleaned(items[0].s) + rest)
  }

  /** With a text at the front, a non-text item is one in the tail. */
  lemma NonTextInTail(items: seq<Value>)
    requires items != [] && items[0].Str?
    ensures (exists k | 0 <= k < |items| :: !items[k].Str?) <==> exists k | 0 <= k < |items[1..]| :: !items[1..][k].Str?
  {
    if exists k | 0 <= k < |items| :: !items[k].Str? {
      var k :| 0 <= k < |items| && !items[k].Str?;
      assert items[1..][k - 1] == items[k];
    }
    if exists k | 0 <= k < |items[1..]| :: !items[1..][k].Str? {
      var k :| 0 <= k < |items[1..]| && !items[1..][k].Str?;
      assert items[k + 1] == items[1..][k];
    }
  }

  /** A stripped text that is not empty neither starts nor ends with white
      space. */
  lemma StripTrims(s: string)
    ensures Strip(s) != "" ==> !IsSpace(Strip(s)[0]) && !IsSpace(Strip(s)[|Strip(s)| - 1])
  {
    var t := StripLeft(s);
    var r := StripRight(t);
    if r != "" {
      assert r[0] == t[0];
    }
  }

  /** A text that neither starts nor ends with white space is its own
      stripped form. */
  lemma StripOfTrimmed(s: string)
    requires s != "" && !IsSpace(s[0]) && !IsSpace(s[|s| - 1])
    ensures Strip(s) == s
  {
    assert StripLeft(s) == s;
    assert StripRight(s) == s;
  }

  /** The `categories` block: a text other than "N/A" is split on commas,
      "N/A" becomes the empty list, a list is cleaned item by item, and any
      other value becomes the empty list. */
  function NormaliseCategories(v: Value): (r: Result<Value, Error>)
    ensures r.Success? ==> r.value.List? && forall k | 0 <= k < |r.value.items| :: CleanCategory(r.value.items[k])
    ensures r.Failure? <==> v.List? && exists k | 0 <= k < |v.items| :: !v.items[k].Str?
  {
    match v
    case Str(s) => if s != NA then Success(List(CleanPieces(Split(s, ',')))) else Success(List([]))
    case List(items) =>
      (match CleanItems(items)
       case Failure(e) => Failure(e)
       case Success(cats) => Success(List(cats)))
    case _ => Success(List([]))
  }

  /** Cleaning an already clean list changes nothing. */
  lemma {:induction false} CleanItemsOfClean(items: seq<Value>)
    requires forall k | 0 <= k < |items| :: CleanCategory(items[k])
    ensures CleanItems(items) == Success(items)
  {
    if items != [] {
      assert forall k | 0 <= k < |items[1..]| :: CleanCategory(items[1..][k]) by {
        forall k | 0 <= k < |items[1..]| ensures CleanCategory(items[1..][k]) {
          assert items[1..][k] == items[k + 1];
        }
      }
      CleanItemsOfClean(items[1..]);
      CleanItemsCons(items[0], items[1..]);
      assert [items[0]] + items[1..] == items;
    }
  }

  /** A clean category in front of a list cleaning keeps is kept. */
  lemma CleanItemsCons(x: Value, rest: seq<Value>)
    requires CleanCategory(x) && CleanItems(rest) == Success(rest)
    ensures CleanItems([x] + rest) == Success([x] + rest)
  {
    var items := [x] + rest;
    assert items[0] == x && items[1..] == rest;
    StripOfTrimmed(x.s);
    assert Cleaned(x.s) == [x];
  }

  lemma NormaliseCategoriesIdempotent(v: Value)
    requires NormaliseCategories(v).Success?
    ensures NormaliseCategories(NormaliseCategories(v).value) == NormaliseCategories(v)
  {
    var w := NormaliseCategories(v).value;
    assert w == List(w.items);
    CleanItemsOfClean(w.items);
    NormaliseList(w.items);
  }

  /** A list value is cleaned item by item. */
  lemma NormaliseList(items: seq<Value>)
    requires CleanItems(items).Success?
    ensures NormaliseCategories(List(items)) == Success(List(CleanItems(items).value))
  {
  }

  /** Each text as a text value. */
  function Strs(cats: seq<string>): (r: seq<Value>)
    ensures |r| == |cats| && forall k | 0 <= k < |cats| :: r[k] == Str(cats[k])
  {
    if cats == [] then [] else [Str(cats[0])] + Strs(cats[1..])
  }

  /** Clean texts without commas, written comma-separated, read back as the
      same list (unless the text is literally "N/A"). */
  lemma {:induction false} CategoriesRoundTrip(cats: seq<string>)
    requires cats != [] && Join(cats, ",") != NA
    requires forall k | 0 <= k < |cats| :: cats[k] != "" && Strip(cats[k]) == cats[k] && ',' !in cats[k]
    ensures NormaliseCategories(Str(Join(cats, ","))) == Success(List(Strs(cats)))
  {
    var text := Join(cats, ",");
    assert Split(text, ',') == cats by {
      assert "," == [','];
      XmlEpgMerge.SplitJoin(cats, ',');
    }
    assert CleanPieces(cats) == Strs(cats) by {
      CleanPiecesOfClean(cats);
    }
    NormaliseText(text);
  }

  /** A text other than "N/A" is split on commas and cleaned. */
  lemma NormaliseText(text: string)
    requires text != NA
    ensures NormaliseCategories(Str(text)) == Success(List(CleanPieces(Split(text, ','))))
  {
  }

  lemma {:induction false} CleanPiecesOfClean(cats: seq<string>)
    requires forall k | 0 <= k < |cats| :: cats[k] != "" && Strip(cats[k]) == cats[k]
    ensures CleanPieces(cats) == Strs(cats)
  {
    if cats != [] {
      CleanPiecesOfClean(cats[1..]);
      assert Cleaned(cats[0]) == [Str(cats[0])];
    }
  }

  // ---------------------------------------------------------------------------
  // One guide row, prepared for a provider's programme file
  // ---------------------------------------------------------------------------

  /** `strftime("%H:%M:%S")`. */
  function ClockOf(wall: int): string {
    var s := SecondOfDay(wall);
    Pad2(s / 3600) + ":" + Pad2(s / 60 % 60) + ":" + Pad2(s % 60)
  }

  /** `parse_datetime` on a field: a text in neither accepted format raises
      `ValueError` (the programme is skipped); a value that is not text makes
      the parser raise `TypeError`. */
  function ParseField(v: Value, parse: string -> Option<Stamp>): Result<Stamp, Error> {
    if !v.Str? then Failure(TypeError)
    else match parse(v.s)
      case None => Failure(ValueError(v.s))
      case Some(t) => Success(t)
  }

  /** The fields the normalisation writes before filling blanks. */
  const WrittenFields: set<string> := {"start_time", "end_time", "start", "end", "length", "channel", "guide_id"}

  /** The texts written for the rounded start and end times. */
  datatype Rendering = Rendering(startTime: string, endTime: string, start: string, end: string, length: string)

  function Render(s: Stamp, e: Stamp, iso: Stamp -> string): Rendering {
    Rendering(iso(s), iso(e), ClockOf(s.wall), ClockOf(e.wall), TimedeltaText(e.Instant() - s.Instant()))
  }

  /** The values the normalisation writes: times rendered, channel
      references replaced. */
  function Written(r: Rendering, slug: Value, guidelink: Value): (w: Record)
    ensures w.Keys == WrittenFields
  {
    map[
      "start_time" := Str(r.startTime), "end_time" := Str(r.endTime),
      "start" := Str(r.start), "end" := Str(r.end), "length" := Str(r.length),
      "channel" := slug, "guide_id" := guidelink]
  }

  function Timed(p: Record, s: Stamp, e: Stamp, slug: Value, guidelink: Value, iso: Stamp -> string): Record {
    p + Written(Render(s, e, iso), slug, guidelink)
  }

  /** The first half of the per-programme `try` block: the `channel`,
      `start_time` and `end_time` lookups (`KeyError`), the two parses, and
      the rounding. */
  function ParseTimes(p: Record, parse: string -> Option<Stamp>): (r: Result<(Stamp, Stamp), Error>)
    ensures r.Success? ==>
      && "start_time" in p && p["start_time"].Str? && parse(p["start_time"].s).Some?
      && "end_time" in p && p["end_time"].Str? && parse(p["end_time"].s).Some?
      && r.value == (RoundToNearestMinute(parse(p["start_time"].s).value), RoundToNearestMinute(parse(p["end_time"].s).value))
    ensures r.Failure? <==>
      || "channel" !in p || "start_time" !in p || ParseField(p["start_time"], parse).Failure?
      || "end_time" !in p || ParseField(p["end_time"], parse).Failure?
  {
    if "channel" !in p then Failure(KeyError("channel"))
    else if "start_time" !in p then Failure(KeyError("start_time"))
    else match ParseField(p["start_time"], parse)
      case Failure(err) => Failure(err)
      case Success(s0) =>
        if "end_time" !in p then Failure(KeyError("end_time"))
        else match ParseField(p["end_time"], parse)
          case Failure(err) => Failure(err)
          case Success(e0) => Success((RoundToNearestMinute(s0), RoundToNearestMinute(e0)))
  }

  /** The last step: the `categories` lookup and its normalisation. */
  function WithCategories(filled: Record): (r: Result<Record, Error>)
    ensures r.Success? ==>
      && "categories" in filled && NormaliseCategories(filled["categories"]).Success?
      && r.value == filled["categories" := NormaliseCategories(filled["categories"]).value]
    ensures r.Failure? <==> "categories" !in filled || NormaliseCategories(filled["categories"]).Failure?
  {
    if "categories" !in filled then Failure(KeyError("categories"))
    else match NormaliseCategories(filled["categories"])
      case Failure(err) => Failure(err)
      case Success(cats) => Success(filled["categories" := cats])
  }

  /** The body of the per-programme `try` block. */
  function NormaliseProgram(p: Record, slug: Value, guidelink: Value, parse: string -> Option<Stamp>, iso: Stamp -> string): Result<Record, Error> {
    match ParseTimes(p, parse)
    case Failure(err) => Failure(err)
    case Success(times) => WithCategories(FillBlanks(Timed(p, times.0, times.1, slug, guidelink, iso)))
  }

  /** What a normalised programme holds: the original fields plus the written
      ones, nothing blank, and the fields it does not write kept or filled. */
  lemma NormaliseProgramFields(p: Record, slug: Value, guidelink: Value, parse: string -> Option<Stamp>, iso: Stamp -> string)
    requires NormaliseProgram(p, slug, guidelink, parse, iso).Success?
    ensures var q := NormaliseProgram(p, slug, guidelink, parse, iso).value;
      && q.Keys == p.Keys + WrittenFields
      && (forall k | k in q :: !Blank(q[k]))
      && (forall k | k in p && k !in WrittenFields && k != "categories" :: q[k] == Filled(p[k]))
  {
    var (s, e) := ParseTimes(p, parse).value;
    var t := Timed(p, s, e, slug, guidelink, iso);
    var f := FillBlanks(t);
    var c := NormaliseCategories(f["categories"]).value;
    var q := NormaliseProgram(p, slug, guidelink, parse, iso).value;
    assert q == f["categories" := c];
    ReplacedCategories(f, q, c);
    FilledShape(t, p, s, e, slug, guidelink, iso);
  }

  lemma ReplacedCategories(f: Record, q: Record, c: Value)
    requires "categories" in f && c.List? && q == f["categories" := c]
    requires forall k | k in f :: !Blank(f[k])
    ensures q.Keys == f.Keys
    ensures forall k | k in q :: !Blank(q[k])
    ensures forall k | k in f && k != "categories" :: q[k] == f[k]
  {
  }

  /** The channel references come from the arguments (filled when blank),
      and the categories are a clean list. */
  lemma NormaliseProgramReferences(p: Record, slug: Value, guidelink: Value, parse: string -> Option<Stamp>, iso: Stamp -> string)
    requires NormaliseProgram(p, slug, guidelink, parse, iso).Success?
    ensures var q := NormaliseProgram(p, slug, guidelink, parse, iso).value;
      && "channel" in q && q["channel"] == Filled(slug)
      && "guide_id" in q && q["guide_id"] == Filled(guidelink)
      && "categories" in q && q["categories"].List?
      && (forall k | 0 <= k < |q["categories"].items| :: CleanCategory(q["categories"].items[k]))
  {
    var (s, e) := ParseTimes(p, parse).value;
    var r := Render(s, e, iso);
    var w := Written(r, slug, guidelink);
    var t := p + w;
    assert t == Timed(p, s, e, slug, guidelink, iso);
    var q := NormaliseProgram(p, slug, guidelink, parse, iso).value;
    assert "categories" in q && q == FillBlanks(t)["categories" := q["categories"]];
    WrittenValues(r, slug, guidelink);
    FilledField(t, w, "channel", q);
    FilledField(t, w, "guide_id", q);
  }

  /** The filled record has the original and the written keys, and keeps or
      fills every original field that is not written. */
  lemma FilledShape(t: Record, p: Record, s: Stamp, e: Stamp, slug: Value, guidelink: Value, iso: Stamp -> string)
    requires t == Timed(p, s, e, slug, guidelink, iso)
    ensures FillBlanks(t).Keys == p.Keys + WrittenFields
    ensures forall k | k in p && k !in WrittenFields :: FillBlanks(t)[k] == Filled(p[k])
  {
    TimedFields(p, s, e, slug, guidelink, iso);
  }

  /** The rendered clock and length texts end in a digit, so filling
      leaves them alone. */
  lemma RenderedTextsKept(s: Stamp, e: Stamp)
    ensures Filled(Str(ClockOf(s.wall))) == Str(ClockOf(s.wall))
    ensures Filled(Str(TimedeltaText(e.Instant() - s.Instant()))) == Str(TimedeltaText(e.Instant() - s.Instant()))
  {
    var c := ClockOf(s.wall);
    ClockOfEndsInDigit(s.wall);
    EndsInDigitNotBlank(c);
    var l := TimedeltaText(e.Instant() - s.Instant());
    TimedeltaEndsInDigit(e.Instant() - s.Instant());
    EndsInDigitNotBlank(l);
  }

  lemma EndsInDigitNotBlank(t: string)
    requires t != [] && IsDigit(t[|t| - 1])
    ensures Filled(Str(t)) == Str(t)
  {
    NotBlank(t, |t| - 1);
  }

  lemma ClockOfEndsInDigit(wall: int)
    ensures ClockOf(wall) != [] && IsDigit(ClockOf(wall)[|ClockOf(wall)| - 1])
  {
    var s := SecondOfDay(wall);
    var last := Pad2(s % 60);
    assert ClockOf(wall) == Pad2(s / 3600) + ":" + Pad2(s / 60 % 60) + ":" + last;
  }

  lemma TimedeltaEndsInDigit(d: int)
    ensures var l := TimedeltaText(d); l != [] && IsDigit(l[|l| - 1])
  {
    var secs := d % DaySeconds;
    var last := Pad2(secs % 60);
    var clock := ClockText(secs);
    assert clock == NatToString(secs / 3600) + ":" + Pad2(secs / 60 % 60) + ":" + last;
    var days := d / DaySeconds;
    if days != 0 {
      assert TimedeltaText(d) == IntToString(days) + " " + DayWord(days) + ", " + clock;
    }
  }

  /** The fields `Timed` writes, and the ones it leaves. */
  lemma TimedFields(p: Record, s: Stamp, e: Stamp, slug: Value, guidelink: Value, iso: Stamp -> string)
    ensures var t := Timed(p, s, e, slug, guidelink, iso);
      && t.Keys == p.Keys + WrittenFields
      && forall k | k in p && k !in WrittenFields :: t[k] == p[k]
  {
  }

  lemma WrittenValues(r: Rendering, slug: Value, guidelink: Value)
    ensures var w := Written(r, slug, guidelink);
      && w["start"] == Str(r.start) && w["end"] == Str(r.end) && w["length"] == Str(r.length)
      && w["start_time"] == Str(r.startTime) && w["end_time"] == Str(r.endTime)
      && w["channel"] == slug && w["guide_id"] == guidelink
  {
  }

  /** The rendered start and end times are whole minutes of the parsed times,
      and the length is the difference of the rounded times. */
  lemma NormaliseProgramTimes(p: Record, slug: Value, guidelink: Value, parse: string -> Option<Stamp>, iso: Stamp -> string)
    requires NormaliseProgram(p, slug, guidelink, parse, iso).Success?
    ensures p["start_time"].Str? && parse(p["start_time"].s).Some?
    ensures p["end_time"].Str? && parse(p["end_time"].s).Some?
    ensures var q := NormaliseProgram(p, slug, guidelink, parse, iso).value;
      var s := RoundToNearestMinute(parse(p["start_time"].s).value);
      var e := RoundToNearestMinute(parse(p["end_time"].s).value);
      && q["start"] == Str(ClockOf(s.wall)) && q["end"] == Str(ClockOf(e.wall))
      && q["length"] == Str(TimedeltaText(e.Instant() - s.Instant()))
      && q["start_time"] == Filled(Str(iso(s))) && q["end_time"] == Filled(Str(iso(e)))
  {
    var (s, e) := ParseTimes(p, parse).value;
    var r := Render(s, e, iso);
    var w := Written(r, slug, guidelink);
    var t := p + w;
    assert t == Timed(p, s, e, slug, guidelink, iso);
    var q := NormaliseProgram(p, slug, guidelink, parse, iso).value;
    assert "categories" in q && q == FillBlanks(t)["categories" := q["categories"]];
    WrittenValues(r, slug, guidelink);
    RenderedTextsKept(s, e);
    RenderedTextsKept(e, e);
    FilledField(t, w, "start", q);
    FilledField(t, w, "end", q);
    FilledField(t, w, "length", q);
    FilledField(t, w, "start_time", q);
    FilledField(t, w, "end_time", q);
  }

  /** A written field other than `categories` reads, after filling, as the
      written value filled. */
  lemma FilledField(t: Record, w: Record, k: string, q: Record)
    requires k in w && k != "categories" && "categories" in t
    requires forall j | j in w :: j in t && t[j] == w[j]
    requires "categories" in q && q == FillBlanks(t)["categories" := q["categories"]]
    ensures q[k] == Filled(w[k])
  {
  }

  /** When normalisation fails, it is for a missing key, an unparsable or
      non-text time, or a category list with a non-text item. */
  lemma NormaliseProgramFailures(p: Record, slug: Value, guidelink: Value, parse: string -> Option<Stamp>, iso: Stamp -> string)
    ensures NormaliseProgram(p, slug, guidelink, parse, iso).Failure? <==>
      || ParseTimes(p, parse).Failure?
      || "categories" !in p
      || NormaliseCategories(Filled(p["categories"])).Failure?
  {
    if ParseTimes(p, parse).Success? {
      var (s, e) := ParseTimes(p, parse).value;
      CategoriesAfterFilling(Timed(p, s, e, slug, guidelink, iso), p, s, e, slug, guidelink, iso);
    }
  }

  lemma CategoriesAfterFilling(t: Record, p: Record, s: Stamp, e: Stamp, slug: Value, guidelink: Value, iso: Stamp -> string)
    requires t == Timed(p, s, e, slug, guidelink, iso)
    ensures "categories" in FillBlanks(t) <==> "categories" in p
    ensures "categories" in p ==> FillBlanks(t)["categories"] == Filled(p["categories"])
  {
    TimedFields(p, s, e, slug, guidelink, iso);
    assert "categories" !in WrittenFields;
  }

  /** A category value makes normalisation fail only when it is a list with
      an item that is not text. */
  lemma CategoriesFailure(v: Value)
    ensures NormaliseCategories(Filled(v)).Failure? <==> v.List? && exists k | 0 <= k < |v.items| :: !v.items[k].Str?
  {
  }

  // ---------------------------------------------------------------------------
  // The guide row as the block leaves it
  // ---------------------------------------------------------------------------

  /** The guide row after the per-programme `try` block, which rewrites it in
      place: untouched when the times fail, the normalised programme when
      the block completes, and the timed and filled row when the categories
      fail (their lookup or cleaning comes after every other write). */
  function Rewritten(p: Record, slug: Value, guidelink: Value, parse: string -> Option<Stamp>, iso: Stamp -> string): (r: Record)
    ensures ParseTimes(p, parse).Failure? ==> r == p
    ensures NormaliseProgram(p, slug, guidelink, parse, iso).Success? ==> r == NormaliseProgram(p, slug, guidelink, parse, iso).value
  {
    match ParseTimes(p, parse)
    case Failure(_) => p
    case Success(times) =>
      var filled := FillBlanks(Timed(p, times.0, times.1, slug, guidelink, iso));
      match WithCategories(filled)
      case Success(q) => q
      case Failure(_) => filled
  }

  /** `isoformat()` is never blank and `parse_datetime` reads it back. */
  ghost predicate IsoReadsBack(parse: string -> Option<Stamp>, iso: Stamp -> string) {
    forall t :: parse(iso(t)) == Some(t) && !Blank(Str(iso(t)))
  }

  /** Guide rows are shared by every channel with the same guidelink, in this
      provider and the later ones. Normalising a row already rewritten for
      one channel gives, for any later channel, what normalising the
      original row gives: the same programme or the same failure. */
  lemma RenormaliseRewritten(p: Record, slug: Value, guidelink: Value, slug': Value, guidelink': Value, parse: string -> Option<Stamp>, iso: Stamp -> string)
    requires IsoReadsBack(parse, iso)
    ensures NormaliseProgram(Rewritten(p, slug, guidelink, parse, iso), slug', guidelink', parse, iso) ==
      NormaliseProgram(p, slug', guidelink', parse, iso)
  {
    if ParseTimes(p, parse).Success? {
      var (s, e) := ParseTimes(p, parse).value;
      var filled := FillBlanks(Timed(p, s, e, slug, guidelink, iso));
      var r := Rewritten(p, slug, guidelink, parse, iso);
      TimedFields(p, s, e, slug, guidelink, iso);
      assert ParseTimes(r, parse) == Success((s, e)) by {
        RewrittenTimes(p, s, e, slug, guidelink, parse, iso);
      }
      RefilledAlike(filled, p, s, e, slug', guidelink', iso);
      if WithCategories(filled).Success? {
        var qc := NormaliseCategories(filled["categories"]).value;
        assert r == filled["categories" := qc];
        NormaliseCategoriesIdempotent(filled["categories"]);
        RefilledCategories(filled, qc, s, e, slug', guidelink', iso);
      }
    }
  }

  /** The rewritten row still holds its rounded times, rendered so that
      they parse back. */
  lemma RewrittenTimes(p: Record, s: Stamp, e: Stamp, slug: Value, guidelink: Value, parse: string -> Option<Stamp>, iso: Stamp -> string)
    requires IsoReadsBack(parse, iso)
    requires ParseTimes(p, parse) == Success((s, e))
    ensures ParseTimes(Rewritten(p, slug, guidelink, parse, iso), parse) == Success((s, e))
  {
    var filled := FillBlanks(Timed(p, s, e, slug, guidelink, iso));
    assert parse(iso(s)) == Some(s) && !Blank(Str(iso(s)));
    assert parse(iso(e)) == Some(e) && !Blank(Str(iso(e)));
    FilledTimes(p, s, e, slug, guidelink, iso);
    assert RoundToNearestMinute(s) == s && RoundToNearestMinute(e) == e by {
      RoundingIdempotent(parse(p["start_time"].s).value);
      RoundingIdempotent(parse(p["end_time"].s).value);
    }
    var r := Rewritten(p, slug, guidelink, parse, iso);
    assert r == if WithCategories(filled).Success? then WithCategories(filled).value else filled;
    assert "channel" in r && r["start_time"] == filled["start_time"] && r["end_time"] == filled["end_time"] by {
      if WithCategories(filled).Success? {
        CategoriesOnly(filled);
      }
    }
    ParseTimesOf(r, iso(s), iso(e), s, e, parse);
  }

  /** Normalising the categories writes no other field. */
  lemma CategoriesOnly(x: Record)
    requires WithCategories(x).Success?
    ensures forall k | k in x :: k in WithCategories(x).value && (k != "categories" ==> WithCategories(x).value[k] == x[k])
  {
  }

  /** The filled row holds the rendered times and a channel. */
  lemma FilledTimes(p: Record, s: Stamp, e: Stamp, slug: Value, guidelink: Value, iso: Stamp -> string)
    requires !Blank(Str(iso(s))) && !Blank(Str(iso(e)))
    ensures var filled := FillBlanks(Timed(p, s, e, slug, guidelink, iso));
      && "channel" in filled
      && "start_time" in filled && filled["start_time"] == Str(iso(s))
      && "end_time" in filled && filled["end_time"] == Str(iso(e))
  {
    var w := Written(Render(s, e, iso), slug, guidelink);
    WrittenValues(Render(s, e, iso), slug, guidelink);
  }

  /** A row holding a channel and two texts that parse to whole minutes. */
  lemma ParseTimesOf(r: Record, a: string, b: string, s: Stamp, e: Stamp, parse: string -> Option<Stamp>)
    requires "channel" in r && "start_time" in r && "end_time" in r
    requires r["start_time"] == Str(a) && r["end_time"] == Str(b)
    requires parse(a) == Some(s) && parse(b) == Some(e)
    requires RoundToNearestMinute(s) == s && RoundToNearestMinute(e) == e
    ensures ParseTimes(r, parse) == Success((s, e))
  {
  }

  /** Filling a row a second time after the same writes changes nothing. */
  lemma RefilledAlike(filled: Record, p: Record, s: Stamp, e: Stamp, slug: Value, guidelink: Value, iso: Stamp -> string)
    requires filled.Keys == p.Keys + WrittenFields
    requires forall k | k in p && k !in WrittenFields :: filled[k] == Filled(p[k])
    ensures FillBlanks(Timed(filled, s, e, slug, guidelink, iso)) == FillBlanks(Timed(p, s, e, slug, guidelink, iso))
  {
    var a := FillBlanks(Timed(filled, s, e, slug, guidelink, iso));
    var b := FillBlanks(Timed(p, s, e, slug, guidelink, iso));
    TimedFields(filled, s, e, slug, guidelink, iso);
    TimedFields(p, s, e, slug, guidelink, iso);
    assert a.Keys == b.Keys;
    forall k | k in a ensures a[k] == b[k] {
      if k !in WrittenFields {
        assert Timed(filled, s, e, slug, guidelink, iso)[k] == Filled(p[k]);
      }
    }
  }

  /** With the categories already normalised, the second pass writes the
      same list again. */
  lemma RefilledCategories(filled: Record, qc: Value, s: Stamp, e: Stamp, slug: Value, guidelink: Value, iso: Stamp -> string)
    requires "categories" in filled && !Blank(filled["categories"]) && qc.List?
    requires NormaliseCategories(filled["categories"]) == Success(qc)
    requires NormaliseCategories(qc) == Success(qc)
    ensures WithCategories(FillBlanks(Timed(filled["categories" := qc], s, e, slug, guidelink, iso))) ==
      WithCategories(FillBlanks(Timed(filled, s, e, slug, guidelink, iso)))
  {
    var t := Timed(filled, s, e, slug, guidelink, iso);
    assert Timed(filled["categories" := qc], s, e, slug, guidelink, iso) == t["categories" := qc] by {
      TimedUpdate(filled, "categories", qc, s, e, slug, guidelink, iso);
    }
    assert FillBlanks(t["categories" := qc]) == FillBlanks(t)["categories" := qc] by {
      FillBlanksUpdate(t, "categories", qc);
    }
    assert "categories" in FillBlanks(t) && FillBlanks(t)["categories"] == filled["categories"] by {
      TimedFields(filled, s, e, slug, guidelink, iso);
    }
    WithCategoriesAgain(FillBlanks(t), qc);
  }

  /** Writing the normalised categories before the lookup changes nothing. */
  lemma WithCategoriesAgain(x: Record, qc: Value)
    requires "categories" in x
    requires NormaliseCategories(x["categories"]) == Success(qc)
    requires NormaliseCategories(qc) == Success(qc)
    ensures WithCategories(x["categories" := qc]) == WithCategories(x)
  {
    assert x["categories" := qc]["categories" := qc] == x["categories" := qc];
  }

  /** A field the normalisation does not write can be set before or after
      the writes. */
  lemma TimedUpdate(m: Record, k: string, v: Value, s: Stamp, e: Stamp, slug: Value, guidelink: Value, iso: Stamp -> string)
    requires k !in WrittenFields
    ensures Timed(m[k := v], s, e, slug, guidelink, iso) == Timed(m, s, e, slug, guidelink, iso)[k := v]
  {
  }

  /** Setting a non-blank value commutes with filling. */
  lemma FillBlanksUpdate(m: Record, k: string, v: Value)
    requires !Blank(v)
    ensures FillBlanks(m[k := v]) == FillBlanks(m)[k := v]
  {
  }

  // ---------------------------------------------------------------------------
  // Guide rows by channel, and a provider's programme file
  // ---------------------------------------------------------------------------

  /** The guide rows whose `channel` is `c`, in order. */
  function OnChannel(items: seq<Record>, c: Value): seq<Record> {
    if items == [] then []
    else
      var x := items[|items| - 1];
      OnChannel(items[..|items| - 1], c) + (if "channel" in x && x["channel"] == c then [x] else [])
  }

  /** `guide_data_dict`: the rows grouped by their `channel` in order; a row
      without one raises `KeyError`, and a list or dict channel cannot be a
      key (`TypeError`). */
  function GuideIndex(items: seq<Record>): Result<map<Value, seq<Record>>, Error> {
    if items == [] then Success(map[])
    else
      match GuideIndex(items[..|items| - 1])
      case Failure(e) => Failure(e)
      case Success(index) =>
        var x := items[|items| - 1];
        if "channel" !in x then Failure(KeyError("channel"))
        else if !Hashable(x["channel"]) then Failure(TypeError)
        else
          var c := x["channel"];
          Success(index[c := (if c in index then index[c] else []) + [x]])
  }

  /** The index fails iff some row has no `channel` or a list or dict one;
      otherwise each channel maps to exactly its rows, and only channels
      with rows appear. */
  lemma {:induction false} GuideIndexGroups(items: seq<Record>, c: Value)
    ensures GuideIndex(items).Failure? <==> exists i | 0 <= i < |items| :: "channel" !in items[i] || !Hashable(items[i]["channel"])
    ensures GuideIndex(items).Success? ==>
      && (c in GuideIndex(items).value <==> OnChannel(items, c) != [])
      && (c in GuideIndex(items).value ==> GuideIndex(items).value[c] == OnChannel(items, c))
  {
    if items != [] {
      var init := items[..|items| - 1];
      GuideIndexGroups(init, c);
      assert forall i | 0 <= i < |init| :: init[i] == items[i];
    }
  }

  /** The loop that fills `guide_data_dict`. */
  method BuildGuideIndex(items: seq<Record>) returns (r: Result<map<Value, seq<Record>>, Error>)
    ensures r == GuideIndex(items)
  {
    var index: map<Value, seq<Record>> := map[];
    for i := 0 to |items|
      invariant GuideIndex(items[..i]) == Success(index)
    {
      assert items[..i + 1][..i] == items[..i];
      var x := items[i];
      if "channel" !in x {
        GuideIndexStops(items, i + 1);
        return Failure(KeyError("channel"));
      }
      if !Hashable(x["channel"]) {
        GuideIndexStops(items, i + 1);
        return Failure(TypeError);
      }
      var c := x["channel"];
      var group := if c in index then index[c] else [];
      index := index[c := group + [x]];
    }
    assert items[..|items|] == items;
    return Success(index);
  }

  /** Once a prefix fails, the whole index fails the same way. */
  lemma {:induction false} GuideIndexStops(items: seq<Record>, i: nat)
    requires i <= |items| && GuideIndex(items[..i]).Failure?
    ensures GuideIndex(items) == GuideIndex(items[..i])
  {
    if i < |items| {
      assert items[..|items| - 1][..i] == items[..i];
      GuideIndexStops(items[..|items| - 1], i);
    } else {
      assert items[..i] == items;
    }
  }

  /** The guide rows a channel draws from: those of its truthy `guidelink`. */
  function ChannelGuide(ch: Record, index: map<Value, seq<Record>>): seq<Record> {
    var g := Get(ch, "guidelink");
    if Truthy(g) && g in index then index[g] else []
  }

  /** With the index built from the guide, a channel draws exactly the guide
      rows whose `channel` is its truthy `guidelink`. */
  lemma ChannelGuideRows(items: seq<Record>, ch: Record)
    requires GuideIndex(items).Success?
    ensures ChannelGuide(ch, GuideIndex(items).value) ==
      if Truthy(Get(ch, "guidelink")) then OnChannel(items, Get(ch, "guidelink")) else []
  {
    GuideIndexGroups(items, Get(ch, "guidelink"));
  }

  /** A normalisation failure that skips the programme: `KeyError` and
      `ValueError` are logged and the loop continues. */
  predicate Skipped(e: Error) { e.KeyError? || e.ValueError? }

  function Normaliser(ch: Record, parse: string -> Option<Stamp>, iso: Stamp -> string): Record -> Result<Record, Error> {
    p => NormaliseProgram(p, Get(ch, "channel_slug"), Get(ch, "guidelink"), parse, iso)
  }

  /** The provider's programmes before de-duplication: for each channel in
      order, its guide rows normalised; the first failure that is not skipped
      ends the export. */
  function ProviderPrograms(channels: seq<Record>, index: map<Value, seq<Record>>, parse: string -> Option<Stamp>, iso: Stamp -> string): Result<seq<Record>, Error> {
    if channels == [] then Success([])
    else
      match ProviderPrograms(channels[..|channels| - 1], index, parse, iso)
      case Failure(e) => Failure(e)
      case Success(done) =>
        var ch := channels[|channels| - 1];
        match Collect(ChannelGuide(ch, index), Normaliser(ch, parse, iso), Skipped)
        case Failure(e) => Failure(e)
        case Success(more) => Success(done + more)
  }

  lemma {:induction false} ProviderProgramsStops(channels: seq<Record>, index: map<Value, seq<Record>>, parse: string -> Option<Stamp>, iso: Stamp -> string, i: nat)
    requires i <= |channels| && ProviderPrograms(channels[..i], index, parse, iso).Failure?
    ensures ProviderPrograms(channels, index, parse, iso) == ProviderPrograms(channels[..i], index, parse, iso)
  {
    if i < |channels| {
      assert channels[..|channels| - 1][..i] == channels[..i];
      ProviderProgramsStops(channels[..|channels| - 1], index, parse, iso, i);
    } else {
      assert channels[..i] == channels;
    }
  }

  /** The programme file's contents: the provider's programmes, de-duplicated. */
  function ProgramFile(channels: seq<Record>, index: map<Value, seq<Record>>, parse: string -> Option<Stamp>, iso: Stamp -> string): Result<seq<Record>, Error> {
    match ProviderPrograms(channels, index, parse, iso)
    case Failure(e) => Failure(e)
    case Success(ps) => Success(FirstByKey(ps, ProgramKey))
  }

  /** One channel's guide rows, normalised one by one. */
  method NormaliseChannel(programs: seq<Record>, ch: Record, parse: string -> Option<Stamp>, iso: Stamp -> string) returns (r: Result<seq<Record>, Error>)
    ensures r == Collect(programs, Normaliser(ch, parse, iso), Skipped)
  {
    r := CollectBy(programs, Normaliser(ch, parse, iso), Skipped);
  }

  /** The programme loop of the export, for any step: a result is kept, a
      skipped failure is passed over, any other failure ends the loop. */
  method CollectBy<T, U, E>(programs: seq<T>, f: T -> Result<U, E>, skip: E -> bool) returns (r: Result<seq<U>, E>)
    ensures r == Collect(programs, f, skip)
  {
    var added: seq<U> := [];
    for j := 0 to |programs|
      invariant Collect(programs[..j], f, skip) == Success(added)
    {
      assert programs[..j + 1] == programs[..j] + [programs[j]];
      CollectSnoc(programs[..j], programs[j], f, skip);
      var step := f(programs[j]);
      match step
      case Success(q) =>
        added := added + [q];
      case Failure(e) =>
        if !skip(e) {
          CollectFailure(programs, f, skip, j + 1);
          return Failure(e);
        }
    }
    assert programs[..|programs|] == programs;
    return Success(added);
  }

  /** The channel loop of the export, then `deduplicate_programs`. */
  method CreateProgramFile(channels: seq<Record>, index: map<Value, seq<Record>>, parse: string -> Option<Stamp>, iso: Stamp -> string) returns (r: Result<seq<Record>, Error>)
    ensures r == ProgramFile(channels, index, parse, iso)
  {
    var programs: seq<Record> := [];
    for i := 0 to |channels|
      invariant ProviderPrograms(channels[..i], index, parse, iso) == Success(programs)
    {
      assert channels[..i + 1][..i] == channels[..i];
      var more := NormaliseChannel(ChannelGuide(channels[i], index), channels[i], parse, iso);
      if more.Failure? {
        ProviderProgramsStops(channels, index, parse, iso, i + 1);
        return Failure(more.error);
      }
      programs := programs + more.value;
    }
    assert channels[..|channels|] == channels;
    var unique := DeduplicatePrograms(programs);
    return Success(unique);
  }

  /** Every programme in a provider's file comes from a guide row of one of
      its channels, normalised with that channel's slug and guidelink, and
      has a key of its own. */
  lemma {:induction false} ProgramFileSources(channels: seq<Record>, index: map<Value, seq<Record>>, parse: string -> Option<Stamp>, iso: Stamp -> string)
    requires ProviderPrograms(channels, index, parse, iso).Success?
    ensures forall q | q in ProviderPrograms(channels, index, parse, iso).value ::
      exists i, p | 0 <= i < |channels| && p in ChannelGuide(channels[i], index) ::
        NormaliseProgram(p, Get(channels[i], "channel_slug"), Get(channels[i], "guidelink"), parse, iso) == Success(q)
  {
    if channels != [] {
      var init := channels[..|channels| - 1];
      var ch := channels[|channels| - 1];
      var guide := ChannelGuide(ch, index);
      var f := Normaliser(ch, parse, iso);
      ProgramFileSources(init, index, parse, iso);
      CollectMembers(guide, f, Skipped);
      var done := ProviderPrograms(init, index, parse, iso).value;
      var more := Collect(guide, f, Skipped).value;
      forall q | q in done + more
        ensures exists i, p | 0 <= i < |channels| && p in ChannelGuide(channels[i], index) ::
          NormaliseProgram(p, Get(channels[i], "channel_slug"), Get(channels[i], "guidelink"), parse, iso) == Success(q)
      {
        if q in done {
          var i, p :| 0 <= i < |init| && p in ChannelGuide(init[i], index) &&
            NormaliseProgram(p, Get(init[i], "channel_slug"), Get(init[i], "guidelink"), parse, iso) == Success(q);
          assert channels[i] == init[i];
        } else {
          var k :| 0 <= k < |guide| && f(guide[k]) == Success(q);
          assert channels[|channels| - 1] == ch;
          assert guide[k] in ChannelGuide(channels[|channels| - 1], index);
        }
      }
    }
  }
}
