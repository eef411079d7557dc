/** The import of an uploaded XMLTV file in backend/app/utils/xml_processing.py:
    each `programme` element becomes a programme record, each first
    `channel` element of an id a channel record, the additional-data
    overrides replace or extend the channels, and every channel is given its
    programme count.

    The XML parser, the file system and the name-cleaning helpers of
    `app.utils.channel_name` are outside this module: the parsed children
    of the root, the loaded override list and the helpers are parameters. */
module XmlProcessing {
  import opened Wrappers
  import opened Text
  import opened Seqs
  import opened Records
  import opened TimeUtils

  // ---------------------------------------------------------------------------
  // Elements
  // ---------------------------------------------------------------------------

  /** An lxml element: tag, attributes, text (`None` when absent) and children. */
  datatype Element = Element(tag: string, attrs: map<string, string>, text: Option<string>, children: seq<Element>)

  /** `element.get(name, default)`. */
  function Attr(e: Element, name: string, default: string): string {
    if name in e.attrs then e.attrs[name] else default
  }

  function HasTag(tag: string): Element -> bool {
    (e: Element) => e.tag == tag
  }

  /** `element.find(tag)`: the first child with the tag. */
  function Find(e: Element, tag: string): Option<Element> {
    FirstWhere(e.children, HasTag(tag))
  }

  /** `element.findall(tag)`: the children with the tag, in order. */
  function FindAll(e: Element, tag: string): seq<Element> {
    Select(e.children, HasTag(tag), true)
  }

  /** `get_child_as_text`: the text of the first child with the tag, "N/A"
      when there is no such child or it has no text. */
  function ChildText(e: Element, tag: string): (r: string)
    ensures Find(e, tag).Some? && Find(e, tag).value.text.Some? ==> r == Find(e, tag).value.text.value
    ensures Find(e, tag).None? || Find(e, tag).value.text.None? ==> r == NA
  {
    match Find(e, tag)
    case Some(child) => if child.text.Some? then child.text.value else NA
    case None => NA
  }

  /** The first child with tag `inner` of the children with tag `outer`, in
      document order: `element.find("outer/inner")`. */
  function FindIn(outers: seq<Element>, inner: string): (r: Option<Element>)
    ensures r.Some? ==> r.value.tag == inner
  {
    if outers == [] then None
    else match Find(outers[0], inner)
      case Some(x) => Some(x)
      case None => FindIn(outers[1..], inner)
  }

  /** `program.find("rating/value")` with its text, or "N/A". */
  function RatingText(program: Element): string {
    match FindIn(FindAll(program, "rating"), "value")
    case Some(v) => if v.text.Some? then v.text.value else NA
    case None => NA
  }

  // ---------------------------------------------------------------------------
  // process_program
  // ---------------------------------------------------------------------------

  function System(e: Element): Option<string> {
    if "system" in e.attrs then Some(e.attrs["system"]) else None
  }

  /** The text the episode-num loop leaves for `system`: the text of the
      last element with that system, which may itself be absent. */
  function LastText(episodes: seq<Element>, system: string): Option<string> {
    if episodes == [] then None
    else if System(episodes[|episodes| - 1]) == Some(system) then episodes[|episodes| - 1].text
    else LastText(episodes[..|episodes| - 1], system)
  }

  /** The loop over the `episode-num` children. */
  method EpisodeTexts(episodes: seq<Element>) returns (episodeNumber: Option<string>, originalAirDate: Option<string>)
    ensures episodeNumber == LastText(episodes, "SxxExx")
    ensures originalAirDate == LastText(episodes, "original-air-date")
  {
    episodeNumber, originalAirDate := None, None;
    for i := 0 to |episodes|
      invariant episodeNumber == LastText(episodes[..i], "SxxExx")
      invariant originalAirDate == LastText(episodes[..i], "original-air-date")
    {
      assert episodes[..i + 1][..i] == episodes[..i];
      var system := System(episodes[i]);
      if system == Some("SxxExx") {
        episodeNumber := episodes[i].text;
      } else if system == Some("original-air-date") {
        originalAirDate := episodes[i].text;
      }
    }
    assert episodes[..|episodes|] == episodes;
  }

  /** The text found is that of the last element with the system, and
      nothing is found when no element has it. */
  lemma {:induction false} LastTextIsLast(episodes: seq<Element>, system: string)
    ensures (forall i | 0 <= i < |episodes| :: System(episodes[i]) != Some(system)) ==> LastText(episodes, system) == None
    ensures forall i | 0 <= i < |episodes| && System(episodes[i]) == Some(system)
                       && (forall j | i < j < |episodes| :: System(episodes[j]) != Some(system)) ::
              LastText(episodes, system) == episodes[i].text
  {
    if episodes != [] {
      var n := |episodes| - 1;
      var init := episodes[..n];
      LastTextIsLast(init, system);
      forall i | 0 <= i < |episodes| && System(episodes[i]) == Some(system)
                 && (forall j | i < j < |episodes| :: System(episodes[j]) != Some(system))
        ensures LastText(episodes, system) == episodes[i].text
      {
        if i < n {
          assert System(episodes[n]) != Some(system);
          assert init[i] == episodes[i];
          assert forall j | i < j < n :: init[j] == episodes[j];
        }
      }
      if forall i | 0 <= i < |episodes| :: System(episodes[i]) != Some(system) {
        assert forall i | 0 <= i < n :: init[i] == episodes[i];
      }
    }
  }

  /** `%H:%M` of a wall-clock time. */
  function HourMinute(wall: int): string {
    var s := SecondOfDay(wall);
    Pad2(s / 3600) + ":" + Pad2(s / 60 % 60)
  }

  function TextOf(e: Element): Option<string> { e.text }

  /** The programme record `process_program` builds, once both times are
      parsed and the episode-num loop has run. `parse` stands for
      `strptime(text, "%Y%m%d%H%M%S %z")`. */
  function ProgramOf(program: Element, start: Stamp, end: Stamp, episode: Option<string>, airDate: Option<string>): Program {
    Program(
      start.ToTime(), end.ToTime(), HourMinute(start.wall), HourMinute(end.wall),
      LengthText(TimedeltaText(end.Instant() - start.Instant())),
      Slugify(Attr(program, "channel", "")),
      ChildText(program, "title"), ChildText(program, "sub-title"), ChildText(program, "desc"),
      Somes(MapSeq(FindAll(program, "category"), TextOf)),
      if episode.Some? then episode.value else NA,
      if airDate.Some? then airDate.value else NA,
      RatingText(program))
  }

  /** `strptime` of an attribute, `ValueError` when it does not parse. */
  function ParseAttr(program: Element, name: string, parse: string -> Option<Stamp>): (r: Result<Stamp, Error>)
    ensures r.Success? <==> parse(Attr(program, name, "")).Some?
    ensures r.Success? ==> r.value == parse(Attr(program, name, "")).value
    ensures r.Failure? ==> r.error == ValueError(Attr(program, name, ""))
  {
    match parse(Attr(program, name, ""))
    case Some(t) => Success(t)
    case None => Failure(ValueError(Attr(program, name, "")))
  }

  /** `process_program`. */
  function ProcessProgram(program: Element, parse: string -> Option<Stamp>): Result<Program, Error> {
    match ParseAttr(program, "start", parse)
    case Failure(e) => Failure(e)
    case Success(start) =>
      match ParseAttr(program, "stop", parse)
      case Failure(e) => Failure(e)
      case Success(end) =>
        var episodes := FindAll(program, "episode-num");
        Success(ProgramOf(program, start, end, LastText(episodes, "SxxExx"), LastText(episodes, "original-air-date")))
  }

  /** `process_program`, with its episode-num loop. */
  method ProcessProgramElement(program: Element, parse: string -> Option<Stamp>) returns (r: Result<Program, Error>)
    ensures r == ProcessProgram(program, parse)
  {
    var start := ParseAttr(program, "start", parse);
    if start.Failure? {
      return Failure(start.error);
    }
    var end := ParseAttr(program, "stop", parse);
    if end.Failure? {
      return Failure(end.error);
    }
    var episode, airDate := EpisodeTexts(FindAll(program, "episode-num"));
    return Success(ProgramOf(program, start.value, end.value, episode, airDate));
  }

  /** What the programme record holds: the parsed times kept with their
      offsets, the `%H:%M` texts, the duration text, the slugged channel
      attribute, the child texts with "N/A" for what is missing, and the
      category texts that exist, in order. */
  lemma ProcessProgramFields(program: Element, parse: string -> Option<Stamp>)
    ensures ProcessProgram(program, parse).Failure? <==>
      parse(Attr(program, "start", "")).None? || parse(Attr(program, "stop", "")).None?
    ensures ProcessProgram(program, parse).Success? ==>
      var p, s, e := ProcessProgram(program, parse).value, parse(Attr(program, "start", "")).value, parse(Attr(program, "stop", "")).value;
      && p.start_time == Time(s.wall, Some(s.offset)) && p.end_time == Time(e.wall, Some(e.offset))
      && p.length == LengthText(TimedeltaText(e.Instant() - s.Instant()))
      && p.channel == Slugify(Attr(program, "channel", ""))
      && IsSlug(p.channel)
      && p.title == ChildText(program, "title") && p.description == ChildText(program, "desc")
      && (forall c | c in p.categories :: exists x | x in FindAll(program, "category") :: x.text == Some(c))
      && (forall x | x in FindAll(program, "category") && x.text.Some? :: x.text.value in p.categories)
      && (p.episode == NA <==> LastText(FindAll(program, "episode-num"), "SxxExx") in {None, Some(NA)})
  {
    if ProcessProgram(program, parse).Success? {
      var cats := FindAll(program, "category");
      var texts := MapSeq(cats, TextOf);
      SomesMembers(texts);
      SlugifyIsSlug(Attr(program, "channel", ""));
      forall c | c in Somes(texts) ensures exists x | x in cats :: x.text == Some(c) {
        var i :| 0 <= i < |texts| && texts[i] == Some(c);
        assert cats[i] in cats;
      }
      forall x | x in cats && x.text.Some? ensures x.text.value in Somes(texts) {
        var i :| 0 <= i < |cats| && cats[i] == x;
        assert texts[i] == x.text;
      }
    }
  }

  // ---------------------------------------------------------------------------
  // Channel elements
  // ---------------------------------------------------------------------------

  /** The values `process_xml_file` reads from a channel element. */
  datatype ChannelFields = ChannelFields(
    id: string, name: string, clean: string, number: string, logo: string, group: string, url: string)

  /** The fields of a channel element. `clean` and `groupOf` stand for
      `clean_channel_name` and `get_channel_group`; the names are cleaned
      and the logo path derived only for "xmltvnet" files. */
  function ChannelInfo(c: Element, fileId: string, clean: string -> string, groupOf: string -> string): (f: ChannelFields)
    ensures f.id == Attr(c, "id", "")
    ensures f.number == ChildText(c, "lcn") && f.url == ChildText(c, "url")
    ensures ChildText(c, "display-name") == NA || !StartsWith(fileId, "xmltvnet") ==>
      f.name == ChildText(c, "display-name") && f.clean == f.name && f.group == "Unknown"
    ensures ChildText(c, "display-name") != NA && StartsWith(fileId, "xmltvnet") ==>
      && f.name == clean(ChildText(c, "display-name")) && f.clean == f.name
      && f.group == groupOf(f.name) && f.logo == "/logos/" + Lower(Slugify(f.name)) + ".png"
  {
    var icon := Find(c, "icon");
    var chlogo := if icon.Some? && "src" in icon.value.attrs then icon.value.attrs["src"] else NA;
    var name := ChildText(c, "display-name");
    if name != NA && StartsWith(fileId, "xmltvnet") then
      var cleaned := clean(name);
      ChannelFields(Attr(c, "id", ""), cleaned, cleaned, ChildText(c, "lcn"),
                    "/logos/" + Lower(Slugify(cleaned)) + ".png", groupOf(cleaned), ChildText(c, "url"))
    else
      ChannelFields(Attr(c, "id", ""), name, name, ChildText(c, "lcn"), chlogo, "Unknown", ChildText(c, "url"))
  }

  /** The channel record appended for a channel element. */
  function ChannelRecord(f: ChannelFields): (r: Record)
    ensures "channel_id" in r && r["channel_id"] == Str(f.id)
    ensures "channel_slug" in r && r["channel_slug"] == Str(Slugify(f.id))
  {
    map[
      "channel_id" := Str(f.id),
      "channel_slug" := Str(Slugify(f.id)),
      "channel_name" := Str(f.name),
      "channel_names" := Dict(map["clean" := Str(f.clean), "location" := Str(f.name), "real" := Str(f.name)]),
      "channel_number" := Str(f.number),
      "chlogo" := Str(f.logo),
      "channel_group" := Str(f.group),
      "channel_url" := Str(f.url),
      "channel_logo" := Dict(map["light" := Str(f.logo), "dark" := Str(f.logo)]),
      "other_data" := Dict(map["channel_type" := Str(NA), "channel_specs" := Str(NA)])]
  }

  function FieldsId(f: ChannelFields): string { f.id }

  // ---------------------------------------------------------------------------
  // Reading the children of the root
  // ---------------------------------------------------------------------------

  /** What the parsing loop collects. */
  datatype Parsed = Parsed(fields: seq<ChannelFields>, programs: seq<Program>)

  function Reader(fileId: string, clean: string -> string, groupOf: string -> string): Element -> ChannelFields {
    (c: Element) => ChannelInfo(c, fileId, clean, groupOf)
  }

  function Processor(parse: string -> Option<Stamp>): Element -> Result<Program, Error> {
    (e: Element) => ProcessProgram(e, parse)
  }

  /** The channel fields kept: one per id, the first channel element of it. */
  function KeptChannels(children: seq<Element>, fileId: string, clean: string -> string, groupOf: string -> string): seq<ChannelFields> {
    FirstByKey(MapSeq(Select(children, HasTag("channel"), true), Reader(fileId, clean, groupOf)), FieldsId)
  }

  /** The loop over the root's children: channels de-duplicated by id, every
      programme processed, the first failing programme aborting the import. */
  function ParseChildren(children: seq<Element>, fileId: string, clean: string -> string, groupOf: string -> string,
                         parse: string -> Option<Stamp>): Result<Parsed, Error> {
    match Collect(Select(children, HasTag("programme"), true), Processor(parse), Never)
    case Failure(e) => Failure(e)
    case Success(programs) => Success(Parsed(KeptChannels(children, fileId, clean, groupOf), programs))
  }

  /** The kept channels have distinct ids, and every id of a channel
      element is kept. */
  lemma KeptChannelsDistinct(children: seq<Element>, fileId: string, clean: string -> string, groupOf: string -> string)
    ensures DistinctKeys(KeptChannels(children, fileId, clean, groupOf), FieldsId)
    ensures KeySet(KeptChannels(children, fileId, clean, groupOf), FieldsId) ==
      KeySet(MapSeq(Select(children, HasTag("channel"), true), Reader(fileId, clean, groupOf)), FieldsId)
  {
    var fs := MapSeq(Select(children, HasTag("channel"), true), Reader(fileId, clean, groupOf));
    FirstByKeyDistinct(fs, FieldsId);
    FirstByKeyKeepsKeys(fs, FieldsId);
  }

  /** The first channel element of an id is the one kept. */
  lemma KeptChannelsFirstWins(children: seq<Element>, fileId: string, clean: string -> string, groupOf: string -> string, i: nat)
    requires i < |Select(children, HasTag("channel"), true)|
    ensures var fs := MapSeq(Select(children, HasTag("channel"), true), Reader(fileId, clean, groupOf));
      fs[i].id !in KeySet(fs[..i], FieldsId) ==> fs[i] in KeptChannels(children, fileId, clean, groupOf)
  {
    var fs := MapSeq(Select(children, HasTag("channel"), true), Reader(fileId, clean, groupOf));
    if fs[i].id !in KeySet(fs[..i], FieldsId) {
      assert FieldsId(fs[i]) == fs[i].id;
      FirstOccurrenceKept(fs, FieldsId, i);
    }
  }

  /** The body of the parsing loop for one child. */
  method ReadChild(child: Element, channels: seq<Record>, ghost fields: seq<ChannelFields>, fileId: string,
                   clean: string -> string, groupOf: string -> string)
    returns (added: Option<ChannelFields>)
    requires child.tag == "channel" && channels == MapSeq(fields, ChannelRecord)
    ensures added.None? <==> FieldsId(ChannelInfo(child, fileId, clean, groupOf)) in KeySet(fields, FieldsId)
    ensures added.Some? ==> added.value == ChannelInfo(child, fileId, clean, groupOf)
  {
    var channelId := Attr(child, "id", "");
    KeySetMembers(fields, FieldsId);
    if exists j | 0 <= j < |channels| :: Get(channels[j], "channel_id") == Str(channelId) {
      var j :| 0 <= j < |channels| && Get(channels[j], "channel_id") == Str(channelId);
      assert FieldsId(fields[j]) == channelId;
      return None;
    }
    assert forall j | 0 <= j < |fields| :: Get(channels[j], "channel_id") == Str(FieldsId(fields[j]));
    return Some(ChannelInfo(child, fileId, clean, groupOf));
  }

  /** One channel element offered to the de-duplication. */
  lemma KeptChannelsSnoc(children: seq<Element>, i: nat, fileId: string, clean: string -> string, groupOf: string -> string)
    requires i < |children| && children[i].tag == "channel"
    ensures var f := ChannelInfo(children[i], fileId, clean, groupOf);
      var kept := KeptChannels(children[..i], fileId, clean, groupOf);
      KeptChannels(children[..i + 1], fileId, clean, groupOf) ==
        if f.id in KeySet(kept, FieldsId) then kept else kept + [f]
  {
    var read := Reader(fileId, clean, groupOf);
    var f := ChannelInfo(children[i], fileId, clean, groupOf);
    TakeSnoc(children, i);
    SelectSnoc(children[..i], children[i], HasTag("channel"), true);
    var sel := Select(children[..i], HasTag("channel"), true);
    MapSeqSnoc(sel, children[i], read);
    var fs := MapSeq(sel, read);
    assert read(children[i]) == f;
    assert MapSeq(Select(children[..i + 1], HasTag("channel"), true), read) == fs + [f];
    assert (fs + [f])[..|fs|] == fs;
    FirstByKeyKeepsKeys(fs, FieldsId);
  }

  /** One child that is not a channel element leaves the channels as they were. */
  lemma KeptChannelsOther(children: seq<Element>, i: nat, fileId: string, clean: string -> string, groupOf: string -> string)
    requires i < |children| && children[i].tag != "channel"
    ensures KeptChannels(children[..i + 1], fileId, clean, groupOf) == KeptChannels(children[..i], fileId, clean, groupOf)
  {
    SelectSkip(children, i, HasTag("channel"), true);
  }

  /** The loop body for a channel element: its record is appended unless a
      channel of its id was already read. */
  method ChannelStep(children: seq<Element>, i: nat, channels: seq<Record>, ghost fields: seq<ChannelFields>,
                     fileId: string, clean: string -> string, groupOf: string -> string)
    returns (channels': seq<Record>, ghost fields': seq<ChannelFields>)
    requires i < |children| && children[i].tag == "channel"
    requires fields == KeptChannels(children[..i], fileId, clean, groupOf) && channels == MapSeq(fields, ChannelRecord)
    ensures fields' == KeptChannels(children[..i + 1], fileId, clean, groupOf)
    ensures channels' == MapSeq(fields', ChannelRecord)
  {
    KeptChannelsSnoc(children, i, fileId, clean, groupOf);
    var added := ReadChild(children[i], channels, fields, fileId, clean, groupOf);
    channels', fields' := channels, fields;
    if added.Some? {
      MapSeqSnoc(fields, added.value, ChannelRecord);
      channels' := channels + [ChannelRecord(added.value)];
      fields' := fields + [added.value];
    }
  }

  /** The first loop of `process_xml_file`. */
  method ReadChildren(children: seq<Element>, fileId: string, clean: string -> string, groupOf: string -> string,
                      parse: string -> Option<Stamp>) returns (r: Result<(seq<Record>, seq<Program>), Error>)
    ensures var p := ParseChildren(children, fileId, clean, groupOf, parse);
      && (p.Failure? ==> r == Failure(p.error))
      && (p.Success? ==> r == Success((MapSeq(p.value.fields, ChannelRecord), p.value.programs)))
  {
    var process := Processor(parse);
    var isProgramme := HasTag("programme");
    var originalChannels: seq<Record> := [];
    ghost var fields: seq<ChannelFields> := [];
    var programs: seq<Program> := [];
    for i := 0 to |children|
      invariant fields == KeptChannels(children[..i], fileId, clean, groupOf)
      invariant originalChannels == MapSeq(fields, ChannelRecord)
      invariant Collect(Select(children[..i], isProgramme, true), process, Never) == Success(programs)
    {
      var child := children[i];
      if child.tag == "channel" {
        SelectSkip(children, i, isProgramme, true);
        originalChannels, fields := ChannelStep(children, i, originalChannels, fields, fileId, clean, groupOf);
      } else {
        KeptChannelsOther(children, i, fileId, clean, groupOf);
        if child.tag == "programme" {
          var program := ProcessProgramElement(child, parse);
          CollectSelectedStep(children, i, isProgramme, process, programs, program);
          if program.Failure? {
            return Failure(program.error);
          }
          programs := programs + [program.value];
        } else {
          SelectSkip(children, i, isProgramme, true);
        }
      }
    }
    assert children[..|children|] == children;
    return Success((originalChannels, programs));
  }

  // ---------------------------------------------------------------------------
  // Additional channel data
  // ---------------------------------------------------------------------------

  /** `channel.get("channel_id")`. */
  function IdValue(c: Record): Value { Get(c, "channel_id") }

  predicate HasId(c: Record) { Truthy(IdValue(c)) }

  /** `additional_channels_map`: each override with a truthy id under that
      id, a later override of an id replacing an earlier one; empty when the
      additional-data file does not exist (`additional` is `None`). */
  function OverrideMap(additional: Option<seq<Record>>): (r: Result<seq<(Value, Record)>, Error>)
    ensures additional.None? ==> r == Success([])
    ensures additional.Some? ==>
      (r.Failure? <==> exists i | 0 <= i < |additional.value| :: HasId(additional.value[i]) && !Hashable(IdValue(additional.value[i])))
  {
    match additional
    case None => Success([])
    case Some(cs) =>
      if exists i | 0 <= i < |cs| :: HasId(cs[i]) && !Hashable(IdValue(cs[i])) then Failure(TypeError)
      else Success(Assign(Pairs(cs, HasId, IdValue)))
  }

  /** The dictionary comprehension over the loaded overrides. */
  method BuildOverrideMap(additional: Option<seq<Record>>) returns (r: Result<seq<(Value, Record)>, Error>)
    ensures r == OverrideMap(additional)
  {
    if additional.None? {
      return Success([]);
    }
    r := AssignByKey(additional.value, HasId, IdValue, Hashable);
  }

  /** Some entry with a key has an unhashable one. */
  ghost predicate SomeUnhashable<T, K>(cs: seq<T>, has: T -> bool, key: T -> K, hashable: K -> bool) {
    exists i | 0 <= i < |cs| :: has(cs[i]) && !hashable(key(cs[i]))
  }

  /** The comprehension's loop for any key: entries with a key are assigned
      in order, and the first unhashable key raises `TypeError`. */
  method AssignByKey<T, K(==)>(cs: seq<T>, has: T -> bool, key: T -> K, hashable: K -> bool) returns (r: Result<seq<(K, T)>, Error>)
    ensures r == if SomeUnhashable(cs, has, key, hashable) then Failure(TypeError)
                 else Success(Assign(Pairs(cs, has, key)))
  {
    var d: seq<(K, T)> := [];
    var i := 0;
    while i < |cs|
      invariant i <= |cs|
      invariant d == Assigned(cs[..i], has, key)
      invariant forall j | 0 <= j < i :: !has(cs[j]) || hashable(key(cs[j]))
    {
      if has(cs[i]) && !hashable(key(cs[i])) {
        break;
      }
      d := AssignStep(d, cs, i, has, key);
      i := i + 1;
    }
    r := AssignResult(cs, i, d, has, key, hashable);
  }

  /** The comprehension's value once the loop has stopped at `i`: a failure
      when an unhashable key stopped it, the assignments otherwise. */
  method AssignResult<T, K(==)>(cs: seq<T>, i: nat, d: seq<(K, T)>, has: T -> bool, key: T -> K, hashable: K -> bool)
    returns (r: Result<seq<(K, T)>, Error>)
    requires i <= |cs| && d == Assigned(cs[..i], has, key)
    requires forall j | 0 <= j < i :: !has(cs[j]) || hashable(key(cs[j]))
    requires i < |cs| ==> has(cs[i]) && !hashable(key(cs[i]))
    ensures r == if SomeUnhashable(cs, has, key, hashable) then Failure(TypeError)
                 else Success(Assign(Pairs(cs, has, key)))
  {
    if i < |cs| {
      assert SomeUnhashable(cs, has, key, hashable);
      r := Failure(TypeError);
    } else {
      assert !SomeUnhashable(cs, has, key, hashable);
      assert cs[..i] == cs;
      AssignedPairs(cs, has, key);
      r := Success(d);
    }
  }

  /** The assignments of the entries that have a key, one at a time. */
  function Assigned<T, K(==)>(s: seq<T>, has: T -> bool, key: T -> K): seq<(K, T)> {
    if s == [] then []
    else
      var d := Assigned(s[..|s| - 1], has, key);
      if has(s[|s| - 1]) then Upsert(d, key(s[|s| - 1]), s[|s| - 1]) else d
  }

  /** Assigning one entry at a time is assigning the keyed pairs. */
  lemma {:induction false} AssignedPairs<T, K>(s: seq<T>, has: T -> bool, key: T -> K)
    ensures Assigned(s, has, key) == Assign(Pairs(s, has, key))
  {
    if s != [] {
      var init, x := s[..|s| - 1], s[|s| - 1];
      AssignedPairs(init, has, key);
      assert init + [x] == s;
      AssignPairsSnoc([], init, x, has, key);
      assert [] + Pairs(init, has, key) == Pairs(init, has, key);
      assert [] + Pairs(s, has, key) == Pairs(s, has, key);
    }
  }

  /** One entry of the comprehension: an entry with a key is assigned. */
  method AssignStep<T, K(==)>(d: seq<(K, T)>, cs: seq<T>, i: nat, has: T -> bool, key: T -> K) returns (d': seq<(K, T)>)
    requires i < |cs| && d == Assigned(cs[..i], has, key)
    ensures d' == Assigned(cs[..i + 1], has, key)
  {
    assert cs[..i + 1][..i] == cs[..i];
    d' := if has(cs[i]) then Upsert(d, key(cs[i]), cs[i]) else d;
  }

  /** The override an id finds is the last override with that id, and an id
      finds none exactly when no override has it. */
  lemma OverrideMapEntries(cs: seq<Record>, d: seq<(Value, Record)>, k: Value)
    requires OverrideMap(Some(cs)) == Success(d)
    ensures Lookup(d, k).None? <==> forall i | 0 <= i < |cs| :: !HasId(cs[i]) || IdValue(cs[i]) != k
    ensures Lookup(d, k).Some? ==>
      exists i | 0 <= i < |cs| ::
        && cs[i] == Lookup(d, k).value && HasId(cs[i]) && IdValue(cs[i]) == k
        && forall j | i < j < |cs| :: !HasId(cs[j]) || IdValue(cs[j]) != k
  {
    AssignLookup(Pairs(cs, HasId, IdValue), k);
    LastValuePairs(cs, HasId, IdValue, k);
  }

  // ---------------------------------------------------------------------------
  // Programme counts
  // ---------------------------------------------------------------------------

  function ChannelIs(slug: string): Program -> bool {
    (p: Program) => p.channel == slug
  }

  /** `Counter(program["channel"] for program in programs)[slug]`. */
  function ProgramCount(programs: seq<Program>, slug: string): nat {
    |Select(programs, ChannelIs(slug), true)|
  }

  /** The key the count is looked up under: the channel's slug, or else the
      slugged id. The default is evaluated first, so an id that is not a
      text fails even when a slug exists. */
  function CountKey(c: Record): (r: Result<Value, Error>)
    ensures r.Failure? <==> !GetOr(c, "channel_id", Str("")).Str?
    ensures r.Success? && "channel_slug" in c ==> r.value == c["channel_slug"]
    ensures r.Success? && "channel_slug" !in c ==> r.value == Str(Slugify(GetOr(c, "channel_id", Str("")).s))
  {
    var id := GetOr(c, "channel_id", Str(""));
    if !id.Str? then Failure(TypeError)
    else Success(GetOr(c, "channel_slug", Str(Slugify(id.s))))
  }

  /** `channel_program_counts.get(key, 0)`: programme channels are texts, so
      a key of another type counts nothing. */
  function CountOf(programs: seq<Program>, key: Value): (r: Result<int, Error>)
    ensures r.Failure? <==> !Hashable(key)
    ensures r.Success? && !key.Str? ==> r.value == 0
    ensures r.Success? && key.Str? ==> r.value == ProgramCount(programs, key.s)
  {
    if !Hashable(key) then Failure(TypeError)
    else if key.Str? then Success(ProgramCount(programs, key.s))
    else Success(0)
  }

  /** `channel["program_count"] = ...` for one channel. */
  function WithCount(programs: seq<Program>): Record -> Result<Record, Error> {
    (c: Record) =>
      match CountKey(c)
      case Failure(e) => Failure(e)
      case Success(key) =>
        match CountOf(programs, key)
        case Failure(e) => Failure(e)
        case Success(n) => Success(c["program_count" := Int(n)])
  }

  /** The count a channel read from the file is given. */
  function AddCount(programs: seq<Program>): Record -> Record {
    (c: Record) => c["program_count" := Int(ProgramCount(programs, Slugify(StrOf(IdValue(c)))))]
  }

  /** A channel read from the file is counted under its slugged id. */
  lemma CountedRecord(programs: seq<Program>, f: ChannelFields)
    ensures WithCount(programs)(ChannelRecord(f)) == Success(AddCount(programs)(ChannelRecord(f)))
    ensures AddCount(programs)(ChannelRecord(f)) ==
      ChannelRecord(f)["program_count" := Int(ProgramCount(programs, Slugify(f.id)))]
  {
  }

  // ---------------------------------------------------------------------------
  // process_xml_file
  // ---------------------------------------------------------------------------

  /** The three files written: channels, programmes and the channels that no
      override replaced. */
  datatype XmlFiles = XmlFiles(channels: seq<Record>, programs: seq<Program>, datacheck: seq<Record>)

  /** The files written for channels read from the file, after the overrides
      and the counts; the channels that kept their data share their
      dictionaries with the channel list, so they are counted too. */
  function Output(originals: seq<Record>, programs: seq<Program>, m: seq<(Value, Record)>): Result<XmlFiles, Error> {
    var o := Overlay(originals, m, IdValue);
    match Collect(o.0 + Values(o.2), WithCount(programs), Never)
    case Failure(e) => Failure(e)
    case Success(channels) =>
      match Collect(o.1, WithCount(programs), Never)
      case Failure(e) => Failure(e)
      case Success(datacheck) => Success(XmlFiles(channels, programs, datacheck))
  }

  /** `process_xml_file`; any exception ends it without writing anything. */
  function ProcessXml(children: seq<Element>, fileId: string, clean: string -> string, groupOf: string -> string,
                      parse: string -> Option<Stamp>, additional: Option<seq<Record>>): Result<XmlFiles, Error> {
    match ParseChildren(children, fileId, clean, groupOf, parse)
    case Failure(e) => Failure(e)
    case Success(parsed) =>
      match OverrideMap(additional)
      case Failure(e) => Failure(e)
      case Success(m) => Output(MapSeq(parsed.fields, ChannelRecord), parsed.programs, m)
  }

  /** The records read from the file have distinct ids. */
  lemma RecordsDistinct(fields: seq<ChannelFields>)
    requires DistinctKeys(fields, FieldsId)
    ensures DistinctKeys(MapSeq(fields, ChannelRecord), IdValue)
  {
    var rs := MapSeq(fields, ChannelRecord);
    forall i, j | 0 <= i < j < |rs| ensures IdValue(rs[i]) != IdValue(rs[j]) {
      assert IdValue(rs[i]) == Str(FieldsId(fields[i]));
      assert IdValue(rs[j]) == Str(FieldsId(fields[j]));
    }
  }

  /** Every channel that kept its data is one read from the file, so it is
      counted under its slugged id. */
  lemma DatacheckCounted(fields: seq<ChannelFields>, programs: seq<Program>, m: seq<(Value, Record)>)
    requires DistinctKeys(fields, FieldsId)
    ensures var rs := MapSeq(fields, ChannelRecord);
      Collect(Overlay(rs, m, IdValue).1, WithCount(programs), Never) ==
        Success(MapSeq(Select(rs, Unmatched(m, IdValue), true), AddCount(programs)))
  {
    var rs := MapSeq(fields, ChannelRecord);
    RecordsDistinct(fields);
    OverlayClosed(rs, m, IdValue);
    var kept := Select(rs, Unmatched(m, IdValue), true);
    SelectMembers(rs, Unmatched(m, IdValue), true);
    forall i | 0 <= i < |rs| ensures WithCount(programs)(rs[i]) == Success(AddCount(programs)(rs[i])) {
      CountedRecord(programs, fields[i]);
    }
    CollectMapped(kept, rs, WithCount(programs), AddCount(programs));
  }

  /** The files written for distinct channels: the channel list is the
      overlaid list with its counts, the datacheck list the counted
      channels no override replaced. */
  lemma OutputShape(rs: seq<Record>, programs: seq<Program>, m: seq<(Value, Record)>)
    requires DistinctKeys(rs, IdValue)
    requires Collect(Overlay(rs, m, IdValue).1, WithCount(programs), Never) ==
      Success(MapSeq(Select(rs, Unmatched(m, IdValue), true), AddCount(programs)))
    ensures var channels := MapSeq(rs, Overridden(m, IdValue)) + Values(Select(m, Unclaimed(rs, IdValue), true));
      var r := Output(rs, programs, m);
      && (r.Success? <==> forall i | 0 <= i < |channels| :: WithCount(programs)(channels[i]).Success?)
      && (r.Success? ==>
            && r.value.programs == programs
            && |r.value.channels| == |channels|
            && (forall i | 0 <= i < |channels| :: r.value.channels[i] == WithCount(programs)(channels[i]).value)
            && r.value.datacheck == MapSeq(Select(rs, Unmatched(m, IdValue), true), AddCount(programs)))
  {
    OverlayCollect(rs, m, IdValue, WithCount(programs));
  }

  /** The channel file: each channel read from the file, in order, replaced
      by the last override of its id when there is one, then the overrides
      of ids the file does not have, in the order their ids first appear;
      the datacheck file: the channels no override replaced; every entry of
      both with its programme count. */
  lemma ProcessXmlChannels(children: seq<Element>, fileId: string, clean: string -> string, groupOf: string -> string,
                           parse: string -> Option<Stamp>, additional: Option<seq<Record>>)
    requires ParseChildren(children, fileId, clean, groupOf, parse).Success?
    requires OverrideMap(additional).Success?
    ensures var parsed := ParseChildren(children, fileId, clean, groupOf, parse).value;
      var rs, m := MapSeq(parsed.fields, ChannelRecord), OverrideMap(additional).value;
      var channels := MapSeq(rs, Overridden(m, IdValue)) + Values(Select(m, Unclaimed(rs, IdValue), true));
      var r := ProcessXml(children, fileId, clean, groupOf, parse, additional);
      && (r.Success? <==> forall i | 0 <= i < |channels| :: WithCount(parsed.programs)(channels[i]).Success?)
      && (r.Success? ==>
            && r.value.programs == parsed.programs
            && |r.value.channels| == |channels|
            && (forall i | 0 <= i < |channels| :: r.value.channels[i] == WithCount(parsed.programs)(channels[i]).value)
            && r.value.datacheck == MapSeq(Select(rs, Unmatched(m, IdValue), true), AddCount(parsed.programs)))
  {
    var parsed := ParseChildren(children, fileId, clean, groupOf, parse).value;
    var rs, m := MapSeq(parsed.fields, ChannelRecord), OverrideMap(additional).value;
    KeptChannelsDistinct(children, fileId, clean, groupOf);
    RecordsDistinct(parsed.fields);
    DatacheckCounted(parsed.fields, parsed.programs, m);
    OutputShape(rs, parsed.programs, m);
    assert ProcessXml(children, fileId, clean, groupOf, parse, additional) == Output(rs, parsed.programs, m);
  }

  /** `process_xml_file`: the parsing loop, the override map, the merge
      loop and the counting loop. */
  method ProcessXmlFile(children: seq<Element>, fileId: string, clean: string -> string, groupOf: string -> string,
                        parse: string -> Option<Stamp>, additional: Option<seq<Record>>) returns (r: Result<XmlFiles, Error>)
    ensures r == ProcessXml(children, fileId, clean, groupOf, parse, additional)
  {
    var read := ReadChildren(children, fileId, clean, groupOf, parse);
    if read.Failure? {
      return Failure(read.error);
    }
    var originals, programs := read.value.0, read.value.1;
    var m := BuildOverrideMap(additional);
    if m.Failure? {
      return Failure(m.error);
    }
    var updated, kept, remaining := OverlayEach(originals, m.value, IdValue);
    var channels := CollectEach(updated + Values(remaining), WithCount(programs), Never);
    if channels.Failure? {
      return Failure(channels.error);
    }
    var datacheck := CollectEach(kept, WithCount(programs), Never);
    if datacheck.Failure? {
      return Failure(datacheck.error);
    }
    return Success(XmlFiles(channels.value, programs, datacheck.value));
  }
}
