/** The channel side of the XMLEPG export: programme counts per channel, the
    annotation of merged channel rows (`post_process_channels`), the per
    provider channel block that writes a provider's channel file, the
    guidelink set and the SQL `IN` clause built from it, and the source
    entries listed for the providers. */
module XmlEpgChannels {
  import opened Wrappers
  import opened Text
  import opened Seqs
  import opened Records
  import opened XmlEpgMerge
  import opened XmlEpgPrograms
  import opened TimeUtils
  import Collate

  // ---------------------------------------------------------------------------
  // count_programs_per_channel
  // ---------------------------------------------------------------------------

  /** `Counter(item["channel"] for item in guide)`; a row without a channel
      raises `KeyError`, and a list or dict channel cannot be counted
      (`TypeError`). */
  function CountProgramsPerChannel(guide: seq<Record>): Result<map<Value, nat>, Error> {
    if guide == [] then Success(map[])
    else
      match CountProgramsPerChannel(guide[..|guide| - 1])
      case Failure(e) => Failure(e)
      case Success(counts) =>
        var x := guide[|guide| - 1];
        if "channel" !in x then Failure(KeyError("channel"))
        else if !Hashable(x["channel"]) then Failure(TypeError)
        else Success(counts[x["channel"] := Count(counts, x["channel"]) + 1])
  }

  /** `counts.get(key, 0)`. */
  function Count(counts: map<Value, nat>, key: Value): nat {
    if key in counts then counts[key] else 0
  }

  /** A row can be counted: it has a channel Python can hash. */
  predicate Countable(x: Record) {
    "channel" in x && Hashable(x["channel"])
  }

  /** Counting fails iff some row cannot be counted; then the count of a
      channel is the number of its guide rows, which is the number of rows
      the guide index gives it; channels without rows are absent. */
  lemma {:induction false} CountsAreRows(guide: seq<Record>, c: Value)
    ensures CountProgramsPerChannel(guide).Failure? <==> exists i | 0 <= i < |guide| :: !Countable(guide[i])
    ensures CountProgramsPerChannel(guide).Success? ==>
      && Count(CountProgramsPerChannel(guide).value, c) == |OnChannel(guide, c)|
      && (c in CountProgramsPerChannel(guide).value <==> OnChannel(guide, c) != [])
  {
    if guide != [] {
      var init := guide[..|guide| - 1];
      CountsAreRows(init, c);
      assert forall i | 0 <= i < |init| :: init[i] == guide[i];
    }
  }

  // ---------------------------------------------------------------------------
  // Channel annotations shared by post_process_channels and the channel file
  // ---------------------------------------------------------------------------

  /** The raw columns dropped once a channel is annotated. */
  const RawColumns: set<string> := {
    "chanlcnfta1", "chanlcnfta2", "chanlcnfta3", "chanlcnfox", "chanlcnfet",
    "chlogo_light", "chlogo_dark", "channel_name_location", "channel_name_real",
    "chantype", "chancomp", "channel_type"}

  /** `re.sub(r"\W+", "-", v)`: only a text can be slugged. */
  function SlugOf(v: Value): (r: Result<string, Error>)
    ensures r.Success? <==> v.Str?
    ensures r.Success? ==> r.value == Slugify(v.s)
  {
    if v.Str? then Success(Slugify(v.s)) else Failure(TypeError)
  }

  /** The channel already carries a number from the LCN fan-out: present,
      not `None` and not "N/A". */
  predicate HasNumber(ch: Record) {
    "channel_number" in ch && ch["channel_number"] != Null && ch["channel_number"] != Str(NA)
  }

  function ChannelLogo(ch: Record): Value {
    Dict(map["light" := Get(ch, "chlogo_light"), "dark" := Get(ch, "chlogo_dark")])
  }

  /** The clean name, and the location and real names falling back to it. */
  function ChannelNames(ch: Record): Value {
    var clean := GetOr(ch, "channel_name", Str(""));
    Dict(map[
      "clean" := clean,
      "location" := Or(Get(ch, "channel_name_location"), clean),
      "real" := Or(Get(ch, "channel_name_real"), clean)])
  }

  /** `" ".join(filter(None, [chantype, chancomp]))`. */
  function Specs(ch: Record): Result<string, Error> {
    SpaceJoined(Select([Get(ch, "chantype"), Get(ch, "chancomp")], Truthy, true))
  }

  /** `" ".join(vs)`: every value must be a text. */
  function SpaceJoined(vs: seq<Value>): Result<string, Error> {
    if exists k | 0 <= k < |vs| :: !vs[k].Str? then Failure(TypeError)
    else Success(Join(seq(|vs|, k requires 0 <= k < |vs| => vs[k].s), " "))
  }

  lemma SpaceJoinedPair(a: string, b: string)
    ensures SpaceJoined([Str(a), Str(b)]) == Success(a + " " + b)
  {
    var vs := [Str(a), Str(b)];
    assert seq(|vs|, k requires 0 <= k < |vs| => vs[k].s) == [a, b];
    assert [a, b][1..] == [b];
    assert Join([a, b], " ") == a + " " + Join([b], " ");
  }

  lemma SpaceJoinedOne(a: string)
    ensures SpaceJoined([Str(a)]) == Success(a)
  {
    var vs := [Str(a)];
    assert seq(|vs|, k requires 0 <= k < |vs| => vs[k].s) == [a];
  }

  /** The specs are the texts of the truthy ones among the type and the
      compression, joined by a space; a truthy non-text raises. */
  lemma SpecsCases(ch: Record)
    ensures var t, m := Get(ch, "chantype"), Get(ch, "chancomp");
      && (Specs(ch).Failure? <==> (Truthy(t) && !t.Str?) || (Truthy(m) && !m.Str?))
      && (Specs(ch).Success? ==>
            Specs(ch).value == if Truthy(t) && Truthy(m) then t.s + " " + m.s
                               else if Truthy(t) then t.s
                               else if Truthy(m) then m.s
                               else "")
  {
    var t, m := Get(ch, "chantype"), Get(ch, "chancomp");
    SelectPair(t, m, Truthy, true);
    var kept := Select([t, m], Truthy, true);
    if Truthy(t) && Truthy(m) {
      assert kept == [t, m];
      if t.Str? && m.Str? {
        SpaceJoinedPair(t.s, m.s);
      }
    } else if Truthy(t) {
      assert kept == [t];
      if t.Str? {
        SpaceJoinedOne(t.s);
      }
    } else if Truthy(m) {
      assert kept == [m];
      if m.Str? {
        SpaceJoinedOne(m.s);
      }
    } else {
      assert kept == [];
    }
  }

  /** The annotated record: the copy with the written fields set and the raw
      columns popped. */
  function Annotated(ch: Record, written: Record): (r: Record)
    ensures r.Keys == (ch.Keys + written.Keys) - RawColumns
    ensures forall k | k in written && k !in RawColumns :: r[k] == written[k]
    ensures forall k | k in ch && k !in written && k !in RawColumns :: r[k] == ch[k]
  {
    Without(ch + written, RawColumns)
  }

  // ---------------------------------------------------------------------------
  // post_process_channels
  // ---------------------------------------------------------------------------

  /** The number `post_process_channels` gives: the one already set, or the
      fta1/fox/fet chain. */
  function PostNumber(ch: Record): Value {
    if HasNumber(ch) then ch["channel_number"] else Str(BaseNumber(ch))
  }

  /** The key of `program_count`: the channel's truthy slug, else its
      guidelink slugged (an absent guidelink reads as ""). */
  function CountKey(ch: Record): Result<Value, Error> {
    var slug := Get(ch, "channel_slug");
    if Truthy(slug) then Success(slug)
    else match SlugOf(GetOr(ch, "guidelink", Str("")))
      case Failure(e) => Failure(e)
      case Success(s) => Success(Str(s))
  }

  /** What `post_process_channels` computes for one channel before writing
      it: the number, the new slug (only with a truthy guidelink), the
      programme count and the `other_data` object. */
  datatype Annotation = Annotation(number: Value, slug: Option<Value>, count: nat, other: Value)

  function Annotate(ch: Record, counts: map<Value, nat>): Result<Annotation, Error> {
    var g := Get(ch, "guidelink");
    if Truthy(g) && !g.Str? then Failure(TypeError)
    else match CountKey(ch)
      case Failure(e) => Failure(e)
      case Success(key) =>
        if !Hashable(key) then Failure(TypeError)
        else match Specs(ch)
        case Failure(e) => Failure(e)
        case Success(specs) =>
          var other := Dict(map[
            "channel_type" := Get(ch, "channel_type"),
            "channel_specs" := Str(specs),
            "channel_name_group" := Get(ch, "channel_name")]);
          Success(Annotation(PostNumber(ch), if Truthy(g) then Some(Str(Slugify(g.s))) else None, Count(counts, key), other))
  }

  /** The fields written for an annotation. */
  function AnnotationFields(ch: Record, a: Annotation): (w: Record)
    ensures w.Keys == AnnotationKeys + (if a.slug.Some? then {"channel_slug"} else {})
    ensures w["channel_number"] == a.number && w["program_count"] == Int(a.count)
    ensures a.slug.Some? ==> w["channel_slug"] == a.slug.value
  {
    var written := map[
      "channel_number" := a.number,
      "program_count" := Int(a.count),
      "channel_logo" := ChannelLogo(ch),
      "channel_names" := ChannelNames(ch),
      "other_data" := a.other];
    if a.slug.Some? then written["channel_slug" := a.slug.value] else written
  }

  /** One channel of `post_process_channels`. */
  function PostProcess(ch: Record, counts: map<Value, nat>): Result<Record, Error> {
    match Annotate(ch, counts)
    case Failure(e) => Failure(e)
    case Success(a) => Success(Annotated(ch, AnnotationFields(ch, a)))
  }

  /** The fields every annotated channel gets. */
  const AnnotationKeys: set<string> := {"channel_number", "program_count", "channel_logo", "channel_names", "other_data"}

  /** Annotating a channel raises exactly when its truthy guidelink is not a
      text, when the count key has to be slugged from a guidelink that is
      not a text, when its truthy slug is a list or dict (the count lookup
      cannot hash it), or when the specs cannot be joined. */
  lemma PostProcessFailure(ch: Record, counts: map<Value, nat>)
    ensures var g, slug := Get(ch, "guidelink"), Get(ch, "channel_slug");
      PostProcess(ch, counts).Failure? <==>
        || (Truthy(g) && !g.Str?)
        || (!Truthy(slug) && !GetOr(ch, "guidelink", Str("")).Str?)
        || (Truthy(slug) && !Hashable(slug))
        || Specs(ch).Failure?
  {
  }

  /** None of the written fields is a raw column. */
  lemma WrittenNotRaw()
    ensures AnnotationKeys !! RawColumns && "channel_slug" !in RawColumns
  {
  }

  /** The written record keeps the channel's other fields, drops the raw
      columns and holds the annotation. */
  lemma AnnotatedFields(ch: Record, a: Annotation, r: Record)
    requires r == Annotated(ch, AnnotationFields(ch, a))
    ensures r.Keys == (ch.Keys - RawColumns) + AnnotationKeys + (if a.slug.Some? then {"channel_slug"} else {})
    ensures forall k | k in ch && k !in RawColumns && k !in AnnotationKeys && k != "channel_slug" :: r[k] == ch[k]
    ensures r["channel_number"] == a.number && r["program_count"] == Int(a.count)
    ensures a.slug.Some? ==> r["channel_slug"] == a.slug.value
    ensures a.slug.None? ==> forall k | k in ch && k !in RawColumns && k !in AnnotationKeys :: r[k] == ch[k]
  {
    AnnotatedKeys(ch, a, r);
    AnnotatedValues(ch, a, r);
  }

  lemma AnnotatedKeys(ch: Record, a: Annotation, r: Record)
    requires r == Annotated(ch, AnnotationFields(ch, a))
    ensures r.Keys == (ch.Keys - RawColumns) + AnnotationKeys + (if a.slug.Some? then {"channel_slug"} else {})
  {
    WrittenNotRaw();
    UnionMinus(ch.Keys, AnnotationFields(ch, a).Keys, RawColumns);
  }

  lemma AnnotatedValues(ch: Record, a: Annotation, r: Record)
    requires r == Annotated(ch, AnnotationFields(ch, a))
    ensures "channel_number" in r && r["channel_number"] == a.number
    ensures "program_count" in r && r["program_count"] == Int(a.count)
    ensures a.slug.Some? ==> "channel_slug" in r && r["channel_slug"] == a.slug.value
  {
    var w := AnnotationFields(ch, a);
    WrittenNotRaw();
    assert "channel_number" in w && "program_count" in w;
  }

  /** An annotated channel keeps its other fields, drops the raw columns,
      carries the number already set or the fta1/fox/fet chain, the slug of
      its guidelink, and the programme count of its slug. */
  lemma PostProcessFields(ch: Record, counts: map<Value, nat>)
    requires PostProcess(ch, counts).Success?
    ensures var g, r := Get(ch, "guidelink"), PostProcess(ch, counts).value;
      && r.Keys == (ch.Keys - RawColumns) + AnnotationKeys + (if Truthy(g) then {"channel_slug"} else {})
      && (forall k | k in ch && k !in RawColumns && k !in AnnotationKeys && k != "channel_slug" :: r[k] == ch[k])
      && r["channel_number"] == (if HasNumber(ch) then ch["channel_number"] else Str(BaseNumber(ch)))
      && (Truthy(g) ==> g.Str? && r["channel_slug"] == Str(Slugify(g.s)))
      && (!Truthy(g) ==> forall k | k in ch && k !in RawColumns && k !in AnnotationKeys :: r[k] == ch[k])
      && (Truthy(Get(ch, "channel_slug")) ==> r["program_count"] == Int(Count(counts, ch["channel_slug"])))
      && (!Truthy(Get(ch, "channel_slug")) ==>
            var link := GetOr(ch, "guidelink", Str(""));
            link.Str? && r["program_count"] == Int(Count(counts, Str(Slugify(link.s)))))
  {
    var a := Annotate(ch, counts).value;
    AnnotatedFields(ch, a, PostProcess(ch, counts).value);
  }

  /** Annotating a candidate entry of the merge: the entry's own number is
      kept unless it is "N/A", in which case the chain gives it again (so the
      base entry always ends with the chain's number); the slug is the
      entry's slug, and the count is that slug's. */
  lemma PostProcessEntry(c: Record, streaming: bool, k: nat, counts: map<Value, nat>)
    requires k < |ChannelEntries(c, streaming)|
    requires Get(c, "guidelink").Str?
    ensures var e := ChannelEntries(c, streaming)[k];
      var r := PostProcess(e.Channel(), counts);
      && (r.Success? <==> Specs(c).Success?)
      && (r.Success? ==>
            && Get(r.value, "channel_number") == Str(if e.number != NA then e.number else BaseNumber(c))
            && (k == 0 ==> Get(r.value, "channel_number") == Str(BaseNumber(c)))
            && Get(r.value, "channel_slug") == Str(e.slug)
            && Get(r.value, "program_count") == Int(Count(counts, Str(e.slug))))
  {
    ChannelEntriesShape(c, streaming);
    var e := ChannelEntries(c, streaming)[k];
    EntryOfText(e, e.Channel(), counts);
  }

  lemma EntryOfText(e: Entry, ch: Record, counts: map<Value, nat>)
    requires ch == e.Channel()
    requires Get(e.source, "guidelink").Str? && e.source["guidelink"].s != ""
    requires e.slug == Slugify(e.source["guidelink"].s)
    ensures var r := PostProcess(ch, counts);
      && (r.Success? <==> Specs(e.source).Success?)
      && (r.Success? ==>
            && Get(r.value, "channel_number") == Str(if e.number != NA then e.number else BaseNumber(e.source))
            && Get(r.value, "channel_slug") == Str(e.slug)
            && Get(r.value, "program_count") == Int(Count(counts, Str(e.slug))))
  {
    EntryChannelFields(e);
    assert Specs(ch) == Specs(e.source) by {
      assert Get(ch, "chantype") == Get(e.source, "chantype") && Get(ch, "chancomp") == Get(e.source, "chancomp");
    }
    EntryFailure(e, ch, counts);
    if PostProcess(ch, counts).Success? {
      EntryFields(e, ch, counts);
    }
  }

  lemma EntryFailure(e: Entry, ch: Record, counts: map<Value, nat>)
    requires ch == e.Channel()
    requires Get(e.source, "guidelink").Str? && e.source["guidelink"].s != ""
    ensures PostProcess(ch, counts).Success? <==> Specs(ch).Success?
  {
    EntryChannelFields(e);
    assert Get(ch, "guidelink") == e.source["guidelink"];
    PostProcessFailure(ch, counts);
  }

  lemma EntryFields(e: Entry, ch: Record, counts: map<Value, nat>)
    requires ch == e.Channel()
    requires Get(e.source, "guidelink").Str? && e.source["guidelink"].s != ""
    requires e.slug == Slugify(e.source["guidelink"].s)
    requires PostProcess(ch, counts).Success?
    ensures var r := PostProcess(ch, counts).value;
      && Get(r, "channel_number") == Str(if e.number != NA then e.number else BaseNumber(e.source))
      && Get(r, "channel_slug") == Str(e.slug)
      && Get(r, "program_count") == Int(Count(counts, Str(e.slug)))
  {
    EntryChannelFields(e);
    assert Get(ch, "guidelink") == e.source["guidelink"];
    EntryBaseNumber(e, ch);
    PostProcessFields(ch, counts);
  }

  /** Setting an entry's number and slug leaves the fta1/fox/fet chain as it was. */
  lemma EntryBaseNumber(e: Entry, ch: Record)
    requires ch == e.Channel()
    ensures BaseNumber(ch) == BaseNumber(e.source)
  {
    EntryChannelFields(e);
    assert Get(ch, "chanlcnfta1") == Get(e.source, "chanlcnfta1");
    assert Get(ch, "chanlcnfox") == Get(e.source, "chanlcnfox");
    assert Get(ch, "chanlcnfet") == Get(e.source, "chanlcnfet");
    SameBaseNumber(ch, e.source);
  }

  lemma SameBaseNumber(c: Record, d: Record)
    requires Get(c, "chanlcnfta1") == Get(d, "chanlcnfta1")
    requires Get(c, "chanlcnfox") == Get(d, "chanlcnfox")
    requires Get(c, "chanlcnfet") == Get(d, "chanlcnfet")
    ensures BaseNumber(c) == BaseNumber(d)
  {
  }

  /** `post_process_channels` as a function of one channel. */
  function Annotator(counts: map<Value, nat>): Record -> Result<Record, Error> {
    ch => PostProcess(ch, counts)
  }

  /** The loop over the raw channels: stops at the first channel that raises. */
  method PostProcessChannels(raw: seq<Record>, counts: map<Value, nat>) returns (r: Result<seq<Record>, Error>)
    ensures r == Collect(raw, Annotator(counts), Never)
  {
    r := CollectEach(raw, Annotator(counts), Never);
  }

  /** The pass succeeds iff every channel can be annotated, and then gives
      one annotated channel per input, in order. */
  lemma PostProcessChannelsOneToOne(raw: seq<Record>, counts: map<Value, nat>)
    ensures Collect(raw, Annotator(counts), Never).Success? <==> forall i | 0 <= i < |raw| :: PostProcess(raw[i], counts).Success?
    ensures Collect(raw, Annotator(counts), Never).Success? ==>
      var out := Collect(raw, Annotator(counts), Never).value;
      |out| == |raw| && forall i | 0 <= i < |raw| :: out[i] == PostProcess(raw[i], counts).value
  {
    CollectAll(raw, Annotator(counts));
  }

  // ---------------------------------------------------------------------------
  // The provider's channel file (create_provider_program_files)
  // ---------------------------------------------------------------------------

  /** The provider's LCN column, `chanlcnfta4` read as `chanlcnfta1`. */
  function ProviderLcn(provider: Record): (r: Value)
    ensures GetOr(provider, "provlcn", Str("")) == Str("chanlcnfta4") ==> r == Str("chanlcnfta1")
    ensures GetOr(provider, "provlcn", Str("")) != Str("chanlcnfta4") ==> r == GetOr(provider, "provlcn", Str(""))
  {
    var lcn := GetOr(provider, "provlcn", Str(""));
    if lcn == Str("chanlcnfta4") then Str("chanlcnfta1") else lcn
  }

  /** `channel.get(provlcn)`: a text names a column; a list or a dict
      cannot be a key; any other value names no column. */
  function LcnColumn(ch: Record, lcn: Value): Result<Value, Error> {
    match lcn
    case Str(column) => Success(Get(ch, column))
    case List(_) => Failure(TypeError)
    case Dict(_) => Failure(TypeError)
    case _ => Success(Null)
  }

  /** The number a provider gives a channel: the one already set, else the
      valid value of the provider's LCN column, else "N/A". */
  function ProviderNumber(ch: Record, lcn: Value): Result<Value, Error> {
    if HasNumber(ch) then Success(ch["channel_number"])
    else if !Truthy(lcn) then Success(Str(NA))
    else match LcnColumn(ch, lcn)
      case Failure(e) => Failure(e)
      case Success(v) => Success(if ValidNumber(v) then Str(StrOf(v)) else Str(NA))
  }

  /** One channel of the provider's channel file: like the merged
      annotation, but counted by the guidelink itself, with stripped specs
      and no group name. */
  function ProviderAnnotate(ch: Record, lcn: Value, counts: map<Value, nat>): Result<Annotation, Error> {
    match ProviderNumber(ch, lcn)
    case Failure(e) => Failure(e)
    case Success(number) =>
      var g := Get(ch, "guidelink");
      if Truthy(g) && !g.Str? then Failure(TypeError)
      else if !Hashable(g) then Failure(TypeError)
      else match Specs(ch)
        case Failure(e) => Failure(e)
        case Success(specs) =>
          var other := Dict(map["channel_type" := Get(ch, "channel_type"), "channel_specs" := Str(Strip(specs))]);
          Success(Annotation(number, if Truthy(g) then Some(Str(Slugify(g.s))) else None, Count(counts, g), other))
  }

  function ProviderChannel(ch: Record, lcn: Value, counts: map<Value, nat>): Result<Record, Error> {
    match ProviderAnnotate(ch, lcn, counts)
    case Failure(e) => Failure(e)
    case Success(a) => Success(Annotated(ch, AnnotationFields(ch, a)))
  }

  /** A provider's channel raises exactly when the LCN column has to be
      read through a list or dict, when its truthy guidelink is not a text,
      when its guidelink is an (empty) list or dict the count lookup cannot
      hash, or when its specs cannot be joined. */
  lemma ProviderChannelFailure(ch: Record, lcn: Value, counts: map<Value, nat>)
    ensures var g := Get(ch, "guidelink");
      ProviderChannel(ch, lcn, counts).Failure? <==>
        || (!HasNumber(ch) && Truthy(lcn) && (lcn.List? || lcn.Dict?))
        || (Truthy(g) && !g.Str?)
        || !Hashable(g)
        || Specs(ch).Failure?
  {
  }

  /** A provider's channel keeps its other fields, drops the raw columns,
      carries the number already set or the valid value of the provider's
      LCN column or "N/A", the slug of its guidelink, the count of its
      guidelink, and its stripped specs. */
  lemma ProviderChannelFields(ch: Record, lcn: Value, counts: map<Value, nat>)
    requires ProviderChannel(ch, lcn, counts).Success?
    ensures var g, r := Get(ch, "guidelink"), ProviderChannel(ch, lcn, counts).value;
      && r.Keys == (ch.Keys - RawColumns) + AnnotationKeys + (if Truthy(g) then {"channel_slug"} else {})
      && (forall k | k in ch && k !in RawColumns && k !in AnnotationKeys && k != "channel_slug" :: r[k] == ch[k])
      && r["channel_number"] == ProviderNumber(ch, lcn).value
      && (Truthy(g) ==> g.Str? && r["channel_slug"] == Str(Slugify(g.s)))
      && (!Truthy(g) ==> forall k | k in ch && k !in RawColumns && k !in AnnotationKeys :: r[k] == ch[k])
      && r["program_count"] == Int(Count(counts, g))
  {
    var a := ProviderAnnotate(ch, lcn, counts).value;
    AnnotatedFields(ch, a, ProviderChannel(ch, lcn, counts).value);
  }

  /** The provider's number is the one already set, else the text of a
      valid value in the provider's LCN column, else "N/A"; reading the
      column through a list or dict raises. */
  lemma ProviderNumberCases(ch: Record, lcn: Value)
    ensures ProviderNumber(ch, lcn).Failure? <==> !HasNumber(ch) && Truthy(lcn) && (lcn.List? || lcn.Dict?)
    ensures HasNumber(ch) ==> ProviderNumber(ch, lcn) == Success(ch["channel_number"])
    ensures !HasNumber(ch) && lcn.Str? && lcn.s != "" && ValidNumber(Get(ch, lcn.s)) ==> ProviderNumber(ch, lcn) == Success(Str(StrOf(Get(ch, lcn.s))))
    ensures !HasNumber(ch) && !lcn.List? && !lcn.Dict? && !(lcn.Str? && lcn.s != "" && ValidNumber(Get(ch, lcn.s))) ==> ProviderNumber(ch, lcn) == Success(Str(NA))
  {
  }

  /** `chanlcnfta4` providers number their channels by `chanlcnfta1`. */
  lemma Fta4ReadsFta1(provider: Record, ch: Record, counts: map<Value, nat>)
    requires GetOr(provider, "provlcn", Str("")) == Str("chanlcnfta4")
    requires !HasNumber(ch)
    ensures ProviderChannel(ch, ProviderLcn(provider), counts).Success? <==> ProviderChannel(ch, Str("chanlcnfta1"), counts).Success?
    ensures ProviderChannel(ch, ProviderLcn(provider), counts).Success? ==>
      Get(ProviderChannel(ch, ProviderLcn(provider), counts).value, "channel_number") ==
        if ValidNumber(Get(ch, "chanlcnfta1")) then Str(StrOf(Get(ch, "chanlcnfta1"))) else Str(NA)
  {
    var lcn := ProviderLcn(provider);
    assert lcn == Str("chanlcnfta1");
    ProviderChannelFailure(ch, lcn, counts);
    ProviderNumberCases(ch, lcn);
    if ProviderChannel(ch, lcn, counts).Success? {
      ProviderChannelFields(ch, lcn, counts);
    }
  }

  /** What `for channel in provider.get("channels", [])` iterates over: the
      items of a list; nothing for an empty text or dict; a non-empty text
      or dict yields texts, which have neither `copy` nor `get`; any other
      value cannot be iterated. */
  function ChannelItems(provider: Record): Result<seq<Value>, Error> {
    match GetOr(provider, "channels", List([]))
    case List(items) => Success(items)
    case Str(t) => if t == "" then Success([]) else Failure(AttributeError)
    case Dict(m) => if m == map[] then Success([]) else Failure(AttributeError)
    case _ => Failure(TypeError)
  }

  /** One item of the provider's channel list written to its channel file.
      A list survives `channel.copy()`; it then fails with TypeError when it
      is indexed by "channel_number" (it holds that text, so the `in` test
      passes) or when "N/A" is assigned to it (no provider LCN), and with
      AttributeError at `channel.get(provlcn)`. Any other non-dict has no
      `copy`. */
  function ChannelItem(v: Value, lcn: Value, counts: map<Value, nat>): (r: Result<Record, Error>)
    ensures v.Dict? ==> r == ProviderChannel(v.fields, lcn, counts)
    ensures v.List? && (Str("channel_number") in v.items || !Truthy(lcn)) ==> r == Failure(TypeError)
    ensures v.List? && Str("channel_number") !in v.items && Truthy(lcn) ==> r == Failure(AttributeError)
    ensures !v.Dict? && !v.List? ==> r == Failure(AttributeError)
  {
    match v
    case Dict(fields) => ProviderChannel(fields, lcn, counts)
    case List(items) =>
      if Str("channel_number") in items || !Truthy(lcn) then Failure(TypeError) else Failure(AttributeError)
    case _ => Failure(AttributeError)
  }

  function ItemAnnotator(lcn: Value, counts: map<Value, nat>): Value -> Result<Record, Error> {
    v => ChannelItem(v, lcn, counts)
  }

  /** The provider's channel file: every channel annotated in order. */
  function ChannelFile(provider: Record, counts: map<Value, nat>): Result<seq<Record>, Error> {
    match ChannelItems(provider)
    case Failure(e) => Failure(e)
    case Success(items) => Collect(items, ItemAnnotator(ProviderLcn(provider), counts), Never)
  }

  /** With a list of channels the file has one annotated channel per channel,
      in order, and exists iff every channel can be annotated. */
  lemma ChannelFileOneToOne(provider: Record, counts: map<Value, nat>)
    requires ChannelItems(provider).Success?
    ensures var items, lcn := ChannelItems(provider).value, ProviderLcn(provider);
      && (ChannelFile(provider, counts).Success? <==> forall i | 0 <= i < |items| :: ChannelItem(items[i], lcn, counts).Success?)
      && (ChannelFile(provider, counts).Success? ==>
            var file := ChannelFile(provider, counts).value;
            |file| == |items| && forall i | 0 <= i < |items| :: file[i] == ChannelItem(items[i], lcn, counts).value)
  {
    CollectAll(ChannelItems(provider).value, ItemAnnotator(ProviderLcn(provider), counts));
  }

  method WriteChannelFile(provider: Record, counts: map<Value, nat>) returns (r: Result<seq<Record>, Error>)
    ensures r == ChannelFile(provider, counts)
  {
    var items := ChannelItems(provider);
    if items.Failure? {
      return Failure(items.error);
    }
    r := CollectEach(items.value, ItemAnnotator(ProviderLcn(provider), counts), Never);
  }

  // ---------------------------------------------------------------------------
  // Providers and their source entries
  // ---------------------------------------------------------------------------

  /** A provider without a truthy `provid` is skipped. */
  predicate HasProvid(provider: Record) {
    Truthy(Get(provider, "provid"))
  }

  /** The entry of `xmlepg_source.json` for a provider. */
  function SourceEntry(provider: Record): (r: Record)
    ensures r.Keys == {"id", "group", "subgroup", "location", "url"}
    ensures r["id"] == Str("xmlepg_" + StrOf(Get(provider, "provid")))
    ensures forall k | k in {"group", "subgroup", "location", "url"} :: r[k] == GetOr(provider, k, Str("Unknown"))
  {
    map[
      "id" := Str("xmlepg_" + StrOf(Get(provider, "provid"))),
      "group" := GetOr(provider, "group", Str("Unknown")),
      "subgroup" := GetOr(provider, "subgroup", Str("Unknown")),
      "location" := GetOr(provider, "location", Str("Unknown")),
      "url" := GetOr(provider, "url", Str("Unknown"))]
  }

  /** The files written for one provider: its channel file and, when it
      has programmes, its programme file. */
  datatype ProviderFiles = ProviderFiles(provid: Value, channels: seq<Record>, programs: Option<seq<Record>>)

  function ProviderOutput(provider: Record, counts: map<Value, nat>, index: map<Value, seq<Record>>, parse: string -> Option<Stamp>, iso: Stamp -> string): Result<ProviderFiles, Error> {
    match ChannelFile(provider, counts)
    case Failure(e) => Failure(e)
    case Success(channels) =>
      match ProgramFile(channels, index, parse, iso)
      case Failure(e) => Failure(e)
      case Success(programs) => Success(ProviderFiles(Get(provider, "provid"), channels, if programs == [] then None else Some(programs)))
  }

  function Exporter(counts: map<Value, nat>, index: map<Value, seq<Record>>, parse: string -> Option<Stamp>, iso: Stamp -> string): Record -> Result<ProviderFiles, Error> {
    provider => ProviderOutput(provider, counts, index, parse, iso)
  }

  function SourceEntries(providers: seq<Record>): seq<Record> {
    MapSeq(providers, SourceEntry)
  }

  /** Everything `create_provider_program_files` writes: the files of each
      provider with a `provid`, in order, and the source list. */
  datatype Export = Export(files: seq<ProviderFiles>, sources: seq<Record>)

  function ProviderExport(providers: seq<Record>, counts: map<Value, nat>, index: map<Value, seq<Record>>, parse: string -> Option<Stamp>, iso: Stamp -> string): Result<Export, Error> {
    var active := Select(providers, HasProvid, true);
    match Collect(active, Exporter(counts, index, parse, iso), Never)
    case Failure(e) => Failure(e)
    case Success(files) => Success(Export(files, SourceEntries(active)))
  }

  /** The export covers exactly the providers with a `provid`, one source
      entry and one set of files each, in order; it fails iff some such
      provider's files cannot be written. */
  lemma ProviderExportCovers(providers: seq<Record>, counts: map<Value, nat>, index: map<Value, seq<Record>>, parse: string -> Option<Stamp>, iso: Stamp -> string)
    ensures var active, r := Select(providers, HasProvid, true), ProviderExport(providers, counts, index, parse, iso);
      && (r.Success? <==> forall i | 0 <= i < |active| :: ProviderOutput(active[i], counts, index, parse, iso).Success?)
      && (r.Success? ==>
            && |r.value.files| == |r.value.sources| == |active|
            && forall i | 0 <= i < |active| ::
                 && r.value.files[i] == ProviderOutput(active[i], counts, index, parse, iso).value
                 && r.value.files[i].provid == Get(active[i], "provid")
                 && r.value.sources[i] == SourceEntry(active[i]))
  {
    var active := Select(providers, HasProvid, true);
    CollectAll(active, Exporter(counts, index, parse, iso));
  }

  /** Every provider left out of the export lacks a `provid`, and every one
      kept has it. */
  lemma ActiveProviders(providers: seq<Record>)
    ensures forall p | p in Select(providers, HasProvid, true) :: HasProvid(p) && p in providers
    ensures forall p | p in providers && HasProvid(p) :: p in Select(providers, HasProvid, true)
  {
    SelectMembers(providers, HasProvid, true);
  }

  /** The provider loop: skips providers without a `provid`, writes each
      other provider's files and records its source entry. */
  method CreateProviderProgramFiles(providers: seq<Record>, counts: map<Value, nat>, index: map<Value, seq<Record>>, parse: string -> Option<Stamp>, iso: Stamp -> string) returns (r: Result<Export, Error>)
    ensures r == ProviderExport(providers, counts, index, parse, iso)
  {
    var ex := Exporter(counts, index, parse, iso);
    var files: seq<ProviderFiles> := [];
    var sources: seq<Record> := [];
    for i := 0 to |providers|
      invariant Collect(Select(providers[..i], HasProvid, true), ex, Never) == Success(files)
      invariant sources == SourceEntries(Select(providers[..i], HasProvid, true))
    {
      TakeSnoc(providers, i);
      var provider := providers[i];
      var done := Select(providers[..i], HasProvid, true);
      SelectSnoc(providers[..i], provider, HasProvid, true);
      if !HasProvid(provider) {
        assert Select(providers[..i + 1], HasProvid, true) == done;
        continue;
      }
      assert Select(providers[..i + 1], HasProvid, true) == done + [provider];
      CollectSnoc(done, provider, ex, Never);
      MapSeqSnoc(done, provider, SourceEntry);
      sources := sources + [SourceEntry(provider)];
      var out := WriteProviderFiles(provider, counts, index, parse, iso);
      assert out == ex(provider);
      if out.Failure? {
        SelectPrefixFailure(providers, i + 1, ex);
        return Failure(out.error);
      }
      files := files + [out.value];
    }
    assert providers[..|providers|] == providers;
    return Success(Export(files, sources));
  }

  /** A failure among the first providers is the export's failure. */
  lemma SelectPrefixFailure(providers: seq<Record>, n: nat, ex: Record -> Result<ProviderFiles, Error>)
    requires n <= |providers|
    requires Collect(Select(providers[..n], HasProvid, true), ex, Never).Failure?
    ensures Collect(Select(providers, HasProvid, true), ex, Never) == Collect(Select(providers[..n], HasProvid, true), ex, Never)
  {
    SelectPrefix(providers, n, HasProvid, true);
    CollectFailure(Select(providers, HasProvid, true), ex, Never, |Select(providers[..n], HasProvid, true)|);
  }

  method WriteProviderFiles(provider: Record, counts: map<Value, nat>, index: map<Value, seq<Record>>, parse: string -> Option<Stamp>, iso: Stamp -> string) returns (r: Result<ProviderFiles, Error>)
    ensures r == ProviderOutput(provider, counts, index, parse, iso)
  {
    var channels := WriteChannelFile(provider, counts);
    if channels.Failure? {
      return Failure(channels.error);
    }
    var programs := CreateProgramFile(channels.value, index, parse, iso);
    if programs.Failure? {
      return Failure(programs.error);
    }
    return Success(ProviderFiles(Get(provider, "provid"), channels.value, if programs.value == [] then None else Some(programs.value)));
  }

  // ---------------------------------------------------------------------------
  // extract_unique_guidelinks and format_sql_in_clause
  // ---------------------------------------------------------------------------

  /** The truthy guidelinks of a channel list; an item that is not an
      object has no `get`, and a list or dict guidelink cannot be added to
      the set. */
  function LinksOfItems(items: seq<Value>): Result<set<Value>, Error> {
    if items == [] then Success({})
    else
      match LinksOfItems(items[..|items| - 1])
      case Failure(e) => Failure(e)
      case Success(links) =>
        var v := items[|items| - 1];
        if !v.Dict? then Failure(AttributeError)
        else if Truthy(Get(v.fields, "guidelink")) && !Hashable(Get(v.fields, "guidelink")) then Failure(TypeError)
        else Success(links + (if Truthy(Get(v.fields, "guidelink")) then {Get(v.fields, "guidelink")} else {}))
  }

  /** The set of truthy guidelinks over every provider's channels. */
  function Guidelinks(data: seq<Record>): Result<set<Value>, Error> {
    if data == [] then Success({})
    else
      match Guidelinks(data[..|data| - 1])
      case Failure(e) => Failure(e)
      case Success(links) =>
        match ChannelItems(data[|data| - 1])
        case Failure(e) => Failure(e)
        case Success(items) =>
          match LinksOfItems(items)
          case Failure(e) => Failure(e)
          case Success(more) => Success(links + more)
  }

  /** `v` is the truthy guidelink of one of the items. */
  predicate LinkedIn(items: seq<Value>, v: Value) {
    exists j | 0 <= j < |items| :: items[j].Dict? && Truthy(Get(items[j].fields, "guidelink")) && Get(items[j].fields, "guidelink") == v
  }

  /** An item whose guidelink can be read and, when truthy, added to a set. */
  predicate Linkable(v: Value) {
    v.Dict? && (Truthy(Get(v.fields, "guidelink")) ==> Hashable(Get(v.fields, "guidelink")))
  }

  /** A channel list yields a set iff all its items are objects whose truthy
      guidelinks are hashable, and the set holds exactly their truthy
      guidelinks. */
  lemma {:induction false} LinksOfItemsMembers(items: seq<Value>, v: Value)
    ensures LinksOfItems(items).Success? <==> forall j | 0 <= j < |items| :: Linkable(items[j])
    ensures LinksOfItems(items).Success? ==> (v in LinksOfItems(items).value <==> LinkedIn(items, v))
  {
    if items != [] {
      var init := items[..|items| - 1];
      LinksOfItemsMembers(init, v);
      assert forall j | 0 <= j < |init| :: init[j] == items[j];
      if LinksOfItems(items).Success? && LinkedIn(items, v) {
        var j :| 0 <= j < |items| && items[j].Dict? && Truthy(Get(items[j].fields, "guidelink")) && Get(items[j].fields, "guidelink") == v;
        if j < |init| {
          assert LinkedIn(init, v);
        }
      }
    }
  }

  /** The guidelinks of the channels of one provider. */
  predicate ProviderLinks(provider: Record, v: Value) {
    ChannelItems(provider).Success? && LinkedIn(ChannelItems(provider).value, v)
  }

  /** A provider whose channels form a list (or are empty) of objects with
      hashable truthy guidelinks. */
  predicate ProviderReadable(provider: Record) {
    ChannelItems(provider).Success? && forall j | 0 <= j < |ChannelItems(provider).value| :: Linkable(ChannelItems(provider).value[j])
  }

  /** The set is collected iff every provider's channels form a list (or are
      empty) of objects with hashable truthy guidelinks; then it holds exactly the truthy guidelinks of all
      providers' channels, each once. */
  lemma {:induction false} GuidelinksMembers(data: seq<Record>, v: Value)
    ensures Guidelinks(data).Success? <==> forall i | 0 <= i < |data| :: ProviderReadable(data[i])
    ensures Guidelinks(data).Success? ==>
      (v in Guidelinks(data).value <==> exists i | 0 <= i < |data| :: ProviderLinks(data[i], v))
  {
    if data != [] {
      var init := data[..|data| - 1];
      var last := data[|data| - 1];
      GuidelinksMembers(init, v);
      GuidelinksStep(data);
      assert data == init + [last];
      ReadableSnoc(init, last);
      if Guidelinks(data).Success? {
        LinksOfItemsMembers(ChannelItems(last).value, v);
        LinkedSnoc(init, last, v);
      }
    }
  }

  /** One provider more: the set grows by its channels' links. */
  lemma GuidelinksStep(data: seq<Record>)
    requires data != []
    ensures Guidelinks(data).Success? <==>
      Guidelinks(data[..|data| - 1]).Success? && ProviderReadable(data[|data| - 1])
    ensures Guidelinks(data).Success? ==>
      Guidelinks(data).value == Guidelinks(data[..|data| - 1]).value + LinksOfItems(ChannelItems(data[|data| - 1]).value).value
  {
    var last := data[|data| - 1];
    if ChannelItems(last).Success? {
      LinksOfItemsMembers(ChannelItems(last).value, Null);
    }
  }

  lemma ReadableSnoc(init: seq<Record>, last: Record)
    ensures (forall i | 0 <= i < |init + [last]| :: ProviderReadable((init + [last])[i])) <==>
      (forall i | 0 <= i < |init| :: ProviderReadable(init[i])) && ProviderReadable(last)
  {
    var data := init + [last];
    assert forall i | 0 <= i < |init| :: init[i] == data[i];
    assert data[|init|] == last;
  }

  lemma LinkedSnoc(init: seq<Record>, last: Record, v: Value)
    ensures (exists i | 0 <= i < |init + [last]| :: ProviderLinks((init + [last])[i], v)) <==>
      (exists i | 0 <= i < |init| :: ProviderLinks(init[i], v)) || ProviderLinks(last, v)
  {
    var data := init + [last];
    if exists i | 0 <= i < |data| :: ProviderLinks(data[i], v) {
      var i :| 0 <= i < |data| && ProviderLinks(data[i], v);
      if i < |init| {
        assert init[i] == data[i];
      }
    }
    if exists i | 0 <= i < |init| :: ProviderLinks(init[i], v) {
      var i :| 0 <= i < |init| && ProviderLinks(init[i], v);
      assert init[i] == data[i];
    }
    assert data[|init|] == last;
  }

  /** Every member of the set is truthy. */
  lemma GuidelinksTruthy(data: seq<Record>, v: Value)
    requires Guidelinks(data).Success? && v in Guidelinks(data).value
    ensures Truthy(v)
  {
    GuidelinksMembers(data, v);
    var i :| 0 <= i < |data| && ProviderLinks(data[i], v);
  }

  /** The outer loop of `extract_unique_guidelinks`, over the providers. */
  method ExtractUniqueGuidelinks(data: seq<Record>) returns (r: Result<set<Value>, Error>)
    ensures r == Guidelinks(data)
  {
    var links: set<Value> := {};
    for i := 0 to |data|
      invariant Guidelinks(data[..i]) == Success(links)
    {
      TakeSnoc(data, i);
      assert data[..i + 1][..i] == data[..i] && data[..i + 1][i] == data[i];
      var items := ChannelItems(data[i]);
      if items.Failure? {
        GuidelinksFailure(data, i + 1);
        return Failure(items.error);
      }
      var more := CollectLinks(items.value);
      if more.Failure? {
        GuidelinksFailure(data, i + 1);
        return Failure(more.error);
      }
      links := links + more.value;
    }
    assert data[..|data|] == data;
    return Success(links);
  }

  /** The inner loop, over one provider's channels. */
  method CollectLinks(items: seq<Value>) returns (r: Result<set<Value>, Error>)
    ensures r == LinksOfItems(items)
  {
    var more: set<Value> := {};
    for j := 0 to |items|
      invariant LinksOfItems(items[..j]) == Success(more)
    {
      var v := items[j];
      var upto := items[..j + 1];
      assert upto[..|upto| - 1] == items[..j] && upto[|upto| - 1] == v;
      if !v.Dict? {
        LinksOfItemsFailure(items, j + 1);
        return Failure(AttributeError);
      }
      var g := Get(v.fields, "guidelink");
      if Truthy(g) && !Hashable(g) {
        LinksOfItemsFailure(items, j + 1);
        return Failure(TypeError);
      }
      assert LinksOfItems(upto) == Success(more + (if Truthy(g) then {g} else {}));
      if Truthy(g) {
        more := more + {g};
      } else {
        assert more + {} == more;
      }
    }
    assert items[..|items|] == items;
    return Success(more);
  }

  lemma {:induction false} LinksOfItemsFailure(items: seq<Value>, n: nat)
    requires n <= |items| && LinksOfItems(items[..n]).Failure?
    ensures LinksOfItems(items) == LinksOfItems(items[..n])
  {
    if n < |items| {
      assert items[..|items| - 1][..n] == items[..n];
      LinksOfItemsFailure(items[..|items| - 1], n);
    } else {
      assert items[..n] == items;
    }
  }

  lemma {:induction false} GuidelinksFailure(data: seq<Record>, n: nat)
    requires n <= |data| && Guidelinks(data[..n]).Failure?
    ensures Guidelinks(data) == Guidelinks(data[..n])
  {
    if n < |data| {
      assert data[..|data| - 1][..n] == data[..n];
      GuidelinksFailure(data[..|data| - 1], n);
    } else {
      assert data[..n] == data;
    }
  }

  /** `f"'{link}'"`. */
  function Quoted(link: string): string {
    "'" + link + "'"
  }

  /** `format_sql_in_clause`: the links in code-point order, quoted and
      separated by commas, in parentheses. */
  function SqlInClause(links: seq<string>): string {
    "(" + Join(MapSeq(SortBy(links, LexLe), Quoted), ", ") + ")"
  }

  /** The clause depends only on which links there are, not on the order a
      set hands them out. */
  lemma SqlInClauseOrderFree(a: seq<string>, b: seq<string>)
    requires multiset(a) == multiset(b)
    ensures SqlInClause(a) == SqlInClause(b)
  {
    Collate.TextOrder();
    SortByOrderFree(a, b, LexLe);
  }

  /** The clause is parenthesised, quotes every link, and lists them in
      code-point order. */
  lemma SqlInClauseContents(links: seq<string>)
    ensures var c := SqlInClause(links);
      && c[0] == '(' && c[|c| - 1] == ')'
      && forall l | l in links :: Contains(c, Quoted(l))
    ensures SortedBy(SortBy(links, LexLe), LexLe)
  {
    Collate.TextOrder();
    SortBySorted(links, LexLe);
    var sorted := SortBy(links, LexLe);
    var quoted := MapSeq(sorted, Quoted);
    var body := Join(quoted, ", ");
    forall l | l in links
      ensures Contains(SqlInClause(links), Quoted(l))
    {
      assert l in multiset(sorted);
      var k :| 0 <= k < |sorted| && sorted[k] == l;
      JoinContains(quoted, ", ", k);
      ContainsInConcat("(", body, Quoted(l));
      ContainsInConcat("(" + body, ")", Quoted(l));
    }
  }
}
