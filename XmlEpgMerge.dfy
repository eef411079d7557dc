/** Channel identity and numbering in the XML EPG builder
    (backend/app/routers/xmlepg.py): which database channel rows belong to
    which bouquets (`process_channel_data`), and the provider/channel merge
    that gives every channel a number and a slug and fans a channel with
    several logical channel numbers out into several entries
    (`reverse_merge_data`). */
module XmlEpgMerge {
  import opened Wrappers
  import opened Text
  import opened Seqs
  import opened Records

  // ---------------------------------------------------------------------------
  // Bouquet membership (process_channel_data)
  // ---------------------------------------------------------------------------

  /** The integer values of a sequence of numbers. */
  function Ints(ns: seq<int>): seq<Value> {
    seq(|ns|, i requires 0 <= i < |ns| => Int(ns[i]))
  }

  /** The pieces of a bouquet text read as integers, blank pieces skipped;
      the first piece that is not an integer raises `ValueError`. */
  function ParseBouquets(pieces: seq<string>): Result<seq<int>, Error> {
    if pieces == [] then Success([])
    else
      var p := Strip(pieces[0]);
      if p == "" then ParseBouquets(pieces[1..])
      else match ParseInt(p)
        case None => Failure(ValueError(p))
        case Some(n) =>
          match ParseBouquets(pieces[1..])
          case Failure(e) => Failure(e)
          case Success(ns) => Success([n] + ns)
  }

  /** `chanbouq.strip(",").split(",")`, read as bouquet numbers. */
  function BouquetNumbers(s: string): Result<seq<int>, Error> {
    ParseBouquets(Split(StripChar(s, ','), ','))
  }

  /** The text of a bouquet list: the numbers joined by commas. */
  function BouquetText(ns: seq<int>): string {
    Join(seq(|ns|, i requires 0 <= i < |ns| => IntToString(ns[i])), ",")
  }

  /** The outcome for one row: dropped (`None`), kept with its bouquets
      replaced by the parsed list, or an error that ends the whole call. */
  function ProcessRow(row: Record, valid: set<int>): (r: Result<Option<Record>, Error>)
    ensures "chanbouq" !in row ==> r == Failure(KeyError("chanbouq"))
    ensures "chanbouq" in row && !Truthy(row["chanbouq"]) ==> r == Success(None)
    // `.strip(",")` on a truthy value that is not text
    ensures "chanbouq" in row && Truthy(row["chanbouq"]) && !row["chanbouq"].Str? ==> r == Failure(AttributeError)
    ensures r.Success? && r.value.Some? ==>
      && "chanbouq" in row && row["chanbouq"].Str? && BouquetNumbers(row["chanbouq"].s).Success?
      && r.value.value == row["chanbouq" := List(Ints(BouquetNumbers(row["chanbouq"].s).value))]
      && exists n | n in BouquetNumbers(row["chanbouq"].s).value :: n in valid
  {
    if "chanbouq" !in row then Failure(KeyError("chanbouq"))
    else
      var c := row["chanbouq"];
      if !Truthy(c) then Success(None)
      else if !c.Str? then Failure(AttributeError)
      else match BouquetNumbers(c.s)
        case Failure(e) => Failure(e)
        case Success(ns) =>
          if exists n | n in ns :: n in valid then Success(Some(row["chanbouq" := List(Ints(ns))]))
          else Success(None)
  }

  /** The rows kept, in order; the first failing row's error otherwise. */
  function ChannelData(rows: seq<Record>, valid: set<int>): Result<seq<Record>, Error> {
    if rows == [] then Success([])
    else match ChannelData(rows[..|rows| - 1], valid)
      case Failure(e) => Failure(e)
      case Success(out) =>
        match ProcessRow(rows[|rows| - 1], valid)
        case Failure(e) => Failure(e)
        case Success(None) => Success(out)
        case Success(Some(x)) => Success(out + [x])
  }

  /** A failure in a prefix of the rows is the failure of the whole call. */
  lemma {:induction false} ChannelDataFailure(rows: seq<Record>, valid: set<int>, i: nat)
    requires i <= |rows|
    requires ChannelData(rows[..i], valid).Failure?
    ensures ChannelData(rows, valid) == ChannelData(rows[..i], valid)
  {
    if i < |rows| {
      assert rows[..|rows| - 1][..i] == rows[..i];
      ChannelDataFailure(rows[..|rows| - 1], valid, i);
    } else {
      assert rows[..i] == rows;
    }
  }

  /** A kept row carries a parsed list of bouquets, at least one of them
      valid, and otherwise equals an input row; no row is added. */
  lemma {:induction false} ChannelDataKept(rows: seq<Record>, valid: set<int>)
    requires ChannelData(rows, valid).Success?
    ensures |ChannelData(rows, valid).value| <= |rows|
    ensures forall x: Record | x in ChannelData(rows, valid).value ::
      && "chanbouq" in x && x["chanbouq"].List?
      && (exists b: Value | b in x["chanbouq"].items :: b.Int? && b.i in valid)
      && (exists row | row in rows :: row["chanbouq" := x["chanbouq"]] == x)
  {
    if rows != [] {
      var init := rows[..|rows| - 1];
      ChannelDataKept(init, valid);
      var row := rows[|rows| - 1];
      var out := ChannelData(rows, valid).value;
      forall x: Record | x in out
        ensures && "chanbouq" in x && x["chanbouq"].List?
                && (exists b: Value | b in x["chanbouq"].items :: b.Int? && b.i in valid)
                && (exists row | row in rows :: row["chanbouq" := x["chanbouq"]] == x)
      {
        if x in ChannelData(init, valid).value {
          var r0 :| r0 in init && r0["chanbouq" := x["chanbouq"]] == x;
          assert r0 in rows;
        } else {
          var ns := BouquetNumbers(row["chanbouq"].s).value;
          var n :| n in ns && n in valid;
          var k :| 0 <= k < |ns| && ns[k] == n;
          assert Ints(ns)[k] == Int(n);
          assert row in rows;
          assert row["chanbouq" := x["chanbouq"]] == x;
        }
      }
    }
  }

  /** `process_channel_data`: the loop over the rows. */
  method ProcessChannelData(rows: seq<Record>, valid: set<int>) returns (r: Result<seq<Record>, Error>)
    ensures r == ChannelData(rows, valid)
  {
    var out: seq<Record> := [];
    var i := 0;
    while i < |rows|
      invariant i <= |rows|
      invariant ChannelData(rows[..i], valid) == Success(out)
    {
      assert rows[..i + 1][..i] == rows[..i];
      var step := ProcessRow(rows[i], valid);
      if step.Failure? {
        ChannelDataFailure(rows, valid, i + 1);
        return Failure(step.error);
      }
      if step.value.Some? {
        out := out + [step.value.value];
      }
      i := i + 1;
    }
    assert rows[..i] == rows;
    return Success(out);
  }

  lemma {:induction false} SplitJoin(parts: seq<string>, sep: char)
    requires parts != []
    requires forall k :: 0 <= k < |parts| ==> sep !in parts[k]
    ensures Split(Join(parts, [sep]), sep) == parts
  {
    if |parts| == 1 {
      SplitWithoutSeparator(parts[0], sep);
    } else {
      SplitJoin(parts[1..], sep);
      assert Join(parts, [sep]) == parts[0] + [sep] + Join(parts[1..], [sep]);
      SplitAtFirst(parts[0], Join(parts[1..], [sep]), sep);
    }
  }

  lemma IntTextShape(n: int)
    ensures IntToString(n) != [] && Strip(IntToString(n)) == IntToString(n)
    ensures ',' !in IntToString(n)
  {
    var d := NatToString(if n < 0 then -n else n);
    var t := IntToString(n);
    assert t == (if n < 0 then "-" else "") + d;
    assert ',' !in t by {
      DigitsLackChar(d, ',');
    }
    assert t != [] && !IsSpace(t[0]) && !IsSpace(t[|t| - 1]) by {
      assert t[|t| - 1] == d[|d| - 1];
      assert IsDigit(d[0]);
    }
    assert StripLeft(t) == t;
    assert StripRight(t) == t;
  }

  lemma {:induction false} ParseBouquetTexts(ns: seq<int>, texts: seq<string>)
    requires |texts| == |ns| && forall i | 0 <= i < |ns| :: texts[i] == IntToString(ns[i])
    ensures ParseBouquets(texts) == Success(ns)
  {
    if ns != [] {
      IntTextShape(ns[0]);
      ParseIntOfIntToString(ns[0]);
      ParseBouquetTexts(ns[1..], texts[1..]);
      assert [ns[0]] + ns[1..] == ns;
    }
  }

  /** Stripping a character that neither end has changes nothing, and
      removes one copy of it wrapped around both ends. */
  lemma StripCharEnds(t: string, c: char)
    requires t != [] && t[0] != c && t[|t| - 1] != c
    ensures StripChar(t, c) == t
    ensures StripChar([c] + t + [c], c) == t
  {
    var w := [c] + t + [c];
    assert w[1..] == t + [c];
    assert TrimStartChar(w, c) == TrimStartChar(t + [c], c);
    assert TrimStartChar(t + [c], c) == t + [c];
    assert (t + [c])[..|t|] == t;
    assert TrimEndChar(t + [c], c) == TrimEndChar(t, c);
  }

  /** Reading back the comma-joined text of a bouquet list, possibly wrapped
      in commas, gives the list. */
  lemma BouquetNumbersOfText(ns: seq<int>)
    requires ns != []
    ensures BouquetNumbers(BouquetText(ns)) == Success(ns)
    ensures BouquetNumbers("," + BouquetText(ns) + ",") == Success(ns)
  {
    var texts := seq(|ns|, i requires 0 <= i < |ns| => IntToString(ns[i]));
    forall k | 0 <= k < |texts| ensures ',' !in texts[k] && texts[k] != [] {
      IntTextShape(ns[k]);
    }
    SplitJoin(texts, ',');
    ParseBouquetTexts(ns, texts);
    JoinEnds(texts, ",");
    var t := BouquetText(ns);
    assert t[0] == texts[0][0] && t[|t| - 1] == texts[|texts| - 1][|texts[|texts| - 1]| - 1];
    assert t[0] != ',' && t[|t| - 1] != ',';
    StripCharEnds(t, ',');
  }

  /** The joined text starts with the first part and ends with the last. */
  lemma {:induction false} JoinEnds(parts: seq<string>, sep: string)
    requires parts != [] && forall k :: 0 <= k < |parts| ==> parts[k] != []
    ensures Join(parts, sep) != []
    ensures Join(parts, sep)[0] == parts[0][0]
    ensures Join(parts, sep)[|Join(parts, sep)| - 1] == parts[|parts| - 1][|parts[|parts| - 1]| - 1]
  {
    if |parts| > 1 {
      JoinEnds(parts[1..], sep);
    }
  }

  // ---------------------------------------------------------------------------
  // Provider/channel merge (reverse_merge_data)
  // ---------------------------------------------------------------------------

  /** The bouquets a channel row lists: a comma-separated text (an
      unreadable one counts as none), a list as it is, anything else none. */
  function ChannelBouquets(v: Value): seq<Value> {
    match v
    case Str(s) =>
      (match ParseBouquets(Split(s, ','))
       case Success(ns) => Ints(ns)
       case Failure(_) => [])
    case List(xs) => xs
    case _ => []
  }

  /** The channels in the provider's bouquet, each without its `chanbouq`. */
  function Matching(num: Value, channels: seq<Record>): seq<Record> {
    if channels == [] then []
    else
      var c := channels[|channels| - 1];
      var init := Matching(num, channels[..|channels| - 1]);
      if num in ChannelBouquets(GetOr(c, "chanbouq", Str(""))) then init + [Without(c, {"chanbouq"})] else init
  }

  /** The number of a channel's base entry: the text of the first valid
      column among fta1, fox and fet, else "N/A". */
  function BaseNumber(c: Record): string {
    var fta1 := Get(c, "chanlcnfta1");
    var fox := Get(c, "chanlcnfox");
    var fet := Get(c, "chanlcnfet");
    if ValidNumber(fta1) then StrOf(fta1)
    else if ValidNumber(fox) then StrOf(fox)
    else if ValidNumber(fet) then StrOf(fet)
    else "N/A"
  }

  function NumberColumns(c: Record): seq<Value> {
    [Get(c, "chanlcnfta1"), Get(c, "chanlcnfox"), Get(c, "chanlcnfet")]
  }

  /** The precedence fta1, fox, fet: the number is the text of the first
      valid column in that order, or "N/A" when none is valid. */
  lemma BaseNumberPrecedence(c: Record)
    ensures BaseNumber(c) == match FirstWhere(NumberColumns(c), ValidNumber) case Some(v) => StrOf(v) case None => "N/A"
  {
    var cols := NumberColumns(c);
    assert cols[1..] == [cols[1], cols[2]] && cols[1..][1..] == [cols[2]] && cols[1..][1..][1..] == [];
    if !ValidNumber(cols[0]) {
      assert FirstWhere(cols, ValidNumber) == FirstWhere(cols[1..], ValidNumber);
      if !ValidNumber(cols[1]) {
        assert FirstWhere(cols[1..], ValidNumber) == FirstWhere(cols[1..][1..], ValidNumber);
      }
    }
  }

  /** One candidate channel entry: the copied channel with its number and
      slug, the `slug-number` key it is de-duplicated on, and whether it is
      exempt from de-duplication. */
  datatype Entry = Entry(source: Record, slug: string, number: string, exempt: bool) {
    function Key(): string { slug + "-" + number }

    /** The copied channel with its number and slug set. */
    function Channel(): Record { source["channel_number" := Str(number)]["channel_slug" := Str(slug)] }
  }

  /** An entry's channel is its source channel with the entry's number and
      slug set and every other field as it was. */
  lemma EntryChannelFields(e: Entry)
    ensures e.Channel()["channel_slug"] == Str(e.slug) && e.Channel()["channel_number"] == Str(e.number)
    ensures e.Channel().Keys == e.source.Keys + {"channel_number", "channel_slug"}
    ensures forall k | k in e.source && k != "channel_slug" && k != "channel_number" :: e.Channel()[k] == e.source[k]
  {
  }

  /** The numbers of the extra entries: a valid fta2, then a valid fta3. */
  function ExtraNumbers(c: Record): (r: seq<string>)
    ensures |r| <= 2
  {
    ColumnNumber(c, "chanlcnfta2") + ColumnNumber(c, "chanlcnfta3")
  }

  /** The text of a number column if it is valid. */
  function ColumnNumber(c: Record, column: string): (r: seq<string>)
    ensures |r| <= 1
  {
    var v := Get(c, column);
    if ValidNumber(v) then [StrOf(v)] else []
  }

  /** The base entry followed by one non-exempt entry per extra number, all
      with the same slug. */
  function Candidates(c: Record, slug: string, base: string, baseExempt: bool, extras: seq<string>): seq<Entry> {
    [Entry(c, slug, base, baseExempt)] + ExtraEntries(c, slug, extras)
  }

  function ExtraEntries(c: Record, slug: string, extras: seq<string>): (r: seq<Entry>)
    ensures |r| == |extras|
    ensures forall k | 0 <= k < |r| :: r[k] == Entry(c, slug, extras[k], false)
  {
    if extras == [] then [] else ExtraEntries(c, slug, extras[..|extras| - 1]) + [Entry(c, slug, extras[|extras| - 1], false)]
  }

  lemma ExtraEntriesSnoc(c: Record, slug: string, extras: seq<string>, n: string)
    ensures ExtraEntries(c, slug, extras + [n]) == ExtraEntries(c, slug, extras) + [Entry(c, slug, n, false)]
  {
    assert (extras + [n])[..|extras|] == extras;
  }

  /** The candidate entries of one channel: none without a guidelink, else
      the base entry (exempt for streaming providers and NOEPG channels)
      followed by the fta2 and fta3 extras. */
  function ChannelEntries(c: Record, streaming: bool): seq<Entry> {
    var g := Get(c, "guidelink");
    if !Truthy(g) then []
    else
      var slug := Slugify(StrOf(g));
      [Entry(c, slug, BaseNumber(c), streaming || g == Str("NOEPG"))]
        + ExtraEntry(c, "chanlcnfta2", slug) + ExtraEntry(c, "chanlcnfta3", slug)
  }

  /** The extra entry a valid fta2 or fta3 column gives; never exempt. */
  function ExtraEntry(c: Record, column: string, slug: string): seq<Entry> {
    var v := Get(c, column);
    if ValidNumber(v) then [Entry(c, slug, StrOf(v), false)] else []
  }

  lemma ExtraEntriesAppend(c: Record, slug: string, a: seq<string>, b: seq<string>)
    ensures ExtraEntries(c, slug, a + b) == ExtraEntries(c, slug, a) + ExtraEntries(c, slug, b)
  {
  }

  lemma ExtraEntryNumbers(c: Record, column: string, slug: string)
    ensures ExtraEntry(c, column, slug) == ExtraEntries(c, slug, ColumnNumber(c, column))
  {
  }

  lemma ChannelEntriesCandidates(c: Record, streaming: bool)
    requires Truthy(Get(c, "guidelink"))
    ensures var g := Get(c, "guidelink");
      ChannelEntries(c, streaming)
        == Candidates(c, Slugify(StrOf(g)), BaseNumber(c), streaming || g == Str("NOEPG"), ExtraNumbers(c))
  {
    var g := Get(c, "guidelink");
    var slug := Slugify(StrOf(g));
    ExtraEntryNumbers(c, "chanlcnfta2", slug);
    ExtraEntryNumbers(c, "chanlcnfta3", slug);
    ExtraEntriesAppend(c, slug, ColumnNumber(c, "chanlcnfta2"), ColumnNumber(c, "chanlcnfta3"));
    var base := Entry(c, slug, BaseNumber(c), streaming || g == Str("NOEPG"));
    ConcatAssoc([base], ExtraEntry(c, "chanlcnfta2", slug), ExtraEntry(c, "chanlcnfta3", slug));
  }

  lemma CandidatesShape(c: Record, slug: string, base: string, baseExempt: bool, extras: seq<string>)
    ensures var es := Candidates(c, slug, base, baseExempt, extras);
      && |es| == |extras| + 1
      && forall k | 0 <= k < |es| ::
        && es[k].slug == slug
        && es[k].source == c
        && (k > 0 ==> !es[k].exempt && es[k].number == extras[k - 1])
  {
  }

  /** Every entry of a channel is the channel with the slug of its
      guidelink and a number; the extras carry the valid fta2 and fta3
      numbers and are never exempt; a channel gives at most three entries. */
  lemma ChannelEntriesShape(c: Record, streaming: bool)
    ensures |ChannelEntries(c, streaming)| <= 3
    ensures Truthy(Get(c, "guidelink")) <==> ChannelEntries(c, streaming) != []
    ensures forall k | 0 <= k < |ChannelEntries(c, streaming)| ::
      var e := ChannelEntries(c, streaming)[k];
      && e.slug == Slugify(StrOf(Get(c, "guidelink")))
      && e.source == c
      && (k == 0 ==> e.number == BaseNumber(c))
      && (k > 0 ==> !e.exempt && e.number == ExtraNumbers(c)[k - 1])
  {
    var g := Get(c, "guidelink");
    if Truthy(g) {
      ChannelEntriesCandidates(c, streaming);
      CandidatesShape(c, Slugify(StrOf(g)), BaseNumber(c), streaming || g == Str("NOEPG"), ExtraNumbers(c));
    }
  }

  /** The candidate entries of all matching channels, in order. */
  function EntriesOf(cs: seq<Record>, streaming: bool): seq<Entry> {
    if cs == [] then [] else EntriesOf(cs[..|cs| - 1], streaming) + ChannelEntries(cs[|cs| - 1], streaming)
  }

  function EntryKey(e: Entry): string { e.Key() }

  function IsExempt(e: Entry): bool { e.exempt }

  /** The keys recorded by the seen-set: those of the non-exempt entries. */
  function Seen(es: seq<Entry>): set<string> {
    SeenExcept(es, EntryKey, IsExempt)
  }

  /** The seen-set pass: an exempt entry is always kept and never recorded,
      any other is kept iff its `slug-number` key is not yet recorded. */
  function Dedup(es: seq<Entry>): seq<Entry> {
    DedupExcept(es, EntryKey, IsExempt)
  }

  /** The non-exempt entries kept are exactly the first entry for each
      `slug-number` key among the non-exempt candidates, and every exempt
      candidate (base entries of streaming providers and of NOEPG
      channels) is kept. */
  lemma DedupSplits(es: seq<Entry>)
    ensures Select(Dedup(es), IsExempt, false) == FirstByKey(Select(es, IsExempt, false), EntryKey)
    ensures Select(Dedup(es), IsExempt, true) == Select(es, IsExempt, true)
  {
    DedupExceptSplits(es, EntryKey, IsExempt);
  }

  /** The channel records of the kept entries. */
  function ChannelsOf(es: seq<Entry>): seq<Record> {
    seq(|es|, i requires 0 <= i < |es| => es[i].Channel())
  }

  function DictValues(rs: seq<Record>): seq<Value> {
    seq(|rs|, i requires 0 <= i < |rs| => Dict(rs[i]))
  }

  /** A provider with its merged channel list, or `None` when it has no
      `providnum` or no entry survives. */
  function MergedProvider(p: Record, channels: seq<Record>): Option<Record> {
    var num := Get(p, "providnum");
    if num == Null then None
    else
      var kept := ChannelsOf(Dedup(EntriesOf(Matching(num, channels), Get(p, "subgroup") == Str("Streaming"))));
      if kept == [] then None else Some(p["channels" := List(DictValues(kept))])
  }

  function Merged(providers: seq<Record>, channels: seq<Record>): seq<Record> {
    if providers == [] then []
    else
      var init := Merged(providers[..|providers| - 1], channels);
      match MergedProvider(providers[|providers| - 1], channels)
      case None => init
      case Some(m) => init + [m]
  }

  /** Every merged provider has a `providnum` and a non-empty channel list,
      and there are no more of them than providers. */
  lemma {:induction false} MergedProviders(providers: seq<Record>, channels: seq<Record>)
    ensures |Merged(providers, channels)| <= |providers|
    ensures forall m: Record | m in Merged(providers, channels) ::
      && Get(m, "providnum") != Null
      && "channels" in m && m["channels"].List? && m["channels"].items != []
      && (exists p | p in providers :: p["channels" := m["channels"]] == m)
  {
    if providers != [] {
      var init := providers[..|providers| - 1];
      MergedProviders(init, channels);
      forall m: Record | m in Merged(providers, channels)
        ensures && Get(m, "providnum") != Null
                && "channels" in m && m["channels"].List? && m["channels"].items != []
                && (exists p | p in providers :: p["channels" := m["channels"]] == m)
      {
        if m in Merged(init, channels) {
          var p :| p in init && p["channels" := m["channels"]] == m;
          assert p in providers;
        } else {
          var p := providers[|providers| - 1];
          assert m == MergedProvider(p, channels).value;
          assert p in providers;
          assert p["channels" := m["channels"]] == m;
        }
      }
    }
  }

  method MatchingChannels(num: Value, channels: seq<Record>) returns (matching: seq<Record>)
    ensures matching == Matching(num, channels)
  {
    matching := [];
    for i := 0 to |channels|
      invariant matching == Matching(num, channels[..i])
    {
      assert channels[..i + 1][..i] == channels[..i];
      var c := channels[i];
      if num in ChannelBouquets(GetOr(c, "chanbouq", Str(""))) {
        matching := matching + [Without(c, {"chanbouq"})];
      }
    }
    assert channels[..|channels|] == channels;
  }

  /** Offering one more entry to the seen-set pass. */
  lemma Offer(es: seq<Entry>, e: Entry)
    ensures Dedup(es + [e]) == Dedup(es) + (if e.exempt || e.Key() !in Seen(es) then [e] else [])
    ensures Seen(es + [e]) == Seen(es) + (if e.exempt then {} else {e.Key()})
    ensures ChannelsOf(Dedup(es) + [e]) == ChannelsOf(Dedup(es)) + [e.Channel()]
  {
    DedupExceptSnoc(es, e, EntryKey, IsExempt);
  }

  /** Offering one entry to the seen-set: an exempt entry is appended
      without being recorded, any other is appended and recorded iff its
      key is new. */
  method OfferEntry(processed: seq<Record>, seen: set<string>, ghost es: seq<Entry>, e: Entry)
    returns (processed': seq<Record>, seen': set<string>)
    requires processed == ChannelsOf(Dedup(es)) && seen == Seen(es)
    ensures processed' == ChannelsOf(Dedup(es + [e])) && seen' == Seen(es + [e])
  {
    Offer(es, e);
    processed', seen' := processed, seen;
    if e.exempt || e.Key() !in seen {
      if !e.exempt {
        seen' := seen + {e.Key()};
      }
      processed' := processed + [e.Channel()];
    }
  }

  /** The extra entry of one further number column, if it is valid. */
  method OfferExtra(processed: seq<Record>, seen: set<string>, ghost es: seq<Entry>, c: Record, column: string, slug: string)
    returns (processed': seq<Record>, seen': set<string>)
    requires processed == ChannelsOf(Dedup(es)) && seen == Seen(es)
    ensures processed' == ChannelsOf(Dedup(es + ExtraEntry(c, column, slug)))
    ensures seen' == Seen(es + ExtraEntry(c, column, slug))
  {
    var v := Get(c, column);
    if ValidNumber(v) {
      processed', seen' := OfferEntry(processed, seen, es, Entry(c, slug, StrOf(v), false));
    } else {
      assert es + ExtraEntry(c, column, slug) == es;
      processed', seen' := processed, seen;
    }
  }

  /** The base entry of one matching channel, then its fta2 and fta3 extras. */
  method OfferChannel(processed: seq<Record>, seen: set<string>, ghost es: seq<Entry>, c: Record, streaming: bool)
    returns (processed': seq<Record>, seen': set<string>)
    requires processed == ChannelsOf(Dedup(es)) && seen == Seen(es)
    ensures processed' == ChannelsOf(Dedup(es + ChannelEntries(c, streaming)))
    ensures seen' == Seen(es + ChannelEntries(c, streaming))
  {
    processed', seen' := processed, seen;
    var g := Get(c, "guidelink");
    if !Truthy(g) {
      assert es + ChannelEntries(c, streaming) == es;
      return;
    }
    var slug := Slugify(StrOf(g));
    var base := Entry(c, slug, BaseNumber(c), streaming || g == Str("NOEPG"));
    processed', seen' := OfferEntry(processed', seen', es, base);
    processed', seen' := OfferExtra(processed', seen', es + [base], c, "chanlcnfta2", slug);
    processed', seen' := OfferExtra(processed', seen', es + [base] + ExtraEntry(c, "chanlcnfta2", slug), c, "chanlcnfta3", slug);
    ConcatAssoc(es, [base] + ExtraEntry(c, "chanlcnfta2", slug), ExtraEntry(c, "chanlcnfta3", slug));
    ConcatAssoc(es, [base], ExtraEntry(c, "chanlcnfta2", slug));
  }

  /** The entry loop of `reverse_merge_data` for one provider. */
  method ProcessChannels(matching: seq<Record>, streaming: bool) returns (processed: seq<Record>)
    ensures processed == ChannelsOf(Dedup(EntriesOf(matching, streaming)))
  {
    processed := [];
    var seen: set<string> := {};
    for i := 0 to |matching|
      invariant processed == ChannelsOf(Dedup(EntriesOf(matching[..i], streaming)))
      invariant seen == Seen(EntriesOf(matching[..i], streaming))
    {
      assert matching[..i + 1][..i] == matching[..i];
      processed, seen := OfferChannel(processed, seen, EntriesOf(matching[..i], streaming), matching[i], streaming);
    }
    assert matching[..|matching|] == matching;
  }

  /** `reverse_merge_data`: the loop over the providers. */
  method ReverseMergeData(providers: seq<Record>, channels: seq<Record>) returns (merged: seq<Record>)
    ensures merged == Merged(providers, channels)
  {
    merged := [];
    for i := 0 to |providers|
      invariant merged == Merged(providers[..i], channels)
    {
      assert providers[..i + 1][..i] == providers[..i];
      var p := providers[i];
      var num := Get(p, "providnum");
      if num != Null {
        var matching := MatchingChannels(num, channels);
        var processed := ProcessChannels(matching, Get(p, "subgroup") == Str("Streaming"));
        if processed != [] {
          merged := merged + [p["channels" := List(DictValues(processed))]];
        }
      }
    }
    assert providers[..|providers|] == providers;
  }
}
