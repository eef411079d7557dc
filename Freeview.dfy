/** The Freeview channel guide's helpers: ordering channel numbers such as
    "7", "7A" and "N/A", merging the rows of one channel broadcast on several
    numbers, grouping by network, and choosing which source groups start
    open. */
module Freeview {
  import opened Wrappers
  import opened Text
  import opened Seqs
  import opened Collate

  // ---------------------------------------------------------------------------
  // Data
  // ---------------------------------------------------------------------------

  datatype Logo = Logo(light: string, dark: string)

  /** `real` is a Dafny keyword, so that field is `real_name` here. */
  datatype ChannelNames = ChannelNames(clean: string, location: string, real_name: string)

  datatype OtherData = OtherData(channel_type: string, channel_specs: string)

  /** One row of the channel list: a channel on one number in one region. */
  datatype Channel = Channel(
    guidelink: string,
    channel_id: string,
    channel_slug: string,
    channel_name: string,
    channel_url: string,
    channel_number: string,
    channel_group: string,
    chlogo: string,
    program_count: int,
    channel_logo: Logo,
    channel_names: ChannelNames,
    other_data: OtherData)

  /** A channel together with every number it is listed on. The entry is a
      copy of the first row seen, so `channel.channel_number` is that row's
      number. */
  datatype UniqueChannel = UniqueChannel(channel: Channel, channel_numbers: seq<string>, isGrouped: bool)

  /** A guide source (a region's listing). */
  datatype Source = Source(id: string, group: string, subgroup: string, location: string, url: string, logo: Logo)

  const NotAvailable := "N/A"

  // ---------------------------------------------------------------------------
  // Channel numbers
  // ---------------------------------------------------------------------------

  predicate AllLetters(s: string) {
    forall i | 0 <= i < |s| :: IsAsciiLetter(s[i])
  }

  /** The only split of a text into a digit run followed by letters puts
      every leading digit in the run. */
  lemma DigitLetterSplit(s: string, k: nat)
    requires 0 < k <= |s| && AllDigits(s[..k]) && AllLetters(s[k..])
    ensures k == |LeadingDigits(s)|
  {
    assert k < |s| ==> s[k..][0] == s[k];
  }

  /** `/^(\d+)([a-zA-Z]*)$/`: a channel number made of digits followed by
      letters, split into the value of the digits and the letters. */
  function NumberMatch(s: string): (r: Option<(nat, string)>)
    ensures r.Some? <==> exists k | 0 < k <= |s| :: AllDigits(s[..k]) && AllLetters(s[k..])
    ensures forall k | 0 < k <= |s| && AllDigits(s[..k]) && AllLetters(s[k..]) ::
      r == Some((DigitsValue(s[..k]), s[k..]))
  {
    var d := LeadingDigits(s);
    var rest := s[|d|..];
    assert s[..|d|] == d;
    forall k | 0 < k <= |s| && AllDigits(s[..k]) && AllLetters(s[k..]) ensures k == |d| {
      DigitLetterSplit(s, k);
    }
    if d != [] && AllLetters(rest) then Some((DigitsValue(d), rest)) else None
  }

  /** The order channel numbers are listed in, as a sort key: ordinary numbers
      first, then "N/A", then the empty number; ordinary numbers by the value
      of their digits, a number not of the form digits-then-letters counting
      as infinitely large, then by their letters, then by the whole text. */
  datatype NumberKey = NumberKey(rank: nat, number: Option<nat>, letters: string, text: string)

  function NumberKeyOf(s: string): NumberKey {
    if s == "" then NumberKey(2, None, "", "")
    else if s == NotAvailable then NumberKey(1, None, "", "")
    else match NumberMatch(s)
      case Some((n, l)) => NumberKey(0, Some(n), l, s)
      case None => NumberKey(0, None, "", s)
  }

  /** `a < b` where a missing number is infinity. */
  predicate NumberBelow(a: Option<nat>, b: Option<nat>) {
    a.Some? && (b.None? || a.value < b.value)
  }

  /** The lexicographic order on keys. */
  predicate KeyLe(x: NumberKey, y: NumberKey) {
    || x.rank < y.rank
    || (x.rank == y.rank && NumberBelow(x.number, y.number))
    || (x.rank == y.rank && x.number == y.number && x.letters != y.letters && LexLe(x.letters, y.letters))
    || (x.rank == y.rank && x.number == y.number && x.letters == y.letters && LexLe(x.text, y.text))
  }

  /** `sortChannelNumbers(a, b)`: negative when `a` is listed first, positive
      when `b` is, zero only for the same text; it agrees with the key order. */
  function CompareChannelNumbers(a: string, b: string): (r: int)
    ensures r <= 0 <==> KeyLe(NumberKeyOf(a), NumberKeyOf(b))
    ensures r == 0 <==> a == b
  {
    if a == "" && b == "" then 0
    else if a == "" then 1
    else if b == "" then -1
    else if a == NotAvailable && b == NotAvailable then 0
    else if a == NotAvailable then 1
    else if b == NotAvailable then -1
    else CompareNumberParts(a, b)
  }

  /** The comparison of two numbers that are neither empty nor "N/A": by
      their digits (infinity when the pattern does not match), then their
      letters, then their whole text. */
  function CompareNumberParts(a: string, b: string): (r: int)
    requires a != "" && b != "" && a != NotAvailable && b != NotAvailable
    ensures r <= 0 <==> KeyLe(NumberKeyOf(a), NumberKeyOf(b))
    ensures r == 0 <==> a == b
  {
    var am := NumberMatch(a);
    var bm := NumberMatch(b);
    var aLetter := if am.Some? then am.value.1 else "";
    var bLetter := if bm.Some? then bm.value.1 else "";
    if am.None? && bm.Some? then 1
    else if am.Some? && bm.None? then -1
    else if am.Some? && bm.Some? && am.value.0 != bm.value.0 then am.value.0 - bm.value.0
    else if aLetter != bLetter then LocaleCompare(aLetter, bLetter)
    else LocaleCompare(a, b)
  }

  predicate NumberLe(a: string, b: string) {
    CompareChannelNumbers(a, b) <= 0
  }

  lemma KeyLeTotal(x: NumberKey, y: NumberKey)
    ensures KeyLe(x, y) || KeyLe(y, x)
  {
    LexLeTotal(x.letters, y.letters);
    LexLeTotal(x.text, y.text);
  }

  lemma KeyLeTransitive(x: NumberKey, y: NumberKey, z: NumberKey)
    requires KeyLe(x, y) && KeyLe(y, z)
    ensures KeyLe(x, z)
  {
    if x.rank == y.rank == z.rank && x.number == y.number == z.number {
      if x.letters == y.letters == z.letters {
        LexLeTransitive(x.text, y.text, z.text);
      } else if x.letters != y.letters && y.letters != z.letters {
        LexLeTransitive(x.letters, y.letters, z.letters);
        if x.letters == z.letters {
          LexLeAntisymmetric(y.letters, z.letters);
        }
      }
    }
  }

  lemma KeyLeAntisymmetric(a: string, b: string)
    requires KeyLe(NumberKeyOf(a), NumberKeyOf(b)) && KeyLe(NumberKeyOf(b), NumberKeyOf(a))
    ensures a == b
  {
    var x, y := NumberKeyOf(a), NumberKeyOf(b);
    if x.letters != y.letters {
      LexLeAntisymmetric(x.letters, y.letters);
    } else {
      LexLeAntisymmetric(x.text, y.text);
    }
  }

  /** The channel-number comparator is consistent, and it never ties two
      different numbers, so sorting by it has a single outcome. */
  lemma NumberOrder()
    ensures TotalPreorder(NumberLe) && Antisymmetric(NumberLe)
  {
    forall a: string, b: string ensures NumberLe(a, b) || NumberLe(b, a) {
      KeyLeTotal(NumberKeyOf(a), NumberKeyOf(b));
    }
    forall a: string, b: string, c: string | NumberLe(a, b) && NumberLe(b, c)
      ensures NumberLe(a, c)
    {
      KeyLeTransitive(NumberKeyOf(a), NumberKeyOf(b), NumberKeyOf(c));
    }
    forall a: string, b: string | NumberLe(a, b) && NumberLe(b, a)
      ensures a == b
    {
      KeyLeAntisymmetric(a, b);
    }
  }

  // ---------------------------------------------------------------------------
  // Merging the rows of a channel (`processChannels`)
  // ---------------------------------------------------------------------------

  /** A row that is never merged with another: a channel without a guide
      ("NOEPG") or a radio channel ("R_" ids). */
  predicate Standalone(c: Channel) {
    c.channel_id == "NOEPG" || StartsWith(c.channel_id, "R_")
  }

  predicate StandaloneEntry(u: UniqueChannel) {
    Standalone(u.channel)
  }

  /** Rows that are merged share their id and their specs. */
  function EntryKey(c: Channel): (string, string) {
    (c.channel_id, c.other_data.channel_specs)
  }

  function SameEntry(c: Channel): UniqueChannel -> bool {
    (u: UniqueChannel) => EntryKey(u.channel) == EntryKey(c)
  }

  function HasKey(k: (string, string)): Channel -> bool {
    (c: Channel) => EntryKey(c) == k
  }

  function NumberOf(c: Channel): string {
    c.channel_number
  }

  /** A new entry for a row. */
  function Single(c: Channel): UniqueChannel {
    UniqueChannel(c, [c.channel_number], false)
  }

  /** One step of the reduction: a standalone row, or a row no entry has the
      key of, becomes a new entry; any other row adds its number to the first
      entry with its key, which becomes grouped. */
  function Absorb(acc: seq<UniqueChannel>, c: Channel): seq<UniqueChannel> {
    if Standalone(c) then acc + [Single(c)]
    else match FirstIndexWhere(acc, SameEntry(c))
      case Some(j) => acc[j := Extended(acc[j], c)]
      case None => acc + [Single(c)]
  }

  /** The entries after absorbing every row in turn. */
  function Merged(cs: seq<Channel>): seq<UniqueChannel> {
    if cs == [] then [] else Absorb(Merged(cs[..|cs| - 1]), cs[|cs| - 1])
  }

  /** The numbers of the rows with key `k`, in order. */
  function NumbersFor(cs: seq<Channel>, k: (string, string)): seq<string> {
    MapSeq(Select(cs, HasKey(k), true), NumberOf)
  }

  function TotalNumbers(us: seq<UniqueChannel>): nat {
    if us == [] then 0 else TotalNumbers(us[..|us| - 1]) + |us[|us| - 1].channel_numbers|
  }

  /** Each entry lists its own row's number first, and is grouped exactly
      when it lists more than one number. */
  ghost predicate EntriesWellFormed(acc: seq<UniqueChannel>) {
    forall i | 0 <= i < |acc| ::
      && acc[i].channel_numbers != []
      && acc[i].channel_numbers[0] == acc[i].channel.channel_number
      && (acc[i].isGrouped <==> |acc[i].channel_numbers| > 1)
  }

  /** The standalone entries are the standalone rows, in order, each alone. */
  ghost predicate StandalonesKept(cs: seq<Channel>, acc: seq<UniqueChannel>) {
    Select(acc, StandaloneEntry, true) == MapSeq(Select(cs, Standalone, true), Single)
  }

  /** Every other entry lists the numbers of all rows sharing its key, in order. */
  ghost predicate NumbersListed(cs: seq<Channel>, acc: seq<UniqueChannel>) {
    forall i | 0 <= i < |acc| && !Standalone(acc[i].channel) ::
      acc[i].channel_numbers == NumbersFor(cs, EntryKey(acc[i].channel))
  }

  /** No two entries that are not standalone share a key. */
  ghost predicate KeysDistinct(acc: seq<UniqueChannel>) {
    forall i, j | 0 <= i < j < |acc| && !Standalone(acc[i].channel) && !Standalone(acc[j].channel) ::
      EntryKey(acc[i].channel) != EntryKey(acc[j].channel)
  }

  /** Every row that is not standalone has an entry with its key. */
  ghost predicate KeysCovered(cs: seq<Channel>, acc: seq<UniqueChannel>) {
    forall c | c in cs && !Standalone(c) :: exists i | 0 <= i < |acc| :: EntryKey(acc[i].channel) == EntryKey(c)
  }

  /** What the merged entries say about the rows: every row's number is
      listed exactly once, and the properties above. */
  ghost predicate Summarises(cs: seq<Channel>, acc: seq<UniqueChannel>) {
    && TotalNumbers(acc) == |cs|
    && EntriesWellFormed(acc)
    && StandalonesKept(cs, acc)
    && NumbersListed(cs, acc)
    && KeysDistinct(acc)
    && KeysCovered(cs, acc)
  }

  lemma TotalNumbersUpdate(us: seq<UniqueChannel>, j: nat, v: UniqueChannel)
    requires j < |us|
    ensures TotalNumbers(us[j := v]) == TotalNumbers(us) - |us[j].channel_numbers| + |v.channel_numbers|
  {
    if j < |us| - 1 {
      TotalNumbersUpdate(us[..|us| - 1], j, v);
      assert us[j := v][..|us| - 1] == us[..|us| - 1][j := v];
    } else {
      assert us[j := v][..|us| - 1] == us[..|us| - 1];
    }
  }

  /** A row whose key no entry has has no earlier rows with that key. */
  lemma NoEntryNoNumbers(cs: seq<Channel>, acc: seq<UniqueChannel>, c: Channel)
    requires KeysCovered(cs, acc) && !Standalone(c)
    requires forall i | 0 <= i < |acc| :: !SameEntry(c)(acc[i])
    ensures NumbersFor(cs, EntryKey(c)) == []
  {
    forall i | 0 <= i < |cs| ensures !HasKey(EntryKey(c))(cs[i]) {
      assert cs[i] in cs;
    }
    SelectEmpty(cs, HasKey(EntryKey(c)));
  }

  /** The rows of other keys are unaffected by a new row. */
  lemma NumbersForSnoc(cs: seq<Channel>, c: Channel, k: (string, string))
    ensures NumbersFor(cs + [c], k) == NumbersFor(cs, k) + (if EntryKey(c) == k then [c.channel_number] else [])
  {
    SelectSnoc(cs, c, HasKey(k), true);
    MapSeqSnoc(Select(cs, HasKey(k), true), c, NumberOf);
  }

  lemma PushKept(cs: seq<Channel>, acc: seq<UniqueChannel>, c: Channel)
    requires StandalonesKept(cs, acc)
    ensures StandalonesKept(cs + [c], acc + [Single(c)])
  {
    SelectSnoc(acc, Single(c), StandaloneEntry, true);
    SelectSnoc(cs, c, Standalone, true);
    MapSeqSnoc(Select(cs, Standalone, true), c, Single);
  }

  lemma PushListed(cs: seq<Channel>, acc: seq<UniqueChannel>, c: Channel)
    requires NumbersListed(cs, acc) && KeysCovered(cs, acc)
    requires Standalone(c) || forall i | 0 <= i < |acc| :: !SameEntry(c)(acc[i])
    ensures NumbersListed(cs + [c], acc + [Single(c)])
  {
    var acc' := acc + [Single(c)];
    forall i | 0 <= i < |acc'| && !Standalone(acc'[i].channel)
      ensures acc'[i].channel_numbers == NumbersFor(cs + [c], EntryKey(acc'[i].channel))
    {
      NumbersForSnoc(cs, c, EntryKey(acc'[i].channel));
      if i == |acc| {
        NoEntryNoNumbers(cs, acc, c);
      }
    }
  }

  lemma PushCovered(cs: seq<Channel>, acc: seq<UniqueChannel>, c: Channel)
    requires KeysCovered(cs, acc)
    ensures KeysCovered(cs + [c], acc + [Single(c)])
  {
    var acc' := acc + [Single(c)];
    forall d | d in cs + [c] && !Standalone(d)
      ensures exists i | 0 <= i < |acc'| :: EntryKey(acc'[i].channel) == EntryKey(d)
    {
      if d == c {
        assert EntryKey(acc'[|acc|].channel) == EntryKey(d);
      } else {
        assert d in cs;
        var i :| 0 <= i < |acc| && EntryKey(acc[i].channel) == EntryKey(d);
        assert acc'[i] == acc[i];
      }
    }
  }

  lemma AbsorbNew(cs: seq<Channel>, acc: seq<UniqueChannel>, c: Channel)
    requires Summarises(cs, acc)
    requires Standalone(c) || forall i | 0 <= i < |acc| :: !SameEntry(c)(acc[i])
    ensures Summarises(cs + [c], acc + [Single(c)])
  {
    PushCounted(cs, acc, c);
    PushWellFormed(acc, c);
    PushDistinct(acc, c);
    PushKept(cs, acc, c);
    PushListed(cs, acc, c);
    PushCovered(cs, acc, c);
  }

  lemma PushCounted(cs: seq<Channel>, acc: seq<UniqueChannel>, c: Channel)
    requires TotalNumbers(acc) == |cs|
    ensures TotalNumbers(acc + [Single(c)]) == |cs + [c]|
  {
    var acc' := acc + [Single(c)];
    assert acc'[..|acc'| - 1] == acc;
  }

  lemma PushWellFormed(acc: seq<UniqueChannel>, c: Channel)
    requires EntriesWellFormed(acc)
    ensures EntriesWellFormed(acc + [Single(c)])
  {
  }

  lemma PushDistinct(acc: seq<UniqueChannel>, c: Channel)
    requires KeysDistinct(acc)
    requires Standalone(c) || forall i | 0 <= i < |acc| :: !SameEntry(c)(acc[i])
    ensures KeysDistinct(acc + [Single(c)])
  {
  }

  /** The first entry with the row's key, with the row's number added. */
  function Extended(u: UniqueChannel, c: Channel): UniqueChannel {
    u.(channel_numbers := u.channel_numbers + [c.channel_number], isGrouped := true)
  }

  lemma ExtendListed(cs: seq<Channel>, acc: seq<UniqueChannel>, c: Channel, j: nat)
    requires NumbersListed(cs, acc) && KeysDistinct(acc) && !Standalone(c)
    requires j < |acc| && SameEntry(c)(acc[j])
    ensures NumbersListed(cs + [c], acc[j := Extended(acc[j], c)])
  {
    var acc' := acc[j := Extended(acc[j], c)];
    forall i | 0 <= i < |acc'| && !Standalone(acc'[i].channel)
      ensures acc'[i].channel_numbers == NumbersFor(cs + [c], EntryKey(acc'[i].channel))
    {
      NumbersForSnoc(cs, c, EntryKey(acc'[i].channel));
    }
  }

  lemma ExtendCovered(cs: seq<Channel>, acc: seq<UniqueChannel>, c: Channel, j: nat)
    requires KeysCovered(cs, acc)
    requires j < |acc| && SameEntry(c)(acc[j])
    ensures KeysCovered(cs + [c], acc[j := Extended(acc[j], c)])
  {
    var acc' := acc[j := Extended(acc[j], c)];
    forall d | d in cs + [c] && !Standalone(d)
      ensures exists i | 0 <= i < |acc'| :: EntryKey(acc'[i].channel) == EntryKey(d)
    {
      if d == c {
        assert EntryKey(acc'[j].channel) == EntryKey(d);
      } else {
        assert d in cs;
        var i :| 0 <= i < |acc| && EntryKey(acc[i].channel) == EntryKey(d);
        assert acc'[i].channel == acc[i].channel;
      }
    }
  }

  lemma ExtendKept(cs: seq<Channel>, acc: seq<UniqueChannel>, c: Channel, j: nat)
    requires StandalonesKept(cs, acc) && !Standalone(c)
    requires j < |acc| && SameEntry(c)(acc[j])
    ensures StandalonesKept(cs + [c], acc[j := Extended(acc[j], c)])
  {
    SelectUpdateSkip(acc, j, Extended(acc[j], c), StandaloneEntry);
    SelectSnoc(cs, c, Standalone, true);
  }

  lemma ExtendRest(acc: seq<UniqueChannel>, c: Channel, j: nat)
    requires EntriesWellFormed(acc) && KeysDistinct(acc)
    requires j < |acc| && SameEntry(c)(acc[j])
    ensures EntriesWellFormed(acc[j := Extended(acc[j], c)]) && KeysDistinct(acc[j := Extended(acc[j], c)])
  {
  }

  lemma AbsorbExisting(cs: seq<Channel>, acc: seq<UniqueChannel>, c: Channel, j: nat)
    requires Summarises(cs, acc) && !Standalone(c)
    requires j < |acc| && SameEntry(c)(acc[j])
    ensures Summarises(cs + [c], acc[j := Extended(acc[j], c)])
  {
    TotalNumbersUpdate(acc, j, Extended(acc[j], c));
    ExtendKept(cs, acc, c, j);
    ExtendListed(cs, acc, c, j);
    ExtendCovered(cs, acc, c, j);
    ExtendRest(acc, c, j);
  }

  /** Each step keeps the summary true. */
  lemma AbsorbSummarises(cs: seq<Channel>, acc: seq<UniqueChannel>, c: Channel)
    requires Summarises(cs, acc)
    ensures Summarises(cs + [c], Absorb(acc, c))
  {
    if Standalone(c) {
      AbsorbNew(cs, acc, c);
    } else {
      match FirstIndexWhere(acc, SameEntry(c))
      case Some(j) => AbsorbExisting(cs, acc, c, j);
      case None => AbsorbNew(cs, acc, c);
    }
  }

  /** The merged entries summarise the rows they were built from. */
  lemma {:induction false} MergedSummarises(cs: seq<Channel>)
    ensures Summarises(cs, Merged(cs))
  {
    if cs != [] {
      var init, last := cs[..|cs| - 1], cs[|cs| - 1];
      assert init + [last] == cs;
      MergedSummarises(init);
      AbsorbSummarises(init, Merged(init), last);
    }
  }

  /** The number an entry is sorted by; an absent one behaves like an empty one. */
  function FirstNumber(u: UniqueChannel): string {
    if u.channel_numbers == [] then "" else u.channel_numbers[0]
  }

  /** The comparator of the merged entries: by their first number, then by
      location. */
  function CompareEntries(a: UniqueChannel, b: UniqueChannel): (r: int)
    ensures r <= 0 <==>
      || (FirstNumber(a) != FirstNumber(b) && NumberLe(FirstNumber(a), FirstNumber(b)))
      || (FirstNumber(a) == FirstNumber(b) && LexLe(a.channel.channel_names.location, b.channel.channel_names.location))
  {
    var r := CompareChannelNumbers(FirstNumber(a), FirstNumber(b));
    if r != 0 then r else LocaleCompare(a.channel.channel_names.location, b.channel.channel_names.location)
  }

  predicate EntryLe(a: UniqueChannel, b: UniqueChannel) {
    CompareEntries(a, b) <= 0
  }

  /** The entry comparator is consistent. */
  lemma EntryOrder()
    ensures TotalPreorder(EntryLe)
  {
    NumberOrder();
    forall a: UniqueChannel, b: UniqueChannel ensures EntryLe(a, b) || EntryLe(b, a) {
      LexLeTotal(a.channel.channel_names.location, b.channel.channel_names.location);
    }
    forall a: UniqueChannel, b: UniqueChannel, c: UniqueChannel | EntryLe(a, b) && EntryLe(b, c)
      ensures EntryLe(a, c)
    {
      if FirstNumber(a) == FirstNumber(b) == FirstNumber(c) {
        LexLeTransitive(a.channel.channel_names.location, b.channel.channel_names.location, c.channel.channel_names.location);
      }
    }
  }

  /** `processChannels`: the merged entries, sorted. */
  function ProcessedChannels(cs: seq<Channel>): seq<UniqueChannel> {
    SortBy(Merged(cs), EntryLe)
  }

  /** The result is the merged entries in sorted order. */
  lemma ProcessedChannelsSorted(cs: seq<Channel>)
    ensures SortedBy(ProcessedChannels(cs), EntryLe)
    ensures multiset(ProcessedChannels(cs)) == multiset(Merged(cs))
    ensures Summarises(cs, Merged(cs))
  {
    EntryOrder();
    SortBySorted(Merged(cs), EntryLe);
    MergedSummarises(cs);
  }

  /** The reduction loop followed by the sort. */
  method ProcessChannels(channels: seq<Channel>) returns (r: seq<UniqueChannel>)
    ensures r == ProcessedChannels(channels)
  {
    var acc: seq<UniqueChannel> := [];
    for i := 0 to |channels|
      invariant acc == Merged(channels[..i])
    {
      var c := channels[i];
      if Standalone(c) {
        acc := acc + [Single(c)];
      } else {
        var existing := FirstIndexWhere(acc, SameEntry(c));
        if existing.Some? {
          var j := existing.value;
          acc := acc[j := acc[j].(channel_numbers := acc[j].channel_numbers + [c.channel_number], isGrouped := true)];
        } else {
          acc := acc + [Single(c)];
        }
      }
      assert channels[..i + 1][..i] == channels[..i];
    }
    assert channels[..|channels|] == channels;
    r := SortBy(acc, EntryLe);
  }

  // ---------------------------------------------------------------------------
  // Networks
  // ---------------------------------------------------------------------------

  function Network(u: UniqueChannel): string {
    u.channel.channel_group
  }

  /** `groupChannelsByNetwork`: one group per network that occurs, holding
      that network's entries in their original order. */
  method GroupChannelsByNetwork(channels: seq<UniqueChannel>) returns (groups: map<string, seq<UniqueChannel>>)
    ensures groups.Keys == KeySet(channels, Network)
    ensures forall k | k in groups :: groups[k] == Select(channels, KeyIs(Network, k), true)
  {
    groups := GroupEach(channels, Network);
    GroupByGroups(channels, Network);
  }

  const Ungrouped := "Ungrouped"

  /** The comparator `sortNetworks` passes to `sort`. */
  function CompareNetworks(a: string, b: string): int {
    if a == Ungrouped then 1
    else if b == Ungrouped then -1
    else LocaleCompare(a, b)
  }

  /** The order it means: "Ungrouped" last, the other networks alphabetically. */
  predicate NetworkLe(a: string, b: string) {
    if a == Ungrouped then b == Ungrouped
    else b == Ungrouped || LexLe(a, b)
  }

  /** The comparator follows that order on every pair except two
      "Ungrouped" entries, which it calls unequal; those are the same text,
      so either arrangement of them is the same list. */
  lemma CompareNetworksMeans(a: string, b: string)
    requires a != Ungrouped || b != Ungrouped
    ensures CompareNetworks(a, b) <= 0 <==> NetworkLe(a, b)
    ensures CompareNetworks(a, b) == 0 <==> a == b
  {
  }

  lemma NetworkOrder()
    ensures TotalPreorder(NetworkLe) && Antisymmetric(NetworkLe)
  {
    TextOrder();
  }

  /** `sortNetworks`. */
  function SortNetworks(networks: seq<string>): seq<string> {
    SortBy(networks, NetworkLe)
  }

  /** The networks come out alphabetically with "Ungrouped" after all the
      others, and none is lost or added. */
  lemma SortNetworksSorted(networks: seq<string>)
    ensures multiset(SortNetworks(networks)) == multiset(networks)
    ensures forall i, j | 0 <= i < j < |SortNetworks(networks)| ::
      SortNetworks(networks)[i] == Ungrouped ==> SortNetworks(networks)[j] == Ungrouped
    ensures forall i, j | 0 <= i < j < |SortNetworks(networks)| ::
      SortNetworks(networks)[j] != Ungrouped ==> LexLe(SortNetworks(networks)[i], SortNetworks(networks)[j])
  {
    NetworkOrder();
    SortBySorted(networks, NetworkLe);
  }

  // ---------------------------------------------------------------------------
  // Sources
  // ---------------------------------------------------------------------------

  /** An Australian free-to-air listing other than the streaming, all-regions
      and by-network ones. */
  predicate IsFreeviewSource(s: Source) {
    && s.group == "Australia"
    && Contains(s.subgroup, "FTA")
    && !Contains(s.subgroup, "Streaming")
    && !Contains(s.subgroup, "All Regions")
    && !Contains(s.subgroup, "by Network")
  }

  /** `filterFreeviewSources`. */
  function FilterFreeviewSources(sources: seq<Source>): seq<Source> {
    Select(sources, IsFreeviewSource, true)
  }

  /** Exactly the Freeview sources are kept. */
  lemma FilterFreeviewSourcesKeeps(sources: seq<Source>)
    ensures forall s | s in FilterFreeviewSources(sources) :: s in sources && IsFreeviewSource(s)
    ensures forall s | s in sources && IsFreeviewSource(s) :: s in FilterFreeviewSources(sources)
  {
    SelectMembers(sources, IsFreeviewSource, true);
  }

  function Subgroup(s: Source): string {
    s.subgroup
  }

  predicate LocationLe(a: Source, b: Source) {
    LexLe(a.location, b.location)
  }

  function Location(s: Source): string {
    s.location
  }

  /** `groupAndSortSources`: the sources grouped by subgroup, each group
      sorted by location; sources at the same location keep their order. */
  method GroupAndSortSources(sources: seq<Source>) returns (grouped: map<string, seq<Source>>)
    ensures grouped.Keys == KeySet(sources, Subgroup)
    ensures forall k | k in grouped :: grouped[k] == SortBy(Select(sources, KeyIs(Subgroup, k), true), LocationLe)
    ensures forall k | k in grouped :: SortedBy(grouped[k], LocationLe)
    ensures forall k | k in grouped :: multiset(grouped[k]) == multiset(Select(sources, KeyIs(Subgroup, k), true))
  {
    var unsorted := GroupEach(sources, Subgroup);
    GroupByGroups(sources, Subgroup);
    grouped := SortEachGroup(unsorted, LocationLe);
    StringKeyOrder(LocationLe, Location);
    forall k | k in grouped ensures SortedBy(grouped[k], LocationLe) {
      SortBySorted(unsorted[k], LocationLe);
    }
  }

  /** The source whose id is selected, if an id is given, the list of all
      sources is given and holds one with that id. */
  function SelectedSource(selectedId: Option<string>, allSources: Option<seq<Source>>): Option<Source> {
    if selectedId.Some? && selectedId.value != "" && allSources.Some? then
      match FirstIndexWhere(allSources.value, (s: Source) => s.id == selectedId.value)
      case Some(i) => Some(allSources.value[i])
      case None => None
    else None
  }

  /** `createInitialOpenGroups`: every group starts closed, except that the
      subgroup of the selected source starts open, and is added if it is not
      a group. */
  function InitialOpenGroups(grouped: map<string, seq<Source>>, selectedId: Option<string>, allSources: Option<seq<Source>>): (open: map<string, bool>)
    ensures grouped.Keys <= open.Keys
    ensures forall k | k in open :: k in grouped || open[k]
    ensures forall k, k' | k in open && k' in open && open[k] && open[k'] :: k == k'
    ensures (exists k | k in open :: open[k]) <==>
      selectedId.Some? && selectedId.value != "" && allSources.Some? &&
      exists i | 0 <= i < |allSources.value| :: allSources.value[i].id == selectedId.value
    ensures forall k | k in open && open[k] ::
      exists i | 0 <= i < |allSources.value| ::
        && allSources.value[i].id == selectedId.value
        && allSources.value[i].subgroup == k
        && forall i' | 0 <= i' < i :: allSources.value[i'].id != selectedId.value
  {
    var closed := map k | k in grouped :: false;
    match SelectedSource(selectedId, allSources)
    case Some(s) =>
      var open := closed[s.subgroup := true];
      assert s.subgroup in open && open[s.subgroup];
      open
    case None => closed
  }
}
