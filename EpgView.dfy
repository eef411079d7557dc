/** Helpers of the programme guide grid: the icon picked for a programme's
    category, a programme's status against the current time, its progress,
    the comparators that order channels by their logical channel number
    (LCN), and the small style choices the grid cells make. Times are
    milliseconds since the epoch; `None` stands for a date that did not
    parse (JavaScript's invalid date, whose comparisons are all false). */
module EpgView {
  import opened Wrappers
  import opened Text
  import opened Seqs
  import opened Collate

  // ---------------------------------------------------------------------------
  // Category icons (`getProgramCategoryIcon`)
  // ---------------------------------------------------------------------------

  datatype Icon = Award | Utensils | Landmark | Shirt | Film | Gamepad2 | Users | Tv | Music | Newspaper

  /** `categoryIconMap`, in the order its entries are listed and visited. */
  const CategoryIcons: seq<(string, Icon)> := [
    ("award", Award), ("ceremony", Award), ("cooking", Utensils), ("documentary", Landmark),
    ("fashion", Shirt), ("film", Film), ("food", Utensils), ("game", Gamepad2),
    ("game show", Users), ("history", Landmark), ("lifestyle", Shirt), ("movie", Film),
    ("music", Music), ("news", Newspaper), ("reality", Users), ("series", Tv),
    ("show", Tv), ("sport", Gamepad2)]

  /** The entry's keyword occurs in `category`. */
  function KeywordIn(category: string): ((string, Icon)) -> bool {
    (e: (string, Icon)) => Contains(category, e.0)
  }

  /** The icon of the first entry of `table` whose keyword occurs in the
      lower-cased first category; none without categories or without a
      matching keyword. */
  function IconFrom(table: seq<(string, Icon)>, categories: Option<seq<string>>): (r: Option<Icon>)
    ensures (categories.None? || categories.value == []) ==> r.None?
    ensures categories.Some? && categories.value != [] ==>
      var category := Lower(categories.value[0]);
      && (r.Some? <==> exists i | 0 <= i < |table| :: Contains(category, table[i].0))
      && (r.Some? ==> exists i | 0 <= i < |table| ::
            && Contains(category, table[i].0) && r.value == table[i].1
            && forall j | 0 <= j < i :: !Contains(category, table[j].0))
  {
    if categories.None? || categories.value == [] then None
    else
      var category := Lower(categories.value[0]);
      match FirstIndexWhere(table, KeywordIn(category))
      case Some(i) => Some(table[i].1)
      case None => None
  }

  /** `getProgramCategoryIcon`. */
  function CategoryIcon(categories: Option<seq<string>>): Option<Icon> {
    IconFrom(CategoryIcons, categories)
  }

  /** `categoryIconMap` with "game show" listed before "game", so that the
      longer keyword is tried first. */
  const CategoryIconsFixed: seq<(string, Icon)> := [
    ("award", Award), ("ceremony", Award), ("cooking", Utensils), ("documentary", Landmark),
    ("fashion", Shirt), ("film", Film), ("food", Utensils), ("game show", Users),
    ("game", Gamepad2), ("history", Landmark), ("lifestyle", Shirt), ("movie", Film),
    ("music", Music), ("news", Newspaper), ("reality", Users), ("series", Tv),
    ("show", Tv), ("sport", Gamepad2)]

  /** The icon lookup over the reordered table. */
  function CategoryIconFixed(categories: Option<seq<string>>): Option<Icon> {
    IconFrom(CategoryIconsFixed, categories)
  }

  /** No keyword before "game" occurs in "game show". */
  lemma GameShowMissesEarlyKeywords(k: nat)
    requires k < 7
    ensures CategoryIconsFixed[k] == CategoryIcons[k]
    ensures !Contains("game show", CategoryIcons[k].0)
  {
    var sub := CategoryIcons[k].0;
    if k == 0 { LacksCharOf("game show", sub, 3); } else { LacksCharOf("game show", sub, 0); }
  }

  /** The icon found for a single category is the one the first matching
      entry lists. */
  lemma IconOfFirstMatch(table: seq<(string, Icon)>, category: string, i: nat)
    requires i < |table| && Contains(Lower(category), table[i].0)
    requires forall k | 0 <= k < i :: !Contains(Lower(category), table[k].0)
    ensures IconFrom(table, Some([category])) == Some(table[i].1)
  {
    FirstIndexWhereAt(table, KeywordIn(Lower(category)), i);
  }

  /** `IconOfFirstMatch` for a category whose lower-case form is known. */
  lemma IconOfLoweredMatch(table: seq<(string, Icon)>, category: string, lowered: string, i: nat)
    requires Lower(category) == lowered
    requires i < |table| && Contains(lowered, table[i].0)
    requires forall k | 0 <= k < i :: !Contains(lowered, table[k].0)
    ensures IconFrom(table, Some([category])) == Some(table[i].1)
  {
    IconOfFirstMatch(table, category, i);
  }

  lemma LowerGameShow()
    ensures Lower("Game Show") == "game show"
  {
    var r := Lower("Game Show");
    assert r[0] == 'g' && r[1] == 'a' && r[2] == 'm' && r[3] == 'e' && r[4] == ' ';
    assert r[5] == 's' && r[6] == 'h' && r[7] == 'o' && r[8] == 'w';
  }

  /** The table's first seven keywords do not occur in "game show", in
      either order of the table. */
  lemma EarlyKeywordsMissed()
    ensures forall k | 0 <= k < 7 :: !Contains("game show", CategoryIcons[k].0)
    ensures forall k | 0 <= k < 7 :: !Contains("game show", CategoryIconsFixed[k].0)
  {
    forall k | 0 <= k < 7 ensures !Contains("game show", CategoryIcons[k].0) && CategoryIconsFixed[k] == CategoryIcons[k] {
      GameShowMissesEarlyKeywords(k);
    }
  }

  /** The eighth entries of the two tables. */
  lemma EighthEntries()
    ensures 7 < |CategoryIcons| && CategoryIcons[7] == ("game", Gamepad2)
    ensures 7 < |CategoryIconsFixed| && CategoryIconsFixed[7] == ("game show", Users)
    ensures Contains("game show", "game") && Contains("game show", "game show")
  {
    assert OccursAt("game show", "game", 0);
    ContainsItself("game show");
  }

  /** A "Game Show" programme gets the game controller, not the audience
      icon the table lists for "game show": the shorter keyword "game" comes
      first and always matches. */
  lemma GameShowShadowed()
    ensures CategoryIcon(Some(["Game Show"])) == Some(Gamepad2)
  {
    LowerGameShow();
    EarlyKeywordsMissed();
    EighthEntries();
    IconOfLoweredMatch(CategoryIcons, "Game Show", "game show", 7);
  }

  /** With the longer keyword first, a "Game Show" programme gets the
      audience icon. */
  lemma GameShowFixed()
    ensures CategoryIconFixed(Some(["Game Show"])) == Some(Users)
  {
    LowerGameShow();
    EarlyKeywordsMissed();
    EighthEntries();
    IconOfLoweredMatch(CategoryIconsFixed, "Game Show", "game show", 7);
  }

  // ---------------------------------------------------------------------------
  // Programme status
  // ---------------------------------------------------------------------------

  datatype ProgramStatus = NowPlaying | Ended | Upcoming

  /** `getProgramStatus`: airing wins over past; neither means upcoming. */
  function GetProgramStatus(isCurrentlyAiring: bool, isPast: bool): (r: ProgramStatus)
    ensures r == NowPlaying <==> isCurrentlyAiring
    ensures r == Ended <==> !isCurrentlyAiring && isPast
    ensures r == Upcoming <==> !isCurrentlyAiring && !isPast
  {
    if isCurrentlyAiring then NowPlaying else if isPast then Ended else Upcoming
  }

  /** `a <= b` and `a < b` on times, false when either did not parse. */
  predicate AtOrAfter(now: int, t: Option<int>) { t.Some? && now >= t.value }
  predicate Before(now: int, t: Option<int>) { t.Some? && now < t.value }

  datatype StatusDetails = StatusDetails(hasEnded: bool, isLive: bool, isUpNext: bool, status: ProgramStatus)

  /** `getProgramStatusWithDetails`, with the parsed start and end times. */
  function StatusWithDetails(start: Option<int>, end: Option<int>, now: int): (r: StatusDetails)
    ensures r.isLive <==> start.Some? && end.Some? && start.value <= now < end.value
    ensures r.hasEnded <==> end.Some? && now >= end.value
    ensures r.isUpNext <==> start.Some? && now < start.value
    ensures r.status == GetProgramStatus(r.isLive, r.hasEnded)
  {
    var isLive := AtOrAfter(now, start) && Before(now, end);
    var hasEnded := AtOrAfter(now, end);
    var isUpNext := Before(now, start);
    StatusDetails(hasEnded, isLive, isUpNext, GetProgramStatus(isLive, hasEnded))
  }

  /** For a programme whose times parsed and that does not end before it
      starts, exactly one of live, ended and up next holds, and the status
      names it. */
  lemma ExactlyOneStatus(start: int, end: int, now: int)
    requires start <= end
    ensures var r := StatusWithDetails(Some(start), Some(end), now);
      && (r.isLive || r.hasEnded || r.isUpNext)
      && !(r.isLive && r.hasEnded) && !(r.isLive && r.isUpNext) && !(r.hasEnded && r.isUpNext)
      && (r.status == NowPlaying <==> r.isLive)
      && (r.status == Ended <==> r.hasEnded)
      && (r.status == Upcoming <==> r.isUpNext)
  {
  }

  /** A programme whose times did not parse is upcoming and nothing else. */
  lemma UnparsedIsUpcoming(now: int)
    ensures StatusWithDetails(None, None, now) == StatusDetails(false, false, false, Upcoming)
  {
  }

  /** JavaScript's `Math.round(n / d)` for `d > 0`: the nearest integer,
      halves rounded up. */
  function RoundDiv(n: int, d: int): (r: int)
    requires d > 0
    ensures 2 * n - d < 2 * d * r <= 2 * n + d
    ensures 0 <= n <= 100 * d ==> 0 <= r <= 100
  {
    var q, m := (2 * n + d) / (2 * d), (2 * n + d) % (2 * d);
    assert 2 * n + d == 2 * d * q + m && 0 <= m < 2 * d;
    assert 0 <= n <= 100 * d ==> 0 <= q <= 100 by {
      if 0 <= n <= 100 * d {
        assert 2 * d * q <= 2 * n + d < 2 * d * 101;
        MulMonotone(2 * d, q, 101);
        MulMonotone(2 * d, -1, q);
      }
    }
    q
  }

  /** Multiplying by a positive factor keeps a strict order, read backwards. */
  lemma MulMonotone(k: int, a: int, b: int)
    requires k > 0 && k * a < k * b
    ensures a < b
  {
    assert k * b - k * a == k * (b - a);
  }

  /** `calculateProgress`, with the current time as a parameter: 0 before
      the start, 100 from the end on, and otherwise the elapsed share of the
      duration in whole percent. */
  function Progress(start: int, end: int, now: int): (r: int)
    ensures 0 <= r <= 100
    ensures now < start ==> r == 0
    ensures start <= now && now >= end ==> r == 100
    ensures start <= now < end ==>
      2 * 100 * (now - start) - (end - start) < 2 * (end - start) * r <= 2 * 100 * (now - start) + (end - start)
  {
    if now < start then 0
    else if now >= end then 100
    else RoundDiv(100 * (now - start), end - start)
  }

  // ---------------------------------------------------------------------------
  // Density and cell styling
  // ---------------------------------------------------------------------------

  /** `getDensityPadding`. */
  function DensityPadding(density: string): (r: string)
    ensures density == "compact" ==> r == "p-1"
    ensures density == "detailed" ==> r == "p-3"
    ensures density != "compact" && density != "detailed" ==> r == "p-2"
  {
    if density == "compact" then "p-1" else if density == "detailed" then "p-3" else "p-2"
  }

  /** `getGridCellBorderStyle`: the bottom-right corner is rounded, the rest
      of the last day's column has a bottom border only, every other cell a
      right and a bottom border. */
  function GridCellBorderStyle(dayIndex: int, visibleDays: int, slotIndex: int, timeSlotsLength: int): (r: string)
    ensures r == "rounded-br-md" <==> dayIndex == visibleDays - 1 && slotIndex == timeSlotsLength - 1
    ensures r == "border-b" <==> dayIndex == visibleDays - 1 && slotIndex != timeSlotsLength - 1
    ensures r == "border-r border-b" <==> dayIndex != visibleDays - 1
  {
    if dayIndex == visibleDays - 1 then
      if slotIndex == timeSlotsLength - 1 then "rounded-br-md" else "border-b"
    else "border-r border-b"
  }

  /** `getZIndex`: 100 for a cell in focus, 2 for the one airing, 1 for the
      rest. */
  function ZIndex(isHovered: bool, isSelected: bool, showMobileTooltip: bool, isPast: bool, isCurrentlyAiring: bool): (r: int)
    ensures r == 100 <==> isHovered || isSelected || showMobileTooltip
    ensures r == 2 <==> !(isHovered || isSelected || showMobileTooltip) && !isPast && isCurrentlyAiring
    ensures r == 1 <==> !(isHovered || isSelected || showMobileTooltip) && (isPast || !isCurrentlyAiring)
  {
    if isHovered || isSelected || showMobileTooltip then 100
    else if isPast then 1
    else if isCurrentlyAiring then 2
    else 1
  }

  /** A programme's flags and categories, as far as the indicators read them. */
  datatype IndicatorInput = IndicatorInput(premiere: bool, isNew: bool, categories: Option<seq<string>>)

  /** Some category contains `word` once lower-cased. */
  predicate CategoryMentions(categories: Option<seq<string>>, word: string) {
    categories.Some? && exists i | 0 <= i < |categories.value| :: Contains(Lower(categories.value[i]), word)
  }

  /** `getProgramIndicators`: a premiere when flagged or when a category
      mentions "premiere", new when flagged or when a category mentions
      "new". */
  function ProgramIndicators(p: IndicatorInput): (r: (bool, bool))
    ensures r.0 <==> p.isNew || CategoryMentions(p.categories, "new")
    ensures r.1 <==> p.premiere || CategoryMentions(p.categories, "premiere")
  {
    (p.isNew || CategoryMentions(p.categories, "new"), p.premiere || CategoryMentions(p.categories, "premiere"))
  }

  // ---------------------------------------------------------------------------
  // Channels and their order
  // ---------------------------------------------------------------------------

  datatype Names = Names(clean: string, real_name: string, location: string)

  /** A guide channel: its id, its logical channel number and its names. */
  datatype EpgChannel = EpgChannel(id: string, lcn: string, name: Names)

  datatype NameKind = Clean | Real | Location

  /** `hasValidLCN`: an LCN that is neither empty nor "N/A". */
  predicate HasValidLcn(c: EpgChannel) {
    c.lcn != "" && c.lcn != "N/A"
  }

  /** `getChannelName`: the chosen name, or the clean one when that is empty. */
  function ChannelName(c: EpgChannel, kind: NameKind): (r: string)
    ensures r == c.name.clean || (r != "" && (r == c.name.real_name || r == c.name.location))
  {
    var chosen := match kind
      case Clean => c.name.clean
      case Real => c.name.real_name
      case Location => c.name.location;
    if chosen != "" then chosen else c.name.clean
  }

  /** `/^\d+$/`. */
  predicate IsNumeric(s: string) { s != "" && AllDigits(s) }

  /** The key a comparator orders by: a rank, then a number, then a text. */
  datatype OrderKey = OrderKey(rank: nat, number: int, text: string)

  predicate OrderKeyLe(x: OrderKey, y: OrderKey) {
    || x.rank < y.rank
    || (x.rank == y.rank && x.number < y.number)
    || (x.rank == y.rank && x.number == y.number && LexLe(x.text, y.text))
  }

  lemma OrderKeyTotal(x: OrderKey, y: OrderKey)
    ensures OrderKeyLe(x, y) || OrderKeyLe(y, x)
  {
    LexLeTotal(x.text, y.text);
  }

  lemma OrderKeyTransitive(x: OrderKey, y: OrderKey, z: OrderKey)
    requires OrderKeyLe(x, y) && OrderKeyLe(y, z)
    ensures OrderKeyLe(x, z)
  {
    if x.rank == y.rank == z.rank && x.number == y.number == z.number {
      LexLeTransitive(x.text, y.text, z.text);
    }
  }

  /** A comparator that agrees with a key order is consistent. */
  lemma KeyedOrder(le: (EpgChannel, EpgChannel) -> bool, key: EpgChannel -> OrderKey)
    requires forall a, b :: le(a, b) == OrderKeyLe(key(a), key(b))
    ensures TotalPreorder(le)
  {
    forall a: EpgChannel, b: EpgChannel ensures le(a, b) || le(b, a) {
      OrderKeyTotal(key(a), key(b));
    }
    forall a: EpgChannel, b: EpgChannel, c: EpgChannel | le(a, b) && le(b, c)
      ensures le(a, c)
    {
      OrderKeyTransitive(key(a), key(b), key(c));
    }
  }

  /** What `sortChannelsByNumber` orders by: numeric LCNs by value, then
      other valid LCNs by text, then channels without an LCN by name. */
  function ByNumberKey(c: EpgChannel, kind: NameKind): OrderKey {
    if HasValidLcn(c) && IsNumeric(c.lcn) then OrderKey(0, DigitsValue(c.lcn), "")
    else if HasValidLcn(c) then OrderKey(1, 0, c.lcn)
    else OrderKey(2, 0, ChannelName(c, kind))
  }

  /** `sortChannelsByNumber`; `Number.parseInt` of an all-digit text is its
      value. */
  function CompareByNumber(a: EpgChannel, b: EpgChannel, kind: NameKind): (r: int)
    ensures r <= 0 <==> OrderKeyLe(ByNumberKey(a, kind), ByNumberKey(b, kind))
  {
    var aHas, bHas := HasValidLcn(a), HasValidLcn(b);
    if aHas && bHas then
      var aNumeric, bNumeric := IsNumeric(a.lcn), IsNumeric(b.lcn);
      if aNumeric && bNumeric then DigitsValue(a.lcn) as int - DigitsValue(b.lcn) as int
      else if aNumeric then -1
      else if bNumeric then 1
      else LocaleCompare(a.lcn, b.lcn)
    else if aHas then -1
    else if bHas then 1
    else LocaleCompare(ChannelName(a, kind), ChannelName(b, kind))
  }

  /** Channels with a valid LCN come before those without; among them the
      numeric ones come first, ordered by value. */
  lemma ByNumberPriorities(a: EpgChannel, b: EpgChannel, kind: NameKind)
    ensures HasValidLcn(a) && !HasValidLcn(b) ==> CompareByNumber(a, b, kind) < 0
    ensures HasValidLcn(a) && HasValidLcn(b) && IsNumeric(a.lcn) && !IsNumeric(b.lcn) ==> CompareByNumber(a, b, kind) < 0
    ensures HasValidLcn(a) && HasValidLcn(b) && IsNumeric(a.lcn) && IsNumeric(b.lcn) ==>
      CompareByNumber(a, b, kind) == DigitsValue(a.lcn) - DigitsValue(b.lcn)
    ensures !HasValidLcn(a) && !HasValidLcn(b) ==>
      (CompareByNumber(a, b, kind) <= 0 <==> LexLe(ChannelName(a, kind), ChannelName(b, kind)))
  {
  }

  predicate ByNumberLe(kind: NameKind, a: EpgChannel, b: EpgChannel) {
    CompareByNumber(a, b, kind) <= 0
  }

  /** `sortChannelsByNumber` is a consistent comparator for every name kind. */
  lemma ByNumberOrder(kind: NameKind)
    ensures TotalPreorder((a: EpgChannel, b: EpgChannel) => ByNumberLe(kind, a, b))
  {
    KeyedOrder((a: EpgChannel, b: EpgChannel) => ByNumberLe(kind, a, b), (c: EpgChannel) => ByNumberKey(c, kind));
  }

  /** `Number.parseInt(lcn, 10) || 0`: NaN becomes 0. */
  function LcnNumber(c: EpgChannel): int {
    match JsParseInt(c.lcn)
    case Some(n) => n
    case None => 0
  }

  /** `sortChannelsWithinNetwork` as written: by number when both channels
      have a valid LCN, by name otherwise. */
  function CompareWithinNetwork(a: EpgChannel, b: EpgChannel, kind: NameKind): (r: int)
    ensures HasValidLcn(a) && HasValidLcn(b) ==> r == LcnNumber(a) - LcnNumber(b)
    ensures !(HasValidLcn(a) && HasValidLcn(b)) ==> (r <= 0 <==> LexLe(ChannelName(a, kind), ChannelName(b, kind)))
  {
    if HasValidLcn(a) && HasValidLcn(b) then LcnNumber(a) - LcnNumber(b)
    else LocaleCompare(ChannelName(a, kind), ChannelName(b, kind))
  }

  const ChannelOne := EpgChannel("one", "1", Names("z", "z", "z"))
  const ChannelNone := EpgChannel("none", "", Names("m", "m", "m"))
  const ChannelTwo := EpgChannel("two", "2", Names("a", "a", "a"))

  /** The comparator as written is not an order: LCN 1 sorts before LCN 2,
      LCN 2 (named "a") before the channel without an LCN (named "m"), and
      that one before LCN 1 (named "z"). */
  lemma WithinNetworkCycle()
    ensures CompareWithinNetwork(ChannelOne, ChannelTwo, Clean) < 0
    ensures CompareWithinNetwork(ChannelTwo, ChannelNone, Clean) < 0
    ensures CompareWithinNetwork(ChannelNone, ChannelOne, Clean) < 0
  {
    SmallLcns();
    assert LexLe("a", "m") && !LexLe("m", "a");
    assert LexLe("m", "z") && !LexLe("z", "m");
  }

  lemma SmallLcns()
    ensures LcnNumber(ChannelOne) == 1 && LcnNumber(ChannelTwo) == 2
  {
    assert AllDigits("1") && AllDigits("2");
    assert DigitsValue("1") == 1 by { assert "1"[..0] == ""; }
    assert DigitsValue("2") == 2 by { assert "2"[..0] == ""; }
  }

  /** What the corrected comparator orders by: channels with a valid LCN
      first, by number, then the others by name. */
  function WithinNetworkKey(c: EpgChannel, kind: NameKind): OrderKey {
    if HasValidLcn(c) then OrderKey(0, LcnNumber(c), "") else OrderKey(1, 0, ChannelName(c, kind))
  }

  /** `sortChannelsWithinNetwork` with the mixed case decided the way
      `sortChannelsByNumber` decides it: the channel with the LCN first. */
  function CompareWithinNetworkFixed(a: EpgChannel, b: EpgChannel, kind: NameKind): (r: int)
    ensures r <= 0 <==> OrderKeyLe(WithinNetworkKey(a, kind), WithinNetworkKey(b, kind))
    ensures HasValidLcn(a) && HasValidLcn(b) ==> r == LcnNumber(a) - LcnNumber(b)
    ensures !HasValidLcn(a) && !HasValidLcn(b) ==> r == CompareWithinNetwork(a, b, kind)
  {
    if HasValidLcn(a) && HasValidLcn(b) then LcnNumber(a) - LcnNumber(b)
    else if HasValidLcn(a) then -1
    else if HasValidLcn(b) then 1
    else LocaleCompare(ChannelName(a, kind), ChannelName(b, kind))
  }

  predicate WithinNetworkLe(kind: NameKind, a: EpgChannel, b: EpgChannel) {
    CompareWithinNetworkFixed(a, b, kind) <= 0
  }

  /** The corrected comparator is consistent. */
  lemma WithinNetworkOrder(kind: NameKind)
    ensures TotalPreorder((a: EpgChannel, b: EpgChannel) => WithinNetworkLe(kind, a, b))
  {
    KeyedOrder((a: EpgChannel, b: EpgChannel) => WithinNetworkLe(kind, a, b), (c: EpgChannel) => WithinNetworkKey(c, kind));
  }

  /** `channelNetworkMap[channel.id] || ""`. */
  function NetworkOf(networks: map<string, string>, c: EpgChannel): string {
    if c.id in networks then networks[c.id] else ""
  }

  /** `sortChannelsByNetwork`: by network name, and by channel name between
      channels of the same network. */
  function CompareByNetwork(a: EpgChannel, b: EpgChannel, networks: map<string, string>, kind: NameKind): int {
    var na, nb := NetworkOf(networks, a), NetworkOf(networks, b);
    if na == nb then LocaleCompare(ChannelName(a, kind), ChannelName(b, kind))
    else LocaleCompare(na, nb)
  }

  /** The network comparator orders channels by network first and by name
      within a network, and it is consistent. */
  lemma ByNetworkOrder(networks: map<string, string>, kind: NameKind)
    ensures forall a, b :: CompareByNetwork(a, b, networks, kind) <= 0 <==>
      || (NetworkOf(networks, a) != NetworkOf(networks, b) && LexLe(NetworkOf(networks, a), NetworkOf(networks, b)))
      || (NetworkOf(networks, a) == NetworkOf(networks, b) && LexLe(ChannelName(a, kind), ChannelName(b, kind)))
    ensures TotalPreorder((a: EpgChannel, b: EpgChannel) => CompareByNetwork(a, b, networks, kind) <= 0)
  {
    var le := (a: EpgChannel, b: EpgChannel) => CompareByNetwork(a, b, networks, kind) <= 0;
    forall a: EpgChannel, b: EpgChannel ensures le(a, b) || le(b, a) {
      LexLeTotal(NetworkOf(networks, a), NetworkOf(networks, b));
      LexLeTotal(ChannelName(a, kind), ChannelName(b, kind));
    }
    forall a: EpgChannel, b: EpgChannel, c: EpgChannel | le(a, b) && le(b, c)
      ensures le(a, c)
    {
      var na, nb, nc := NetworkOf(networks, a), NetworkOf(networks, b), NetworkOf(networks, c);
      if na == nb && nb == nc {
        LexLeTransitive(ChannelName(a, kind), ChannelName(b, kind), ChannelName(c, kind));
      } else {
        LexLeReflexive(na);
        LexLeReflexive(nb);
        LexLeTransitive(na, nb, nc);
        if na == nc {
          LexLeAntisymmetric(na, nb);
        }
      }
    }
  }
}
