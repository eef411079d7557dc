/** The channel-map view: every network's channel numbers against the
    states they are carried in, the filters over it and the counts shown
    beside each filter option. The per-state channel lists are the entries
    of a JavaScript object, so they come as an association list whose keys
    are the state codes. */
module ChannelMap {
  import opened Wrappers
  import opened Text
  import opened Seqs
  import opened Collate

  // ---------------------------------------------------------------------------
  // Data
  // ---------------------------------------------------------------------------

  /** `real` is a Dafny keyword, so that field is `real_name` here. */
  datatype ChannelNames = ChannelNames(clean: string, real_name: string)

  datatype ChannelOther = ChannelOther(channel_type: string, channel_specs: string)

  /** One channel of one state; `other_data` may be absent. */
  datatype ChannelData = ChannelData(
    channel_name: string,
    channel_number: string,
    channel_group: string,
    channel_names: ChannelNames,
    other_data: Option<ChannelOther>)

  /** State code, then that state's channels. */
  type StateLists = seq<(string, seq<ChannelData>)>

  /** Network, then channel number, then state code. */
  type Grid = map<string, map<string, map<string, ChannelData>>>

  // ---------------------------------------------------------------------------
  // State exclusions
  // ---------------------------------------------------------------------------

  /** `shouldExcludeChannelFromState`: West Digital Television is shown only
      in WA, and a Southern Cross network naming WA, NT or QLD only in that
      state; no other network is ever excluded. */
  function ShouldExclude(network: string, state: string): (r: bool)
    ensures !r && Contains(network, "West Digital Television") ==> state == "WA"
    ensures !r && Contains(network, "Southern Cross") && Contains(network, "WA") ==> state == "WA"
    ensures !r && Contains(network, "Southern Cross") && Contains(network, "NT") ==> state == "NT"
    ensures !r && Contains(network, "Southern Cross") && Contains(network, "QLD") ==> state == "QLD"
    ensures r ==> Contains(network, "West Digital Television") || Contains(network, "Southern Cross")
  {
    if Contains(network, "West Digital Television") && state != "WA" then true
    else if Contains(network, "Southern Cross") then
      if Contains(network, "WA") && state != "WA" then true
      else if Contains(network, "NT") && state != "NT" then true
      else Contains(network, "QLD") && state != "QLD"
    else false
  }

  // ---------------------------------------------------------------------------
  // Channel numbers per network (`collectChannelNumbers`)
  // ---------------------------------------------------------------------------

  /** A channel without a group is listed under "Other". */
  function NetworkName(c: ChannelData): string {
    if c.channel_group == "" then "Other" else c.channel_group
  }

  /** One channel's contribution: its network gets a set, and its number
      joins it unless the number is empty. */
  function AddNumber(networks: map<string, set<string>>, c: ChannelData): map<string, set<string>> {
    var n := NetworkName(c);
    var m := if n in networks then networks else networks[n := {}];
    if c.channel_number != "" then m[n := m[n] + {c.channel_number}] else m
  }

  /** The numbers listed under `n`, none when `n` is not listed. */
  function NumbersUnder(networks: map<string, set<string>>, n: string): set<string> {
    if n in networks then networks[n] else {}
  }

  function Collected(cs: seq<ChannelData>): map<string, set<string>> {
    if cs == [] then map[] else AddNumber(Collected(cs[..|cs| - 1]), cs[|cs| - 1])
  }

  lemma {:induction false} CollectedKey(cs: seq<ChannelData>, n: string)
    ensures n in Collected(cs) <==> exists i | 0 <= i < |cs| :: NetworkName(cs[i]) == n
  {
    if cs != [] {
      var init := cs[..|cs| - 1];
      CollectedKey(init, n);
      assert forall i | 0 <= i < |init| :: init[i] == cs[i];
    }
  }

  lemma {:induction false} CollectedNumber(cs: seq<ChannelData>, n: string, x: string)
    ensures x in NumbersUnder(Collected(cs), n) <==>
      x != "" && exists i | 0 <= i < |cs| :: NetworkName(cs[i]) == n && cs[i].channel_number == x
  {
    if cs != [] {
      var init := cs[..|cs| - 1];
      CollectedNumber(init, n, x);
      assert forall i | 0 <= i < |init| :: init[i] == cs[i];
      assert NumbersUnder(Collected(cs), n) == NumbersUnder(Collected(init), n) +
        (if n == NetworkName(cs[|cs| - 1]) && cs[|cs| - 1].channel_number != "" then {cs[|cs| - 1].channel_number} else {});
    }
  }

  /** There is a network for every channel's network name, and it holds
      exactly the non-empty numbers of the channels under that name. */
  lemma CollectedNetworks(cs: seq<ChannelData>)
    ensures forall n :: n in Collected(cs) <==> exists i | 0 <= i < |cs| :: NetworkName(cs[i]) == n
    ensures forall n, x | n in Collected(cs) ::
      x in Collected(cs)[n] <==> x != "" && exists i | 0 <= i < |cs| :: NetworkName(cs[i]) == n && cs[i].channel_number == x
  {
    forall n ensures n in Collected(cs) <==> exists i | 0 <= i < |cs| :: NetworkName(cs[i]) == n {
      CollectedKey(cs, n);
    }
    forall n, x | n in Collected(cs)
      ensures x in Collected(cs)[n] <==> x != "" && exists i | 0 <= i < |cs| :: NetworkName(cs[i]) == n && cs[i].channel_number == x
    {
      CollectedNumber(cs, n, x);
    }
  }

  lemma CollectedSnoc(cs: seq<ChannelData>, c: ChannelData)
    ensures Collected(cs + [c]) == AddNumber(Collected(cs), c)
  {
    assert (cs + [c])[..|cs|] == cs;
  }

  method CollectChannelNumbers(entries: StateLists) returns (networks: map<string, set<string>>)
    ensures networks == Collected(Flatten(entries))
  {
    networks := map[];
    for i := 0 to |entries|
      invariant networks == Collected(Flatten(entries[..i]))
    {
      var channels := entries[i].1;
      assert Flatten(entries[..i]) + channels[..0] == Flatten(entries[..i]);
      for j := 0 to |channels|
        invariant networks == Collected(Flatten(entries[..i]) + channels[..j])
      {
        var c := channels[j];
        var n := NetworkName(c);
        ghost var before := networks;
        if n !in networks {
          networks := networks[n := {}];
        }
        if c.channel_number != "" {
          networks := networks[n := networks[n] + {c.channel_number}];
        }
        assert networks == AddNumber(before, c);
        FlattenStep(entries, i, j);
        CollectedSnoc(Flatten(entries[..i]) + channels[..j], c);
      }
      FlattenNext(entries, i);
    }
    assert entries[..|entries|] == entries;
  }

  // ---------------------------------------------------------------------------
  // The grid (`getChannelMap`)
  // ---------------------------------------------------------------------------

  function Matches(number: string, network: string): ChannelData -> bool {
    (c: ChannelData) => c.channel_number == number && c.channel_group == network
  }

  /** The states showing `number` of `network`: each state not excluded that
      has a channel with that number and group, mapped to the first one. */
  function CellOf(entries: StateLists, network: string, number: string): map<string, ChannelData> {
    if entries == [] then map[]
    else
      var cell := CellOf(entries[..|entries| - 1], network, number);
      var (state, channels) := entries[|entries| - 1];
      var matching := Select(channels, Matches(number, network), true);
      if !ShouldExclude(network, state) && |matching| > 0 then cell[state := matching[0]] else cell
  }

  /** A network's row: a cell per number. */
  function RowOf(entries: StateLists, network: string, numbers: set<string>): map<string, map<string, ChannelData>> {
    map number | number in numbers :: CellOf(entries, network, number)
  }

  function GridOf(entries: StateLists): Grid {
    var networks := Collected(Flatten(entries));
    map n | n in networks :: RowOf(entries, n, networks[n])
  }

  /** A cell lists a state exactly when the state is not excluded for the
      network and has a channel with the number and group, and then shows the
      first such channel. */
  lemma {:induction false} CellOfState(entries: StateLists, network: string, number: string, state: string)
    requires DistinctKeys(entries, First)
    ensures state in CellOf(entries, network, number) <==>
      && !ShouldExclude(network, state)
      && Lookup(entries, state).Some?
      && |Select(Lookup(entries, state).value, Matches(number, network), true)| > 0
    ensures state in CellOf(entries, network, number) ==>
      CellOf(entries, network, number)[state] == Select(Lookup(entries, state).value, Matches(number, network), true)[0]
  {
    if entries != [] {
      var init, last := entries[..|entries| - 1], entries[|entries| - 1];
      assert init + [last] == entries;
      assert DistinctKeys(init, First);
      CellOfState(init, network, number, state);
      LookupSnoc(init, last, state);
      if state == last.0 {
        LookupNone(init, state);
        assert forall i | 0 <= i < |init| :: First(entries[i]) != First(entries[|entries| - 1]);
      }
    }
  }

  lemma CellOfStates(entries: StateLists, network: string, number: string)
    requires DistinctKeys(entries, First)
    ensures forall state :: state in CellOf(entries, network, number) <==>
      && !ShouldExclude(network, state)
      && Lookup(entries, state).Some?
      && |Select(Lookup(entries, state).value, Matches(number, network), true)| > 0
    ensures forall state | state in CellOf(entries, network, number) ::
      CellOf(entries, network, number)[state] == Select(Lookup(entries, state).value, Matches(number, network), true)[0]
  {
    forall state {
      CellOfState(entries, network, number, state);
    }
  }

  method StateCells(entries: StateLists, network: string, number: string) returns (cell: map<string, ChannelData>)
    ensures cell == CellOf(entries, network, number)
  {
    cell := map[];
    for i := 0 to |entries|
      invariant cell == CellOf(entries[..i], network, number)
    {
      var (state, channels) := entries[i];
      assert entries[..i + 1][..i] == entries[..i];
      if !ShouldExclude(network, state) {
        var matching := Select(channels, Matches(number, network), true);
        if |matching| > 0 {
          cell := cell[state := matching[0]];
        }
      }
    }
    assert entries[..|entries|] == entries;
  }

  method NetworkRow(entries: StateLists, network: string, numbers: set<string>) returns (row: map<string, map<string, ChannelData>>)
    ensures row == RowOf(entries, network, numbers)
  {
    row := map[];
    var todo := numbers;
    while todo != {}
      invariant todo <= numbers && row.Keys == numbers - todo
      invariant forall number | number in row :: row[number] == CellOf(entries, network, number)
      decreases |todo|
    {
      var number :| number in todo;
      var cell := StateCells(entries, network, number);
      row := row[number := cell];
      todo := todo - {number};
    }
  }

  lemma GridFromRows(entries: StateLists, networks: map<string, set<string>>, grid: Grid)
    requires networks == Collected(Flatten(entries))
    requires grid.Keys == networks.Keys
    requires forall n | n in grid :: grid[n] == RowOf(entries, n, networks[n])
    ensures grid == GridOf(entries)
  {
  }

  /** The rows of the given networks. */
  method Rows(entries: StateLists, networks: map<string, set<string>>) returns (grid: Grid)
    ensures grid.Keys == networks.Keys
    ensures forall n | n in grid :: grid[n] == RowOf(entries, n, networks[n])
  {
    grid := map[];
    var todo := networks.Keys;
    while todo != {}
      invariant todo <= networks.Keys && grid.Keys == networks.Keys - todo
      invariant forall n | n in grid :: grid[n] == RowOf(entries, n, networks[n])
      decreases |todo|
    {
      var n :| n in todo;
      var row := NetworkRow(entries, n, networks[n]);
      grid := grid[n := row];
      todo := todo - {n};
    }
  }

  /** `getChannelMap`. */
  method GetChannelMap(entries: StateLists) returns (grid: Grid)
    ensures grid == GridOf(entries)
  {
    var networks := CollectChannelNumbers(entries);
    grid := Rows(entries, networks);
    GridFromRows(entries, networks, grid);
  }

  /** The grid has a row per network name of some channel, and a column
      per non-empty number in that network. */
  lemma GridNetworks(entries: StateLists)
    ensures forall n :: n in GridOf(entries) <==> exists i | 0 <= i < |Flatten(entries)| :: NetworkName(Flatten(entries)[i]) == n
    ensures forall n, number | n in GridOf(entries) :: number in GridOf(entries)[n] <==>
      number != "" && exists i | 0 <= i < |Flatten(entries)| ::
        NetworkName(Flatten(entries)[i]) == n && Flatten(entries)[i].channel_number == number
  {
    var cs := Flatten(entries);
    var networks := Collected(cs);
    CollectedNetworks(cs);
    assert GridOf(entries).Keys == networks.Keys;
    forall n ensures n in GridOf(entries) <==> exists i | 0 <= i < |Flatten(entries)| :: NetworkName(Flatten(entries)[i]) == n {
      CollectedKey(cs, n);
      assert n in GridOf(entries) <==> n in networks;
    }
    forall n | n in GridOf(entries) ensures GridOf(entries)[n].Keys == networks[n] {
    }
  }

  /** Each cell holds exactly the states where the number is carried by a
      channel of that group and the network is not excluded, each showing
      that state's first such channel. */
  lemma GridStates(entries: StateLists)
    requires DistinctKeys(entries, First)
    ensures forall n, number, state | n in GridOf(entries) && number in GridOf(entries)[n] ::
      state in GridOf(entries)[n][number] <==>
        && !ShouldExclude(n, state)
        && Lookup(entries, state).Some?
        && |Select(Lookup(entries, state).value, Matches(number, n), true)| > 0
    ensures forall n, number, state | n in GridOf(entries) && number in GridOf(entries)[n] && state in GridOf(entries)[n][number] ::
      GridOf(entries)[n][number][state] == Select(Lookup(entries, state).value, Matches(number, n), true)[0]
  {
    forall n, number | n in GridOf(entries) && number in GridOf(entries)[n]
      ensures GridOf(entries)[n][number] == CellOf(entries, n, number)
    {
    }
    forall n, number {
      CellOfStates(entries, n, number);
    }
  }

  /** Every channel a cell shows has the cell's number and the row's network
      as its group. */
  lemma {:induction false} CellOfChannels(entries: StateLists, network: string, number: string)
    ensures forall state | state in CellOf(entries, network, number) ::
      CellOf(entries, network, number)[state].channel_group == network &&
      CellOf(entries, network, number)[state].channel_number == number
  {
    if entries != [] {
      CellOfChannels(entries[..|entries| - 1], network, number);
      var matching := Select(entries[|entries| - 1].1, Matches(number, network), true);
      SelectMembers(entries[|entries| - 1].1, Matches(number, network), true);
      if |matching| > 0 {
        assert matching[0] in matching;
      }
    }
  }

  /** A channel without a group puts its number in the "Other" row but is
      never shown there: every channel the grid shows has the row's network
      as its group, and no row is named with the empty string. */
  lemma GridChannels(entries: StateLists)
    ensures "" !in GridOf(entries)
    ensures forall n, number, state | n in GridOf(entries) && number in GridOf(entries)[n] && state in GridOf(entries)[n][number] ::
      GridOf(entries)[n][number][state].channel_group == n &&
      GridOf(entries)[n][number][state].channel_number == number
  {
    GridNetworks(entries);
    forall n, number | n in GridOf(entries) && number in GridOf(entries)[n]
      ensures GridOf(entries)[n][number] == CellOf(entries, n, number)
    {
    }
    forall n, number {
      CellOfChannels(entries, n, number);
    }
  }

  // ---------------------------------------------------------------------------
  // Filters (`channelMatchesFilters`, `getFilteredChannelMap`)
  // ---------------------------------------------------------------------------

  datatype Filters = Filters(
    globalFilter: string,
    selectedNetworks: seq<string>,
    selectedChannelTypes: seq<string>,
    selectedChannelSpecs: seq<string>)

  /** `channel.other_data?.channel_type || ""`. */
  function TypeOf(c: ChannelData): string {
    if c.other_data.Some? then c.other_data.value.channel_type else ""
  }

  /** `channel.other_data?.channel_specs || ""`. */
  function SpecsOf(c: ChannelData): string {
    if c.other_data.Some? then c.other_data.value.channel_specs else ""
  }

  /** The texts the search term is looked for in. */
  function SearchFields(c: ChannelData): seq<string> {
    [c.channel_name, c.channel_names.real_name, c.channel_number, c.channel_group, TypeOf(c), SpecsOf(c)]
  }

  /** `channelMatchesFilters`: a channel passes when its group is among the
      selected networks, its (non-empty) type and specs are among the
      selected ones, and the lower-cased search term occurs in one of its
      lower-cased texts; an empty selection or search term lets everything
      through. */
  function MatchesFilters(c: ChannelData, f: Filters): bool {
    if |f.selectedNetworks| > 0 && c.channel_group !in f.selectedNetworks then false
    else if |f.selectedChannelTypes| > 0 && !(TypeOf(c) != "" && TypeOf(c) in f.selectedChannelTypes) then false
    else if |f.selectedChannelSpecs| > 0 && !(SpecsOf(c) != "" && SpecsOf(c) in f.selectedChannelSpecs) then false
    else if f.globalFilter != "" then
      var term := Lower(f.globalFilter);
      || Contains(Lower(c.channel_name), term)
      || Contains(Lower(c.channel_names.real_name), term)
      || Contains(Lower(c.channel_number), term)
      || Contains(Lower(c.channel_group), term)
      || Contains(Lower(TypeOf(c)), term)
      || Contains(Lower(SpecsOf(c)), term)
    else true
  }


  /** What `channelMatchesFilters` decides. */
  lemma MatchesFiltersMeans(c: ChannelData, f: Filters)
    ensures MatchesFilters(c, f) <==>
      && (|f.selectedNetworks| == 0 || c.channel_group in f.selectedNetworks)
      && (|f.selectedChannelTypes| == 0 || (TypeOf(c) != "" && TypeOf(c) in f.selectedChannelTypes))
      && (|f.selectedChannelSpecs| == 0 || (SpecsOf(c) != "" && SpecsOf(c) in f.selectedChannelSpecs))
      && (f.globalFilter == "" ||
          exists i | 0 <= i < |SearchFields(c)| :: Contains(Lower(SearchFields(c)[i]), Lower(f.globalFilter)))
  {
    assert SearchFields(c)[0] == c.channel_name && SearchFields(c)[1] == c.channel_names.real_name;
    assert SearchFields(c)[2] == c.channel_number && SearchFields(c)[3] == c.channel_group;
    assert SearchFields(c)[4] == TypeOf(c) && SearchFields(c)[5] == SpecsOf(c);
  }

  /** The search ignores case: two terms that lower-case alike select the
      same channels. */
  lemma SearchIgnoresCase(c: ChannelData, f: Filters, term: string)
    requires Lower(term) == Lower(f.globalFilter)
    ensures MatchesFilters(c, f.(globalFilter := term)) == MatchesFilters(c, f)
  {
    assert |term| == |f.globalFilter|;
  }

  predicate NoFilters(f: Filters) {
    f.globalFilter == "" && |f.selectedNetworks| == 0 && |f.selectedChannelTypes| == 0 && |f.selectedChannelSpecs| == 0
  }

  /** With no filter set every channel passes. */
  lemma NoFiltersMatchAll(c: ChannelData, f: Filters)
    requires NoFilters(f)
    ensures MatchesFilters(c, f)
  {
  }

  /** Some state of the cell shows a channel that passes. */
  predicate AnyMatches(cell: map<string, ChannelData>, f: Filters) {
    exists state | state in cell :: MatchesFilters(cell[state], f)
  }

  /** The numbers of a row with a passing channel in some state. */
  function PassingNumbers(row: map<string, map<string, ChannelData>>, f: Filters): set<string> {
    KeysWhere(row, CellPasses(f))
  }

  predicate NetworkSelected(f: Filters, network: string) {
    |f.selectedNetworks| == 0 || network in f.selectedNetworks
  }

  /** `anyStateMatches` as a test on a cell. */
  function CellPasses(f: Filters): map<string, ChannelData> -> bool {
    (cell: map<string, ChannelData>) => AnyMatches(cell, f)
  }

  function SelectsNetwork(f: Filters): string -> bool {
    (network: string) => NetworkSelected(f, network)
  }

  /** `getFilteredChannelMap` as a value: the whole grid when no filter is
      set, otherwise the selected networks, each cut down to the numbers
      with a passing channel in some state, without the networks left
      empty. */
  function FilteredGrid(grid: Grid, f: Filters): Grid {
    if NoFilters(f) then grid else Prune(grid, SelectsNetwork(f), CellPasses(f))
  }

  /** `getFilteredChannelMap`. */
  method GetFilteredChannelMap(grid: Grid, f: Filters) returns (filtered: Grid)
    ensures filtered == FilteredGrid(grid, f)
  {
    if NoFilters(f) {
      return grid;
    }
    filtered := PruneEach(grid, SelectsNetwork(f), CellPasses(f));
  }

  /** With a filter set, the filtered grid has no empty network, and it
      shows a number of a network exactly when the network is selected (or
      none is) and some state's channel for it passes; what it shows is the
      original cell. */
  lemma FilteredGridMeans(grid: Grid, f: Filters)
    ensures NoFilters(f) ==> FilteredGrid(grid, f) == grid
    ensures !NoFilters(f) ==> forall n | n in FilteredGrid(grid, f) :: |FilteredGrid(grid, f)[n]| > 0
    ensures !NoFilters(f) ==> forall n, number ::
      (n in FilteredGrid(grid, f) && number in FilteredGrid(grid, f)[n]) <==>
      (n in grid && NetworkSelected(f, n) && number in grid[n] && AnyMatches(grid[n][number], f))
    ensures forall n, number | n in FilteredGrid(grid, f) && number in FilteredGrid(grid, f)[n] ::
      n in grid && number in grid[n] && FilteredGrid(grid, f)[n][number] == grid[n][number]
  {
    PruneMembers(grid, SelectsNetwork(f), CellPasses(f));
  }

  /** Filtering twice with the same filters changes nothing more. */
  lemma FilteredGridIdempotent(grid: Grid, f: Filters)
    ensures FilteredGrid(FilteredGrid(grid, f), f) == FilteredGrid(grid, f)
  {
    PruneIdempotent(grid, SelectsNetwork(f), CellPasses(f));
  }

  // ---------------------------------------------------------------------------
  // Filter options (`getChannelTypes`, `getChannelSpecs`)
  // ---------------------------------------------------------------------------

  /** The distinct non-empty labels of `cs` in first-seen order, as a
      `Set` collects them. */
  function LabelsOf(cs: seq<ChannelData>, labelOf: ChannelData -> string): seq<string> {
    if cs == [] then []
    else
      var labels := LabelsOf(cs[..|cs| - 1], labelOf);
      var x := labelOf(cs[|cs| - 1]);
      if x != "" && x !in labels then labels + [x] else labels
  }

  lemma {:induction false} LabelsOfMembers(cs: seq<ChannelData>, labelOf: ChannelData -> string)
    ensures NoDuplicates(LabelsOf(cs, labelOf))
    ensures forall x :: x in LabelsOf(cs, labelOf) <==> x != "" && exists i | 0 <= i < |cs| :: labelOf(cs[i]) == x
  {
    if cs != [] {
      var init := cs[..|cs| - 1];
      LabelsOfMembers(init, labelOf);
      assert forall i | 0 <= i < |init| :: init[i] == cs[i];
      forall x | x != "" && exists i | 0 <= i < |cs| :: labelOf(cs[i]) == x
        ensures x in LabelsOf(cs, labelOf)
      {
        var i :| 0 <= i < |cs| && labelOf(cs[i]) == x;
        if i < |init| { assert labelOf(init[i]) == x; }
      }
    }
  }

  method CollectLabels(entries: StateLists, labelOf: ChannelData -> string) returns (labels: seq<string>)
    ensures labels == LabelsOf(Flatten(entries), labelOf)
  {
    labels := [];
    for i := 0 to |entries|
      invariant labels == LabelsOf(Flatten(entries[..i]), labelOf)
    {
      var channels := entries[i].1;
      assert Flatten(entries[..i]) + channels[..0] == Flatten(entries[..i]);
      for j := 0 to |channels|
        invariant labels == LabelsOf(Flatten(entries[..i]) + channels[..j], labelOf)
      {
        FlattenStep(entries, i, j);
        var x := labelOf(channels[j]);
        if x != "" && x !in labels {
          labels := labels + [x];
        }
      }
      FlattenNext(entries, i);
    }
    assert entries[..|entries|] == entries;
  }

  /** The sorted distinct non-empty labels of all channels. */
  method SortedLabels(entries: StateLists, labelOf: ChannelData -> string) returns (r: seq<string>)
    ensures r == SortBy(LabelsOf(Flatten(entries), labelOf), LexLe)
    ensures SortedBy(r, LexLe) && NoDuplicates(r)
    ensures forall x :: x in r <==> x != "" && exists i | 0 <= i < |Flatten(entries)| :: labelOf(Flatten(entries)[i]) == x
  {
    var labels := CollectLabels(entries, labelOf);
    r := SortBy(labels, LexLe);
    TextOrder();
    LabelsOfMembers(Flatten(entries), labelOf);
    SortDistinct(labels, LexLe);
  }

  /** `getChannelTypes`: every non-empty channel type, once, in order. */
  method GetChannelTypes(entries: StateLists) returns (r: seq<string>)
    ensures SortedBy(r, LexLe) && NoDuplicates(r)
    ensures forall x :: x in r <==> x != "" && exists i | 0 <= i < |Flatten(entries)| :: TypeOf(Flatten(entries)[i]) == x
  {
    r := SortedLabels(entries, TypeOf);
  }

  /** `getChannelSpecs`: every non-empty channel specification, once, in order. */
  method GetChannelSpecs(entries: StateLists) returns (r: seq<string>)
    ensures SortedBy(r, LexLe) && NoDuplicates(r)
    ensures forall x :: x in r <==> x != "" && exists i | 0 <= i < |Flatten(entries)| :: SpecsOf(Flatten(entries)[i]) == x
  {
    r := SortedLabels(entries, SpecsOf);
  }

  // ---------------------------------------------------------------------------
  // Counts beside the filter options
  // ---------------------------------------------------------------------------

  /** One network's count. */
  method NetworkCount(row: map<string, map<string, ChannelData>>, f: Filters) returns (count: nat)
    ensures count == |PassingNumbers(row, f)|
  {
    count := CountKeys(row, CellPasses(f));
  }

  /** `getNetworkCounts`: per network, the numbers with a state whose
      channel passes every filter but the network selection. */
  method GetNetworkCounts(grid: Grid, f: Filters) returns (counts: map<string, nat>)
    ensures counts.Keys == grid.Keys
    ensures forall n | n in counts :: counts[n] == |PassingNumbers(grid[n], f.(selectedNetworks := []))|
  {
    counts := map[];
    var todo := grid.Keys;
    while todo != {}
      invariant todo <= grid.Keys && counts.Keys == grid.Keys - todo
      invariant forall n | n in counts :: counts[n] == |PassingNumbers(grid[n], f.(selectedNetworks := []))|
      decreases |todo|
    {
      var n :| n in todo;
      var count := NetworkCount(grid[n], f.(selectedNetworks := []));
      counts := counts[n := count];
      todo := todo - {n};
    }
  }

  /** `getTypeCounts` counts a channel for `t` when its type is `t` and it
      passes every filter but the type selection. */
  function TypeCounted(t: string, f: Filters): ChannelData -> bool {
    (c: ChannelData) => c.other_data.Some? && c.other_data.value.channel_type == t && MatchesFilters(c, f.(selectedChannelTypes := []))
  }

  /** `getSpecsCounts` counts a channel for `s` when its specs are `s` and
      it passes every filter but the specs selection. */
  function SpecsCounted(s: string, f: Filters): ChannelData -> bool {
    (c: ChannelData) => c.other_data.Some? && c.other_data.value.channel_specs == s && MatchesFilters(c, f.(selectedChannelSpecs := []))
  }

  /** A count per label: the channels `counted(t)` for label `t` accepts. A label
      listed twice is counted twice with the same result. */
  method LabelCounts(entries: StateLists, labels: seq<string>, counted: string -> ChannelData -> bool) returns (counts: map<string, nat>)
    ensures counts.Keys == set t | t in labels
    ensures forall t | t in counts :: counts[t] == |Select(Flatten(entries), counted(t), true)|
  {
    counts := map[];
    for i := 0 to |labels|
      invariant counts.Keys == set t | t in labels[..i]
      invariant forall t | t in counts :: counts[t] == |Select(Flatten(entries), counted(t), true)|
    {
      assert labels[..i + 1] == labels[..i] + [labels[i]];
      var count := CountFlat(entries, counted(labels[i]));
      counts := counts[labels[i] := count];
    }
    assert labels[..|labels|] == labels;
  }

  /** `getTypeCounts`. */
  method GetTypeCounts(entries: StateLists, types: seq<string>, f: Filters) returns (counts: map<string, nat>)
    ensures counts.Keys == set t | t in types
    ensures forall t | t in counts :: counts[t] == |Select(Flatten(entries), TypeCounted(t, f), true)|
  {
    counts := LabelCounts(entries, types, (t: string) => TypeCounted(t, f));
  }

  /** `getSpecsCounts`. */
  method GetSpecsCounts(entries: StateLists, specs: seq<string>, f: Filters) returns (counts: map<string, nat>)
    ensures counts.Keys == set s | s in specs
    ensures forall s | s in counts :: counts[s] == |Select(Flatten(entries), SpecsCounted(s, f), true)|
  {
    counts := LabelCounts(entries, specs, (s: string) => SpecsCounted(s, f));
  }

  /** The count beside a non-empty type is the number of channels that pass
      when that type alone is selected. */
  lemma TypeCountIsSelection(cs: seq<ChannelData>, t: string, f: Filters)
    requires t != ""
    ensures Select(cs, TypeCounted(t, f), true) ==
      Select(cs, (c: ChannelData) => MatchesFilters(c, f.(selectedChannelTypes := [t])), true)
  {
    SelectSame(cs, TypeCounted(t, f), (c: ChannelData) => MatchesFilters(c, f.(selectedChannelTypes := [t])), true);
  }

  /** The count beside a non-empty specification is the number of channels
      that pass when that specification alone is selected. */
  lemma SpecsCountIsSelection(cs: seq<ChannelData>, s: string, f: Filters)
    requires s != ""
    ensures Select(cs, SpecsCounted(s, f), true) ==
      Select(cs, (c: ChannelData) => MatchesFilters(c, f.(selectedChannelSpecs := [s])), true)
  {
    SelectSame(cs, SpecsCounted(s, f), (c: ChannelData) => MatchesFilters(c, f.(selectedChannelSpecs := [s])), true);
  }

  /** Selecting a network changes nothing for a cell whose channels all
      belong to it. */
  lemma OwnNetworkPasses(cell: map<string, ChannelData>, n: string, f: Filters)
    requires forall state | state in cell :: cell[state].channel_group == n
    ensures AnyMatches(cell, f.(selectedNetworks := [])) == AnyMatches(cell, f.(selectedNetworks := [n]))
  {
    forall state | state in cell
      ensures MatchesFilters(cell[state], f.(selectedNetworks := [])) == MatchesFilters(cell[state], f.(selectedNetworks := [n]))
    {
    }
  }

  /** For a row whose channels all belong to its network, the count beside
      the network is the size of the row the filtered grid shows when that
      network alone is selected. */
  lemma RowCountIsSelection(grid: Grid, n: string, f: Filters)
    requires n in grid
    requires forall number, state | number in grid[n] && state in grid[n][number] :: grid[n][number][state].channel_group == n
    ensures var alone := FilteredGrid(grid, f.(selectedNetworks := [n]));
      |PassingNumbers(grid[n], f.(selectedNetworks := []))| == (if n in alone then |alone[n]| else 0)
  {
    var g0, g1 := f.(selectedNetworks := []), f.(selectedNetworks := [n]);
    forall number | number in grid[n] ensures AnyMatches(grid[n][number], g0) == AnyMatches(grid[n][number], g1) {
      OwnNetworkPasses(grid[n][number], n, f);
    }
    var kept := KeepValues(grid[n], CellPasses(g1));
    assert kept.Keys == PassingNumbers(grid[n], g0);
    assert FilteredGrid(grid, g1) == Prune(grid, SelectsNetwork(g1), CellPasses(g1));
  }

  /** On a grid built by `getChannelMap`, the count beside a network is the
      number of its numbers the filtered grid shows when that network alone
      is selected. */
  lemma NetworkCountIsSelection(entries: StateLists, n: string, f: Filters)
    requires n in GridOf(entries)
    ensures var alone := FilteredGrid(GridOf(entries), f.(selectedNetworks := [n]));
      |PassingNumbers(GridOf(entries)[n], f.(selectedNetworks := []))| == (if n in alone then |alone[n]| else 0)
  {
    GridChannels(entries);
    RowCountIsSelection(GridOf(entries), n, f);
  }
}
