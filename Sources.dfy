/** The source lists of the sources router: the main and local source
    files merged by id, the create/update/delete rules applied to one list,
    and the naming of the per-source additional-data files. */
module Sources {
  import opened Wrappers
  import opened Text
  import opened Seqs
  import opened Records

  // ---------------------------------------------------------------------------
  // Merging the main and local source lists
  // ---------------------------------------------------------------------------

  predicate HasId(source: Record) {
    "id" in source
  }

  function IdKey(source: Record): Value {
    Get(source, "id")
  }

  /** The sources that have an `id`, paired with it, in order. */
  function IdPairs(sources: seq<Record>): seq<(Value, Record)> {
    Pairs(sources, HasId, IdKey)
  }

  /** A source whose id Python cannot hash: a list or a dict as a
      dictionary key raises TypeError. */
  predicate BadId(source: Record) {
    HasId(source) && !Hashable(source["id"])
  }

  /** `list(merged_sources.values())`: every source with an id assigned to
      its id, main first, then local; an unhashable id raises TypeError. */
  function MergedSources(main: seq<Record>, local: seq<Record>): Result<seq<Record>, Error> {
    if (exists i | 0 <= i < |main| :: BadId(main[i])) || (exists i | 0 <= i < |local| :: BadId(local[i])) then
      Failure(TypeError)
    else
      Success(Values(Assign(IdPairs(main) + IdPairs(local))))
  }

  function IsBadId(source: Record): bool {
    BadId(source)
  }

  lemma NoneStopBadId(sources: seq<Record>)
    ensures NoneStop(sources, IsBadId) <==> forall i | 0 <= i < |sources| :: !BadId(sources[i])
  {
  }

  /** The two merge loops over `merged_sources`, kept as an association
      list. */
  method MergeSources(main: seq<Record>, local: seq<Record>) returns (merged: Result<seq<Record>, Error>)
    ensures merged == MergedSources(main, local)
  {
    NoneStopBadId(main);
    NoneStopBadId(local);
    var fromMain := AssignUntil([], [], main, HasId, IdKey, IsBadId);
    if fromMain.None? {
      return Failure(TypeError);
    }
    assert [] + IdPairs(main) == IdPairs(main);
    var both := AssignUntil(fromMain.value, IdPairs(main), local, HasId, IdKey, IsBadId);
    if both.None? {
      return Failure(TypeError);
    }
    return Success(Values(both.value));
  }

  /** The last source of the list with the given id. */
  function LastWithId(sources: seq<Record>, id: Value): Option<Record> {
    LastValue(IdPairs(sources), id)
  }

  /** `LastWithId` is the last source carrying the id, or nothing when none
      does. */
  lemma LastWithIdIsLast(sources: seq<Record>, id: Value)
    ensures LastWithId(sources, id).None? <==> forall i | 0 <= i < |sources| :: !HasId(sources[i]) || IdKey(sources[i]) != id
    ensures LastWithId(sources, id).Some? ==>
      exists i | 0 <= i < |sources| ::
        && sources[i] == LastWithId(sources, id).value
        && HasId(sources[i]) && IdKey(sources[i]) == id
        && forall j | i < j < |sources| :: !HasId(sources[j]) || IdKey(sources[j]) != id
  {
    LastValuePairs(sources, HasId, IdKey, id);
  }

  /** Local sources override main ones: the merged source for an id is the
      last local source with it, else the last main source with it, and no
      id appears twice. */
  lemma MergeOverrides(main: seq<Record>, local: seq<Record>, id: Value)
    ensures MergedSources(main, local).Failure? <==>
      (exists i | 0 <= i < |main| :: BadId(main[i])) || (exists i | 0 <= i < |local| :: BadId(local[i]))
    ensures MergedSources(main, local).Failure? ==> MergedSources(main, local).error == TypeError
    ensures Lookup(Assign(IdPairs(main) + IdPairs(local)), id) ==
      if LastWithId(local, id).Some? then LastWithId(local, id) else LastWithId(main, id)
    ensures forall i, j :: 0 <= i < j < |Assign(IdPairs(main) + IdPairs(local))| ==>
      Assign(IdPairs(main) + IdPairs(local))[i].0 != Assign(IdPairs(main) + IdPairs(local))[j].0
  {
    AssignLookup(IdPairs(main) + IdPairs(local), id);
    LastValueAppend(IdPairs(main), IdPairs(local), id);
    AssignDistinct(IdPairs(main) + IdPairs(local));
  }

  // ---------------------------------------------------------------------------
  // Create, update, delete and get on one source list
  // ---------------------------------------------------------------------------

  datatype SourceError = Conflict(id: string) | NotFound(id: string)

  function IdOf(source: Record): Value {
    Get(source, "id")
  }

  /** A remote or local source is created only under a new id (else 409),
      and is then appended. */
  function CreateSource(sources: seq<Record>, id: string, entry: Record): (r: Result<seq<Record>, SourceError>)
    ensures r.Failure? <==> exists i | 0 <= i < |sources| :: IdOf(sources[i]) == Str(id)
    ensures r.Failure? ==> r.error == Conflict(id)
    ensures r.Success? ==> r.value == sources + [entry]
  {
    if exists i | 0 <= i < |sources| :: IdOf(sources[i]) == Str(id) then Failure(Conflict(id)) else Success(sources + [entry])
  }

  /** The conflict scan of the create routes. */
  method CreateSourceLoop(sources: seq<Record>, id: string, entry: Record) returns (r: Result<seq<Record>, SourceError>)
    ensures r == CreateSource(sources, id, entry)
  {
    for i := 0 to |sources|
      invariant forall k | 0 <= k < i :: IdOf(sources[k]) != Str(id)
    {
      if IdOf(sources[i]) == Str(id) {
        return Failure(Conflict(id));
      }
    }
    return Success(sources + [entry]);
  }

  function IdIs(id: string): Record -> bool {
    s => IdOf(s) == Str(id)
  }

  /** The index of the first source with the given id. */
  function FirstIndex(sources: seq<Record>, id: string): (r: Option<nat>)
    ensures r.Some? ==> r.value < |sources| && IdOf(sources[r.value]) == Str(id)
    ensures r.Some? ==> forall k | 0 <= k < r.value :: IdOf(sources[k]) != Str(id)
    ensures r.None? ==> forall k | 0 <= k < |sources| :: IdOf(sources[k]) != Str(id)
  {
    var r := FirstIndexWhere(sources, IdIs(id));
    assert r.Some? ==> IdIs(id)(sources[r.value]);
    assert forall k | 0 <= k < |sources| :: IdIs(id)(sources[k]) == (IdOf(sources[k]) == Str(id));
    r
  }

  /** `update_*_source`: the first source with the path id is replaced by
      the new entry carrying that id; no match is "not found". */
  function UpdateSource(sources: seq<Record>, id: string, entry: Record): Result<seq<Record>, SourceError> {
    match FirstIndex(sources, id)
    case None => Failure(NotFound(id))
    case Some(i) => Success(sources[i := entry["id" := Str(id)]])
  }

  /** The update replaces exactly the first match: the list keeps its
      length, the other sources are unchanged, and the replaced one carries
      the path id. */
  lemma UpdateSourceReplacesFirst(sources: seq<Record>, id: string, entry: Record)
    ensures UpdateSource(sources, id, entry).Failure? <==> forall k | 0 <= k < |sources| :: IdOf(sources[k]) != Str(id)
    ensures UpdateSource(sources, id, entry).Success? ==>
      var r := UpdateSource(sources, id, entry).value;
      && |r| == |sources|
      && exists i | 0 <= i < |sources| ::
           && IdOf(sources[i]) == Str(id)
           && (forall k | 0 <= k < i :: IdOf(sources[k]) != Str(id))
           && r[i] == entry["id" := Str(id)]
           && IdOf(r[i]) == Str(id)
           && forall k | 0 <= k < |sources| && k != i :: r[k] == sources[k]
  {
    var f := FirstIndex(sources, id);
    if f.Some? {
      var i := f.value;
      var r := UpdateSource(sources, id, entry).value;
      assert r[i] == entry["id" := Str(id)];
      assert IdOf(r[i]) == Str(id);
    }
  }

  /** The update loop: enumerate, replace the first match in place, stop. */
  method UpdateSourceLoop(sources: seq<Record>, id: string, entry: Record) returns (r: Result<seq<Record>, SourceError>)
    ensures r == UpdateSource(sources, id, entry)
  {
    for i := 0 to |sources|
      invariant forall k | 0 <= k < i :: IdOf(sources[k]) != Str(id)
    {
      if IdOf(sources[i]) == Str(id) {
        var updated := entry["id" := Str(id)];
        FirstIndexAt(sources, id, i);
        return Success(sources[i := updated]);
      }
    }
    return Failure(NotFound(id));
  }

  lemma FirstIndexAt(sources: seq<Record>, id: string, i: nat)
    requires i < |sources| && IdOf(sources[i]) == Str(id)
    requires forall k | 0 <= k < i :: IdOf(sources[k]) != Str(id)
    ensures FirstIndex(sources, id) == Some(i)
  {
    assert forall k | 0 <= k < |sources| :: IdIs(id)(sources[k]) == (IdOf(sources[k]) == Str(id));
    FirstIndexWhereAt(sources, IdIs(id), i);
  }

  function DifferentId(id: string): Record -> bool {
    s => IdOf(s) != Str(id)
  }

  /** `delete_*_source`: every source with the id is removed; removing none
      is "not found". */
  function DeleteSource(sources: seq<Record>, id: string): Result<seq<Record>, SourceError> {
    var kept := Select(sources, DifferentId(id), true);
    if |kept| == |sources| then Failure(NotFound(id)) else Success(kept)
  }

  /** The delete fails iff no source has the id; otherwise the result holds
      exactly the other sources, in order. */
  lemma DeleteSourceRemoves(sources: seq<Record>, id: string)
    ensures DeleteSource(sources, id).Failure? <==> forall k | 0 <= k < |sources| :: IdOf(sources[k]) != Str(id)
    ensures DeleteSource(sources, id).Success? ==>
      && DeleteSource(sources, id).value == Select(sources, DifferentId(id), true)
      && (forall s | s in DeleteSource(sources, id).value :: IdOf(s) != Str(id))
      && (forall s | s in sources && IdOf(s) != Str(id) :: s in DeleteSource(sources, id).value)
  {
    SelectAll(sources, DifferentId(id), true);
    SelectMembers(sources, DifferentId(id), true);
  }

  /** `get_*_source`: the first source with the id. */
  function GetSource(sources: seq<Record>, id: string): (r: Result<Record, SourceError>)
    ensures r.Failure? <==> forall k | 0 <= k < |sources| :: IdOf(sources[k]) != Str(id)
    ensures r.Success? ==> exists i | 0 <= i < |sources| :: sources[i] == r.value && IdOf(r.value) == Str(id) && forall k | 0 <= k < i :: IdOf(sources[k]) != Str(id)
  {
    match FirstIndex(sources, id)
    case None => Failure(NotFound(id))
    case Some(i) => Success(sources[i])
  }

  // ---------------------------------------------------------------------------
  // Additional-data file names
  // ---------------------------------------------------------------------------

  const XmlepgPrefix: string := "xmlepg_"
  const Suffix: string := "_additionaldata.json"

  /** `get_additional_data_file_path`, without the data directory. */
  function FileName(id: string, xmlepg: bool): (r: string)
    ensures EndsWith(r, Suffix)
    ensures xmlepg ==> StartsWith(r, XmlepgPrefix)
  {
    var r := (if xmlepg then XmlepgPrefix else "") + id + Suffix;
    assert r[|r| - |Suffix|..] == Suffix;
    assert xmlepg ==> r[..|XmlepgPrefix|] == XmlepgPrefix;
    r
  }

  /** `find_additional_data_file`: the plain name if that file exists, else
      the `xmlepg_` name if that one does, else nothing. */
  function FindAdditionalDataFile(id: string, exists_: string -> bool): (r: Option<string>)
    ensures r.Some? ==> exists_(r.value)
    ensures exists_(FileName(id, false)) ==> r == Some(FileName(id, false))
    ensures !exists_(FileName(id, false)) && exists_(FileName(id, true)) ==> r == Some(FileName(id, true))
    ensures r.None? <==> !exists_(FileName(id, false)) && !exists_(FileName(id, true))
  {
    if exists_(FileName(id, false)) then Some(FileName(id, false))
    else if exists_(FileName(id, true)) then Some(FileName(id, true))
    else None
  }

  /** Python's `s[start:stop]`: negative bounds count from the end, bounds
      are clamped to the text, and a start past the stop gives "". */
  function PySlice(s: string, start: int, stop: int): (r: string)
    ensures |r| <= |s|
  {
    var i := if start < 0 then (if |s| + start < 0 then 0 else |s| + start) else (if start > |s| then |s| else start);
    var j := if stop < 0 then (if |s| + stop < 0 then 0 else |s| + stop) else (if stop > |s| then |s| else stop);
    if i >= j then "" else s[i..j]
  }

  /** The source id `discover_additional_data_files` reads from a file
      name, as written: `file[7:-19]` or `file[:-19]`. The suffix is 20
      characters long, so this keeps its leading "_". */
  function IdAsWritten(file: string): string {
    if StartsWith(file, XmlepgPrefix) then PySlice(file, 7, -19) else PySlice(file, 0, -19)
  }

  /** The id the file name was made from: `file[7:-20]` or `file[:-20]`. */
  function IdOfFile(file: string): string {
    if StartsWith(file, XmlepgPrefix) then PySlice(file, 7, -20) else PySlice(file, 0, -20)
  }

  /** As written, the discovered id of any file named for a source is that
      source's id with a "_" appended, so looking it up again names a file
      with a doubled "_". */
  lemma IdAsWrittenKeepsSeparator(id: string, xmlepg: bool)
    requires xmlepg || !StartsWith(id + Suffix, XmlepgPrefix)
    ensures IdAsWritten(FileName(id, xmlepg)) == id + "_"
    ensures FileName(IdAsWritten(FileName(id, xmlepg)), xmlepg) != FileName(id, xmlepg)
  {
    var f := FileName(id, xmlepg);
    var p := if xmlepg then XmlepgPrefix else "";
    assert f == p + id + Suffix;
    assert PySlice(f, |p|, -19) == f[|p|..|f| - 19];
    assert f[|p|..|f| - 19] == f[|p|..|p| + |id|] + [f[|p| + |id|]];
    assert f[|p|..|p| + |id|] == id;
    assert f[|p| + |id|] == Suffix[0] == '_';
    var g := FileName(id + "_", xmlepg);
    assert |g| == |f| + 1;
  }

  /** With the suffix's full length removed, the discovered id is the one
      the file was named for. */
  lemma IdOfFileRoundTrip(id: string, xmlepg: bool)
    requires xmlepg || !StartsWith(id + Suffix, XmlepgPrefix)
    ensures IdOfFile(FileName(id, xmlepg)) == id
  {
    var f := FileName(id, xmlepg);
    var p := if xmlepg then XmlepgPrefix else "";
    assert f == p + id + Suffix;
    assert PySlice(f, |p|, -20) == f[|p|..|f| - 20];
    assert f[|p|..|f| - 20] == id;
  }

  /** One discovered additional-data file. */
  datatype Discovered = Discovered(sourceId: string, filename: string, isXmlepg: bool)

  /** The entry the loop records for one file, with the id sliced as
      written. */
  function DiscoverOne(file: string): Discovered {
    Discovered(IdAsWritten(file), file, StartsWith(file, XmlepgPrefix))
  }

  function IsAdditionalData(file: string): bool {
    EndsWith(file, Suffix)
  }

  /** The files of the listing that are additional-data files, in order. */
  function Discover(listing: seq<string>): seq<Discovered> {
    MapSeq(Select(listing, IsAdditionalData, true), DiscoverOne)
  }

  /** Every discovered id is the id its file was named for with a "_"
      appended: the file is the name of the id without that "_", and the
      discovered id itself names a different file. */
  lemma DiscoveredIdKeepsSeparator(file: string)
    requires EndsWith(file, Suffix)
    requires StartsWith(file, XmlepgPrefix) ==> |file| >= |XmlepgPrefix| + |Suffix|
    ensures DiscoverOne(file).sourceId == IdOfFile(file) + "_"
    ensures FileName(IdOfFile(file), DiscoverOne(file).isXmlepg) == file
    ensures FileName(DiscoverOne(file).sourceId, DiscoverOne(file).isXmlepg) != file
  {
    var p := if StartsWith(file, XmlepgPrefix) then XmlepgPrefix else "";
    var id := file[|p|..|file| - 20];
    assert PySlice(file, |p|, -20) == id;
    assert PySlice(file, |p|, -19) == file[|p|..|file| - 19];
    assert file[|p|..|file| - 19] == id + [file[|file| - 20]];
    assert file[|file| - 20..] == Suffix;
    assert file[|file| - 20] == '_';
    assert file == file[..|p|] + id + file[|file| - 20..];
    assert file[..|p|] == p;
    assert |FileName(id + "_", StartsWith(file, XmlepgPrefix))| == |file| + 1;
  }

  /** The listing loop of `discover_additional_data_files`. */
  method DiscoverAdditionalDataFiles(listing: seq<string>) returns (found: seq<Discovered>)
    ensures found == Discover(listing)
  {
    found := [];
    for i := 0 to |listing|
      invariant found == Discover(listing[..i])
    {
      TakeSnoc(listing, i);
      var file := listing[i];
      SelectSnoc(listing[..i], file, IsAdditionalData, true);
      if IsAdditionalData(file) {
        MapSeqSnoc(Select(listing[..i], IsAdditionalData, true), file, DiscoverOne);
        found := found + [DiscoverOne(file)];
      }
    }
    assert listing[..|listing|] == listing;
  }
}
