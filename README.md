# webepg: a verified model of the EPG normalisation core

webepg collects Electronic Program Guide data from XMLTV feeds, provider
tables, CSV overrides and JSON overlays. It gives every channel one
identity and one display number, removes duplicate channels and
programmes, and serves per-channel schedules in the viewer's timezone. Each
local day of a schedule is filled without gaps. A Next.js frontend lists
channels by network and number, shows programme status, and draws two kinds
of timeline.

This project models that core in Dafny and proves what the code promises.
It has one module per source file of the core, plus shared modules.

Backend (Python):
- `TimeUtils` (`backend/app/utils/time_utils.py`):
  - projects programmes into a zone, splitting any that cross local midnight;
  - groups programmes by local date, and by channel;
  - walks a cursor through each day, inserting "No Data Available" filler records.
- `XmlEpgMerge`, `XmlEpgPrograms` and `XmlEpgChannels` (`backend/app/routers/xmlepg.py`):
  - bouquet parsing;
  - the provider and channel merge with one entry per valid channel number;
  - programme de-duplication and minute rounding;
  - programme field normalisation;
  - channel post-processing, programme counts and the SQL `IN` clause.
- `NowNext` (`backend/app/routers/nownext.py`): channel de-duplication, now/next selection and duration text.
- `Epg` (`backend/app/routers/epg.py`):
  - the date-overlap test;
  - sports and movie predicates;
  - lookup by channel;
  - the sports/movies window.
- `XmlProcessing` (`backend/app/utils/xml_processing.py`):
  - programme elements read into records;
  - first-wins channel reading;
  - the additional-data override merge;
  - programme counts.
- `Sources` (`backend/app/routers/sources.py`):
  - the local-over-main source merge;
  - create, update and delete on the source list;
  - additional-data file names.

Frontend (TypeScript):
- `Freeview` (`frontend/src/lib/freeview-utils.ts`): channel-number order, channel grouping, network order and source grouping.
- `ChannelMap` (`frontend/src/components/vast-channel-list/channel-map-utils.ts`):
  - the network × number × state grid;
  - state exclusions, filters, label lists and counts.
- `EpgView` (`frontend/src/components/epg/utils.ts`):
  - category icons and programme status;
  - channel orders, styling lookups and indicators.
- `VerticalTimeline` (`frontend/src/lib/vertical-timeline-utils.ts`): date labels, sort keys, event filtering, merging and grouping.
- `Timeline` (`frontend/src/components/timeline/utils.ts`):
  - year-month decimals and labels;
  - span layout bounds;
  - document validation and the conversion of grouped channels into rows.
- `AdditionalData` (`frontend/src/lib/additional-data-utils.ts`):
  - the flat ↔ nested channel record mapping;
  - the step-by-step build of the nested record as a class.

Shared modules:
- `Wrappers`: `Option` and `Result`.
- `Text`: splitting, stripping, digits, `re.sub(r"\W+", "-", s)` and `parseInt`.
- `Collate`: `localeCompare`, modelled as code-point order.
- `Seqs`: generic selection, de-duplication, first-match, grouping and stable sorting, with their lemmas.
- `Records`: Python values and dictionaries.
- `YearMonth`: the "year.month" texts both timelines use, `parseFloat` and `toFixed(2)`.

Imperative code is modelled as methods:
- loops that append, de-duplicate or walk a cursor;
- in-place list updates.

Each method is proved equal to a specification function, and the lemmas
about those functions carry the properties. Pure code is modelled as
functions.

The gap-filling loops of `time_utils.py` behave as follows, and the model
does the same:
- After each programme the cursor becomes that programme's end
  (`backend/app/utils/time_utils.py:91`, `:137`), even when an earlier
  programme ended later; `TimeUtils.NestedProgrammeOverlap` shows the
  consequence.
- A filler is inserted whenever the cursor is strictly before the next
  start, however small the gap (`backend/app/utils/time_utils.py:84`, `:132`).
- The day ends at 23:59:59 (`backend/app/utils/time_utils.py:78`, `:121`).
- `program_overlaps_date` bounds the day by 23:59:59.999999
  (`backend/app/routers/epg.py:50-52`). Times here are whole seconds, so
  that bound equals 23:59:59.

## Model

| member | source | states |
|---|---|---|
| TimeUtils.SecondOfDay | backend/app/utils/time_utils.py:24 | the time of day of a wall clock is a second in 0..86399 |
| TimeUtils.Localize | backend/app/utils/time_utils.py:151 | `tz.localize` keeps the wall clock and takes the zone's offset for that wall clock |
| TimeUtils.Convert | backend/app/utils/time_utils.py:153 | `astimezone` keeps the instant and takes the zone's offset at that instant |
| TimeUtils.ParseDatetime | backend/app/utils/time_utils.py:148-153 | naive text keeps its wall clock with the zone's offset for it; text with an offset keeps its instant and takes the zone's offset at that instant |
| TimeUtils.ParseDatetimeIdempotent | backend/app/utils/time_utils.py:148-153 | parsing the rendering of a parsed time gives the same time back |
| TimeUtils.ProcessTimezone | backend/app/utils/time_utils.py:54-62 | a zone object comes back as it is; a name succeeds exactly when the zone database knows it, with that zone; any other argument is the ValueError |
| TimeUtils.AsTimezone | backend/app/utils/time_utils.py:18-21 | the local time is the same instant as the text (naive text read in the system zone), with the target zone's offset at that instant |
| TimeUtils.Adjusted | backend/app/utils/time_utils.py:13-52 | the list `adjust_programming` returns: each programme's records in input order; `TimeUtils.AdjustSameDate` and `TimeUtils.AdjustSplit` state them |
| TimeUtils.AdjustProgramming | backend/app/utils/time_utils.py:13-52 | the loop builds exactly the adjusted list: each programme's records, in input order |
| TimeUtils.AdjustSameDate | backend/app/utils/time_utils.py:43-50 | a programme whose local start and end share a date gives one record: same title and other fields, same instants, written with the target zone's offsets |
| TimeUtils.AdjustSplit | backend/app/utils/time_utils.py:23-42 | a programme crossing a local date gives the piece ending 23:59:59 iff the local start is before 23:59:59 and the piece starting 00:00:00 iff the local end is after midnight; every piece keeps the other fields and starts before it ends within one date; the first keeps the title and the local start, the second is titled "<title> (cont)" and keeps the local end |
| TimeUtils.ContinuationReadsTitle | backend/app/utils/time_utils.py:23-41 | the title is looked up exactly when the "(cont)" record is written: the programme crosses a local date and its local end is after 00:00:00 |
| TimeUtils.AdjustedAppend | backend/app/utils/time_utils.py:17-50 | adjusting a concatenation adjusts each part, so the records keep input order |
| TimeUtils.AdjustedLength | backend/app/utils/time_utils.py:17-50 | each programme yields at most two records |
| TimeUtils.ClockRoundTrip | backend/app/utils/time_utils.py:163 | the "H:MM:SS" text of a time of day reads back as that many seconds |
| TimeUtils.DaysTextParse | backend/app/utils/time_utils.py:163 | the "<n> day[s], H:MM:SS" text reads back as n days plus the clock |
| TimeUtils.DaysTextRoundTrip | backend/app/utils/time_utils.py:163 | a duration of a day or more reads back from its text |
| TimeUtils.TimedeltaRoundTrip | backend/app/utils/time_utils.py:163 | `str(end - start)` reads back as the duration for every whole number of seconds, negative ones included |
| TimeUtils.NoDataProgram | backend/app/utils/time_utils.py:155-172 | a filler is titled "No Data Available", has "N/A" in every text field and ["N/A"] as categories, the given channel, and the given start and end |
| TimeUtils.NoDataLength | backend/app/utils/time_utils.py:163 | a filler's length text reads back as the time from its start to its end |
| TimeUtils.FillDay | backend/app/utils/time_utils.py:77-96 | a day's records: the cursor walk from 00:00:00, then a filler to 23:59:59 when the cursor is before it; `TimeUtils.FillDayTiles` and `TimeUtils.FillDayKeepsProgrammes` state it |
| TimeUtils.WalkDay | backend/app/utils/time_utils.py:80-91 | the inner loop appends exactly the walk (a filler before each programme that starts after the cursor, then the programme) and leaves the cursor at the end of the last programme |
| TimeUtils.ProgrammesAppend | backend/app/utils/time_utils.py:80-91 | the non-filler records of a concatenation are those of each part |
| TimeUtils.ProgrammesStep | backend/app/utils/time_utils.py:84-90 | one iteration adds exactly one non-filler record, the programme itself |
| TimeUtils.WalkKeepsProgrammes | backend/app/utils/time_utils.py:80-91 | every input programme appears exactly once among the records, in sorted order |
| TimeUtils.FillDayKeepsProgrammes | backend/app/utils/time_utils.py:80-96 | a filled day's non-filler records are exactly its programmes in order, trailing filler included |
| TimeUtils.FillDayRecords | backend/app/utils/time_utils.py:80-96 | every record of a filled day is an input programme or a filler with start before end |
| TimeUtils.WalkRecords | backend/app/utils/time_utils.py:80-91 | every record the walk appends is an input programme or a non-empty filler |
| TimeUtils.FillDayLength | backend/app/utils/time_utils.py:80-96 | a filled day has at least one record per programme and at most twice as many plus one |
| TimeUtils.WalkLength | backend/app/utils/time_utils.py:80-91 | the walk appends between one and two records per programme |
| TimeUtils.ChainAppend | backend/app/utils/time_utils.py:80-96 | two gap-free runs that meet join into one |
| TimeUtils.WalkChain | backend/app/utils/time_utils.py:80-91 | for ordered programmes the walk runs without gap or overlap from 00:00:00 to the cursor |
| TimeUtils.FillDayTiles | backend/app/utils/time_utils.py:77-96 | for ordered programmes within the day, the filled day covers 00:00:00 to 23:59:59 without gap or overlap |
| TimeUtils.NestedProgrammeOverlap | backend/app/utils/time_utils.py:91-96 | because the cursor becomes the last programme's end rather than the latest end, a programme nested in another lets the trailing filler start inside the outer one |
| TimeUtils.ByStartPreorder | backend/app/utils/time_utils.py:75 | ordering by `start_time` is a total preorder, so the sort is well defined |
| TimeUtils.OnDateMembers | backend/app/utils/time_utils.py:69-72 | a date's group holds exactly the input programmes of that date |
| TimeUtils.OnDateChannelMembers | backend/app/utils/time_utils.py:110-113 | a (date, channel) group holds exactly the input programmes of that date on that channel |
| TimeUtils.ByDateGroups | backend/app/utils/time_utils.py:69-72 | the first loop makes one group per date of the input, holding that date's programmes in input order |
| TimeUtils.GroupByDate | backend/app/utils/time_utils.py:69-72 | the grouping loop builds exactly that map |
| TimeUtils.FillDate | backend/app/utils/time_utils.py:74-98 | the records one date gets: its programmes sorted by start and filled; `TimeUtils.FillDayGroup` and `TimeUtils.FillDateProgrammes` state it |
| TimeUtils.FillDayGroup | backend/app/utils/time_utils.py:74-98 | one date's group is sorted by start, walked from 00:00:00 and ended with a filler to 23:59:59 on the last programme's channel when the cursor is before it |
| TimeUtils.Grouped | backend/app/utils/time_utils.py:64-100 | the map `group_and_fill_programs` returns; `TimeUtils.GroupedDates` states its dates and entries |
| TimeUtils.GroupedDates | backend/app/utils/time_utils.py:64-100 | the result has one entry per date of the input, and each is that date's programmes sorted and filled |
| TimeUtils.GroupAndFillPrograms | backend/app/utils/time_utils.py:64-100 | the method returns exactly that grouped and filled map |
| TimeUtils.ByDateNonEmpty | backend/app/utils/time_utils.py:69-72 | no date's group is empty, so the trailing filler always has a channel |
| TimeUtils.OnDateNonEmpty | backend/app/utils/time_utils.py:69-72 | every date of the input has at least one programme |
| TimeUtils.ByDateChannelKeys | backend/app/utils/time_utils.py:110-113 | the first loop makes one entry per date of the input |
| TimeUtils.ByDateChannelChannels | backend/app/utils/time_utils.py:110-113 | a date's entry holds one channel per channel of that date's programmes |
| TimeUtils.OnDateEmpty | backend/app/utils/time_utils.py:110-113 | a date without an entry has no programmes |
| TimeUtils.ByDateChannelCell | backend/app/utils/time_utils.py:110-113 | each (date, channel) cell holds exactly that date's programmes on that channel in input order; absent cells have none |
| TimeUtils.GroupByDateChannel | backend/app/utils/time_utils.py:107-113 | the grouping loop builds exactly the nested map |
| TimeUtils.FillChannels | backend/app/utils/time_utils.py:119-144 | each channel of a date is sorted, walked from 00:00:00 and ended with a filler on that channel up to 23:59:59 |
| TimeUtils.GroupedChannelsDates | backend/app/utils/time_utils.py:102-146 | the result has one entry per date, one channel per channel of that date, and each cell is that channel's programmes of the date sorted and filled |
| TimeUtils.GroupAndFillProgramsChannels | backend/app/utils/time_utils.py:102-146 | the method returns exactly that nested, filled map |
| TimeUtils.FillDateProgrammes | backend/app/utils/time_utils.py:74-98 | the non-filler records of a filled date are sorted by start and are a permutation of that date's programmes |
| TimeUtils.NoFillerTitlesOnDate | backend/app/utils/time_utils.py:69-72 | grouping keeps the "no filler in the input" condition |
| TimeUtils.NoFillerTitlesPermuted | backend/app/utils/time_utils.py:75 | sorting keeps the "no filler in the input" condition |
| TimeUtils.FillDateChannelChannel | backend/app/utils/time_utils.py:128-144 | every record filed under a channel, filler or programme, carries that channel |
| TimeUtils.WalkChannel | backend/app/utils/time_utils.py:128-137 | the walk of one channel's programmes only writes that channel |
| TimeUtils.FillDateTrailingChannel | backend/app/utils/time_utils.py:93-96 | when the cursor is before 23:59:59, the last record is a filler ending then, on the channel of the last programme |
| XmlEpgMerge.ChannelDataFailure | backend/app/routers/xmlepg.py:262-268 | once a row's bouquet text fails `int()`, the whole call fails with that error whatever rows follow |
| XmlEpgMerge.ProcessRow | backend/app/routers/xmlepg.py:263-272 | one row: KeyError without `chanbouq`, dropped when it is falsy, AttributeError when it is truthy but not text, otherwise kept with its parsed bouquets iff one of them is a valid provider number |
| XmlEpgMerge.ChannelData | backend/app/routers/xmlepg.py:262-273 | the rows `process_channel_data` keeps, or the first failing row's error; `XmlEpgMerge.ChannelDataKept` and `XmlEpgMerge.ChannelDataFailure` state them |
| XmlEpgMerge.ChannelDataKept | backend/app/routers/xmlepg.py:262-273 | at most one output row per input row; each kept row is an input row with `chanbouq` replaced by its parsed list, and that list holds a valid provider number |
| XmlEpgMerge.ProcessChannelData | backend/app/routers/xmlepg.py:258-273 | the loop returns exactly the specified rows or the first row's error (the `ValueError` of an unparsable bouquet, the `AttributeError` of a non-text `chanbouq`) |
| XmlEpgMerge.SplitJoin | backend/app/routers/xmlepg.py:266 | splitting comma-joined pieces that hold no comma gives the pieces back |
| XmlEpgMerge.ParseBouquets | backend/app/routers/xmlepg.py:264-268 | the bouquet pieces read as integers, blank ones skipped, the first non-integer a ValueError; `XmlEpgMerge.ParseBouquetTexts` states the round trip |
| XmlEpgMerge.ParseBouquetTexts | backend/app/routers/xmlepg.py:264-268 | the decimal texts of a list of integers parse back to that list |
| XmlEpgMerge.StripCharEnds | backend/app/routers/xmlepg.py:266 | `strip(",")` leaves text without edge commas alone and removes commas wrapped around it |
| XmlEpgMerge.BouquetNumbersOfText | backend/app/routers/xmlepg.py:264-268 | the comma-joined text of a non-empty bouquet list, with or without edge commas, parses back to the list |
| XmlEpgMerge.BaseNumberPrecedence | backend/app/routers/xmlepg.py:329-347 | the base number is the first valid of fta1, fox, fet (truthy, non-blank after strip, not "0"), else "N/A" |
| XmlEpgMerge.EntryChannelFields | backend/app/routers/xmlepg.py:328-332 | an entry's channel is the source row with `channel_number` and `channel_slug` set and every other column copied |
| XmlEpgMerge.ExtraNumbers | backend/app/routers/xmlepg.py:367-399 | fta2 and fta3 give at most two extra numbers |
| XmlEpgMerge.ColumnNumber | backend/app/routers/xmlepg.py:367 | one LCN column gives at most one extra number |
| XmlEpgMerge.ExtraEntries | backend/app/routers/xmlepg.py:369-371 | each extra number becomes one entry with the same slug that is never exempt from the dedup |
| XmlEpgMerge.ExtraEntriesAppend | backend/app/routers/xmlepg.py:367-399 | the extra entries of two lists of numbers are those of each list in order |
| XmlEpgMerge.ExtraEntryNumbers | backend/app/routers/xmlepg.py:367-371 | the entry offered for one extra column is the one its number gives |
| XmlEpgMerge.ChannelEntriesCandidates | backend/app/routers/xmlepg.py:315-399 | a channel with a truthy guidelink offers the base entry, exempt iff the provider is streaming or the guidelink is "NOEPG", then its extra entries |
| XmlEpgMerge.CandidatesShape | backend/app/routers/xmlepg.py:328-399 | the candidates are the base entry plus one per extra number, all with the same slug and source, the extras never exempt |
| XmlEpgMerge.ChannelEntriesShape | backend/app/routers/xmlepg.py:315-399 | a channel offers nothing iff its guidelink is falsy, else at most three entries, all slugged from the guidelink, the first with the base number and the rest with fta2/fta3 and never exempt |
| XmlEpgMerge.Dedup | backend/app/routers/xmlepg.py:349-399 | the seen-set pass over a provider's entries; `XmlEpgMerge.DedupSplits` states what it keeps |
| XmlEpgMerge.DedupSplits | backend/app/routers/xmlepg.py:349-399 | among non-exempt entries only the first per `slug-number` is kept, and every exempt entry is kept |
| XmlEpgMerge.MergedProviders | backend/app/routers/xmlepg.py:280-404 | at most one output per provider; each has a `providnum`, a non-empty `channels` list, and is that provider with `channels` set |
| XmlEpgMerge.MatchingChannels | backend/app/routers/xmlepg.py:289-306 | the loop collects exactly the channels whose bouquet list holds the provider number, with `chanbouq` removed |
| XmlEpgMerge.Offer | backend/app/routers/xmlepg.py:356-359 | offering one entry appends it iff it is exempt or its key is unseen, and records its key iff it is not exempt |
| XmlEpgMerge.OfferEntry | backend/app/routers/xmlepg.py:350-363 | one dedup step updates the processed list and the seen set as the specification of the whole list does |
| XmlEpgMerge.OfferExtra | backend/app/routers/xmlepg.py:367-399 | the extra-column step does the same for fta2 or fta3 |
| XmlEpgMerge.OfferChannel | backend/app/routers/xmlepg.py:315-399 | the body of the per-channel loop does the same for all of a channel's entries |
| XmlEpgMerge.ProcessChannels | backend/app/routers/xmlepg.py:309-399 | the per-provider loop returns exactly the deduplicated entries' channels |
| XmlEpgMerge.Merged | backend/app/routers/xmlepg.py:276-408 | the providers with their merged channels; `XmlEpgMerge.MergedProviders` and `XmlEpgMerge.MatchingChannels` state it |
| XmlEpgMerge.ReverseMergeData | backend/app/routers/xmlepg.py:276-408 | the method returns exactly the specified merge |
| XmlEpgPrograms.SameGuideIdCollides | backend/app/routers/xmlepg.py:421-429 | two programmes with the same guideid, truthy guide_id, start_time and title get the same key, whatever their channels |
| XmlEpgPrograms.DeduplicatePrograms | backend/app/routers/xmlepg.py:411-438 | the loop keeps exactly the first programme per key `guideid_(guide_id or channel)_start_time_title`, in input order |
| XmlEpgPrograms.DeduplicateBy | backend/app/routers/xmlepg.py:416-435 | the seen-set loop, for any key function, returns the first element per key in input order |
| XmlEpgPrograms.DeduplicateProgramsProperties | backend/app/routers/xmlepg.py:411-438 | the result has distinct keys, covers every key of the input, and deduplicating it again changes nothing |
| XmlEpgPrograms.FirstProgramKept | backend/app/routers/xmlepg.py:431-433 | a programme whose key has not occurred before it is kept |
| XmlEpgPrograms.RoundToNearestMinute | backend/app/routers/xmlepg.py:529-530 | the result keeps the offset, is a whole minute within 30 seconds of the input, and rounds up exactly when the seconds are 30 or more (or already zero) |
| XmlEpgPrograms.RoundingIsNearest | backend/app/routers/xmlepg.py:529-530 | any whole minute in (t-30s, t+30s] is the rounded value |
| XmlEpgPrograms.RoundingIdempotent | backend/app/routers/xmlepg.py:529-530 | rounding a rounded time changes nothing |
| XmlEpgPrograms.Filled | backend/app/routers/xmlepg.py:716-720 | a field value becomes "N/A" exactly when it is None or blank after strip, and is kept otherwise |
| XmlEpgPrograms.FillBlanks | backend/app/routers/xmlepg.py:716-720 | the record keeps its keys, has no blank value left, and each value is kept or was blank and is "N/A" |
| XmlEpgPrograms.FillNotAvailable | backend/app/routers/xmlepg.py:716-720 | the loop over the fields computes exactly that record |
| XmlEpgPrograms.CleanPieces | backend/app/routers/xmlepg.py:725-729 | the pieces of a comma-split category text are stripped and non-empty, and no more than the pieces |
| XmlEpgPrograms.CleanItems | backend/app/routers/xmlepg.py:733-737 | a category list becomes its stripped non-empty items; it fails exactly when some item is not a string (`.strip()` raises) |
| XmlEpgPrograms.StripTrims | backend/app/routers/xmlepg.py:726 | a non-empty stripped category neither starts nor ends with white space |
| XmlEpgPrograms.StripOfTrimmed | backend/app/routers/xmlepg.py:726 | a text with no white space at either end strips to itself, so stripping twice is stripping once |
| XmlEpgPrograms.NormaliseCategories | backend/app/routers/xmlepg.py:722-739 | the result is always a list of stripped non-empty strings (a text is split on commas, "N/A" and non-lists become []); it fails exactly for a list holding a non-string |
| XmlEpgPrograms.CleanItemsOfClean | backend/app/routers/xmlepg.py:733-737 | a list of clean categories is kept as it is |
| XmlEpgPrograms.NormaliseCategoriesIdempotent | backend/app/routers/xmlepg.py:722-739 | normalising normalised categories changes nothing |
| XmlEpgPrograms.CategoriesRoundTrip | backend/app/routers/xmlepg.py:723-729 | comma-joined clean categories are read back as the list of them |
| XmlEpgPrograms.CleanPiecesOfClean | backend/app/routers/xmlepg.py:725-729 | stripped non-empty pieces are all kept |
| XmlEpgPrograms.Written | backend/app/routers/xmlepg.py:696-708 | the loop writes exactly the fields start_time, end_time, start, end, length, channel and guide_id |
| XmlEpgPrograms.ParseTimes | backend/app/routers/xmlepg.py:688-694 | success gives both parsed times rounded to the minute; failure (the KeyError or ValueError the loop skips) happens exactly when `channel`, `start_time` or `end_time` is missing or a time does not parse |
| XmlEpgPrograms.WithCategories | backend/app/routers/xmlepg.py:722-739 | success replaces `categories` by its normalised value; it fails exactly when `categories` is missing or holds a non-string item |
| XmlEpgPrograms.NormaliseProgram | backend/app/routers/xmlepg.py:686-741 | the per-programme `try` body; `XmlEpgPrograms.NormaliseProgramFields` and `XmlEpgPrograms.NormaliseProgramFailures` state it |
| XmlEpgPrograms.NormaliseProgramFields | backend/app/routers/xmlepg.py:686-741 | a normalised programme has the input's keys plus the written ones, no blank value, and every untouched field filled as `Filled` says |
| XmlEpgPrograms.ReplacedCategories | backend/app/routers/xmlepg.py:722-739 | replacing categories by a list keeps the keys, leaves no blank value and changes no other field |
| XmlEpgPrograms.NormaliseProgramReferences | backend/app/routers/xmlepg.py:706-739 | the programme's channel is the channel slug and guide_id the guidelink (each "N/A" when blank), and its categories are clean |
| XmlEpgPrograms.FilledShape | backend/app/routers/xmlepg.py:696-720 | after the writes and the fill, the keys are the input's plus the written ones and untouched fields are filled |
| XmlEpgPrograms.RenderedTextsKept | backend/app/routers/xmlepg.py:698-704 | the clock and length texts are never blank, so the fill keeps them |
| XmlEpgPrograms.TimedFields | backend/app/routers/xmlepg.py:696-708 | the writes add the written keys and leave every other field as it was |
| XmlEpgPrograms.WrittenValues | backend/app/routers/xmlepg.py:696-708 | start, end, length, start_time, end_time, channel and guide_id hold the rendered texts, the slug and the guidelink |
| XmlEpgPrograms.NormaliseProgramTimes | backend/app/routers/xmlepg.py:688-704 | a normalised programme's times and texts are those of the parsed times rounded to the minute, and its length is their difference |
| XmlEpgPrograms.FilledField | backend/app/routers/xmlepg.py:716-720 | a written field other than categories ends as its filled value |
| XmlEpgPrograms.NormaliseProgramFailures | backend/app/routers/xmlepg.py:686-748 | normalising one programme fails exactly when its times fail, it has no `categories`, or its categories list holds a non-string |
| XmlEpgPrograms.CategoriesAfterFilling | backend/app/routers/xmlepg.py:716-723 | the categories the normaliser sees are the input's, filled |
| XmlEpgPrograms.CategoriesFailure | backend/app/routers/xmlepg.py:716-739 | filled categories fail to normalise exactly when they are a list holding a non-string |
| XmlEpgPrograms.GuideIndexGroups | backend/app/routers/xmlepg.py:557-562 | building the guide index fails exactly when some item has no `channel` (KeyError) or a list or dict as its `channel` (TypeError, unhashable); otherwise each channel maps to its items in input order and only channels with items are keys |
| XmlEpgPrograms.BuildGuideIndex | backend/app/routers/xmlepg.py:557-562 | the loop builds exactly that index |
| XmlEpgPrograms.GuideIndexStops | backend/app/routers/xmlepg.py:557-562 | after the first item without a channel, the rest are not looked at |
| XmlEpgPrograms.ChannelGuideRows | backend/app/routers/xmlepg.py:676-679 | a channel's programmes are its guidelink's items when the guidelink is truthy, and nothing otherwise |
| XmlEpgPrograms.ProviderProgramsStops | backend/app/routers/xmlepg.py:675-748 | an error that escapes one channel's loop ends the whole provider |
| XmlEpgPrograms.CollectBy | backend/app/routers/xmlepg.py:686-748 | the loop, for any step and skip test, equals the left-to-right collection of kept results, stopping at the first failure that is not skipped |
| XmlEpgPrograms.NormaliseChannel | backend/app/routers/xmlepg.py:686-748 | the loop keeps the normalised programmes, skips the ones raising KeyError or ValueError, and fails on any other error |
| XmlEpgPrograms.CreateProgramFile | backend/app/routers/xmlepg.py:675-757 | the provider's loop and the dedup give exactly the specified programme list |
| XmlEpgPrograms.Rewritten | backend/app/routers/xmlepg.py:686-741 | the guide row as the block leaves it in place: untouched when its times cannot be read, and the normalised programme when the block completes |
| XmlEpgPrograms.RenormaliseRewritten | backend/app/routers/xmlepg.py:686-741 | when the printed ISO text parses back to the same time, normalising a row the block already rewrote (for another channel or provider) gives what normalising the original row gives |
| XmlEpgPrograms.ProgramFileSources | backend/app/routers/xmlepg.py:675-741 | every programme written comes from some channel's guide rows, normalised with that channel's slug and guidelink |
| XmlEpgChannels.CountProgramsPerChannel | backend/app/routers/xmlepg.py:924-927 | the `Counter` of guide rows per channel; `XmlEpgChannels.CountsAreRows` states it |
| XmlEpgChannels.CountsAreRows | backend/app/routers/xmlepg.py:924-927 | counting fails exactly when some guide row has no "channel" or has a list or dict there (`Counter` cannot hash it); otherwise each channel's count is the number of rows on it and a channel is a key iff some row is on it |
| XmlEpgChannels.SlugOf | backend/app/routers/xmlepg.py:878 | a guidelink is slugged iff it is a string, and then by the `\W+` to "-" rule |
| XmlEpgChannels.SpaceJoinedPair | backend/app/routers/xmlepg.py:899-901 | two truthy strings join with one space between them |
| XmlEpgChannels.SpaceJoinedOne | backend/app/routers/xmlepg.py:899-901 | a single truthy string joins to itself |
| XmlEpgChannels.SpecsCases | backend/app/routers/xmlepg.py:897-903 | channel_specs fails iff a truthy chantype or chancomp is not a string, and is otherwise "type comp", the one present, or "" |
| XmlEpgChannels.Annotated | backend/app/routers/xmlepg.py:904-919 | the annotated channel has the original keys plus the written ones minus the twelve raw columns; written fields win, untouched fields keep their values |
| XmlEpgChannels.AnnotationFields | backend/app/routers/xmlepg.py:850-903 | the written fields are number, count, logo, names and other data, plus the slug only when one is computed, with the given values |
| XmlEpgChannels.PostProcessFailure | backend/app/routers/xmlepg.py:847-920 | annotating one channel fails iff a truthy guidelink is not a string, the slug fallback is not a string, the counted key (a truthy slug, else the guidelink) is a list or dict, or the specs fail |
| XmlEpgChannels.WrittenNotRaw | backend/app/routers/xmlepg.py:905-919 | no annotation key, and not channel_slug, is among the dropped raw columns |
| XmlEpgChannels.AnnotatedFields | backend/app/routers/xmlepg.py:848-920 | keys after annotation are the kept originals plus the annotation keys (and slug when computed); other fields are unchanged; number, count and slug are the computed ones |
| XmlEpgChannels.AnnotatedKeys | backend/app/routers/xmlepg.py:904-919 | the key set after annotation, as above |
| XmlEpgChannels.AnnotatedValues | backend/app/routers/xmlepg.py:850-883 | number, program count and (when computed) slug are present with the computed values |
| XmlEpgChannels.PostProcess | backend/app/routers/xmlepg.py:850-920 | one channel of `post_process_channels`; `XmlEpgChannels.PostProcessFields` and `XmlEpgChannels.Annotated` state it |
| XmlEpgChannels.PostProcessFields | backend/app/routers/xmlepg.py:850-920 | a preset number other than None or "N/A" is kept, else the fta1, then fox, then fet LCN, else "N/A"; a truthy guidelink gives the slug; the count is looked up by the old slug or the slugged guidelink, 0 when missing |
| XmlEpgChannels.PostProcessEntry | backend/app/routers/xmlepg.py:1541-1547 | annotating a merged channel entry succeeds iff its specs do, keeps the entry's number or falls back to the base LCN (the base entry always shows the base LCN), and uses the entry's slug for slug and count |
| XmlEpgChannels.EntryOfText | backend/app/routers/xmlepg.py:850-883 | the same for any entry whose guidelink is a non-empty string and whose slug is that guidelink slugged |
| XmlEpgChannels.EntryFailure | backend/app/routers/xmlepg.py:847-920 | an entry with a non-empty string guidelink fails to annotate iff its specs fail |
| XmlEpgChannels.EntryFields | backend/app/routers/xmlepg.py:850-883 | number, slug and count of an annotated entry, as above |
| XmlEpgChannels.EntryBaseNumber | backend/app/routers/xmlepg.py:855-872 | an entry's LCN columns give the same base number as the channel it came from |
| XmlEpgChannels.SameBaseNumber | backend/app/routers/xmlepg.py:855-872 | the base number depends only on the fta1, fox and fet LCNs |
| XmlEpgChannels.PostProcessChannels | backend/app/routers/xmlepg.py:834-921 | the loop computes the one-to-one annotation of the raw channels, failing at the first channel that fails |
| XmlEpgChannels.PostProcessChannelsOneToOne | backend/app/routers/xmlepg.py:846-921 | the result succeeds iff every channel annotates, and is then the annotated channels in order, one per input |
| XmlEpgChannels.ProviderLcn | backend/app/routers/xmlepg.py:584-586 | the provider LCN key defaults to "", and "chanlcnfta4" is read as "chanlcnfta1" |
| XmlEpgChannels.ProviderChannelFailure | backend/app/routers/xmlepg.py:590-658 | a provider channel fails iff a needed LCN key is a list or dict, a truthy guidelink is not a string, the guidelink used as a count key is a list or dict, or the specs fail |
| XmlEpgChannels.ProviderChannelFields | backend/app/routers/xmlepg.py:590-658 | keys and unchanged fields as for annotation; the number is the provider number; a truthy guidelink gives the slug; the count is looked up by guidelink, 0 when missing |
| XmlEpgChannels.ProviderNumberCases | backend/app/routers/xmlepg.py:593-608 | a preset number is kept; else the provider LCN column's value when it is not blank or "0"; else "N/A"; only a list or dict key fails |
| XmlEpgChannels.Fta4ReadsFta1 | backend/app/routers/xmlepg.py:584-603 | a provider with "chanlcnfta4" numbers its channels by chanlcnfta1 |
| XmlEpgChannels.ChannelItem | backend/app/routers/xmlepg.py:590-608 | a dict item is annotated; a list item fails with TypeError when it holds "channel_number" or the provider has no LCN column, else with AttributeError; any other item with AttributeError |
| XmlEpgChannels.ChannelFileOneToOne | backend/app/routers/xmlepg.py:589-660 | the channels file succeeds iff every channel does and then holds one updated channel per provider channel, in order |
| XmlEpgChannels.WriteChannelFile | backend/app/routers/xmlepg.py:579-663 | the loop builds exactly the channels file |
| XmlEpgChannels.SourceEntry | backend/app/routers/xmlepg.py:665-673 | the source entry has id "xmlepg_" plus the provid, and group, subgroup, location and url from the provider or "Unknown" |
| XmlEpgChannels.ProviderExportCovers | backend/app/routers/xmlepg.py:552-775 | the export succeeds iff every provider with a provid does; then it has one file set and one source entry per such provider, in order |
| XmlEpgChannels.ActiveProviders | backend/app/routers/xmlepg.py:566-570 | the providers processed are exactly those with a truthy provid, in order |
| XmlEpgChannels.CreateProviderProgramFiles | backend/app/routers/xmlepg.py:552-775 | the loop computes exactly the export |
| XmlEpgChannels.SelectPrefixFailure | backend/app/routers/xmlepg.py:566-775 | once a provider fails, the export's outcome is that failure |
| XmlEpgChannels.WriteProviderFiles | backend/app/routers/xmlepg.py:572-775 | the per-provider steps compute exactly that provider's output |
| XmlEpgChannels.LinksOfItemsMembers | backend/app/routers/xmlepg.py:444-447 | collecting fails iff some channel is not a dict or has a truthy list or dict guidelink (the set cannot hold it); otherwise a value is collected iff some channel has it as a truthy guidelink |
| XmlEpgChannels.GuidelinksMembers | backend/app/routers/xmlepg.py:441-448 | extraction fails iff some provider's channels are not a list of dicts, or some truthy guidelink is a list or dict; otherwise a value is in the set iff some channel of some provider links to it |
| XmlEpgChannels.GuidelinksTruthy | backend/app/routers/xmlepg.py:446-447 | every extracted guidelink is truthy |
| XmlEpgChannels.ExtractUniqueGuidelinks | backend/app/routers/xmlepg.py:441-448 | the nested loop computes exactly the guidelink set |
| XmlEpgChannels.CollectLinks | backend/app/routers/xmlepg.py:444-447 | the inner loop computes exactly one provider's links |
| XmlEpgChannels.LinksOfItemsFailure | backend/app/routers/xmlepg.py:444-447 | a failure in a prefix of the channels is the failure of the whole |
| XmlEpgChannels.GuidelinksFailure | backend/app/routers/xmlepg.py:443-447 | a failure in a prefix of the providers is the failure of the whole |
| XmlEpgChannels.SqlInClauseOrderFree | backend/app/routers/xmlepg.py:451-453 | the IN clause depends only on the set of links, not their order |
| XmlEpgChannels.SqlInClause | backend/app/routers/xmlepg.py:451-453 | `format_sql_in_clause`; `XmlEpgChannels.SqlInClauseContents` and `XmlEpgChannels.SqlInClauseOrderFree` state it |
| XmlEpgChannels.SqlInClauseContents | backend/app/routers/xmlepg.py:451-453 | the clause is parenthesised, quotes every link, and lists them in sorted order |
| NowNext.ByStartPreorder | backend/app/routers/nownext.py:110-113 | ordering programmes by start instant is a total preorder |
| NowNext.FindNowNextLoop | backend/app/routers/nownext.py:77-104 | the indexed loop with its early breaks computes exactly the now/next pair, or the exception of the end time it could not read |
| NowNext.FindNowNext | backend/app/routers/nownext.py:79-103 | `find_now_next` on start-sorted programmes, reading each visited programme's end; `NowNext.FindNowNextFails`, `NowNext.CurrentIsFirstLive`, `NowNext.NextAfterCurrent` and `NowNext.NextWithoutCurrent` state what it raises and picks |
| NowNext.FindNowNextFails | backend/app/routers/nownext.py:79-86 | the search raises iff it reaches a programme whose `end_time` cannot be read before one airing now or starting later, and with that programme's exception |
| NowNext.CurrentIsFirstLive | backend/app/routers/nownext.py:79-88 | on programmes sorted by start, a search that does not raise finds as current the first programme with start <= now < end |
| NowNext.NextWithoutCurrent | backend/app/routers/nownext.py:101-103 | with no live programme a search that does not raise has no current one, and next is the first that starts after now |
| NowNext.NextAfterCurrent | backend/app/routers/nownext.py:87-100 | when a current programme is found, next is the first later programme starting at or after its end, and none iff no later one does |
| NowNext.ChannelKey | backend/app/routers/nownext.py:71-74 | the dedup key is (channel_id, channel_number); a missing one raises KeyError naming it |
| NowNext.UniqueChannels | backend/app/routers/nownext.py:71-74 | the `unique_channels` comprehension keyed by (channel_id, channel_number); `NowNext.UniqueChannelsLastWins` states it |
| NowNext.UniqueChannelsLastWins | backend/app/routers/nownext.py:71-74 | dedup fails iff some channel lacks a key (KeyError) or has a list or dict as its id or number (TypeError), with the first such channel's error; kept keys are distinct, a key is kept iff some channel has it, and the channel kept is the last one with it |
| NowNext.ChannelProgrammes | backend/app/routers/nownext.py:109-113 | the `sorted` call over the generator: the generator is drained first (KeyError if any record lacks `channel`), then the keys of the selected records are computed in order, stopping at the first exception, then a TypeError for mixed naive and aware starts, else sorted by start; `NowNext.ChannelProgrammesSelected` states it |
| NowNext.ChannelProgrammesSelected | backend/app/routers/nownext.py:109-113 | a record without `channel` anywhere raises KeyError before any key is read; else the first record on the channel with an unreadable `start_time` raises its exception; otherwise TypeError iff naive and aware starts are mixed, else a start-sorted permutation of exactly the programmes on the channel |
| NowNext.ChannelProgrammesReadFails | backend/app/routers/nownext.py:109-113 | a missing `channel` in any record gives KeyError whatever the start times; otherwise reading the keys fails iff some record on the channel has an unreadable start, with the first such record's exception |
| NowNext.ChannelProgrammesSorted | backend/app/routers/nownext.py:110-113 | once all are read, TypeError iff the starts mix naive and aware times, else sorted by start key and a permutation |
| NowNext.ChannelProgrammesMembers | backend/app/routers/nownext.py:111 | the programmes read are exactly the records whose `channel` is the slug, each read from its own record |
| NowNext.ChannelProgrammesByStart | backend/app/routers/nownext.py:110-113 | with offsets on the start times, the sorted programmes are in order of start instant, the order the now/next search relies on |
| NowNext.Parts | backend/app/routers/nownext.py:149-153 | the duration split into days, hours and minutes with hours below 24 and minutes below 60, summing to the whole minutes |
| NowNext.PartsForms | backend/app/routers/nownext.py:152-158 | minutes only below an hour, hours and minutes below a day, days from a day on |
| NowNext.LengthText | backend/app/routers/nownext.py:148-158 | the `lengthstring` text of a duration; `NowNext.LengthTextShape` and the three form lemmas state its shape |
| NowNext.LengthTextShape | backend/app/routers/nownext.py:148-158 | the length text ends in " Min", has " Hr " iff at least an hour, and has " Day(s) " iff at least a day |
| NowNext.MinutesTextShape | backend/app/routers/nownext.py:158 | the minutes-only text ends in " Min" and has neither " Hr " nor " Day(s) " |
| NowNext.HoursTextShape | backend/app/routers/nownext.py:156 | the hours text ends in " Min", contains " Hr " and has no " Day(s) " |
| NowNext.DaysTextShape | backend/app/routers/nownext.py:154 | the days text ends in " Min" and contains both " Hr " and " Day(s) " |
| NowNext.FormatProgram | backend/app/routers/nownext.py:141-170 | formatting raises the exception of an unreadable `end_time`, then KeyError for a missing title or subtitle; otherwise the nine fields come from the programme, with the times in the zone and the length text |
| NowNext.NowNextLoop | backend/app/routers/nownext.py:107-133 | the loop over the unique channels computes exactly the now/next data |
| NowNext.NowNextData | backend/app/routers/nownext.py:107-133 | the response data: one entry per unique channel with its now and next programmes; `NowNext.NowNextDataOneToOne` states it |
| NowNext.NowNextDataOneToOne | backend/app/routers/nownext.py:107-133 | one entry per unique channel, in order, each that channel's entry |
| NowNext.ChannelEntryFields | backend/app/routers/nownext.py:108-133 | an entry exists only when the programmes are read and the search does not raise; it holds the channel's fields, and a current or next programme exactly when the search finds one, each formatted |
| NowNext.ChannelEntryRaises | backend/app/routers/nownext.py:109-125 | an entry raises the exception of the channel's programmes, else of the search, and fails when a channel field is missing |
| Epg.TimeField | backend/app/routers/epg.py:38-43 | reading a timestamp fails with KeyError when the key is missing, AttributeError when it is not text, ValueError when it does not parse, and otherwise gives the parsed time |
| Epg.ProgramOverlapsDate | backend/app/routers/epg.py:35-55 | the overlap test fails with the start's error, else the end's, and succeeds iff both timestamps read |
| Epg.OverlapsShareInstant | backend/app/routers/epg.py:44-55 | for an ordered programme and day, the test holds iff some instant lies in both the programme and the day, bounds included |
| Epg.GetAllChannels | backend/app/routers/epg.py:58-59 | the slugs of the channels, one per channel in order; a channel without channel_slug raises KeyError |
| Epg.CategoryTexts | backend/app/routers/epg.py:69-84 | a list of texts is lower-cased item by item, any other item raising AttributeError; a text iterates as its lower-cased characters; anything else raises TypeError |
| Epg.HasKeyword | backend/app/routers/epg.py:68-79 | no "categories" key means no match |
| Epg.HasKeywordIff | backend/app/routers/epg.py:68-78 | for keywords without spaces, a match holds iff some keyword is inside some lower-cased category |
| Epg.SportsKeywordsPlain | backend/app/routers/epg.py:70-77 | the sports keywords contain no spaces |
| Epg.MoviesKeywordsPlain | backend/app/routers/epg.py:85-87 | the movies keyword contains no spaces |
| Epg.IsSportsProgram | backend/app/routers/epg.py:67-79 | `is_sports_program`: false without a "categories" key, else whether a sports keyword occurs in the lower-cased categories; `Epg.IsSportsProgramIff` states it |
| Epg.IsSportsProgramIff | backend/app/routers/epg.py:67-79 | sports iff categories exist and some sports keyword is inside some lower-cased category; category errors propagate |
| Epg.IsMoviesProgram | backend/app/routers/epg.py:82-89 | `is_movies_program`: whether "movie" occurs in the lower-cased categories; `Epg.IsMoviesProgramIff` states it |
| Epg.IsMoviesProgramIff | backend/app/routers/epg.py:82-89 | movies iff categories exist and "movie" is inside some lower-cased category; category errors propagate |
| Epg.SportsKeywordRedundant | backend/app/routers/epg.py:70-78 | "sports" adds nothing to the list, since "sport" is inside it |
| Epg.TextCategoriesNeverMatch | backend/app/routers/epg.py:69-78 | categories given as one text are joined one character at a time, so no keyword longer than one character can match |
| Records.IsoField | backend/app/utils/time_utils.py:18-19 | `datetime.fromisoformat(program[key])` fails with KeyError for a missing key, TypeError for a non-text value and ValueError for unreadable text, and otherwise gives the parsed time |
| Epg.ReadForAdjust | backend/app/utils/time_utils.py:17-42 | a record is read by its start, then its end, then, only when it crosses a local date and its local end is after 00:00:00 (`TimeUtils.HasContinuation`), its title; the first failure is the exception, otherwise the record's fields with both times |
| Epg.ProgrammingByChannel | backend/app/routers/epg.py:168-189 | `get_programming_by_channel` after loading: not-found, the first exception of `adjust_programming`, or the channel and its adjusted, filled dates; `Epg.ProgrammingByChannelFails` and `Epg.ProgrammingByChannelFound` state it |
| Epg.ProgrammingByChannelFails | backend/app/routers/epg.py:168-183 | the route fails with not-found iff no programme is on the channel or no channel has the slug; otherwise it fails iff some programme on the channel cannot be read by `adjust_programming`, and then with the exception of the first such programme |
| Epg.ProgrammingByChannelNotFound | backend/app/routers/epg.py:168-183 | `ProgrammingNotFoundError` iff no programme is on the channel or no channel has the slug |
| Epg.ProgrammingByChannelRaised | backend/app/routers/epg.py:168-183 | an exception from `adjust_programming` iff the route found its data and some programme on the channel cannot be read; it is the first such programme's |
| Epg.ProgrammingByChannelFound | backend/app/routers/epg.py:168-189 | on success the channel is the first with the slug, every programme on it is read one to one and in order, and the dates are those of the adjusted programmes, each with its filled programme list |
| Epg.Matches | backend/app/routers/epg.py:375-377 | the sports route uses the sports test, and the movies route (line 485) the movies test |
| Epg.WindowStart | backend/app/routers/epg.py:365-367 | the window starts at local midnight of today, in the same offset |
| Epg.WindowEnd | backend/app/routers/epg.py:368 | the window ends the given number of days after its start |
| Epg.FindChannel | backend/app/routers/epg.py:378-381 | nothing is found iff no channel has the slug; what is found has it and is in the list; a channel without channel_slug before the match raises KeyError |
| Epg.FindChannelFirst | backend/app/routers/epg.py:378-381 | the first channel with the slug is the one found |
| Epg.ProcessProgram | backend/app/routers/epg.py:320-342 | processing succeeds iff both times read and a title exists, and gives the local start date and the programme's title, local times, description and categories |
| Epg.Examine | backend/app/routers/epg.py:374-388 | a programme is gathered iff its start reads, lies in the window, it passes the route's test, and its channel is found; then it is processed |
| Epg.Gathered | backend/app/routers/epg.py:374-388 | the gathering loop's kept programmes in input order, or its first exception; `Epg.GatheredMembers` states which |
| Epg.GatheredMembers | backend/app/routers/epg.py:374-388 | gathering succeeds iff every programme examines; what is gathered is exactly the programmes examined as gathered |
| Epg.WindowNotFound | backend/app/routers/epg.py:390-393 | the route fails with not-found iff nothing is gathered; an exception while gathering is raised |
| Epg.GroupChannelFound | backend/app/routers/epg.py:382-388 | every channel group has a channel in the list |
| Epg.EntryOfFound | backend/app/routers/epg.py:405-423 | a group whose channel is found gives an entry with that slug and those programmes |
| Epg.WindowComplete | backend/app/routers/epg.py:395-425 | the response lists one channel per group, in order, with the group's slug and per-date programmes |
| Epg.ExamineProgram | backend/app/routers/epg.py:374-388 | one step of the gathering loop examines exactly one programme |
| Epg.GatherPrograms | backend/app/routers/epg.py:370-388 | the loop gathers exactly the programmes examined, grouped by channel and then by date |
| Epg.EntryFor | backend/app/routers/epg.py:406-423 | one step of the response loop builds exactly the channel's entry |
| Epg.ChannelEntries | backend/app/routers/epg.py:405-423 | the loop builds exactly the entries of the groups whose channel is found |
| Epg.WindowProgramming | backend/app/routers/epg.py:346-425 | the sports and movies routes after loading: the gathered programmes by channel and date, or not-found; `Epg.WindowNotFound` and `Epg.WindowComplete` state it |
| Epg.GetWindowProgramming | backend/app/routers/epg.py:346-425 | the route computes exactly the window response |
| Epg.Block | backend/app/routers/epg.py:410-418 | the channel part of a response entry copies six metadata fields, and a missing field raises `KeyError` for the first one missing |
| XmlProcessing.ChildText | backend/app/utils/xml_processing.py:15-17 | a child's text when the child exists and has text, "N/A" otherwise |
| XmlProcessing.FindIn | backend/app/utils/xml_processing.py:31 | the "rating/value" path lookup finds an element with the inner tag, or nothing |
| XmlProcessing.EpisodeTexts | backend/app/utils/xml_processing.py:22-29 | the loop leaves the text of the last SxxExx and of the last original-air-date episode-num |
| XmlProcessing.LastTextIsLast | backend/app/utils/xml_processing.py:24-29 | no episode-num of the system gives nothing; otherwise the text of the last one of that system |
| XmlProcessing.ParseAttr | backend/app/utils/xml_processing.py:20-21 | a start or stop attribute (default "") parses iff the parser accepts it; otherwise the ValueError carries the text |
| XmlProcessing.ProcessProgramElement | backend/app/utils/xml_processing.py:19-58 | the method builds exactly the programme record |
| XmlProcessing.HourMinute | backend/app/utils/xml_processing.py:40-42 | `strftime("%H:%M")`: the hour and minute of the wall clock, two digits each |
| XmlProcessing.ProcessProgram | backend/app/utils/xml_processing.py:19-58 | `process_program` on an element record; `XmlProcessing.ProcessProgramFields` states its failures and fields |
| XmlProcessing.ProcessProgramFields | backend/app/utils/xml_processing.py:19-58 | fails iff start or stop does not parse; otherwise times keep their offsets, the length is the duration text, the channel is the slugged attribute, missing texts are "N/A", the categories are exactly the category texts that exist, and the episode is "N/A" iff there is no SxxExx text |
| XmlProcessing.ChannelInfo | backend/app/utils/xml_processing.py:70-108 | id from the attribute; number and url from lcn and url children or "N/A"; for an "xmltvnet" file with a display name the name is cleaned, the group looked up and the logo is "/logos/" plus the lower-cased slug plus ".png"; otherwise the group is "Unknown" |
| XmlProcessing.ChannelRecord | backend/app/utils/xml_processing.py:110-128 | the channel record holds the id and its slug |
| XmlProcessing.KeptChannels | backend/app/utils/xml_processing.py:68-78 | the channel elements kept by the duplicate-id skip; `XmlProcessing.KeptChannelsDistinct` and `XmlProcessing.KeptChannelsFirstWins` state it |
| XmlProcessing.KeptChannelsDistinct | backend/app/utils/xml_processing.py:68-78 | the kept channels have distinct ids and cover every id of the channel elements |
| XmlProcessing.KeptChannelsFirstWins | backend/app/utils/xml_processing.py:71-78 | a channel element whose id has not appeared before is kept |
| XmlProcessing.ReadChild | backend/app/utils/xml_processing.py:69-129 | a channel element is skipped iff its id is already kept, and otherwise yields its fields |
| XmlProcessing.KeptChannelsSnoc | backend/app/utils/xml_processing.py:69-129 | one more channel element appends its fields unless its id is already kept |
| XmlProcessing.KeptChannelsOther | backend/app/utils/xml_processing.py:68-132 | a non-channel element leaves the kept channels unchanged |
| XmlProcessing.ChannelStep | backend/app/utils/xml_processing.py:69-129 | one step of the loop keeps the kept list and the record list in step |
| XmlProcessing.ReadChildren | backend/app/utils/xml_processing.py:66-132 | the loop over the root's children computes the kept channel records and the programmes, failing with the first programme that fails |
| XmlProcessing.OverrideMap | backend/app/utils/xml_processing.py:139-148 | no override file gives an empty map; building fails iff some entry with a truthy id has an id that cannot be a dict key |
| XmlProcessing.BuildOverrideMap | backend/app/utils/xml_processing.py:139-148 | the loop builds exactly the override map |
| XmlProcessing.AssignByKey | backend/app/utils/xml_processing.py:144-148 | for any key, the comprehension fails with TypeError iff some keyed entry has an unhashable key, and otherwise assigns the keyed entries in order, later ones replacing earlier ones |
| XmlProcessing.AssignedPairs | backend/app/utils/xml_processing.py:144-148 | assigning entries one at a time equals assigning the list of keyed pairs |
| XmlProcessing.OverrideMapEntries | backend/app/utils/xml_processing.py:144-148 | an id is in the map iff some entry has it, and maps to the last such entry |
| XmlProcessing.CountKey | backend/app/utils/xml_processing.py:174-177 | the count key is channel_slug when present, else the slugged channel_id; a non-string channel_id fails |
| XmlProcessing.CountOf | backend/app/utils/xml_processing.py:170-179 | an unhashable key fails; a non-string key counts 0; a string key counts the programmes on that channel |
| XmlProcessing.CountedRecord | backend/app/utils/xml_processing.py:170-179 | a channel read from the file gets the count of programmes on its slugged id, the slug written at line 113 |
| XmlProcessing.RecordsDistinct | backend/app/utils/xml_processing.py:110-113 | distinct field ids give distinct record ids |
| XmlProcessing.DatacheckCounted | backend/app/utils/xml_processing.py:155-179 | counting the unchanged channels never fails and gives the counted channels no override replaced |
| XmlProcessing.OutputShape | backend/app/utils/xml_processing.py:154-183 | the channel list is the overlaid list with its counts, one per entry, the programmes are unchanged and the datacheck list is the counted channels no override replaced |
| XmlProcessing.ProcessXmlChannels | backend/app/utils/xml_processing.py:60-183 | the channels written are the file's channels in order, each replaced by its override when there is one, then the leftover overrides; the datacheck holds the channels no override replaced; every entry has its programme count |
| XmlProcessing.ProcessXml | backend/app/utils/xml_processing.py:60-183 | the three files `process_xml_file` writes, or its first exception; `XmlProcessing.OutputShape` and `XmlProcessing.ProcessXmlChannels` state them |
| XmlProcessing.ProcessXmlFile | backend/app/utils/xml_processing.py:60-183 | the method computes exactly the three files |
| Sources.MergedSources | backend/app/routers/sources.py:188-202 | the merged source list, main sources first, then local ones, by id, or TypeError for an id that is a list or dict; `Sources.MergeOverrides` states it |
| Sources.MergeSources | backend/app/routers/sources.py:188-202 | the two loops compute exactly the merged list, stopping at the first unhashable id |
| Sources.LastWithIdIsLast | backend/app/routers/sources.py:192-199 | an id is found iff some source has it, and the one found is the last source with it |
| Sources.MergeOverrides | backend/app/routers/sources.py:188-202 | merging fails (TypeError) iff some main or local source has a list or dict as its id; the merged entry of an id is the last local source with it, else the last main source with it; merged ids are distinct |
| Sources.CreateSource | backend/app/routers/sources.py:689-702 | creating fails with a conflict iff some source has the id, and otherwise appends exactly the new entry |
| Sources.CreateSourceLoop | backend/app/routers/sources.py:689-702 | the loop computes exactly the create rule |
| Sources.FirstIndex | backend/app/routers/sources.py:736-737 | the index found is the first source with the id; none is found iff no source has it |
| Sources.UpdateSource | backend/app/routers/sources.py:735-747 | the update rule on the source list; `Sources.UpdateSourceReplacesFirst` states it |
| Sources.UpdateSourceReplacesFirst | backend/app/routers/sources.py:735-747 | updating fails iff no source has the id; otherwise only the first source with it is replaced, by the entry with its id forced to the path id, and the length is kept |
| Sources.UpdateSourceLoop | backend/app/routers/sources.py:735-747 | the loop computes exactly the update rule |
| Sources.FirstIndexAt | backend/app/routers/sources.py:736-737 | the first position holding the id is the index found |
| Sources.DeleteSource | backend/app/routers/sources.py:780-784 | the delete rule on the source list; `Sources.DeleteSourceRemoves` states it |
| Sources.DeleteSourceRemoves | backend/app/routers/sources.py:780-784 | deleting fails iff no source has the id; otherwise it keeps exactly the sources with another id, in order |
| Sources.GetSource | backend/app/routers/sources.py:660-662 | getting fails iff no source has the id, and otherwise returns the first source with it |
| Sources.FileName | backend/app/routers/sources.py:486-506 | the additional-data file name ends in "_additionaldata.json" and starts with "xmlepg_" for an xmlepg source |
| Sources.FindAdditionalDataFile | backend/app/routers/sources.py:509-529 | the regular name when it exists, else the xmlepg name when that exists, else nothing; what is found exists |
| Sources.IdAsWritten | backend/app/routers/sources.py:548-555 | the id the source slices from a file name, `file[7:-19]` or `file[:-19]`; `Sources.IdAsWrittenKeepsSeparator` states that it keeps the "_" |
| Sources.IdAsWrittenKeepsSeparator | backend/app/routers/sources.py:548-555 | as written, the id read back from a source's file name is the id with "_" appended, and it names a different file |
| Sources.IdOfFile | backend/app/routers/sources.py:548-555 | the corrected slice, `file[7:-20]` or `file[:-20]`; `Sources.IdOfFileRoundTrip` states that it gives back the id |
| Sources.IdOfFileRoundTrip | backend/app/routers/sources.py:548-555 | with the whole 20-character suffix removed, the id read back is the source's id |
| Sources.Discover | backend/app/routers/sources.py:545-566 | the additional-data files of a listing, in order, each with the as-written id; `Sources.DiscoveredIdKeepsSeparator` states the ids |
| Sources.DiscoveredIdKeepsSeparator | backend/app/routers/sources.py:548-555 | every discovered id is the id its file was named for followed by "_"; the file is the name of the id without it, and the discovered id names a different file |
| Sources.DiscoverAdditionalDataFiles | backend/app/routers/sources.py:545-566 | the loop over the listing discovers exactly the additional-data files, in order, each with its id sliced as written (`file[7:-19]` or `file[:-19]`) |
| Freeview.NumberMatch | frontend/src/lib/freeview-utils.ts:73-84 | the pattern matches iff the text is digits followed by letters only, and gives the digits' value and the letters, as the pattern of line 2 does |
| Freeview.CompareChannelNumbers | frontend/src/lib/freeview-utils.ts:49-98 | the comparator is at most 0 iff the first number's key (blank last, then "N/A", then unmatched, then by value, letters, text) is not after the second's, and 0 iff the texts are equal |
| Freeview.CompareNumberParts | frontend/src/lib/freeview-utils.ts:72-97 | for two non-blank numbers other than "N/A", the same order on the number, letter and text parts |
| Freeview.KeyLeTotal | frontend/src/lib/freeview-utils.ts:49-98 | any two channel-number keys are ordered one way or the other |
| Freeview.KeyLeTransitive | frontend/src/lib/freeview-utils.ts:49-98 | the channel-number order is transitive |
| Freeview.KeyLeAntisymmetric | frontend/src/lib/freeview-utils.ts:49-98 | two numbers ordered both ways are the same text |
| Freeview.NumberOrder | frontend/src/lib/freeview-utils.ts:49-98 | the channel-number order is a total antisymmetric preorder, so the comparator is consistent |
| Freeview.PushKept | frontend/src/lib/freeview-utils.ts:105-110 | pushing a new entry for a standalone row (NOEPG or "R_" id) keeps the standalone rows one entry each, in order |
| Freeview.PushListed | frontend/src/lib/freeview-utils.ts:105-125 | a new entry keeps every grouped entry listing the numbers of all rows with its id and specs |
| Freeview.PushCovered | frontend/src/lib/freeview-utils.ts:105-125 | a new entry keeps every grouped row covered by an entry with its key |
| Freeview.AbsorbNew | frontend/src/lib/freeview-utils.ts:105-125 | a row with no existing entry, or a standalone row, added as a new entry keeps the summary invariant |
| Freeview.ExtendListed | frontend/src/lib/freeview-utils.ts:112-119 | a row appended to the entry with its key keeps every entry listing exactly its rows' numbers |
| Freeview.ExtendCovered | frontend/src/lib/freeview-utils.ts:112-119 | extending an entry keeps every row covered |
| Freeview.ExtendKept | frontend/src/lib/freeview-utils.ts:112-119 | extending an entry leaves the standalone entries as they were |
| Freeview.ExtendRest | frontend/src/lib/freeview-utils.ts:117-119 | an extended entry keeps its first number and is grouped iff it has more than one number; grouped keys stay distinct |
| Freeview.AbsorbExisting | frontend/src/lib/freeview-utils.ts:112-119 | a row absorbed into the entry with its key keeps the summary invariant |
| Freeview.AbsorbSummarises | frontend/src/lib/freeview-utils.ts:104-128 | one step of the reduce keeps the summary invariant |
| Freeview.Merged | frontend/src/lib/freeview-utils.ts:104-129 | the entries after the reduce over the rows; `Freeview.MergedSummarises` states them |
| Freeview.MergedSummarises | frontend/src/lib/freeview-utils.ts:104-129 | the merged entries list each row's number exactly once, keep standalone rows alone and in order, list for every other (id, specs) key the numbers of all its rows in order, mark an entry grouped iff it has more than one number, and have distinct keys |
| Freeview.CompareEntries | frontend/src/lib/freeview-utils.ts:132-141 | entries compare by their first channel number, then by location name |
| Freeview.EntryOrder | frontend/src/lib/freeview-utils.ts:132-141 | the entry order is a total preorder |
| Freeview.ProcessedChannels | frontend/src/lib/freeview-utils.ts:103-144 | `processChannels`: the merged entries, sorted; `Freeview.ProcessedChannelsSorted` states it |
| Freeview.ProcessedChannelsSorted | frontend/src/lib/freeview-utils.ts:103-144 | the result is sorted by the entry order and is a permutation of the merged entries, which summarise the rows |
| Freeview.ProcessChannels | frontend/src/lib/freeview-utils.ts:103-144 | the method computes exactly the sorted merged entries |
| Freeview.GroupChannelsByNetwork | frontend/src/lib/freeview-utils.ts:149-163 | one group per channel_group present, holding exactly its channels in order |
| Freeview.CompareNetworksMeans | frontend/src/lib/freeview-utils.ts:168-177 | unless both are "Ungrouped", the comparator is at most 0 iff the first network is not after the second ("Ungrouped" last), and 0 iff equal |
| Freeview.NetworkOrder | frontend/src/lib/freeview-utils.ts:168-177 | the network order is a total antisymmetric preorder |
| Freeview.SortNetworks | frontend/src/lib/freeview-utils.ts:168-177 | `sortNetworks`; `Freeview.SortNetworksSorted` states it |
| Freeview.SortNetworksSorted | frontend/src/lib/freeview-utils.ts:168-177 | the sort is a permutation, with "Ungrouped" after every other name and the rest in order |
| Freeview.FilterFreeviewSources | frontend/src/lib/freeview-utils.ts:183-192 | `filterFreeviewSources`; `Freeview.FilterFreeviewSourcesKeeps` states which sources are kept |
| Freeview.FilterFreeviewSourcesKeeps | frontend/src/lib/freeview-utils.ts:183-192 | kept are exactly the "Australia" sources whose subgroup has "FTA" and none of "Streaming", "All Regions" and "by Network" |
| Freeview.GroupAndSortSources | frontend/src/lib/freeview-utils.ts:197-217 | one group per subgroup present, holding a permutation of exactly its sources, sorted by location |
| Freeview.InitialOpenGroups | frontend/src/lib/freeview-utils.ts:222-246 | every group starts closed; exactly one key is open iff a non-empty selected id names some source, and it is the first such source's subgroup (added when it is not a group) |
| ChannelMap.ShouldExclude | frontend/src/components/vast-channel-list/channel-map-utils.ts:4-27 | a West Digital Television network is kept only in WA, and a Southern Cross network naming WA, NT or QLD only in that state; nothing else is excluded |
| ChannelMap.NetworkName | frontend/src/components/vast-channel-list/channel-map-utils.ts:37 | `channel.channel_group || "Other"`; `ChannelMap.CollectedKey` states its use |
| ChannelMap.CollectedKey | frontend/src/components/vast-channel-list/channel-map-utils.ts:35-41 | a network is collected iff some channel has it as its group, "Other" for an empty group |
| ChannelMap.CollectedNumber | frontend/src/components/vast-channel-list/channel-map-utils.ts:35-45 | a number is collected under a network iff it is non-empty and some channel of that network has it |
| ChannelMap.CollectedNetworks | frontend/src/components/vast-channel-list/channel-map-utils.ts:30-50 | both facts above, for every network and number |
| ChannelMap.CollectedSnoc | frontend/src/components/vast-channel-list/channel-map-utils.ts:36-46 | one more channel adds its network and, when non-empty, its number |
| ChannelMap.CollectChannelNumbers | frontend/src/components/vast-channel-list/channel-map-utils.ts:30-50 | the nested loop collects exactly the networks and numbers |
| ChannelMap.CellOfState | frontend/src/components/vast-channel-list/channel-map-utils.ts:67-82 | a state is in a cell iff it is not excluded for the network, has channels, and one matches the number and group; the cell holds the first match |
| ChannelMap.CellOfStates | frontend/src/components/vast-channel-list/channel-map-utils.ts:67-82 | the same for every state |
| ChannelMap.StateCells | frontend/src/components/vast-channel-list/channel-map-utils.ts:67-82 | the loop over the states builds exactly the cell |
| ChannelMap.NetworkRow | frontend/src/components/vast-channel-list/channel-map-utils.ts:61-84 | the loop over the numbers builds exactly the network's row |
| ChannelMap.GridFromRows | frontend/src/components/vast-channel-list/channel-map-utils.ts:53-88 | rows built for every collected network make up the channel map |
| ChannelMap.Rows | frontend/src/components/vast-channel-list/channel-map-utils.ts:60-85 | the loop over the networks builds one row per collected network |
| ChannelMap.GetChannelMap | frontend/src/components/vast-channel-list/channel-map-utils.ts:53-88 | the method builds exactly the channel map |
| ChannelMap.GridNetworks | frontend/src/components/vast-channel-list/channel-map-utils.ts:53-88 | the map's networks are the channels' networks, and its numbers under a network the non-empty numbers of that network's channels |
| ChannelMap.GridOf | frontend/src/components/vast-channel-list/channel-map-utils.ts:53-88 | the network × number × state map; `ChannelMap.GridStates`, `ChannelMap.GridNetworks` and `ChannelMap.GridChannels` state it |
| ChannelMap.GridStates | frontend/src/components/vast-channel-list/channel-map-utils.ts:53-88 | a state is in a cell iff it is not excluded, has the network's channel with that number, and the cell holds the first such channel |
| ChannelMap.CellOfChannels | frontend/src/components/vast-channel-list/channel-map-utils.ts:74-81 | a cell's channels have the cell's network as group and its number |
| ChannelMap.GridChannels | frontend/src/components/vast-channel-list/channel-map-utils.ts:74-81 | no network is named "", and every channel in the map has its network (line 37 puts a channel without one under "Other") and number |
| ChannelMap.MatchesFilters | frontend/src/components/vast-channel-list/channel-map-utils.ts:105-169 | `channelMatchesFilters`; `ChannelMap.MatchesFiltersMeans` states it |
| ChannelMap.MatchesFiltersMeans | frontend/src/components/vast-channel-list/channel-map-utils.ts:105-169 | a channel matches iff each non-empty selection contains its network, truthy type or truthy specs, and a non-empty search is a case-insensitive substring of one of the six fields |
| ChannelMap.SearchIgnoresCase | frontend/src/components/vast-channel-list/channel-map-utils.ts:152-165 | searches that lower-case alike match alike |
| ChannelMap.NoFiltersMatchAll | frontend/src/components/vast-channel-list/channel-map-utils.ts:105-169 | with no filters every channel matches |
| ChannelMap.GetFilteredChannelMap | frontend/src/components/vast-channel-list/channel-map-utils.ts:172-231 | the loops compute exactly the filtered map |
| ChannelMap.FilteredGrid | frontend/src/components/vast-channel-list/channel-map-utils.ts:188-228 | the filtered map; `ChannelMap.FilteredGridMeans` and `ChannelMap.FilteredGridIdempotent` state it |
| ChannelMap.FilteredGridMeans | frontend/src/components/vast-channel-list/channel-map-utils.ts:188-228 | no filters return the map unchanged; otherwise no network is left empty and a number is kept iff its network is selected and some state's channel matches; kept cells are unchanged |
| ChannelMap.FilteredGridIdempotent | frontend/src/components/vast-channel-list/channel-map-utils.ts:172-231 | filtering twice is filtering once |
| ChannelMap.LabelsOfMembers | frontend/src/components/vast-channel-list/channel-map-utils.ts:237-244 | the collected labels have no duplicates and are exactly the truthy labels of the channels |
| ChannelMap.CollectLabels | frontend/src/components/vast-channel-list/channel-map-utils.ts:237-244 | the nested loop collects exactly those labels |
| ChannelMap.SortedLabels | frontend/src/components/vast-channel-list/channel-map-utils.ts:237-245 | the result is sorted, without duplicates, and holds exactly the truthy labels |
| ChannelMap.GetChannelTypes | frontend/src/components/vast-channel-list/channel-map-utils.ts:234-246 | the channel types are sorted, distinct and exactly the truthy types present |
| ChannelMap.GetChannelSpecs | frontend/src/components/vast-channel-list/channel-map-utils.ts:248-260 | the channel specs are sorted, distinct and exactly the truthy specs present |
| ChannelMap.NetworkCount | frontend/src/components/vast-channel-list/channel-map-utils.ts:275-285 | the count is the number of the network's numbers with some matching state |
| ChannelMap.GetNetworkCounts | frontend/src/components/vast-channel-list/channel-map-utils.ts:263-291 | one count per network: its numbers with a state matching the filters other than the network selection |
| ChannelMap.LabelCounts | frontend/src/components/vast-channel-list/channel-map-utils.ts:304-326 | one count per label: the channels counted for that label |
| ChannelMap.GetTypeCounts | frontend/src/components/vast-channel-list/channel-map-utils.ts:293-329 | one count per type: the channels of that type matching the other filters |
| ChannelMap.GetSpecsCounts | frontend/src/components/vast-channel-list/channel-map-utils.ts:331-367 | one count per spec: the channels with those specs matching the other filters |
| ChannelMap.TypeCountIsSelection | frontend/src/components/vast-channel-list/channel-map-utils.ts:304-326 | a type's count is the number of channels that match with that type alone selected |
| ChannelMap.SpecsCountIsSelection | frontend/src/components/vast-channel-list/channel-map-utils.ts:342-364 | a spec's count is the number of channels that match with that spec alone selected |
| ChannelMap.OwnNetworkPasses | frontend/src/components/vast-channel-list/channel-map-utils.ts:278-280 | for a cell of one network, ignoring the network selection is selecting that network alone |
| ChannelMap.RowCountIsSelection | frontend/src/components/vast-channel-list/channel-map-utils.ts:273-288 | a network's count is the size of its row when the map is filtered with that network alone selected |
| ChannelMap.NetworkCountIsSelection | frontend/src/components/vast-channel-list/channel-map-utils.ts:263-291 | the same for every network of a channel map |
| EpgView.CategoryIcon | frontend/src/components/epg/utils.ts:48-63 | `getProgramCategoryIcon` over the source's keyword table; `EpgView.IconFrom` and `EpgView.GameShowShadowed` state it |
| EpgView.IconFrom | frontend/src/components/epg/utils.ts:48-63 | no categories give no icon; otherwise an icon iff some keyword is inside the lower-cased first category, and it is the icon of the first such keyword in table order |
| EpgView.IconOfFirstMatch | frontend/src/components/epg/utils.ts:56-60 | the first keyword inside the category decides the icon |
| EpgView.GameShowShadowed | frontend/src/components/epg/utils.ts:24-60 | as written, "Game Show" gets the Gamepad2 icon of "game", because "game" comes before "game show" |
| EpgView.GameShowFixed | frontend/src/components/epg/utils.ts:35-36 | with "game show" tried before "game", "Game Show" gets the Users icon the table gives it |
| EpgView.GetProgramStatus | frontend/src/components/epg/utils.ts:69-80 | now-playing iff airing; ended iff not airing and past; upcoming otherwise |
| EpgView.StatusWithDetails | frontend/src/components/epg/utils.ts:82-96 | live iff start <= now < end, ended iff now >= end, up next iff now < start, and the status follows live and ended; an unparsed date compares false |
| EpgView.ExactlyOneStatus | frontend/src/components/epg/utils.ts:82-96 | for start <= end exactly one of live, ended and up next holds, and the status names it |
| EpgView.UnparsedIsUpcoming | frontend/src/components/epg/utils.ts:82-96 | with unparsed dates nothing holds and the status is upcoming |
| EpgView.RoundDiv | frontend/src/components/epg/utils.ts:117 | `Math.round` of a quotient is within half of it, and stays in 0..100 for a fraction of 100 |
| EpgView.Progress | frontend/src/components/epg/utils.ts:102-118 | progress is 0 before the start, 100 from the end on, and otherwise the nearest whole percentage of the time elapsed, always in 0..100 |
| EpgView.DensityPadding | frontend/src/components/epg/utils.ts:126-134 | compact gives p-1, detailed p-3, anything else p-2 |
| EpgView.GridCellBorderStyle | frontend/src/components/epg/utils.ts:406-419 | the last day's last slot is rounded, its other slots have a bottom border, other days have right and bottom borders |
| EpgView.ZIndex | frontend/src/components/epg/utils.ts:387-404 | 100 when hovered, selected or showing the tooltip; otherwise 2 iff airing and not past; else 1 |
| EpgView.ProgramIndicators | frontend/src/components/epg/utils.ts:425-434 | new iff flagged new or some lower-cased category contains "new"; premiere likewise with "premiere" |
| EpgView.ChannelName | frontend/src/components/epg/utils.ts:162-167 | the chosen name when it is non-empty, else the clean name |
| EpgView.OrderKeyTotal | frontend/src/components/epg/utils.ts:169-217 | any two sort keys are ordered one way or the other |
| EpgView.OrderKeyTransitive | frontend/src/components/epg/utils.ts:169-217 | the sort-key order is transitive |
| EpgView.KeyedOrder | frontend/src/components/epg/utils.ts:169-217 | a comparison by sort key is a total preorder |
| EpgView.CompareByNumber | frontend/src/components/epg/utils.ts:169-217 | the comparator is at most 0 iff the first channel's key is not after the second's |
| EpgView.HasValidLcn | frontend/src/components/epg/utils.ts:158-160 | `hasValidLCN`: the LCN is neither empty nor "N/A"; `EpgView.ByNumberPriorities` states its use in the order |
| EpgView.ByNumberPriorities | frontend/src/components/epg/utils.ts:169-217 | valid LCNs come first; among them all-digit LCNs come first and compare numerically; the rest compare as text, and channels without LCN by name |
| EpgView.ByNumberOrder | frontend/src/components/epg/utils.ts:169-217 | sorting by number is a total preorder |
| EpgView.CompareByNetwork | frontend/src/components/epg/utils.ts:219-236 | `sortChannelsByNetwork`: the network names looked up by channel id, "" when missing; `EpgView.ByNetworkOrder` states the order |
| EpgView.ByNetworkOrder | frontend/src/components/epg/utils.ts:219-236 | channels of different networks are in order iff their network names are, channels of one network iff their names are, and the comparator is a total preorder |
| EpgView.CompareWithinNetwork | frontend/src/components/epg/utils.ts:238-257 | as written, two valid LCNs compare by parsed number (0 when unparsable), anything else by name |
| EpgView.WithinNetworkCycle | frontend/src/components/epg/utils.ts:238-257 | as written, LCN 1 sorts before LCN 2, LCN 2 before a channel without LCN, and that one before LCN 1, so the comparator is not an order |
| EpgView.CompareWithinNetworkFixed | frontend/src/components/epg/utils.ts:238-257 | the corrected comparator follows a sort key: two valid LCNs compare by number as before, valid before invalid, two invalid by name |
| EpgView.WithinNetworkOrder | frontend/src/components/epg/utils.ts:238-257 | the corrected comparator is a total preorder |
| VerticalTimeline.Round | frontend/src/lib/vertical-timeline-utils.ts:46 | `Math.round` gives the integer within half of its argument, the larger on a tie |
| VerticalTimeline.ClampMonth | frontend/src/lib/vertical-timeline-utils.ts:58 | the month is clamped into 1..12, and NaN stays NaN |
| VerticalTimeline.MonthLabel | frontend/src/lib/vertical-timeline-utils.ts:60-75 | a month in 1..12 names its month, anything else gives "" |
| VerticalTimeline.DecimalFloor | frontend/src/lib/vertical-timeline-utils.ts:24-28 | a "year.month" text parses to a value whose whole part is the year and whose fraction is 0 iff the month digits are all zeros |
| VerticalTimeline.FormatDate | frontend/src/lib/vertical-timeline-utils.ts:58-75 | `formatDate` on a text; the `FormatDate*` lemmas state its cases |
| VerticalTimeline.FormatDateWhole | frontend/src/lib/vertical-timeline-utils.ts:24-30 | a date text whose value is whole is shown as the year |
| VerticalTimeline.FormatDateMonth | frontend/src/lib/vertical-timeline-utils.ts:38-75 | a date text with a fraction and a month in 1..12 is shown as the month name, a space and the year |
| VerticalTimeline.FormatDateDecember | frontend/src/lib/vertical-timeline-utils.ts:58-75 | a month above 12 is shown as December |
| VerticalTimeline.FormatDateOfYear | frontend/src/lib/vertical-timeline-utils.ts:23-30 | a text of digits alone is shown as its year |
| VerticalTimeline.MonthOfYearMonth | frontend/src/lib/vertical-timeline-utils.ts:40-44 | the month of "year.month" is the value of its month digits |
| VerticalTimeline.FormatDateOfYearMonth | frontend/src/lib/vertical-timeline-utils.ts:23-76 | "year.month" shows the year when the month digits are zeros, "Month year" for months 1..12 and December for larger months |
| VerticalTimeline.DateToSortKey | frontend/src/lib/vertical-timeline-utils.ts:83-97 | `dateToSortKey` on a text; `VerticalTimeline.SortKeyOfYearMonth` and `VerticalTimeline.SortKeyChronological` state it |
| VerticalTimeline.SortKeyOfYear | frontend/src/lib/vertical-timeline-utils.ts:84-92 | a year alone has the year as its sort key |
| VerticalTimeline.SortKeyOfParts | frontend/src/lib/vertical-timeline-utils.ts:85-96 | with a month part, the sort key is the year plus the month in hundredths ("0" for an empty year) |
| VerticalTimeline.SortKeyOfReadParts | frontend/src/lib/vertical-timeline-utils.ts:85-96 | the sort key of a split "year.month" text |
| VerticalTimeline.SortKeyOfYearMonth | frontend/src/lib/vertical-timeline-utils.ts:83-97 | the sort key of digits "year.month" is year + month/100 |
| VerticalTimeline.SortKeyOfMonthOnly | frontend/src/lib/vertical-timeline-utils.ts:86-96 | ".month" sorts as year 0 |
| VerticalTimeline.KeyOrder | frontend/src/lib/vertical-timeline-utils.ts:80-96 | for months below 100, sort keys order by year and then month |
| VerticalTimeline.KeyYear | frontend/src/lib/vertical-timeline-utils.ts:299 | for months below 100, the whole part of the sort key is the year |
| VerticalTimeline.SortKeyChronological | frontend/src/lib/vertical-timeline-utils.ts:78-97 | two dates' sort keys are in order iff the dates are, year first then month |
| VerticalTimeline.SortKeyYear | frontend/src/lib/vertical-timeline-utils.ts:299 | a digits "year.month" date groups under its year |
| VerticalTimeline.FormatVerticalTimelineEvents | frontend/src/lib/vertical-timeline-utils.ts:139-182 | the loop computes exactly the filtered, formatted and sorted events |
| VerticalTimeline.AscendingConsistent | frontend/src/lib/vertical-timeline-utils.ts:181 | ordering by sort key is a total preorder on events with a sort key |
| VerticalTimeline.FormattedEvents | frontend/src/lib/vertical-timeline-utils.ts:146-181 | the filtered, formatted, sorted events; `VerticalTimeline.FormattedEventsMembers` and `VerticalTimeline.FormattedEventsSorted` state them |
| VerticalTimeline.FormattedEventsMembers | frontend/src/lib/vertical-timeline-utils.ts:146-178 | the output holds exactly the formatted events that pass both filters |
| VerticalTimeline.FormattedEventsSorted | frontend/src/lib/vertical-timeline-utils.ts:181 | when every date has a sort key, the output is in ascending sort-key order |
| VerticalTimeline.NoSelectionKeepsAll | frontend/src/lib/vertical-timeline-utils.ts:147-167 | with empty or absent selections every event is kept |
| VerticalTimeline.SelectionMeans | frontend/src/lib/vertical-timeline-utils.ts:149-156 | a non-empty provider selection keeps an event iff one of its providers is selected |
| VerticalTimeline.CollectValues | frontend/src/lib/vertical-timeline-utils.ts:190-196 | the nested loop collects every value once, in first-seen order |
| VerticalTimeline.SortedValues | frontend/src/lib/vertical-timeline-utils.ts:190-198 | the result is sorted, without duplicates, and holds exactly the values of the events |
| VerticalTimeline.GetEventTypesFromEvents | frontend/src/lib/vertical-timeline-utils.ts:187-199 | the event types are sorted, distinct and exactly those of the events |
| VerticalTimeline.GetProvidersFromEvents | frontend/src/lib/vertical-timeline-utils.ts:204-216 | the providers are sorted, distinct and exactly those of the events |
| VerticalTimeline.MergeAllSnoc | frontend/src/lib/vertical-timeline-utils.ts:234-258 | merging one more event is one step of the loop |
| VerticalTimeline.MergeEvent | frontend/src/lib/vertical-timeline-utils.ts:236-256 | one step of the inner loop merges exactly one event |
| VerticalTimeline.MergeProvider | frontend/src/lib/vertical-timeline-utils.ts:235-257 | the inner loop merges exactly one provider's events |
| VerticalTimeline.ExtractTimelineEvents | frontend/src/lib/vertical-timeline-utils.ts:222-262 | the method computes exactly the merged, sorted events |
| VerticalTimeline.MergeListed | frontend/src/lib/vertical-timeline-utils.ts:240-245 | an event whose key and provider are already merged keeps the merge invariant |
| VerticalTimeline.MergeUnlisted | frontend/src/lib/vertical-timeline-utils.ts:240-245 | adding a new provider to an existing event keeps the merge invariant |
| VerticalTimeline.MergeNew | frontend/src/lib/vertical-timeline-utils.ts:246-256 | a new key adds a new event and keeps the merge invariant |
| VerticalTimeline.MergeStep | frontend/src/lib/vertical-timeline-utils.ts:240-256 | every step keeps the merge invariant: distinct keys, exactly the keys seen, each event listing exactly its providers once |
| VerticalTimeline.MergeAllMerged | frontend/src/lib/vertical-timeline-utils.ts:234-258 | the merge of all visited events meets the merge invariant |
| VerticalTimeline.ValuesMerged | frontend/src/lib/vertical-timeline-utils.ts:261 | the map's values are distinct, each stored under its own key, and cover every key |
| VerticalTimeline.ExtractedEvents | frontend/src/lib/vertical-timeline-utils.ts:222-262 | the merged events of the selected providers, sorted descending; `VerticalTimeline.ExtractedEventsMerged` and `VerticalTimeline.ExtractedEventsSorted` state them |
| VerticalTimeline.ExtractedEventsMerged | frontend/src/lib/vertical-timeline-utils.ts:222-262 | the output has one event per distinct sort-key and label pair seen, each listing exactly the providers with it, each once |
| VerticalTimeline.VisitedMembers | frontend/src/lib/vertical-timeline-utils.ts:235-238 | a provider contributes exactly its events |
| VerticalTimeline.ItemsMembers | frontend/src/lib/vertical-timeline-utils.ts:228-238 | exactly the events of the selected providers (all when no selection) are visited |
| VerticalTimeline.EmptySelectionExtractsNothing | frontend/src/lib/vertical-timeline-utils.ts:228-232 | an empty selection array selects no provider, so nothing is extracted |
| VerticalTimeline.ItemsDated | frontend/src/lib/vertical-timeline-utils.ts:236 | visited events of dated providers have sort keys |
| VerticalTimeline.ExtractedEventsSorted | frontend/src/lib/vertical-timeline-utils.ts:261 | the merged events are in descending sort-key order |
| VerticalTimeline.GetSubscriptionProviders | frontend/src/lib/vertical-timeline-utils.ts:276-288 | exactly the providers in the "Subscription" category, in order |
| VerticalTimeline.GroupEventsByYear | frontend/src/lib/vertical-timeline-utils.ts:293-307 | one group per year present, each holding exactly its events in input order |
| YearMonth.JsParseFloat | frontend/src/lib/vertical-timeline-utils.ts:24 | `Number.parseFloat` on text that starts with a digit reads its unsigned decimal prefix |
| YearMonth.DecimalPrefixOfDecimal | frontend/src/lib/vertical-timeline-utils.ts:24 | digits, a point and digits read as the whole part plus the fraction |
| YearMonth.ParseFloatOfDecimal | frontend/src/lib/vertical-timeline-utils.ts:24 | "year.month" digits parse to the year plus the month digits as a fraction |
| YearMonth.ParseFloatOfDigits | frontend/src/components/timeline/utils.ts:308 | digits alone parse to their value |
| YearMonth.SplitYearMonth | frontend/src/components/timeline/utils.ts:55-57 | splitting "year.month" on "." gives the year part and the month part |
| YearMonth.SplitYearOnly | frontend/src/components/timeline/utils.ts:55-57 | a text without a point is all year, with an empty (falsy) month part |
| YearMonth.DigitParts | frontend/src/components/timeline/utils.ts:218-220 | the parts of "year.month" when both are digits |
| YearMonth.DigitsParse | frontend/src/components/timeline/utils.ts:56-57 | `parseInt` reads a run of digits as its value |
| YearMonth.RoundHundredths | frontend/src/components/timeline/utils.ts:227 | the nearest count of hundredths is within half a hundredth of the value |
| YearMonth.ToFixed2Nearest | frontend/src/components/timeline/utils.ts:227 | `toFixed(2)` is a "-" iff negative, then whole digits, a point and two digits within half a hundredth of the absolute value |
| Timeline.Clamp | frontend/src/components/timeline/utils.ts:25-27 | `clamp` gives `n` when inside the bounds, the nearer bound otherwise, and stays within `[lo, hi]` whenever `lo <= hi` |
| Timeline.MonthDecimalWithinYear | frontend/src/components/timeline/utils.ts:58 | `year + month / 12` for a month from 1 to 12 lies strictly above the year and at most a year later |
| Timeline.MonthDecimalOrder | frontend/src/components/timeline/utils.ts:58 | the decimal of (year, month) orders dates exactly as year-then-month order |
| Timeline.YearMonthToDecimal | frontend/src/components/timeline/utils.ts:61-63 | a whole number (one written without a point) is returned unchanged |
| Timeline.DecimalOfParts | frontend/src/components/timeline/utils.ts:54-59 | a text whose year and month parts parse gives the month decimal of those numbers |
| Timeline.MonthNumberOfDigits | frontend/src/components/timeline/utils.ts:55-57 | the month part of digits parses to the digits' value |
| Timeline.DecimalOfYearMonth | frontend/src/components/timeline/utils.ts:54-59 | "Y.M" with digit parts gives the month decimal of Y and M |
| Timeline.DecimalOfYear | frontend/src/components/timeline/utils.ts:54-59 | a text of digits alone has no month part and gives the year as a number |
| Timeline.FormatYearMonth | frontend/src/components/timeline/utils.ts:212-214 | a text without a point is shown unchanged |
| Timeline.FormatNamedParts | frontend/src/components/timeline/utils.ts:218-245 | a month part from 1 to 12 is shown as the English month name, a space and the year |
| Timeline.FormatFixedParts | frontend/src/components/timeline/utils.ts:222-228 | a month part outside 1 to 12 shows the whole value with two decimals |
| Timeline.FormatUndefinedParts | frontend/src/components/timeline/utils.ts:218-245 | a month part `parseInt` cannot read shows "undefined" and the year |
| Timeline.FormatMonthName | frontend/src/components/timeline/utils.ts:207-246 | "Y.M" with digit parts and M from 1 to 12 shows `MonthNames[M-1] + " " + Y` |
| Timeline.FormatOutOfRange | frontend/src/components/timeline/utils.ts:222-228 | "Y.M" with M equal to 0 or above 12 shows `toFixed(2)` of the decimal Y.M |
| Timeline.FormatUnreadableMonth | frontend/src/components/timeline/utils.ts:218-245 | "Y.M" with M starting with a non-digit shows "undefined Y" |
| Timeline.CalculateSpanPosition | frontend/src/components/timeline/utils.ts:78-107 | the text needs `8` px per character plus `20`, and any width is at least the minimum span width |
| Timeline.SpanLayout | frontend/src/components/timeline/utils.ts:88-104 | `left` is defined exactly when from, start and end are; `width` exactly when `left` and `to` are; width is at least the minimum |
| Timeline.SpanWithinAxis | frontend/src/components/timeline/utils.ts:88-101 | with known bounds the span starts inside the axis and either has the minimum width or ends inside the axis |
| Timeline.ValidateTimelineDoc | frontend/src/components/timeline/utils.ts:126-162 | an accepted document is an object with numeric `axis.start < axis.end` and rows that each have an id, a label and array spans or events |
| Timeline.ConvertSimplifiedToRows | frontend/src/components/timeline/utils.ts:296-387 | the document keeps the axis and the title and holds the rows the grouped document describes |
| Timeline.ItemLeConsistent | frontend/src/components/timeline/utils.ts:305-317 | the item order by start is a total preorder on items with a readable start |
| Timeline.RowLeConsistent | frontend/src/components/timeline/utils.ts:357-361 | the row order by `parseInt` of the label is a total preorder on rows with a numeric label |
| Timeline.SpanOfItem | frontend/src/components/timeline/utils.ts:320-345 | a span carries the channel name, the tooltip, the item's start, its end or else the axis end, and the colour field `colorBy` names |
| Timeline.TooltipNotes | frontend/src/components/timeline/utils.ts:325-330 | the tooltip holds the notes after a blank line exactly when the item has non-empty notes |
| Timeline.RowOfChannel | frontend/src/components/timeline/utils.ts:348-353 | a channel's row has id `ch-` and the number, the number as label, no events, and one span per item |
| Timeline.SpansOfRow | frontend/src/components/timeline/utils.ts:320-345 | the spans of a row are exactly the spans of its items |
| Timeline.SpansOfRowInOrder | frontend/src/components/timeline/utils.ts:305-317 | when every item has a readable start, the spans of a row are ordered by start |
| Timeline.SpanStartOf | frontend/src/components/timeline/utils.ts:305-313 | a span's start is the start its item was sorted by |
| Timeline.ChannelRows | frontend/src/components/timeline/utils.ts:303-361 | one row per channel, sorted by label; `Timeline.ChannelRowsMembers` and `Timeline.RowsSortedByLabel` state them |
| Timeline.SimplifiedRows | frontend/src/components/timeline/utils.ts:357-380 | the channel rows with the events row in front when there are events; `Timeline.EventsRowIff` states it |
| Timeline.ChannelRowsMembers | frontend/src/components/timeline/utils.ts:303-361 | one row per channel, and the rows are a permutation of the rows of the channels |
| Timeline.RowsSortedByLabel | frontend/src/components/timeline/utils.ts:357-361 | when every channel number is numeric, the rows are ordered by channel number |
| Timeline.ChannelRowIds | frontend/src/components/timeline/utils.ts:348-353 | no channel row has the events row's id |
| Timeline.EventsRowIff | frontend/src/components/timeline/utils.ts:364-380 | the events row is present iff the document has events, and then it is first, followed by the channel rows |
| Timeline.GetOfThree | frontend/src/components/timeline/utils.ts:126-162 | looking up a key in a three-entry object gives the last matching entry |
| Timeline.EncodedRowsValid | frontend/src/components/timeline/utils.ts:148-159 | every row the conversion writes passes the per-row check |
| Timeline.ValidateAxis | frontend/src/components/timeline/utils.ts:134-145 | a written document is accepted iff its axis start and end are numbers with start below end |
| Timeline.EncodedDocValidates | frontend/src/components/timeline/utils.ts:140-145 | a converted document is accepted iff both axis texts parse as numbers and the start is below the end |
| AdditionalData.Or | frontend/src/lib/additional-data-utils.ts:14 | JavaScript `a \|\| b` is `a` when `a` is truthy and `b` otherwise, so it is truthy iff either is |
| AdditionalData.Nullish | frontend/src/lib/additional-data-utils.ts:15 | JavaScript `a ?? b` is `a` unless `a` is null or undefined, and `b` then |
| AdditionalData.Normalize | frontend/src/lib/additional-data-utils.ts:9-60 | the flat record has every channel-number field defined, `chancomp` and `channel_url` truthy or null, and each fallback field truthy or undefined |
| AdditionalData.NormalizeLcn | frontend/src/lib/additional-data-utils.ts:15-19 | each channel-number field keeps a present API value and becomes null otherwise |
| AdditionalData.NormalizeFallbacks | frontend/src/lib/additional-data-utils.ts:20-57 | each flat field takes the first truthy value among its top-level field and the nested fields it falls back to, else undefined |
| AdditionalData.BuildChannelNames | frontend/src/lib/additional-data-utils.ts:65-85 | `buildChannelNames`; `AdditionalData.DenormalizedNames` states it |
| AdditionalData.BuildChannelLogo | frontend/src/lib/additional-data-utils.ts:90-106 | `buildChannelLogo`; `AdditionalData.DenormalizedLogo` states it |
| AdditionalData.BuildOtherData | frontend/src/lib/additional-data-utils.ts:111-127 | `buildOtherData`; `AdditionalData.DenormalizedOtherData` states it |
| AdditionalData.Denormalized | frontend/src/lib/additional-data-utils.ts:165-185 | the record `denormalizeAdditionalDataChannel` returns; `AdditionalData.RoundTrip` states that normalising it gives the channel back |
| AdditionalData.DenormalizedTopLevel | frontend/src/lib/additional-data-utils.ts:168-184 | the id is kept, and slug, number, group and URL are copied exactly when truthy |
| AdditionalData.DenormalizedLegacy | frontend/src/lib/additional-data-utils.ts:132-160 | bouquet, comp and guide link are copied when truthy, the channel-number fields when neither null nor undefined |
| AdditionalData.DenormalizedNames | frontend/src/lib/additional-data-utils.ts:65-85 | the names object is present iff some name is truthy, and then location and real name fall back to the clean name |
| AdditionalData.DenormalizedLogo | frontend/src/lib/additional-data-utils.ts:90-106 | the logo object is present iff a light or dark logo is truthy, and then dark falls back to light and `chlogo` to light then dark |
| AdditionalData.DenormalizedOtherData | frontend/src/lib/additional-data-utils.ts:111-127 | the other-data object is always written, each field its value or "N/A" |
| AdditionalData.RoundTrip | frontend/src/lib/additional-data-utils.ts:9-195 | normalizing a denormalized channel gives it back when every name, logo and descriptive field is filled in and the other fields are in normalized form |
| AdditionalData.RoundTripPlaceholders | frontend/src/lib/additional-data-utils.ts:9-195 | after a round trip the missing availability, packages and types read "N/A", a missing location is the clean name, a missing dark logo is the light one, and a missing channel-number field is null |
| AdditionalData.ApiChannel.constructor | frontend/src/lib/additional-data-utils.ts:168-170 | a new API record holds the channel id and nothing else |
| AdditionalData.ApiChannel.AssignNames | frontend/src/lib/additional-data-utils.ts:187 | `Object.assign` of the names part sets the name and names object, or leaves the record alone when the part is empty |
| AdditionalData.ApiChannel.AssignLogo | frontend/src/lib/additional-data-utils.ts:188 | `Object.assign` of the logo part sets the logo object and `chlogo`, or leaves the record alone when the part is empty |
| AdditionalData.ApiChannel.AssignOtherData | frontend/src/lib/additional-data-utils.ts:189 | `Object.assign` of the other-data part sets the other-data object and nothing else |
| AdditionalData.AddLegacyFields | frontend/src/lib/additional-data-utils.ts:132-160 | each legacy field is overwritten exactly when the channel's value passes its guard; every other field is unchanged |
| AdditionalData.DenormalizeChannel | frontend/src/lib/additional-data-utils.ts:165-195 | the fresh API record built step by step equals the denormalized record |
| Text.Slugify | backend/app/routers/xmlepg.py:878 | `re.sub(r"\W+", "-", s)` is empty iff its input is, and keeps a leading word character |
| Text.SlugifyIsSlug | backend/app/routers/xmlepg.py:878 | the result has hyphens as its only non-word characters, never two in a row |
| Text.SlugifyKeepsWordChars | backend/app/routers/xmlepg.py:878 | the result keeps the word characters of its input, in order |
| Text.SlugifyFixesSlugs | backend/app/routers/xmlepg.py:882 | a slug is left unchanged |
| Text.SlugifyIdempotent | backend/app/routers/xmlepg.py:882 | slugifying twice is slugifying once |
| Text.JsParseInt | frontend/src/components/epg/utils.ts:190 | `Number.parseInt(s, 10)` of a run of digits is the digits' value |
| Text.Lower | frontend/src/components/epg/utils.ts:53 | `toLowerCase` lowers each character and keeps the length |
| Text.JoinSplit | frontend/src/components/timeline/utils.ts:55 | joining the pieces of `split(sep)` with `sep` gives the text back |
| Collate.LocaleCompare | frontend/src/lib/freeview-utils.ts:97 | `localeCompare` is zero iff the texts are equal and at most zero iff the first sorts before the second |
| Collate.LocaleCompareSwap | frontend/src/lib/freeview-utils.ts:97 | swapping the texts negates the comparison |
| Collate.TextOrder | frontend/src/lib/freeview-utils.ts:140 | the text order is a total preorder and antisymmetric |

## Left out

Backend:
- MySQL queries, JSON/CSV file reads and writes, log cleaning, downloads and decompression: I/O. Their results are parameters, such as the provider and channel rows or the listing of a directory.
- FastAPI routing, background tasks, the scheduler, the process-status globals and aiohttp downloads: I/O and concurrency.
- The clock: the current instant is a parameter (`now` in now/next, the clock in `calculateProgress`).
- pytz and zoneinfo: a zone is a `Zone` value with two total functions. One gives the UTC offset at an instant, as `astimezone` does. The other gives the offset `localize` picks for a wall-clock time. DST rules live inside those functions.
- Text to timestamp and timestamp to ISO text (`datetime.fromisoformat`, `isoformat`): the parser and the printer are parameters. Times are whole seconds, so microseconds are not modelled.
- The character class `\W` of Python's `re`: `Text.IsWordChar` is ASCII letters, digits and "_", not Unicode categories, so `re.sub(r"\W+", "-", "Télé 1")` is "Télé-1" in Python but "T-l-1" here.
- Python's `str.strip()` and `str.lower()` (`Text.Strip`, `Text.Lower`, used for programme fields and categories): the model's white-space set is narrower than Python's. Only the six ASCII white-space characters are stripped, not the separators `\x1c`–`\x1f` or other Unicode white space, and only A-Z are lowered.
- lxml: XML elements are `Element` records with a tag, attributes, text and children, read in document order.
- `clean_channel_name` and `get_channel_group` in `xml_processing.py`: parameters, because their code is not part of this model.
- Python dict iteration order: dictionaries are Dafny maps, or association lists where order matters. Key order in a written JSON object is not modelled.
- Logging calls on the resolution-miss and skip paths.
- Python dictionary keys and set members that compare equal across types: Python treats `1`, `True` and `1.0` as one key, while `Records.Value` keeps `Int(1)` and `Bool(true)` apart. This affects the keyed steps `Counter`, `guide_data_dict`, `guidelinks`, `channel_counts`, the `unique_channels` key and `merged_sources`. A list or dict used as a key is modelled (TypeError).
- XmlEpgPrograms.CreateProgramFile: the block rewrites the shared `guide_data_dict` rows in place, and the model works on values. Across providers this makes no difference when the ISO text parses back (XmlEpgPrograms.RenormaliseRewritten). Within one provider, two channels with the same guidelink append the same dict twice, so Python's list holds two copies carrying the later channel's slug, and the dedup keeps one of them. The model keeps the first channel's row with its own slug instead.
- TimeUtils.ByStart: two starts with the same wall clock but different offsets tie here, while the backend's sort on the ISO text orders them by offset text.
- `get_programming_by_date` in `epg.py`: it calls `group_and_fill_programschannels` with three arguments, which raises a `TypeError` before any grouping. The route is not modelled; both grouping functions are.
- A `categories` value that is a dict, in the sports and movie predicates: Python would iterate its keys. The model reads lists of texts and texts. A list holding a non-text gives `AttributeError`, and any other value gives `TypeError`.
- NowNext.FormatProgram: pydantic's validation of `ProgramInfo` (a non-text title or subtitle, a non-text description or rating, categories that are not a list of texts, each raising `ValidationError`, nownext.py:21-31 and 160-170) is not modelled, because pydantic's coercion rules are not part of this model; the formatted record holds the values as read.
- NowNext.ChannelEntryFields: pydantic's validation of `ChannelInfo` (a null or non-text id, slug or group, a name or icon that is not a dict of texts, an lcn that is neither text nor integer, nownext.py:13-19 and 117-124) is not modelled, for the same reason.
- NowNext.ChannelProgrammesSelected: naive start times are sorted by their wall clock, as Python compares naive datetimes, but the start order that the now/next search relies on is proved only for offset-carrying times (NowNext.ChannelProgrammesByStart); around a fall-back hour of the machine's zone the wall-clock order and the instant order of naive times may differ.
- XmlEpgMerge.ParseBouquets: Python's `int()` also accepts single underscores between digits (`"1_0"` is 10) and non-ASCII decimal digits; `Text.ParseInt` accepts ASCII digits only and gives `ValueError` for those texts. The same holds for the day count in `TimeUtils.ParseTimedelta`.

Frontend:
- JavaScript numbers: exact integers and rationals, not binary floating point. `NaN` is `None`.
- `parseFloat` reads decimal text but not exponents or "Infinity".
- `toFixed(2)` of a value at or above 1e21, which JavaScript writes in exponent form: the model writes plain digits. A tie rounds to the larger hundredth, as the standard says.
- The numeric-input branches of `formatDate`, `dateToSortKey` and `yearMonthToDecimal`: they depend on float-to-text conversion, so only a number's decimal text is modelled.
- Collate.LocaleCompare: the model orders texts by code point, where the browser's `localeCompare` collates by locale, folding case, accents and punctuation. So `"apple".localeCompare("Zebra")` is negative in the browser but positive here, and `"7a"` sorts before `"7A"` in the browser but after it here. The comparators built on it inherit this: Freeview.CompareChannelNumbers, Freeview.CompareEntries, Freeview.SortNetworks and Freeview.GroupAndSortSources, and in EpgView CompareByNumber, CompareWithinNetwork, CompareWithinNetworkFixed and CompareByNetwork. `toLowerCase` lowers ASCII letters only.
- Timeline.CalculateSpanPosition: `|label|` counts Unicode code points, while JavaScript's `.length` counts UTF-16 code units, so a label with astral characters (emoji) is measured shorter than the browser measures it.
- JavaScript `sort`: a stable sort by the comparator, returning a new sequence rather than sorting in place. A comparator that meets `NaN` is not modelled.
- Sort keys that collide as texts (`sortKey-label` merge keys) are taken to collide only when their parts are equal.
- `extractTimelineEvents` mutates the merged event's provider list in place; the model rebuilds the event value.
- `Object.keys` order and the distinction between an absent key and a key holding `undefined` (AdditionalData treats both as `undefined`).
- AdditionalData.ApiChannel: holds the whole record in one field that methods update, rather than one field per property.
- AdditionalData: channel numbers are JavaScript numbers modelled as integers.
- `convertSimplifiedToRows`: the `events` list is copied as given, since the source maps each event to itself. JSON encoding of the document is modelled only for the fields validation reads.
- `getProgramColors`, `getMobileProgramStyling`, `getDesktopProgramStyling`, `getProgramColor`, `getSpecialTitleClass`, `isPlaceholderProgram`, `formatProgramDuration`, `formatProgramTimeRange`, `getDensityTextSize`, `isCompactMode` and `isDetailedMode` in `epg/utils.ts`: styling and display text, or calls into `decodeHtml` and date libraries.
- `getAllProviderIds` in `freeview-utils.ts`: plain mapping with no rule of its own.
- `toPx`, `generateTicks`, `calculateEventPosition`, `formatYear`, `getDefaultStyle`, `getResponsiveStyle`, `isSpanClickable` and `isEventClickable` in `timeline/utils.ts`: pixel arithmetic, style tables and one-line presence tests. Of span positions only the bounds and the minimum width are stated.
- EpgView.Progress: takes the clock as a parameter and uses exact division rounded as the source rounds, not floating point.
- React components, hooks, maps, dialogs, scrapers (Foxtel, Optus) and static data files: not modelled.

## Findings

| source | as written | input that shows it | evidently intended | confidence | as-written member | corrected member |
|---|---|---|---|---|---|---|
| backend/app/routers/sources.py:548-555 | the id of a discovered file is `file[7:-19]` or `file[:-19]`, but the suffix `_additionaldata.json` is 20 characters | `abc_additionaldata.json` gives the id `abc_` instead of `abc` | slicing off all 20 characters | not executed | Sources.IdAsWrittenKeepsSeparator | Sources.IdOfFileRoundTrip |
| frontend/src/components/epg/utils.ts:24-60 | the keyword "game" comes before "game show" in the icon table, and the first match wins | the category "Game Show" gets the game icon | "game show" placed before "game" | not executed | EpgView.GameShowShadowed | EpgView.GameShowFixed |
| frontend/src/components/epg/utils.ts:238-257 | `sortChannelsWithinNetwork` compares by number only when both channels have one, and by name otherwise, so it is not transitive | LCN 1 "z" before LCN 2 "a"; LCN 2 "a" before "m" with no LCN; "m" before LCN 1 "z" — a cycle | channels with a number before those without, then by number or name | not executed | EpgView.WithinNetworkCycle | EpgView.CompareWithinNetworkFixed |

The discovery loop `Sources.DiscoverAdditionalDataFiles` slices as
written, and `Sources.DiscoveredIdKeepsSeparator` proves that every id it
discovers carries the extra "_". `EpgView.WithinNetworkOrder` proves that the corrected
within-network comparator is a total preorder.
