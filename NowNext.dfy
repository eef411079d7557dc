/** The now/next route: channels de-duplicated by id and number, each
    channel's programmes sorted by start, the programme airing now and the
    one after it. */
module NowNext {
  import opened Wrappers
  import opened Text
  import opened Seqs
  import opened Records
  import opened TimeUtils

  /** How the route reads times: `parse` is `datetime.fromisoformat`, `tz`
      the requested zone and `system` the machine's own zone, in which
      `astimezone` reads naive text. */
  datatype Reading = Reading(parse: string -> Option<Time>, tz: Zone, system: Zone)

  /** A programme record on the channel as the route reads it: `key` is
      `fromisoformat(start_time)`, the sort key, and `start` that time in the
      requested zone; `end` is `end_time` read the same way, which happens
      only when the programme is visited and so may still fail. */
  datatype Airing = Airing(key: Time, start: Stamp, end: Result<Stamp, Error>, program: Record)

  predicate Live(a: Airing, now: int) {
    a.end.Success? && a.start.Instant() <= now < a.end.value.Instant()
  }

  function LiveAt(now: int): Airing -> bool {
    (a: Airing) => Live(a, now)
  }

  /** The loop of `find_now_next` stops at a programme whose end cannot be
      read (with its exception), at one airing now, or at one that starts
      later. */
  function StopsAt(now: int): Airing -> bool {
    (a: Airing) => a.end.Failure? || Live(a, now) || a.start.Instant() > now
  }

  function StartsAfter(now: int): Airing -> bool {
    (a: Airing) => a.start.Instant() > now
  }

  function StartsFrom(t: int): Airing -> bool {
    (a: Airing) => a.start.Instant() >= t
  }

  /** Aware datetimes compare by the instant they denote. */
  predicate ByStart(a: Airing, b: Airing) {
    a.start.Instant() <= b.start.Instant()
  }

  lemma ByStartPreorder()
    ensures TotalPreorder(ByStart)
  {
  }

  datatype NowNext = NowNext(current: Option<Airing>, next: Option<Airing>)

  /** `find_now_next`: the first programme at which the loop stops; when it
      is airing, the next programme is the first later one starting at or
      after its end. */
  function FindNowNext(ps: seq<Airing>, now: int): Result<NowNext, Error> {
    match FirstIndexWhere(ps, StopsAt(now))
    case None => Success(NowNext(None, None))
    case Some(i) =>
      if ps[i].end.Failure? then Failure(ps[i].end.error)
      else if Live(ps[i], now) then
        Success(NowNext(Some(ps[i]), FirstWhere(ps[i + 1..], StartsFrom(ps[i].end.value.Instant()))))
      else Success(NowNext(None, Some(ps[i])))
  }

  /** The indexed loop with its two early exits. */
  method FindNowNextLoop(ps: seq<Airing>, now: int) returns (r: Result<NowNext, Error>)
    ensures r == FindNowNext(ps, now)
  {
    for i := 0 to |ps|
      invariant forall k | 0 <= k < i :: !StopsAt(now)(ps[k])
    {
      var p := ps[i];
      if p.end.Failure? {
        FirstIndexWhereAt(ps, StopsAt(now), i);
        return Failure(p.end.error);
      }
      var end := p.end.value.Instant();
      if p.start.Instant() <= now < end {
        FirstIndexWhereAt(ps, StopsAt(now), i);
        return Success(NowNext(Some(p), FirstWhere(ps[i + 1..], StartsFrom(end))));
      } else if p.start.Instant() > now {
        FirstIndexWhereAt(ps, StopsAt(now), i);
        return Success(NowNext(None, Some(p)));
      }
    }
    return Success(NowNext(None, None));
  }

  /** The search raises exactly when it reaches a programme whose end
      cannot be read before any programme airing now or starting later, and
      then with that programme's exception. */
  lemma FindNowNextFails(ps: seq<Airing>, now: int)
    ensures FindNowNext(ps, now).Failure? <==>
      exists i | 0 <= i < |ps| :: ps[i].end.Failure? && forall k | 0 <= k < i :: !StopsAt(now)(ps[k])
    ensures FindNowNext(ps, now).Failure? ==>
      exists i | 0 <= i < |ps| ::
        && ps[i].end == Failure(FindNowNext(ps, now).error)
        && forall k | 0 <= k < i :: ps[k].end.Success? && ps[k].start.Instant() <= now && !Live(ps[k], now)
  {
    if exists i | 0 <= i < |ps| :: ps[i].end.Failure? && forall k | 0 <= k < i :: !StopsAt(now)(ps[k]) {
      var i :| 0 <= i < |ps| && ps[i].end.Failure? && forall k | 0 <= k < i :: !StopsAt(now)(ps[k]);
      FirstIndexWhereAt(ps, StopsAt(now), i);
    }
  }

  /** On a list sorted by start, the current programme is the first one
      airing now, and there is none exactly when nothing airs now. */
  lemma CurrentIsFirstLive(ps: seq<Airing>, now: int)
    requires SortedBy(ps, ByStart)
    ensures FindNowNext(ps, now).Success? ==> FindNowNext(ps, now).value.current == FirstWhere(ps, LiveAt(now))
  {
    FirstWhereEarliest(ps, LiveAt(now));
    var f := FirstIndexWhere(ps, StopsAt(now));
    if f.Some? && FindNowNext(ps, now).Success? {
      var i := f.value;
      if Live(ps[i], now) {
        forall k | 0 <= k < i ensures !LiveAt(now)(ps[k]) {
          assert !StopsAt(now)(ps[k]);
        }
        FirstWhereAt(ps, LiveAt(now), i);
      } else {
        assert ps[i].start.Instant() > now;
        forall k | 0 <= k < |ps| ensures !LiveAt(now)(ps[k]) {
          if k < i {
            assert !StopsAt(now)(ps[k]);
          } else if k > i {
            assert ByStart(ps[i], ps[k]);
          }
        }
      }
    } else if f.None? {
      forall k | 0 <= k < |ps| ensures !LiveAt(now)(ps[k]) {
        assert !StopsAt(now)(ps[k]);
      }
    }
  }

  /** With nothing airing now, the next programme is the first one that
      starts after now. */
  lemma NextWithoutCurrent(ps: seq<Airing>, now: int)
    requires forall k | 0 <= k < |ps| :: !Live(ps[k], now)
    ensures FindNowNext(ps, now).Success? ==> FindNowNext(ps, now).value.current == None
    ensures FindNowNext(ps, now).Success? ==> FindNowNext(ps, now).value.next == FirstWhere(ps, StartsAfter(now))
  {
    FirstWhereEarliest(ps, StartsAfter(now));
    var f := FirstIndexWhere(ps, StopsAt(now));
    if f.Some? && FindNowNext(ps, now).Success? {
      var i := f.value;
      forall k | 0 <= k < i ensures !StartsAfter(now)(ps[k]) {
        assert !StopsAt(now)(ps[k]);
      }
      FirstWhereAt(ps, StartsAfter(now), i);
    } else if f.None? {
      forall k | 0 <= k < |ps| ensures !StartsAfter(now)(ps[k]) {
        assert !StopsAt(now)(ps[k]);
      }
    }
  }

  /** With a current programme, the next one comes later in the list,
      starts at or after the current one's end, and every programme between
      the two starts before that end. */
  lemma NextAfterCurrent(ps: seq<Airing>, now: int)
    ensures FindNowNext(ps, now).Success? && FindNowNext(ps, now).value.current.Some? ==>
      exists i | 0 <= i < |ps| ::
        && ps[i] == FindNowNext(ps, now).value.current.value
        && Live(ps[i], now)
        && (FindNowNext(ps, now).value.next.None? <==>
              forall j | i < j < |ps| :: ps[j].start.Instant() < ps[i].end.value.Instant())
        && (FindNowNext(ps, now).value.next.Some? ==>
              exists j | i < j < |ps| ::
                && ps[j] == FindNowNext(ps, now).value.next.value
                && ps[j].start.Instant() >= ps[i].end.value.Instant()
                && forall m | i < m < j :: ps[m].start.Instant() < ps[i].end.value.Instant())
  {
    var f := FirstIndexWhere(ps, StopsAt(now));
    if f.Some? && Live(ps[f.value], now) {
      var i := f.value;
      var e := ps[i].end.value.Instant();
      FirstWhereSuffix(ps, i + 1, StartsFrom(e));
    }
  }

  // ---------------------------------------------------------------------------
  // Channel selection
  // ---------------------------------------------------------------------------

  /** `(channel["channel_id"], channel["channel_number"])`. */
  function ChannelKey(ch: Record): (r: Result<(Value, Value), Error>)
    ensures r.Success? <==> "channel_id" in ch && "channel_number" in ch
    ensures r.Success? ==> r.value == (ch["channel_id"], ch["channel_number"])
    ensures r.Failure? ==> r.error == KeyError(if "channel_id" !in ch then "channel_id" else "channel_number")
  {
    if "channel_id" !in ch then Failure(KeyError("channel_id"))
    else if "channel_number" !in ch then Failure(KeyError("channel_number"))
    else Success((ch["channel_id"], ch["channel_number"]))
  }

  predicate HasKeys(ch: Record) {
    "channel_id" in ch && "channel_number" in ch
  }

  /** The key `(channel_id, channel_number)` can be built and hashed: both
      fields are there and neither is a list or a dict. */
  predicate Keyable(ch: Record) {
    HasKeys(ch) && Hashable(ch["channel_id"]) && Hashable(ch["channel_number"])
  }

  function Unkeyable(ch: Record): bool {
    !Keyable(ch)
  }

  function KeyOf(ch: Record): (Value, Value) {
    (Get(ch, "channel_id"), Get(ch, "channel_number"))
  }

  /** The dictionary comprehension `unique_channels`, in its insertion
      order; the first channel whose key cannot be built raises KeyError,
      or TypeError when the key holds a list or a dict. */
  function UniqueChannels(channels: seq<Record>): Result<seq<((Value, Value), Record)>, Error> {
    match FirstIndexWhere(channels, Unkeyable)
    case Some(i) => Failure(if HasKeys(channels[i]) then TypeError else ChannelKey(channels[i]).error)
    case None => Success(Assign(Pairs(channels, HasKeys, KeyOf)))
  }

  /** The comprehension fails iff some channel's key cannot be built or
      hashed, with the error of the first such channel; otherwise each id
      and number is kept once, holding the LAST channel that has them. */
  lemma UniqueChannelsLastWins(channels: seq<Record>, key: (Value, Value))
    ensures UniqueChannels(channels).Failure? <==> exists i | 0 <= i < |channels| :: !Keyable(channels[i])
    ensures UniqueChannels(channels).Failure? ==>
      exists i | 0 <= i < |channels| ::
        && !Keyable(channels[i])
        && (forall j | 0 <= j < i :: Keyable(channels[j]))
        && UniqueChannels(channels).error == if HasKeys(channels[i]) then TypeError else ChannelKey(channels[i]).error
    ensures UniqueChannels(channels).Success? ==>
      forall i, j :: 0 <= i < j < |UniqueChannels(channels).value| ==>
        UniqueChannels(channels).value[i].0 != UniqueChannels(channels).value[j].0
    ensures UniqueChannels(channels).Success? ==>
      var kept := Lookup(UniqueChannels(channels).value, key);
      && (kept.None? <==> forall i | 0 <= i < |channels| :: KeyOf(channels[i]) != key)
      && (kept.Some? ==>
            exists i | 0 <= i < |channels| ::
              && channels[i] == kept.value && KeyOf(channels[i]) == key
              && forall j | i < j < |channels| :: KeyOf(channels[j]) != key)
  {
    var f := FirstIndexWhere(channels, Unkeyable);
    if f.None? {
      var ps := Pairs(channels, HasKeys, KeyOf);
      assert forall i | 0 <= i < |channels| :: Keyable(channels[i]) by {
        forall i | 0 <= i < |channels| ensures Keyable(channels[i]) { assert !Unkeyable(channels[i]); }
      }
      AssignLookup(ps, key);
      AssignDistinct(ps);
      LastValuePairs(channels, HasKeys, KeyOf, key);
    } else {
      var i := f.value;
      assert Unkeyable(channels[i]);
      assert forall j | 0 <= j < i :: Keyable(channels[j]) by {
        forall j | 0 <= j < i ensures Keyable(channels[j]) { assert !Unkeyable(channels[j]); }
      }
    }
  }

  /** `fromisoformat(program["end_time"]).astimezone(tz)`. */
  function EndOf(p: Record, rd: Reading): Result<Stamp, Error> {
    match IsoField(p, "end_time", rd.parse)
    case Failure(e) => Failure(e)
    case Success(t) => Success(AsTimezone(t, rd.tz, rd.system))
  }

  /** A programme on the channel as the sort key reads it: its `start_time`
      must parse; its end is kept, read or failed, for the search. */
  function ReadAiring(p: Record, rd: Reading): Result<Airing, Error> {
    match IsoField(p, "start_time", rd.parse)
    case Failure(e) => Failure(e)
    case Success(t) => Success(Airing(t, AsTimezone(t, rd.tz, rd.system), EndOf(p, rd), p))
  }

  /** The generator's test `p["channel"] == channel_slug`. */
  function OnSlug(slug: Value): Record -> bool {
    (p: Record) => Get(p, "channel") == slug
  }

  function Reader(rd: Reading): Record -> Result<Airing, Error> {
    (p: Record) => ReadAiring(p, rd)
  }

  /** The sort keys of the programmes the generator yields, computed in
      order, the first failure raising. */
  function KeysOnChannel(programs: seq<Record>, slug: Value, rd: Reading): Result<seq<Airing>, Error> {
    Collect(Select(programs, OnSlug(slug), true), Reader(rd), Never)
  }

  /** Python refuses to order a naive datetime against an aware one, and a
      sort that completes has compared every pair that ends up adjacent, so
      sorting keys of both kinds raises TypeError. */
  predicate Mixed(ps: seq<Airing>) {
    exists i, j | 0 <= i < |ps| && 0 <= j < |ps| :: ps[i].key.offset.None? && ps[j].key.offset.Some?
  }

  /** The sort key `fromisoformat(start_time)`: naive times compare by wall
      clock, aware ones by instant. */
  function SortKey(t: Time): int {
    match t.offset
    case None => t.wall
    case Some(o) => t.wall - o
  }

  predicate ByKey(a: Airing, b: Airing) {
    SortKey(a.key) <= SortKey(b.key)
  }

  /** The channel's programmes. `sorted` first drains the generator, which
      looks up every record's `channel` (KeyError at a record without one);
      then the keys of the records on the channel are computed in order;
      then the sort orders them by start. */
  function ChannelProgrammes(programs: seq<Record>, slug: Value, rd: Reading): Result<seq<Airing>, Error> {
    if exists i | 0 <= i < |programs| :: "channel" !in programs[i] then Failure(KeyError("channel"))
    else
      match KeysOnChannel(programs, slug, rd)
      case Failure(e) => Failure(e)
      case Success(ps) => if Mixed(ps) then Failure(TypeError) else Success(SortBy(ps, ByKey))
  }

  /** A record without `channel` anywhere raises KeyError before any sort
      key is read. Otherwise the first record on the channel whose
      `start_time` is missing, not text or not ISO text raises its
      exception; once all keys are read, the sort raises TypeError iff naive
      and aware starts are mixed; otherwise the result is sorted by start,
      each programme on the channel read once, and nothing else. */
  lemma ChannelProgrammesSelected(programs: seq<Record>, slug: Value, rd: Reading)
    ensures (exists i | 0 <= i < |programs| :: "channel" !in programs[i]) ==>
      ChannelProgrammes(programs, slug, rd) == Failure(KeyError("channel"))
    ensures (forall i | 0 <= i < |programs| :: "channel" in programs[i]) ==>
      var r := ChannelProgrammes(programs, slug, rd);
      && (KeysOnChannel(programs, slug, rd).Failure? <==>
            exists i | 0 <= i < |programs| :: programs[i]["channel"] == slug && ReadAiring(programs[i], rd).Failure?)
      && (KeysOnChannel(programs, slug, rd).Failure? ==>
            && r.Failure?
            && exists i | 0 <= i < |programs| ::
                 && programs[i]["channel"] == slug && ReadAiring(programs[i], rd) == Failure(r.error)
                 && forall j | 0 <= j < i :: programs[j]["channel"] == slug ==> ReadAiring(programs[j], rd).Success?)
    ensures (forall i | 0 <= i < |programs| :: "channel" in programs[i]) ==>
      var r := ChannelProgrammes(programs, slug, rd);
      KeysOnChannel(programs, slug, rd).Success? ==>
        var ps := KeysOnChannel(programs, slug, rd).value;
        && (r.Failure? <==> Mixed(ps))
        && (r.Failure? ==> r.error == TypeError)
        && (r.Success? ==> SortedBy(r.value, ByKey) && multiset(r.value) == multiset(ps))
        && (forall a | a in ps :: a.program in programs && Get(a.program, "channel") == slug && ReadAiring(a.program, rd) == Success(a))
        && (forall p | p in programs && Get(p, "channel") == slug :: ReadAiring(p, rd).Success? && ReadAiring(p, rd).value in ps)
  {
    ChannelProgrammesReadFails(programs, slug, rd);
    ChannelProgrammesSorted(programs, slug, rd);
    ChannelProgrammesMembers(programs, slug, rd);
  }

  lemma ChannelProgrammesReadFails(programs: seq<Record>, slug: Value, rd: Reading)
    ensures (exists i | 0 <= i < |programs| :: "channel" !in programs[i]) ==>
      ChannelProgrammes(programs, slug, rd) == Failure(KeyError("channel"))
    ensures (forall i | 0 <= i < |programs| :: "channel" in programs[i]) ==>
      var r := ChannelProgrammes(programs, slug, rd);
      && (KeysOnChannel(programs, slug, rd).Failure? <==>
            exists i | 0 <= i < |programs| :: programs[i]["channel"] == slug && ReadAiring(programs[i], rd).Failure?)
      && (KeysOnChannel(programs, slug, rd).Failure? ==>
            && r.Failure?
            && exists i | 0 <= i < |programs| ::
                 && programs[i]["channel"] == slug && ReadAiring(programs[i], rd) == Failure(r.error)
                 && forall j | 0 <= j < i :: programs[j]["channel"] == slug ==> ReadAiring(programs[j], rd).Success?)
  {
    var on, read := OnSlug(slug), Reader(rd);
    CollectSelectFirstFailure(programs, on, read);
    if forall i | 0 <= i < |programs| :: "channel" in programs[i] {
      assert forall i | 0 <= i < |programs| :: on(programs[i]) == (programs[i]["channel"] == slug);
    }
  }

  lemma ChannelProgrammesSorted(programs: seq<Record>, slug: Value, rd: Reading)
    ensures (forall i | 0 <= i < |programs| :: "channel" in programs[i]) ==>
      var r := ChannelProgrammes(programs, slug, rd);
      KeysOnChannel(programs, slug, rd).Success? ==>
        var ps := KeysOnChannel(programs, slug, rd).value;
        && (r.Failure? <==> Mixed(ps))
        && (r.Failure? ==> r.error == TypeError)
        && (r.Success? ==> SortedBy(r.value, ByKey) && multiset(r.value) == multiset(ps))
  {
    if KeysOnChannel(programs, slug, rd).Success? {
      var ps := KeysOnChannel(programs, slug, rd).value;
      if !Mixed(ps) {
        assert TotalPreorder(ByKey);
        SortBySorted(ps, ByKey);
      }
    }
  }

  lemma ChannelProgrammesMembers(programs: seq<Record>, slug: Value, rd: Reading)
    ensures KeysOnChannel(programs, slug, rd).Success? ==>
      var ps := KeysOnChannel(programs, slug, rd).value;
      && (forall a | a in ps :: a.program in programs && Get(a.program, "channel") == slug && ReadAiring(a.program, rd) == Success(a))
      && (forall p | p in programs && Get(p, "channel") == slug :: ReadAiring(p, rd).Success? && ReadAiring(p, rd).value in ps)
  {
    var on, read := OnSlug(slug), Reader(rd);
    var chosen := Select(programs, on, true);
    SelectMembers(programs, on, true);
    CollectAll(chosen, read);
    if KeysOnChannel(programs, slug, rd).Success? {
      var ps := KeysOnChannel(programs, slug, rd).value;
      forall a | a in ps
        ensures a.program in programs && Get(a.program, "channel") == slug && ReadAiring(a.program, rd) == Success(a)
      {
        var k :| 0 <= k < |ps| && ps[k] == a;
        assert read(chosen[k]) == Success(a);
        assert chosen[k] in chosen;
      }
      forall p | p in programs && Get(p, "channel") == slug
        ensures ReadAiring(p, rd).Success? && ReadAiring(p, rd).value in ps
      {
        assert on(p);
        var k :| 0 <= k < |chosen| && chosen[k] == p;
        assert read(chosen[k]).Success?;
        assert ps[k] == ReadAiring(p, rd).value;
      }
    }
  }

  /** When the starts carry offsets (one suffices, since a mix raises), the
      sorted programmes are in order of start instant, the order the search
      for now and next relies on. */
  lemma ChannelProgrammesByStart(programs: seq<Record>, slug: Value, rd: Reading)
    requires ChannelProgrammes(programs, slug, rd).Success?
    requires exists a | a in ChannelProgrammes(programs, slug, rd).value :: a.key.offset.Some?
    ensures SortedBy(ChannelProgrammes(programs, slug, rd).value, ByStart)
  {
    ChannelProgrammesSelected(programs, slug, rd);
    var ps := KeysOnChannel(programs, slug, rd).value;
    var r := ChannelProgrammes(programs, slug, rd).value;
    var b :| b in r && b.key.offset.Some?;
    forall a | a in r ensures a.start.Instant() == SortKey(a.key) {
      assert a in multiset(ps);
      assert ReadAiring(a.program, rd) == Success(a);
      assert b in multiset(ps);
    }
    forall i, j | 0 <= i < j < |r| ensures ByStart(r[i], r[j]) {
      assert ByKey(r[i], r[j]);
      assert r[i] in r && r[j] in r;
    }
  }

  // ---------------------------------------------------------------------------
  // Programme formatting
  // ---------------------------------------------------------------------------

  /** The parts of a duration: whole minutes floored, then divided into
      hours, and into days once there are 24 hours or more. */
  datatype Duration = Minutes(m: int) | HoursMinutes(h: int, m: int) | DaysHoursMinutes(d: int, h: int, m: int)

  function Parts(seconds: int): (r: Duration)
    ensures r.Minutes? ==> 0 <= r.m < 60 && (seconds >= 0 ==> seconds / 60 == r.m)
    ensures r.HoursMinutes? ==> 1 <= r.h < 24 && 0 <= r.m < 60 && seconds / 60 == r.h * 60 + r.m
    ensures r.DaysHoursMinutes? ==> r.d >= 1 && 0 <= r.h < 24 && 0 <= r.m < 60 && seconds / 60 == (r.d * 24 + r.h) * 60 + r.m
  {
    var total := seconds / 60;
    var hours, minutes := total / 60, total % 60;
    if hours >= 24 then DaysHoursMinutes(hours / 24, hours % 24, minutes)
    else if hours > 0 then HoursMinutes(hours, minutes)
    else Minutes(minutes)
  }

  /** The three forms are chosen by the number of whole hours. */
  lemma PartsForms(seconds: int)
    ensures Parts(seconds).Minutes? <==> seconds < 3600
    ensures Parts(seconds).HoursMinutes? <==> 3600 <= seconds < 86400
    ensures Parts(seconds).DaysHoursMinutes? <==> seconds >= 86400
  {
  }

  /** `lengthstring`. */
  function LengthText(seconds: int): string {
    match Parts(seconds)
    case Minutes(m) => IntToString(m) + " Min"
    case HoursMinutes(h, m) => IntToString(h) + " Hr " + IntToString(m) + " Min"
    case DaysHoursMinutes(d, h, m) => IntToString(d) + " Day(s) " + IntToString(h) + " Hr " + IntToString(m) + " Min"
  }

  /** A programme shorter than an hour mentions only its minutes, one under
      a day its hours and minutes, and a longer one days, hours and
      minutes, always ending in " Min". */
  lemma LengthTextShape(seconds: int)
    ensures EndsWith(LengthText(seconds), " Min")
    ensures seconds < 3600 ==> !Contains(LengthText(seconds), " Hr ")
    ensures 3600 <= seconds ==> Contains(LengthText(seconds), " Hr ")
    ensures 86400 <= seconds <==> Contains(LengthText(seconds), " Day(s) ")
  {
    PartsForms(seconds);
    match Parts(seconds)
    case Minutes(m) =>
      assert LengthText(seconds) == IntToString(m) + " Min";
      MinutesTextShape(m);
    case HoursMinutes(h, m) =>
      assert LengthText(seconds) == IntToString(h) + " Hr " + IntToString(m) + " Min";
      HoursTextShape(h, m);
    case DaysHoursMinutes(d, h, m) =>
      assert LengthText(seconds) == IntToString(d) + " Day(s) " + IntToString(h) + " Hr " + IntToString(m) + " Min";
      DaysTextShape(d, h, m);
  }

  lemma MinutesTextShape(m: int)
    requires 0 <= m < 60
    ensures EndsWith(IntToString(m) + " Min", " Min")
    ensures !Contains(IntToString(m) + " Min", " Hr ")
    ensures !Contains(IntToString(m) + " Min", " Day(s) ")
  {
    var d := IntToString(m);
    var t := d + " Min";
    assert t[|t| - 4..] == " Min";
    DigitsOf(m);
    DigitsLackChar(d, 'H');
    DigitsLackChar(d, 'D');
    assert 'H' !in t && 'D' !in t;
    LacksCharOf(t, " Hr ", 1);
    LacksCharOf(t, " Day(s) ", 1);
  }

  lemma DigitsOf(m: nat)
    ensures AllDigits(IntToString(m))
  {
  }

  lemma HoursTextShape(h: int, m: int)
    requires 1 <= h < 24 && 0 <= m < 60
    ensures EndsWith(IntToString(h) + " Hr " + IntToString(m) + " Min", " Min")
    ensures Contains(IntToString(h) + " Hr " + IntToString(m) + " Min", " Hr ")
    ensures !Contains(IntToString(h) + " Hr " + IntToString(m) + " Min", " Day(s) ")
  {
    var a, b := IntToString(h), IntToString(m);
    var t := a + " Hr " + b + " Min";
    assert t[|t| - 4..] == " Min";
    assert t[|a|..|a| + 4] == " Hr ";
    assert OccursAt(t, " Hr ", |a|);
    DigitsOf(h);
    DigitsOf(m);
    DigitsLackChar(a, 'D');
    DigitsLackChar(b, 'D');
    assert 'D' !in t;
    LacksCharOf(t, " Day(s) ", 1);
  }

  lemma DaysTextShape(d: int, h: int, m: int)
    ensures EndsWith(IntToString(d) + " Day(s) " + IntToString(h) + " Hr " + IntToString(m) + " Min", " Min")
    ensures Contains(IntToString(d) + " Day(s) " + IntToString(h) + " Hr " + IntToString(m) + " Min", " Hr ")
    ensures Contains(IntToString(d) + " Day(s) " + IntToString(h) + " Hr " + IntToString(m) + " Min", " Day(s) ")
  {
    var a := IntToString(d);
    var b := a + " Day(s) " + IntToString(h);
    var t := b + " Hr " + IntToString(m) + " Min";
    assert t[|t| - 4..] == " Min";
    assert t[|b|..|b| + 4] == " Hr ";
    assert OccursAt(t, " Hr ", |b|);
    assert t[|a|..|a| + 8] == " Day(s) ";
    assert OccursAt(t, " Day(s) ", |a|);
  }

  /** `format_program`: the fields the response shows, with the start and
      stop written by `isoformat`. The end time is read again, so a
      programme found only by its start can fail here; then a missing title
      or subtitle raises KeyError. */
  function FormatProgram(a: Airing, iso: Stamp -> string): (r: Result<Record, Error>)
    ensures a.end.Failure? ==> r == Failure(a.end.error)
    ensures a.end.Success? && "title" !in a.program ==> r == Failure(KeyError("title"))
    ensures r.Success? <==> a.end.Success? && "title" in a.program && "subtitle" in a.program
    ensures r.Success? ==>
      && r.value.Keys == {"title", "subtitle", "episode", "start", "stop", "desc", "category", "rating", "lengthstring"}
      && r.value["title"] == a.program["title"] && r.value["subtitle"] == a.program["subtitle"]
      && r.value["episode"] == Get(a.program, "episode")
      && r.value["desc"] == Get(a.program, "description")
      && r.value["category"] == GetOr(a.program, "categories", List([]))
      && r.value["rating"] == Get(a.program, "rating")
      && r.value["start"] == Str(iso(a.start)) && r.value["stop"] == Str(iso(a.end.value))
      && r.value["lengthstring"] == Str(LengthText(a.end.value.Instant() - a.start.Instant()))
  {
    var p := a.program;
    match a.end
    case Failure(e) => Failure(e)
    case Success(end) =>
      if "title" !in p then Failure(KeyError("title"))
      else if "subtitle" !in p then Failure(KeyError("subtitle"))
      else Success(map[
        "title" := p["title"], "subtitle" := p["subtitle"], "episode" := Get(p, "episode"),
        "start" := Str(iso(a.start)), "stop" := Str(iso(end)), "desc" := Get(p, "description"),
        "category" := GetOr(p, "categories", List([])), "rating" := Get(p, "rating"),
        "lengthstring" := Str(LengthText(end.Instant() - a.start.Instant()))])
  }

  /** The channel fields of the response; each is read with `[]`. */
  const ChannelFields: seq<string> := ["channel_id", "channel_names", "channel_logo", "channel_slug", "channel_number", "channel_group"]

  function MissingFrom(ch: Record): string -> bool {
    k => k !in ch
  }

  datatype ChannelNowNext = ChannelNowNext(channel: Record, current: Option<Record>, next: Option<Record>)

  function FormatOptional(a: Option<Airing>, iso: Stamp -> string): Result<Option<Record>, Error> {
    match a
    case None => Success(None)
    case Some(p) =>
      match FormatProgram(p, iso)
      case Failure(e) => Failure(e)
      case Success(r) => Success(Some(r))
  }

  /** The entry of one channel: its programmes, the now/next pair among
      them, then the channel information and the two formatted programmes,
      in the order the route evaluates them. */
  function ChannelEntry(ch: Record, programs: seq<Record>, rd: Reading, now: int, iso: Stamp -> string): Result<ChannelNowNext, Error> {
    if "channel_slug" !in ch then Failure(KeyError("channel_slug"))
    else match ChannelProgrammes(programs, ch["channel_slug"], rd)
      case Failure(e) => Failure(e)
      case Success(ps) =>
        match FindNowNext(ps, now)
        case Failure(e) => Failure(e)
        case Success(nn) =>
          match FirstWhere(ChannelFields, MissingFrom(ch))
          case Some(k) => Failure(KeyError(k))
          case None =>
            FirstWhereEarliest(ChannelFields, MissingFrom(ch));
            var info := map k | k in ChannelFields :: ch[k];
            match FormatOptional(nn.current, iso)
            case Failure(e) => Failure(e)
            case Success(c) =>
              match FormatOptional(nn.next, iso)
              case Failure(e) => Failure(e)
              case Success(n) => Success(ChannelNowNext(info, c, n))
  }

  function Entry(programs: seq<Record>, rd: Reading, now: int, iso: Stamp -> string): (((Value, Value), Record)) -> Result<ChannelNowNext, Error> {
    (pair: ((Value, Value), Record)) => ChannelEntry(pair.1, programs, rd, now, iso)
  }

  /** The response data of `get_nownext`: one entry per unique channel. */
  function NowNextData(channels: seq<Record>, programs: seq<Record>, rd: Reading, now: int, iso: Stamp -> string): Result<seq<ChannelNowNext>, Error> {
    match UniqueChannels(channels)
    case Failure(e) => Failure(e)
    case Success(unique) => Collect(unique, Entry(programs, rd, now, iso), Never)
  }

  /** The loop over `unique_channels.values()`. */
  method NowNextLoop(channels: seq<Record>, programs: seq<Record>, rd: Reading, now: int, iso: Stamp -> string)
    returns (r: Result<seq<ChannelNowNext>, Error>)
    ensures r == NowNextData(channels, programs, rd, now, iso)
  {
    var unique := UniqueChannels(channels);
    if unique.Failure? {
      return Failure(unique.error);
    }
    r := CollectEach(unique.value, Entry(programs, rd, now, iso), Never);
  }

  /** Every unique channel gets exactly one entry, in order, carrying the
      now/next pair of its own sorted programmes. */
  lemma NowNextDataOneToOne(channels: seq<Record>, programs: seq<Record>, rd: Reading, now: int, iso: Stamp -> string)
    ensures NowNextData(channels, programs, rd, now, iso).Success? ==>
      && UniqueChannels(channels).Success?
      && |NowNextData(channels, programs, rd, now, iso).value| == |UniqueChannels(channels).value|
      && forall i | 0 <= i < |UniqueChannels(channels).value| ::
           Success(NowNextData(channels, programs, rd, now, iso).value[i])
             == ChannelEntry(UniqueChannels(channels).value[i].1, programs, rd, now, iso)
  {
    if UniqueChannels(channels).Success? {
      var unique := UniqueChannels(channels).value;
      CollectAll(unique, Entry(programs, rd, now, iso));
      if NowNextData(channels, programs, rd, now, iso).Success? {
        var data := NowNextData(channels, programs, rd, now, iso).value;
        forall i | 0 <= i < |unique| ensures Success(data[i]) == ChannelEntry(unique[i].1, programs, rd, now, iso) {
          assert Entry(programs, rd, now, iso)(unique[i]) == ChannelEntry(unique[i].1, programs, rd, now, iso);
        }
      }
    }
  }

  /** A channel's entry fails with the first exception the route meets:
      the channel's programmes, then the search for now and next, then the
      channel's fields. */
  lemma ChannelEntryRaises(ch: Record, programs: seq<Record>, rd: Reading, now: int, iso: Stamp -> string)
    requires "channel_slug" in ch
    ensures ChannelProgrammes(programs, ch["channel_slug"], rd).Failure? ==>
      ChannelEntry(ch, programs, rd, now, iso) == Failure(ChannelProgrammes(programs, ch["channel_slug"], rd).error)
    ensures ChannelProgrammes(programs, ch["channel_slug"], rd).Success? ==>
      var nn := FindNowNext(ChannelProgrammes(programs, ch["channel_slug"], rd).value, now);
      && (nn.Failure? ==> ChannelEntry(ch, programs, rd, now, iso) == Failure(nn.error))
      && (nn.Success? && (exists k | k in ChannelFields :: k !in ch) ==> ChannelEntry(ch, programs, rd, now, iso).Failure?)
  {
    FirstWhereEarliest(ChannelFields, MissingFrom(ch));
    if exists k | k in ChannelFields :: k !in ch {
      var k :| k in ChannelFields && k !in ch;
      var i :| 0 <= i < |ChannelFields| && ChannelFields[i] == k;
      assert MissingFrom(ch)(ChannelFields[i]);
    }
  }

  /** A channel's entry shows its fields and the formatted now/next pair
      of its programmes. */
  lemma ChannelEntryFields(ch: Record, programs: seq<Record>, rd: Reading, now: int, iso: Stamp -> string)
    ensures ChannelEntry(ch, programs, rd, now, iso).Success? ==>
      && "channel_slug" in ch
      && ChannelProgrammes(programs, ch["channel_slug"], rd).Success?
      && FindNowNext(ChannelProgrammes(programs, ch["channel_slug"], rd).value, now).Success?
      && (forall k | k in ChannelFields :: k in ch)
      && var e := ChannelEntry(ch, programs, rd, now, iso).value;
         var nn := FindNowNext(ChannelProgrammes(programs, ch["channel_slug"], rd).value, now).value;
         && e.channel.Keys == set k | k in ChannelFields
         && (forall k | k in ChannelFields :: e.channel[k] == ch[k])
         && (e.current.Some? <==> nn.current.Some?)
         && (nn.current.Some? ==> FormatProgram(nn.current.value, iso) == Success(e.current.value))
         && (e.next.Some? <==> nn.next.Some?)
         && (nn.next.Some? ==> FormatProgram(nn.next.value, iso) == Success(e.next.value))
  {
    if ChannelEntry(ch, programs, rd, now, iso).Success? {
      FirstWhereEarliest(ChannelFields, MissingFrom(ch));
      assert forall k | k in ChannelFields :: !MissingFrom(ch)(k);
    }
  }
}
