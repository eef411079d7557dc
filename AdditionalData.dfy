/** Additional channel data in its two shapes: the nested record the API
    sends and stores (with `channel_names`, `channel_logo` and `other_data`
    objects) and the flat record the settings forms edit, with the
    conversions between them. Both shapes are typed records; a property
    that is missing holds `undefined`. */
module AdditionalData {
  import opened Wrappers

  /** A JavaScript value as these records hold it. Numbers are integers
      here. */
  datatype JsValue =
    | JUndefined
    | JNull
    | JBool(b: bool)
    | JNum(n: int)
    | JStr(s: string)

  /** JavaScript truthiness. */
  predicate Truthy(v: JsValue) {
    match v
    case JUndefined => false
    case JNull => false
    case JBool(b) => b
    case JNum(n) => n != 0
    case JStr(s) => s != ""
  }

  /** `a || b`. */
  function Or(a: JsValue, b: JsValue): (r: JsValue)
    ensures Truthy(r) <==> Truthy(a) || Truthy(b)
    ensures Truthy(a) ==> r == a
    ensures !Truthy(a) ==> r == b
  {
    if Truthy(a) then a else b
  }

  /** Neither `null` nor `undefined`. */
  predicate Present(v: JsValue) {
    v != JUndefined && v != JNull
  }

  /** `a ?? b`. */
  function Nullish(a: JsValue, b: JsValue): (r: JsValue)
    ensures Present(a) ==> r == a
    ensures !Present(a) ==> r == b
  {
    if a == JUndefined || a == JNull then b else a
  }

  /** A value that `x || undefined` can produce. */
  predicate TruthyOrUndefined(v: JsValue) {
    Truthy(v) || v == JUndefined
  }

  // ---------------------------------------------------------------------------
  // The two shapes
  // ---------------------------------------------------------------------------

  /** `channel_names`. */
  datatype Names = Names(clean: JsValue, location: JsValue, realName: JsValue)

  /** `channel_logo`. */
  datatype Logo = Logo(dark: JsValue, light: JsValue)

  /** `other_data`. */
  datatype OtherData = OtherData(
    channelAvailability: JsValue,
    channelPackages: JsValue,
    channelSpecs: JsValue,
    channelType: JsValue)

  /** The flat record. */
  datatype Channel = Channel(
    chanbouq: JsValue,
    chancomp: JsValue,
    chanlcnfet: JsValue,
    chanlcnfox: JsValue,
    chanlcnfta1: JsValue,
    chanlcnfta2: JsValue,
    chanlcnfta3: JsValue,
    channelAvailability: JsValue,
    channelGroup: JsValue,
    channelId: JsValue,
    channelName: JsValue,
    channelNameLocation: JsValue,
    channelNameReal: JsValue,
    channelNumber: JsValue,
    channelPackages: JsValue,
    channelSlug: JsValue,
    channelType: JsValue,
    channelUrl: JsValue,
    chantype: JsValue,
    chlogo: JsValue,
    chlogoDark: JsValue,
    chlogoLight: JsValue,
    guidelink: JsValue)

  /** The API record: the flat fields, which older records carry at the top
      level, and the three nested objects; `None` stands for a nested
      object that is `null` or missing. */
  datatype ApiRecord = ApiRecord(
    chanbouq: JsValue,
    chancomp: JsValue,
    chanlcnfet: JsValue,
    chanlcnfox: JsValue,
    chanlcnfta1: JsValue,
    chanlcnfta2: JsValue,
    chanlcnfta3: JsValue,
    channelAvailability: JsValue,
    channelGroup: JsValue,
    channelId: JsValue,
    channelName: JsValue,
    channelNameLocation: JsValue,
    channelNameReal: JsValue,
    channelNumber: JsValue,
    channelPackages: JsValue,
    channelSlug: JsValue,
    channelType: JsValue,
    channelUrl: JsValue,
    chantype: JsValue,
    chlogo: JsValue,
    chlogoDark: JsValue,
    chlogoLight: JsValue,
    guidelink: JsValue,
    channelNames: Option<Names>,
    channelLogo: Option<Logo>,
    otherData: Option<OtherData>)

  /** `names?.clean`, `names?.location`, `names?.real`. */
  function NamesClean(names: Option<Names>): JsValue { if names.Some? then names.value.clean else JUndefined }
  function NamesLocation(names: Option<Names>): JsValue { if names.Some? then names.value.location else JUndefined }
  function NamesReal(names: Option<Names>): JsValue { if names.Some? then names.value.realName else JUndefined }

  /** `logo?.dark`, `logo?.light`. */
  function LogoDark(logo: Option<Logo>): JsValue { if logo.Some? then logo.value.dark else JUndefined }
  function LogoLight(logo: Option<Logo>): JsValue { if logo.Some? then logo.value.light else JUndefined }

  /** `other?.channel_availability` and the rest. */
  function OtherAvailability(other: Option<OtherData>): JsValue { if other.Some? then other.value.channelAvailability else JUndefined }
  function OtherPackages(other: Option<OtherData>): JsValue { if other.Some? then other.value.channelPackages else JUndefined }
  function OtherSpecs(other: Option<OtherData>): JsValue { if other.Some? then other.value.channelSpecs else JUndefined }
  function OtherType(other: Option<OtherData>): JsValue { if other.Some? then other.value.channelType else JUndefined }

  // ---------------------------------------------------------------------------
  // Nested to flat
  // ---------------------------------------------------------------------------

  /** `normalizeAdditionalDataChannel`: every flat field taken from the top
      level first and from the nested objects after. The LCN fields, the
      company and the URL are never `undefined`; every other fallback chain
      gives a truthy value or `undefined`. */
  function Normalize(api: ApiRecord): (c: Channel)
    ensures c.chanlcnfet != JUndefined && c.chanlcnfox != JUndefined
    ensures c.chanlcnfta1 != JUndefined && c.chanlcnfta2 != JUndefined && c.chanlcnfta3 != JUndefined
    ensures Truthy(c.chancomp) || c.chancomp == JNull
    ensures Truthy(c.channelUrl) || c.channelUrl == JNull
    ensures TruthyOrUndefined(c.channelAvailability) && TruthyOrUndefined(c.channelName)
    ensures TruthyOrUndefined(c.channelNameLocation) && TruthyOrUndefined(c.channelNameReal)
    ensures TruthyOrUndefined(c.channelPackages) && TruthyOrUndefined(c.channelType)
    ensures TruthyOrUndefined(c.chantype) && TruthyOrUndefined(c.chlogo)
    ensures TruthyOrUndefined(c.chlogoDark) && TruthyOrUndefined(c.chlogoLight)
  {
    Channel(
      api.chanbouq,
      Or(api.chancomp, JNull),
      Nullish(api.chanlcnfet, JNull),
      Nullish(api.chanlcnfox, JNull),
      Nullish(api.chanlcnfta1, JNull),
      Nullish(api.chanlcnfta2, JNull),
      Nullish(api.chanlcnfta3, JNull),
      Or(api.channelAvailability, Or(OtherAvailability(api.otherData), JUndefined)),
      api.channelGroup,
      api.channelId,
      Or(api.channelName, Or(NamesClean(api.channelNames), JUndefined)),
      Or(api.channelNameLocation, Or(NamesLocation(api.channelNames), JUndefined)),
      Or(api.channelNameReal, Or(NamesReal(api.channelNames), JUndefined)),
      api.channelNumber,
      Or(api.channelPackages, Or(OtherPackages(api.otherData), JUndefined)),
      api.channelSlug,
      Or(api.channelType, Or(OtherType(api.otherData), JUndefined)),
      Or(api.channelUrl, JNull),
      Or(api.chantype, Or(OtherSpecs(api.otherData), JUndefined)),
      Or(api.chlogo, Or(LogoLight(api.channelLogo), Or(LogoDark(api.channelLogo), JUndefined))),
      Or(api.chlogoDark, Or(LogoDark(api.channelLogo), JUndefined)),
      Or(api.chlogoLight, Or(LogoLight(api.channelLogo), JUndefined)),
      api.guidelink)
  }

  /** A missing or `null` LCN normalises to `null`; any other value, 0
      included, is kept. */
  lemma NormalizeLcn(api: ApiRecord)
    ensures var c := Normalize(api);
      && (Present(api.chanlcnfet) ==> c.chanlcnfet == api.chanlcnfet) && (!Present(api.chanlcnfet) ==> c.chanlcnfet == JNull)
      && (Present(api.chanlcnfox) ==> c.chanlcnfox == api.chanlcnfox) && (!Present(api.chanlcnfox) ==> c.chanlcnfox == JNull)
      && (Present(api.chanlcnfta1) ==> c.chanlcnfta1 == api.chanlcnfta1) && (!Present(api.chanlcnfta1) ==> c.chanlcnfta1 == JNull)
      && (Present(api.chanlcnfta2) ==> c.chanlcnfta2 == api.chanlcnfta2) && (!Present(api.chanlcnfta2) ==> c.chanlcnfta2 == JNull)
      && (Present(api.chanlcnfta3) ==> c.chanlcnfta3 == api.chanlcnfta3) && (!Present(api.chanlcnfta3) ==> c.chanlcnfta3 == JNull)
    ensures api.chanlcnfet == JNum(0) ==> Normalize(api).chanlcnfet == JNum(0)
  {
  }

  /** The name falls back to `channel_names.clean`, the specs to
      `other_data.channel_specs`, and the logo to the light logo and then
      the dark one; with none of them set the field is `undefined`. */
  lemma NormalizeFallbacks(api: ApiRecord)
    ensures var c := Normalize(api);
      && (Truthy(api.channelName) ==> c.channelName == api.channelName)
      && (!Truthy(api.channelName) && Truthy(NamesClean(api.channelNames)) ==> c.channelName == NamesClean(api.channelNames))
      && (!Truthy(api.channelName) && !Truthy(NamesClean(api.channelNames)) ==> c.channelName == JUndefined)
    ensures var c := Normalize(api);
      && (Truthy(api.chantype) ==> c.chantype == api.chantype)
      && (!Truthy(api.chantype) && Truthy(OtherSpecs(api.otherData)) ==> c.chantype == OtherSpecs(api.otherData))
      && (!Truthy(api.chantype) && !Truthy(OtherSpecs(api.otherData)) ==> c.chantype == JUndefined)
    ensures var c := Normalize(api);
      var light, dark := LogoLight(api.channelLogo), LogoDark(api.channelLogo);
      && (Truthy(api.chlogo) ==> c.chlogo == api.chlogo)
      && (!Truthy(api.chlogo) && Truthy(light) ==> c.chlogo == light)
      && (!Truthy(api.chlogo) && !Truthy(light) && Truthy(dark) ==> c.chlogo == dark)
      && (!Truthy(api.chlogo) && !Truthy(light) && !Truthy(dark) ==> c.chlogo == JUndefined)
  {
  }

  // ---------------------------------------------------------------------------
  // Flat to nested
  // ---------------------------------------------------------------------------

  const NotAvailable: JsValue := JStr("N/A")

  /** What `buildChannelNames` returns: nothing, or the name and the
      `channel_names` object. */
  datatype NamesPart = NoNames | NamesPart(channelName: JsValue, channelNames: Names)

  /** What `buildChannelLogo` returns: nothing, or the `channel_logo`
      object and `chlogo`. */
  datatype LogoPart = NoLogo | LogoPart(channelLogo: Logo, chlogo: JsValue)

  /** `buildChannelNames`. */
  function BuildChannelNames(c: Channel): NamesPart {
    var name := Or(c.channelName, JStr(""));
    if Truthy(name) || Truthy(c.channelNameLocation) || Truthy(c.channelNameReal) then
      NamesPart(name, Names(name, Or(c.channelNameLocation, name), Or(c.channelNameReal, name)))
    else NoNames
  }

  /** `buildChannelLogo`. */
  function BuildChannelLogo(c: Channel): LogoPart {
    var light := Or(c.chlogoLight, JStr(""));
    var dark := Or(c.chlogoDark, JStr(""));
    if Truthy(light) || Truthy(dark) then
      LogoPart(Logo(Or(dark, light), light), Or(c.chlogo, Or(light, dark)))
    else NoLogo
  }

  /** `buildOtherData`. */
  function BuildOtherData(c: Channel): OtherData {
    OtherData(
      Or(c.channelAvailability, NotAvailable),
      Or(c.channelPackages, NotAvailable),
      Or(c.chantype, NotAvailable),
      Or(c.channelType, NotAvailable))
  }

  /** `v` when `copy` holds, else the property stays `undefined`. */
  function CopyWhen(copy: bool, v: JsValue): JsValue {
    if copy then v else JUndefined
  }

  /** The record `denormalizeAdditionalDataChannel` returns. */
  function Denormalized(c: Channel): ApiRecord {
    var names := BuildChannelNames(c);
    var logo := BuildChannelLogo(c);
    ApiRecord(
      CopyWhen(Truthy(c.chanbouq), c.chanbouq),
      CopyWhen(Truthy(c.chancomp), c.chancomp),
      CopyWhen(Present(c.chanlcnfet), c.chanlcnfet),
      CopyWhen(Present(c.chanlcnfox), c.chanlcnfox),
      CopyWhen(Present(c.chanlcnfta1), c.chanlcnfta1),
      CopyWhen(Present(c.chanlcnfta2), c.chanlcnfta2),
      CopyWhen(Present(c.chanlcnfta3), c.chanlcnfta3),
      JUndefined,
      CopyWhen(Truthy(c.channelGroup), c.channelGroup),
      c.channelId,
      if names.NamesPart? then names.channelName else JUndefined,
      JUndefined,
      JUndefined,
      CopyWhen(Truthy(c.channelNumber), c.channelNumber),
      JUndefined,
      CopyWhen(Truthy(c.channelSlug), c.channelSlug),
      JUndefined,
      CopyWhen(Truthy(c.channelUrl), c.channelUrl),
      JUndefined,
      if logo.LogoPart? then logo.chlogo else JUndefined,
      JUndefined,
      JUndefined,
      CopyWhen(Truthy(c.guidelink), c.guidelink),
      if names.NamesPart? then Some(names.channelNames) else None,
      if logo.LogoPart? then Some(logo.channelLogo) else None,
      Some(BuildOtherData(c)))
  }

  /** The id is always copied. Slug, number, group and URL are copied
      when truthy and left `undefined` otherwise. */
  lemma DenormalizedTopLevel(c: Channel)
    ensures var r := Denormalized(c);
      && r.channelId == c.channelId
      && (Truthy(c.channelSlug) ==> r.channelSlug == c.channelSlug) && (!Truthy(c.channelSlug) ==> r.channelSlug == JUndefined)
      && (Truthy(c.channelNumber) ==> r.channelNumber == c.channelNumber) && (!Truthy(c.channelNumber) ==> r.channelNumber == JUndefined)
      && (Truthy(c.channelGroup) ==> r.channelGroup == c.channelGroup) && (!Truthy(c.channelGroup) ==> r.channelGroup == JUndefined)
      && (Truthy(c.channelUrl) ==> r.channelUrl == c.channelUrl) && (!Truthy(c.channelUrl) ==> r.channelUrl == JUndefined)
  {
  }

  /** Bouquet, company and guide link are copied when truthy; an LCN is
      copied when it is neither `null` nor `undefined`, so 0 is kept. */
  lemma DenormalizedLegacy(c: Channel)
    ensures var r := Denormalized(c);
      && (Truthy(c.chanbouq) ==> r.chanbouq == c.chanbouq) && (!Truthy(c.chanbouq) ==> r.chanbouq == JUndefined)
      && (Truthy(c.chancomp) ==> r.chancomp == c.chancomp) && (!Truthy(c.chancomp) ==> r.chancomp == JUndefined)
      && (Truthy(c.guidelink) ==> r.guidelink == c.guidelink) && (!Truthy(c.guidelink) ==> r.guidelink == JUndefined)
      && (Present(c.chanlcnfet) ==> r.chanlcnfet == c.chanlcnfet) && (!Present(c.chanlcnfet) ==> r.chanlcnfet == JUndefined)
      && (Present(c.chanlcnfox) ==> r.chanlcnfox == c.chanlcnfox) && (!Present(c.chanlcnfox) ==> r.chanlcnfox == JUndefined)
      && (Present(c.chanlcnfta1) ==> r.chanlcnfta1 == c.chanlcnfta1) && (!Present(c.chanlcnfta1) ==> r.chanlcnfta1 == JUndefined)
      && (Present(c.chanlcnfta2) ==> r.chanlcnfta2 == c.chanlcnfta2) && (!Present(c.chanlcnfta2) ==> r.chanlcnfta2 == JUndefined)
      && (Present(c.chanlcnfta3) ==> r.chanlcnfta3 == c.chanlcnfta3) && (!Present(c.chanlcnfta3) ==> r.chanlcnfta3 == JUndefined)
    ensures c.chanlcnfet == JNum(0) ==> Denormalized(c).chanlcnfet == JNum(0)
  {
  }

  /** `channel_names` is there exactly when one of the three names is
      truthy; the top-level name is its clean name, and the location and
      the real name fall back to it. */
  lemma DenormalizedNames(c: Channel)
    ensures var r := Denormalized(c);
      r.channelNames.Some? <==> Truthy(c.channelName) || Truthy(c.channelNameLocation) || Truthy(c.channelNameReal)
    ensures var r := Denormalized(c);
      r.channelNames.None? ==> r.channelName == JUndefined
    ensures var r := Denormalized(c); var n := r.channelNames;
      n.Some? ==>
        && n.value.clean == r.channelName
        && (Truthy(c.channelName) ==> n.value.clean == c.channelName)
        && (!Truthy(c.channelName) ==> n.value.clean == JStr(""))
        && (Truthy(c.channelNameLocation) ==> n.value.location == c.channelNameLocation)
        && (!Truthy(c.channelNameLocation) ==> n.value.location == n.value.clean)
        && (Truthy(c.channelNameReal) ==> n.value.realName == c.channelNameReal)
        && (!Truthy(c.channelNameReal) ==> n.value.realName == n.value.clean)
  {
  }

  /** `channel_logo` is there exactly when the light or the dark logo is
      truthy; then the dark logo falls back to the light one, and `chlogo`
      is truthy, falling back to the light logo and then the dark one. */
  lemma DenormalizedLogo(c: Channel)
    ensures var r := Denormalized(c);
      r.channelLogo.Some? <==> Truthy(c.chlogoLight) || Truthy(c.chlogoDark)
    ensures var r := Denormalized(c);
      r.channelLogo.None? ==> r.chlogo == JUndefined
    ensures var r := Denormalized(c); var l := r.channelLogo;
      l.Some? ==>
        && Truthy(l.value.dark) && Truthy(r.chlogo)
        && (Truthy(c.chlogoLight) ==> l.value.light == c.chlogoLight)
        && (!Truthy(c.chlogoLight) ==> l.value.light == JStr(""))
        && (Truthy(c.chlogoDark) ==> l.value.dark == c.chlogoDark)
        && (!Truthy(c.chlogoDark) ==> l.value.dark == c.chlogoLight)
        && (Truthy(c.chlogo) ==> r.chlogo == c.chlogo)
        && (!Truthy(c.chlogo) && Truthy(c.chlogoLight) ==> r.chlogo == c.chlogoLight)
        && (!Truthy(c.chlogo) && !Truthy(c.chlogoLight) ==> r.chlogo == c.chlogoDark)
  {
  }

  /** `other_data` is always there, each of its fields the flat value when
      truthy and "N/A" otherwise; the specs come from `chantype`. */
  lemma DenormalizedOtherData(c: Channel)
    ensures var r := Denormalized(c);
      r.otherData.Some?
    ensures var o := Denormalized(c).otherData.value;
      && Truthy(o.channelAvailability) && Truthy(o.channelPackages)
      && Truthy(o.channelSpecs) && Truthy(o.channelType)
      && (Truthy(c.channelAvailability) ==> o.channelAvailability == c.channelAvailability)
      && (!Truthy(c.channelAvailability) ==> o.channelAvailability == NotAvailable)
      && (Truthy(c.channelPackages) ==> o.channelPackages == c.channelPackages)
      && (!Truthy(c.channelPackages) ==> o.channelPackages == NotAvailable)
      && (Truthy(c.chantype) ==> o.channelSpecs == c.chantype)
      && (!Truthy(c.chantype) ==> o.channelSpecs == NotAvailable)
      && (Truthy(c.channelType) ==> o.channelType == c.channelType)
      && (!Truthy(c.channelType) ==> o.channelType == NotAvailable)
  {
  }

  /** A flat record that survives the trip through the API shape: the
      copied fields truthy or `undefined`, company and URL truthy or
      `null`, no LCN `undefined`, and every field with a fallback or a
      placeholder truthy. */
  predicate Complete(c: Channel) {
    && TruthyOrUndefined(c.chanbouq) && TruthyOrUndefined(c.channelGroup)
    && TruthyOrUndefined(c.channelNumber) && TruthyOrUndefined(c.channelSlug)
    && TruthyOrUndefined(c.guidelink)
    && (Truthy(c.chancomp) || c.chancomp == JNull)
    && (Truthy(c.channelUrl) || c.channelUrl == JNull)
    && c.chanlcnfet != JUndefined && c.chanlcnfox != JUndefined
    && c.chanlcnfta1 != JUndefined && c.chanlcnfta2 != JUndefined && c.chanlcnfta3 != JUndefined
    && Truthy(c.channelName) && Truthy(c.channelNameLocation) && Truthy(c.channelNameReal)
    && Truthy(c.channelAvailability) && Truthy(c.channelPackages)
    && Truthy(c.channelType) && Truthy(c.chantype)
    && Truthy(c.chlogo) && Truthy(c.chlogoDark) && Truthy(c.chlogoLight)
  }

  /** Saving a complete flat record and loading it back gives the same
      record. */
  lemma RoundTrip(c: Channel)
    requires Complete(c)
    ensures Normalize(Denormalized(c)) == c
  {
  }

  /** What an incomplete record comes back as: the four `other_data`
      fields as "N/A" when they were falsy, a missing location as the name,
      a missing dark logo as the light one, and an `undefined` LCN as
      `null`. */
  lemma RoundTripPlaceholders(c: Channel)
    ensures var n := Normalize(Denormalized(c));
      && n.channelAvailability == Or(c.channelAvailability, NotAvailable)
      && n.channelPackages == Or(c.channelPackages, NotAvailable)
      && n.chantype == Or(c.chantype, NotAvailable)
      && n.channelType == Or(c.channelType, NotAvailable)
    ensures Truthy(c.channelName) && !Truthy(c.channelNameLocation) ==>
      Normalize(Denormalized(c)).channelNameLocation == c.channelName
    ensures Truthy(c.chlogoLight) && !Truthy(c.chlogoDark) ==>
      Normalize(Denormalized(c)).chlogoDark == c.chlogoLight
    ensures c.chanlcnfet == JUndefined ==> Normalize(Denormalized(c)).chanlcnfet == JNull
  {
  }

  /** The API object under construction, which the conversion fills in one
      property at a time. */
  class ApiChannel {
    var fields: ApiRecord

    /** `{ channel_id: channelId }`. */
    constructor(channelId: JsValue)
      ensures fields == ApiRecord(
        JUndefined, JUndefined, JUndefined, JUndefined, JUndefined, JUndefined, JUndefined,
        JUndefined, JUndefined, channelId, JUndefined, JUndefined, JUndefined, JUndefined,
        JUndefined, JUndefined, JUndefined, JUndefined, JUndefined, JUndefined, JUndefined, JUndefined,
        JUndefined, None, None, None)
    {
      fields := ApiRecord(
        JUndefined, JUndefined, JUndefined, JUndefined, JUndefined, JUndefined, JUndefined,
        JUndefined, JUndefined, channelId, JUndefined, JUndefined, JUndefined, JUndefined,
        JUndefined, JUndefined, JUndefined, JUndefined, JUndefined, JUndefined, JUndefined, JUndefined,
        JUndefined, None, None, None);
    }

    /** `Object.assign(apiChannel, buildChannelNames(channel))`. */
    method AssignNames(part: NamesPart)
      modifies this
      ensures part.NoNames? ==> fields == old(fields)
      ensures part.NamesPart? ==>
        fields == old(fields).(channelName := part.channelName, channelNames := Some(part.channelNames))
    {
      if part.NamesPart? {
        fields := fields.(channelName := part.channelName);
        fields := fields.(channelNames := Some(part.channelNames));
      }
    }

    /** `Object.assign(apiChannel, buildChannelLogo(channel))`. */
    method AssignLogo(part: LogoPart)
      modifies this
      ensures part.NoLogo? ==> fields == old(fields)
      ensures part.LogoPart? ==>
        fields == old(fields).(channelLogo := Some(part.channelLogo), chlogo := part.chlogo)
    {
      if part.LogoPart? {
        fields := fields.(channelLogo := Some(part.channelLogo));
        fields := fields.(chlogo := part.chlogo);
      }
    }

    /** `Object.assign(apiChannel, buildOtherData(channel))`. */
    method AssignOtherData(other: OtherData)
      modifies this
      ensures fields == old(fields).(otherData := Some(other))
    {
      fields := fields.(otherData := Some(other));
    }
  }

  /** `addLegacyFields`: copies the bouquet, the company and the guide link
      when truthy, and each LCN when it is neither `null` nor `undefined`. */
  method AddLegacyFields(channel: Channel, apiChannel: ApiChannel)
    modifies apiChannel
    ensures apiChannel.fields == old(apiChannel.fields).(
      chanbouq := if Truthy(channel.chanbouq) then channel.chanbouq else old(apiChannel.fields.chanbouq),
      chancomp := if Truthy(channel.chancomp) then channel.chancomp else old(apiChannel.fields.chancomp),
      chanlcnfta1 := if Present(channel.chanlcnfta1) then channel.chanlcnfta1 else old(apiChannel.fields.chanlcnfta1),
      chanlcnfta2 := if Present(channel.chanlcnfta2) then channel.chanlcnfta2 else old(apiChannel.fields.chanlcnfta2),
      chanlcnfta3 := if Present(channel.chanlcnfta3) then channel.chanlcnfta3 else old(apiChannel.fields.chanlcnfta3),
      chanlcnfox := if Present(channel.chanlcnfox) then channel.chanlcnfox else old(apiChannel.fields.chanlcnfox),
      chanlcnfet := if Present(channel.chanlcnfet) then channel.chanlcnfet else old(apiChannel.fields.chanlcnfet),
      guidelink := if Truthy(channel.guidelink) then channel.guidelink else old(apiChannel.fields.guidelink))
  {
    var f := apiChannel.fields;
    if Truthy(channel.chanbouq) {
      f := f.(chanbouq := channel.chanbouq);
    }
    if Truthy(channel.chancomp) {
      f := f.(chancomp := channel.chancomp);
    }
    if channel.chanlcnfta1 != JNull && channel.chanlcnfta1 != JUndefined {
      f := f.(chanlcnfta1 := channel.chanlcnfta1);
    }
    if channel.chanlcnfta2 != JNull && channel.chanlcnfta2 != JUndefined {
      f := f.(chanlcnfta2 := channel.chanlcnfta2);
    }
    if channel.chanlcnfta3 != JNull && channel.chanlcnfta3 != JUndefined {
      f := f.(chanlcnfta3 := channel.chanlcnfta3);
    }
    if channel.chanlcnfox != JNull && channel.chanlcnfox != JUndefined {
      f := f.(chanlcnfox := channel.chanlcnfox);
    }
    if channel.chanlcnfet != JNull && channel.chanlcnfet != JUndefined {
      f := f.(chanlcnfet := channel.chanlcnfet);
    }
    if Truthy(channel.guidelink) {
      f := f.(guidelink := channel.guidelink);
    }
    apiChannel.fields := f;
  }

  /** `denormalizeAdditionalDataChannel`. */
  method DenormalizeChannel(channel: Channel) returns (apiChannel: ApiChannel)
    ensures fresh(apiChannel)
    ensures apiChannel.fields == Denormalized(channel)
  {
    apiChannel := new ApiChannel(channel.channelId);
    if Truthy(channel.channelSlug) {
      apiChannel.fields := apiChannel.fields.(channelSlug := channel.channelSlug);
    }
    if Truthy(channel.channelNumber) {
      apiChannel.fields := apiChannel.fields.(channelNumber := channel.channelNumber);
    }
    if Truthy(channel.channelGroup) {
      apiChannel.fields := apiChannel.fields.(channelGroup := channel.channelGroup);
    }
    if Truthy(channel.channelUrl) {
      apiChannel.fields := apiChannel.fields.(channelUrl := channel.channelUrl);
    }
    apiChannel.AssignNames(BuildChannelNames(channel));
    apiChannel.AssignLogo(BuildChannelLogo(channel));
    apiChannel.AssignOtherData(BuildOtherData(channel));
    AddLegacyFields(channel, apiChannel);
  }
}
