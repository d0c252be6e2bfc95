/** Rules of the CFHT MegaPrime translators: the filter names, the
    detector number from EXTNAME, the observatory location, the
    telescope position, the pressure and the end of the exposure. */
module MegaPrimeRules {
  import opened Wrappers
  import opened Text
  import opened Values
  import opened CardResolvers
  import opened CommonRules
  import opened FitsRules

  /** The MegaPrime filters, from physical name to short name. */
  const Filters: map<string, string> := map[
    "u.MP9301" := "u", "u.MP9302" := "u2",
    "g.MP9401" := "g", "g.MP9402" := "g2",
    "r.MP9601" := "r", "r.MP9602" := "r2",
    "i.MP9701" := "i", "i.MP9702" := "i2", "i.MP9703" := "i3",
    "z.MP9801" := "z", "z.MP9901" := "z2"]

  /** Every short name begins with the band letter its physical name
      begins with. */
  lemma FilterBands(physical: string)
    requires physical in Filters
    ensures Filters[physical] != [] && physical != [] && Filters[physical][0] == physical[0]
  {
  }

  /** `to_abstract_filter` of the older MegaPrime translator: the first
      letter of the short name of a known physical filter, else None. */
  function LegacyAbstractFilter(physical: Datum): (r: Datum)
    ensures (physical.Scalar? && physical.v.Str? && physical.v.s in Filters) ==>
      r == Scalar(Str([physical.v.s[0]]))
    ensures !(physical.Scalar? && physical.v.Str? && physical.v.s in Filters) ==> r == Scalar(Null)
  {
    if physical.Scalar? && physical.v.Str? && physical.v.s in Filters then
      FilterBands(physical.v.s);
      Scalar(Str([Filters[physical.v.s][0]]))
    else Scalar(Null)
  }

  /** `int(extname[3:])`: the number after the first three characters
      ("ccd"); only text can be sliced. */
  function ExtnameNumber(v: Value): (r: Result<int>)
    ensures r.Ok? ==> v.Str? && |v.s| > 3 && ParseInt(v.s[3..]) == Some(r.value)
    ensures !v.Str? ==> r.Err? && r.error.TypeError?
    ensures v.Str? ==> (r.Ok? || r.error.ValueError?)
  {
    if !v.Str? then Err(TypeError("object is not subscriptable"))
    else
      var tail := if |v.s| <= 3 then "" else v.s[3..];
      match ParseInt(tail)
      case None => Err(ValueError("invalid literal for int()"))
      case Some(n) =>
        assert tail != [];
        Ok(n)
  }

  /** `to_detector_num` of the current translator: the EXTNAME number,
      recording EXTNAME; 99, recording nothing, when EXTNAME is missing
      or its number cannot be read. */
  function ModernDetectorNum(h: Header): (r: Outcome<Datum>)
    ensures "EXTNAME" !in h ==> r == Outcome(Ok(Scalar(Int(99))), {})
    ensures "EXTNAME" in h && ExtnameNumber(h["EXTNAME"]).Ok? ==>
      r == Outcome(Ok(Scalar(Int(ExtnameNumber(h["EXTNAME"]).value))), {"EXTNAME"})
    ensures "EXTNAME" in h && h["EXTNAME"].Str? && ExtnameNumber(h["EXTNAME"]).Err? ==>
      r == Outcome(Ok(Scalar(Int(99))), {})
    ensures "EXTNAME" in h && !h["EXTNAME"].Str? ==> r.result.Err? && r.result.error.TypeError? && r.cards == {}
  {
    if "EXTNAME" !in h then Outcome(Ok(Scalar(Int(99))), {})
    else match ExtnameNumber(h["EXTNAME"])
      case Ok(n) => Outcome(Ok(Scalar(Int(n))), {"EXTNAME"})
      case Err(e) => if e.ValueError? then Outcome(Ok(Scalar(Int(99))), {}) else Outcome(Err(e), {})
  }

  /** `to_detector_num` of the older translator: as the current one, but
      an unreadable number raises ValueError instead of giving 99. */
  function LegacyDetectorNum(h: Header): (r: Outcome<Datum>)
    ensures "EXTNAME" !in h ==> r == Outcome(Ok(Scalar(Int(99))), {})
    ensures "EXTNAME" in h ==> (r.result.Ok? <==> ExtnameNumber(h["EXTNAME"]).Ok?)
    ensures "EXTNAME" in h && ExtnameNumber(h["EXTNAME"]).Ok? ==>
      r == Outcome(Ok(Scalar(Int(ExtnameNumber(h["EXTNAME"]).value))), {"EXTNAME"})
    ensures r.result.Err? ==> r.cards == {}
  {
    if "EXTNAME" !in h then Outcome(Ok(Scalar(Int(99))), {})
    else match ExtnameNumber(h["EXTNAME"])
      case Ok(n) => Outcome(Ok(Scalar(Int(n))), {"EXTNAME"})
      case Err(e) => Outcome(Err(e), {})
  }

  /** The detector number written after any three-character prefix, in
      any zero-padded width, reads back in both translators. */
  lemma DetectorNumRoundTrip(h: Header, prefix: string, n: nat, width: nat)
    requires |prefix| == 3
    requires "EXTNAME" in h && h["EXTNAME"] == Str(prefix + FormatZeroPadded(n, width))
    ensures ModernDetectorNum(h) == Outcome(Ok(Scalar(Int(n))), {"EXTNAME"})
    ensures LegacyDetectorNum(h) == Outcome(Ok(Scalar(Int(n))), {"EXTNAME"})
  {
    var digits := FormatZeroPadded(n, width);
    assert (prefix + digits)[3..] == digits;
    ParseIntDigits(digits);
  }

  /** Where the two versions part: the primary header's EXTNAME "PHU"
      has no number, so the current translator reports 99 and the older
      one raises. */
  lemma DetectorNumPrimaryHeader(h: Header)
    requires "EXTNAME" in h && h["EXTNAME"] == Str("PHU")
    ensures ModernDetectorNum(h) == Outcome(Ok(Scalar(Int(99))), {})
    ensures LegacyDetectorNum(h).result.Err? && LegacyDetectorNum(h).result.error.ValueError?
  {
    StripEmpty();
  }

  /** `int()` skips an underscore between digit groups, so EXTNAME
      "ccd1_0" is detector 10 in both versions. */
  lemma DetectorNumGrouped(h: Header)
    requires "EXTNAME" in h && h["EXTNAME"] == Str("ccd1_0")
    ensures ModernDetectorNum(h) == Outcome(Ok(Scalar(Int(10))), {"EXTNAME"})
    ensures LegacyDetectorNum(h) == Outcome(Ok(Scalar(Int(10))), {"EXTNAME"})
  {
    assert "ccd1_0"[3..] == "1_0";
    ParseIntUnderscores();
  }

  /** EXTNAME "ccd27" is detector 27 in both versions. */
  lemma DetectorNumTwentySeven(h: Header)
    requires "EXTNAME" in h && h["EXTNAME"] == Str("ccd27")
    ensures ModernDetectorNum(h) == Outcome(Ok(Scalar(Int(27))), {"EXTNAME"})
    ensures LegacyDetectorNum(h) == Outcome(Ok(Scalar(Int(27))), {"EXTNAME"})
  {
    assert "ccd27"[3..] == "27";
    DigitAppended("2", '7');
    assert "2" + ['7'] == "27";
    ParseIntDigits("27");
  }

  lemma StripEmpty()
    ensures ParseInt("") == None
  {
    StripUnchanged("");
  }

  /** The CFHT site as the astropy site registry knows it. */
  const Cfht: Datum := Site("CFHT")

  /** The location pairs the current translator tries, in order. */
  const LocationPairs: seq<(string, string)> := [("LONGITUD", "LATITUDE"), ("OBS-LONG", "OBS-LAT")]

  /** `to_location` of the current translator: the first complete
      longitude/latitude pair at a height of 4215 m, recording the pair;
      the CFHT site, recording nothing, when no pair is complete. */
  function ModernLocation(h: Header): (r: Outcome<Datum>)
    ensures r.result.Ok?
    ensures FirstCompletePair(h, LocationPairs).None? ==> r == Outcome(Ok(Cfht), {})
    ensures FirstCompletePair(h, LocationPairs).Some? ==>
      var (lon, lat) := LocationPairs[FirstCompletePair(h, LocationPairs).value];
      r == Outcome(Ok(Geodetic(h[lon], h[lat], Num(4215.0))), {lon, lat})
  {
    match FirstCompletePair(h, LocationPairs)
    case None => Outcome(Ok(Cfht), {})
    case Some(i) =>
      var (lon, lat) := LocationPairs[i];
      Outcome(Ok(Geodetic(h[lon], h[lat], Num(4215.0))), {lon, lat})
  }

  /** LONGITUD and LATITUDE take precedence over OBS-LONG and OBS-LAT. */
  lemma ModernLocationPrefersLongitud(h: Header)
    requires "LONGITUD" in h && "LATITUDE" in h
    ensures ModernLocation(h) == Outcome(Ok(Geodetic(h["LONGITUD"], h["LATITUDE"], Num(4215.0))),
                                         {"LONGITUD", "LATITUDE"})
  {
    assert FirstCompletePair(h, LocationPairs) == Some(0);
  }

  /** `to_location` of the older translator: LONGITUD and LATITUDE are
      required. */
  function LegacyLocation(h: Header): (r: Outcome<Datum>)
    ensures "LONGITUD" !in h ==> r == Outcome(Err(KeyError(["LONGITUD"])), {})
    ensures "LONGITUD" in h && "LATITUDE" !in h ==> r == Outcome(Err(KeyError(["LATITUDE"])), {})
    ensures "LONGITUD" in h && "LATITUDE" in h ==>
      r == Outcome(Ok(Geodetic(h["LONGITUD"], h["LATITUDE"], Num(4215.0))), {"LONGITUD", "LATITUDE"})
  {
    if "LONGITUD" !in h then Outcome(Err(KeyError(["LONGITUD"])), {})
    else if "LATITUDE" !in h then Outcome(Err(KeyError(["LATITUDE"])), {})
    else Outcome(Ok(Geodetic(h["LONGITUD"], h["LATITUDE"], Num(4215.0))), {"LONGITUD", "LATITUDE"})
  }

  /** The telescope position pairs the current translator tries. */
  const AltAzPairs: seq<(string, string)> := [("TELAZ", "TELALT"), ("BORE-AZ", "BORE-ALT")]

  /** `to_altaz_begin` of the current translator.  The first complete
      azimuth/altitude pair decides: a reading below 1 degree (the
      calibration placeholder) gives None without recording anything,
      and otherwise the position is built with the start time and the
      location and the pair is recorded.  With no complete pair it is
      `NonScienceDefault`. */
  function ModernAltAz(h: Header, begin: Outcome<Datum>, location: Outcome<Datum>,
                       observationType: Outcome<Datum>): (r: Outcome<Datum>)
    ensures FirstCompletePair(h, AltAzPairs).None? ==> r == NonScienceDefault(observationType)
    ensures FirstCompletePair(h, AltAzPairs).Some? ==>
      var (az, alt) := AltAzPairs[FirstCompletePair(h, AltAzPairs).value];
      (Below(h[az], 1.0) == Ok(true) ==> r == Outcome(Ok(Scalar(Null)), {})) &&
      (Below(h[az], 1.0) == Ok(false) && Below(h[alt], 1.0) == Ok(true) ==> r == Outcome(Ok(Scalar(Null)), {})) &&
      (Below(h[az], 1.0).Err? ==> r.result.Err? && r.result.error.TypeError? && r.cards == {}) &&
      (Below(h[az], 1.0) == Ok(false) && Below(h[alt], 1.0) == Ok(false) ==>
         r == AtTimeAndPlace((t, l) => AltAz(Quantity(h[az], Degree), Quantity(h[alt], Degree), t, l),
                             begin, location, {az, alt}))
  {
    match FirstCompletePair(h, AltAzPairs)
    case None => NonScienceDefault(observationType)
    case Some(i) =>
      var (azKey, altKey) := AltAzPairs[i];
      var az, alt := h[azKey], h[altKey];
      match Below(az, 1.0)
      case Err(e) => Outcome(Err(e), {})
      case Ok(azLow) =>
        if azLow then Outcome(Ok(Scalar(Null)), {})
        else match Below(alt, 1.0)
          case Err(e) => Outcome(Err(e), {})
          case Ok(altLow) =>
            if altLow then Outcome(Ok(Scalar(Null)), {})
            else AtTimeAndPlace((t, l) => AltAz(Quantity(az, Degree), Quantity(alt, Degree), t, l),
                                begin, location, {azKey, altKey})
  }

  /** The calibration placeholder -9999 never yields a position. */
  lemma PlaceholderGivesNoPosition(h: Header, begin: Outcome<Datum>, location: Outcome<Datum>,
                                   observationType: Outcome<Datum>)
    requires "TELAZ" in h && "TELALT" in h && h["TELAZ"] == Num(-9999.0)
    ensures ModernAltAz(h, begin, location, observationType) == Outcome(Ok(Scalar(Null)), {})
  {
    assert FirstCompletePair(h, AltAzPairs) == Some(0);
  }

  /** `to_altaz_begin` of the older translator: TELAZ and TELALT, both
      recorded. */
  function LegacyAltAz(h: Header, begin: Outcome<Datum>, location: Outcome<Datum>): (r: Outcome<Datum>)
    ensures "TELAZ" !in h ==> r == Outcome(Err(KeyError(["TELAZ"])), {})
    ensures "TELAZ" in h && "TELALT" !in h ==> r == Outcome(Err(KeyError(["TELALT"])), {})
    ensures "TELAZ" in h && "TELALT" in h ==>
      r == AtTimeAndPlace((t, l) => AltAz(Quantity(h["TELAZ"], Degree), Quantity(h["TELALT"], Degree), t, l),
                          begin, location, {"TELAZ", "TELALT"})
  {
    if "TELAZ" !in h then Outcome(Err(KeyError(["TELAZ"])), {})
    else if "TELALT" !in h then Outcome(Err(KeyError(["TELALT"])), {})
    else AtTimeAndPlace((t, l) => AltAz(Quantity(h["TELAZ"], Degree), Quantity(h["TELALT"], Degree), t, l),
                        begin, location, {"TELAZ", "TELALT"})
  }

  /** `to_pressure` of the current translator: PRESSURE in hectopascals,
      else AIRPRESS in pascals, else a KeyError. */
  function ModernPressure(h: Header, env: Env): (r: Outcome<Datum>)
    ensures "PRESSURE" in h ==> r == QuantityFromCard(h, env, ["PRESSURE"], HectoPascal, Null, None, None)
    ensures "PRESSURE" !in h && "AIRPRESS" in h ==> r == QuantityFromCard(h, env, ["AIRPRESS"], Pascal, Null, None, None)
    ensures "PRESSURE" !in h && "AIRPRESS" !in h ==> r == Outcome(Err(KeyError([])), {})
    ensures r.result.Ok? ==>
      r.result.value.Quantity? && (r.result.value.unit == HectoPascal <==> "PRESSURE" in h)
  {
    if "PRESSURE" in h then QuantityFromCard(h, env, ["PRESSURE"], HectoPascal, Null, None, None)
    else if "AIRPRESS" in h then QuantityFromCard(h, env, ["AIRPRESS"], Pascal, Null, None, None)
    else Outcome(Err(KeyError([])), {})
  }

  /** `to_datetime_end` of the current translator: DATE-OBS with UTCEND
      when UTCEND is present, else the start plus the exposure time,
      computed in that order. */
  function ModernDatetimeEnd(h: Header, env: Env, begin: Outcome<Datum>, exposureTime: Outcome<Datum>): (r: Outcome<Datum>)
    ensures "UTCEND" in h ==> r == DateWithTime(h, env, "DATE-OBS", "UTCEND")
    ensures "UTCEND" !in h ==> (r.result.Ok? <==> begin.result.Ok? && exposureTime.result.Ok?)
    ensures "UTCEND" !in h && r.result.Ok? ==>
      r == Outcome(Ok(TimeAfter(begin.result.value, exposureTime.result.value)), begin.cards + exposureTime.cards)
    ensures "UTCEND" !in h && begin.result.Err? ==> r == begin
  {
    if "UTCEND" in h then DateWithTime(h, env, "DATE-OBS", "UTCEND")
    else match begin.result
      case Err(e) => begin
      case Ok(t) =>
        match exposureTime.result
        case Err(e) => Outcome(Err(e), begin.cards + exposureTime.cards)
        case Ok(d) => Outcome(Ok(TimeAfter(t, d)), begin.cards + exposureTime.cards)
  }

  /** `to_tracking_radec` of the older translator: the frame comes from
      OBJRADEC; a moving target ("gappt") calls the card set as a
      function, which raises TypeError; otherwise RA_DEG and DEC_DEG in
      degrees, recording all three cards. */
  function LegacyTracking(h: Header, begin: Outcome<Datum>, location: Outcome<Datum>): (r: Outcome<Datum>)
    ensures StrippedCard(h, "OBJRADEC").Err? ==> r == Outcome(Err(StrippedCard(h, "OBJRADEC").error), {})
    ensures (StrippedCard(h, "OBJRADEC").Ok? && Lower(StrippedCard(h, "OBJRADEC").value) == "gappt") ==>
      r.result.Err? && r.result.error.TypeError? && r.cards == {}
    ensures (StrippedCard(h, "OBJRADEC").Ok? && Lower(StrippedCard(h, "OBJRADEC").value) != "gappt" &&
             "RA_DEG" in h && "DEC_DEG" in h) ==>
      r == AtTimeAndPlace((t, l) => Sky(h["RA_DEG"], h["DEC_DEG"], Lower(StrippedCard(h, "OBJRADEC").value),
                                        Degree, Degree, t, l), begin, location, {"OBJRADEC", "RA_DEG", "DEC_DEG"})
    ensures r.result.Ok? ==> r.result.value.Sky?
  {
    match StrippedCard(h, "OBJRADEC")
    case Err(e) => Outcome(Err(e), {})
    case Ok(t) =>
      var frame := Lower(t);
      if frame == "gappt" then Outcome(Err(TypeError("'set' object is not callable")), {})
      else if "RA_DEG" !in h then Outcome(Err(KeyError(["RA_DEG"])), {})
      else if "DEC_DEG" !in h then Outcome(Err(KeyError(["DEC_DEG"])), {})
      else AtTimeAndPlace((t, l) => Sky(h["RA_DEG"], h["DEC_DEG"], frame, Degree, Degree, t, l),
                          begin, location, {"OBJRADEC", "RA_DEG", "DEC_DEG"})
  }

  /** The tracking systems and RA/Dec pairs of the current translator. */
  const TrackingSystems: seq<string> := ["RADECSYS", "OBJRADEC", "RADESYS"]
  const TrackingPairs: seq<(string, string)> := [("RA_DEG", "DEC_DEG"), ("BORE-RA", "BORE-DEC")]

}
