/** Rules of the DECam translators: the CALIB_ID field search, the
    physical and abstract filters, the location, the tracking and
    telescope positions and the combined detector/exposure identifier. */
module DecamRules {
  import opened Wrappers
  import opened Text
  import opened Values
  import opened CommonRules

  /** The line of `s` up to its first newline. */
  function FirstLine(s: string): (r: string)
    ensures |r| <= |s| && r == s[..|r|]
    ensures forall i :: 0 <= i < |r| ==> r[i] != '\n'
    ensures |r| < |s| ==> s[|r|] == '\n'
  {
    if s == [] || s[0] == '\n' then [] else [s[0]] + FirstLine(s[1..])
  }

  /** `pattern` occurs at position `i` of `line` followed by a character
      that is not white space. */
  predicate MatchAt(line: string, pattern: string, i: nat) {
    i + |pattern| < |line| && (forall k :: 0 <= k < |pattern| ==> line[i + k] == pattern[k]) &&
    !IsSpace(line[i + |pattern|])
  }

  /** The last position before `n` where `pattern` is followed by a
      non-space character. */
  function LastMatch(line: string, pattern: string, n: nat): (r: Option<nat>)
    requires n <= |line|
    ensures r.Some? ==> r.value < n && MatchAt(line, pattern, r.value)
    ensures r.Some? ==> forall j :: r.value < j < n ==> !MatchAt(line, pattern, j)
    ensures r.None? <==> forall j :: 0 <= j < n ==> !MatchAt(line, pattern, j)
  {
    if n == 0 then None
    else if MatchAt(line, pattern, n - 1) then Some(n - 1)
    else LastMatch(line, pattern, n - 1)
  }

  /** `re.search(".*<field>=(\S+)", data).groups()[0]`: the first line
      holding `<field>=` followed by a non-space character decides (`.`
      does not cross a newline), the greedy `.*` picks the last such
      occurrence in it, and the group is the run of non-space characters
      after it.  None stands for no match. */
  function CalibToken(data: string, field: string): (r: Option<string>)
    decreases |data|
    ensures r.Some? ==> r.value != [] && forall i :: 0 <= i < |r.value| ==> !IsSpace(r.value[i])
  {
    var line := FirstLine(data);
    var pattern := field + "=";
    match LastMatch(line, pattern, |line|)
    case Some(i) => Some(Word(line[i + |pattern|..]))
    case None =>
      if |line| < |data| then CalibToken(data[|line| + 1..], field) else None
  }

  /** Within one line the token found is the word after the last
      occurrence of the field. */
  lemma CalibTokenOneLine(data: string, field: string)
    requires forall i :: 0 <= i < |data| ==> data[i] != '\n'
    ensures CalibToken(data, field) ==
      match LastMatch(data, field + "=", |data|)
      case None => None
      case Some(i) => Some(Word(data[i + |field + "="|..]))
  {
    FirstLineWhole(data);
    FirstLineTokens(data, field);
  }

  lemma FirstLineTokens(data: string, field: string)
    requires FirstLine(data) == data
    ensures CalibToken(data, field) ==
      match LastMatch(data, field + "=", |data|)
      case None => None
      case Some(i) => Some(Word(data[i + |field + "="|..]))
  {
    match LastMatch(data, field + "=", |data|)
    case None => {}
    case Some(i) => {}
  }

  lemma {:induction false} FirstLineWhole(s: string)
    requires forall i :: 0 <= i < |s| ==> s[i] != '\n'
    ensures FirstLine(s) == s
  {
    if s != [] {
      FirstLineWhole(s[1..]);
    }
  }

  /** `_translate_from_calib_id`: CALIB_ID is read (KeyError), searched
      (TypeError for a value that is not text), recorded, and the match
      read; no match is an AttributeError after recording the card. */
  function CalibFromId(h: Header, field: string): (r: Outcome<Datum>)
    ensures "CALIB_ID" !in h ==> r == Outcome(Err(KeyError(["CALIB_ID"])), {})
    ensures "CALIB_ID" in h && !h["CALIB_ID"].Str? ==> r.result.Err? && r.result.error.TypeError? && r.cards == {}
    ensures "CALIB_ID" in h && h["CALIB_ID"].Str? ==> r.cards == {"CALIB_ID"}
    ensures "CALIB_ID" in h && h["CALIB_ID"].Str? ==>
      match CalibToken(h["CALIB_ID"].s, field)
      case None => r.result.Err? && r.result.error.AttributeError?
      case Some(t) => r.result == Ok(Scalar(Str(t)))
  {
    if "CALIB_ID" !in h then Outcome(Err(KeyError(["CALIB_ID"])), {})
    else match h["CALIB_ID"]
      case Str(data) =>
        (match CalibToken(data, field)
         case None => Outcome(Err(AttributeError("'NoneType' object has no attribute 'groups'")), {"CALIB_ID"})
         case Some(t) => Outcome(Ok(Scalar(Str(t))), {"CALIB_ID"}))
      case _ => Outcome(Err(TypeError("expected string or bytes-like object")), {})
  }

  /** A one-field CALIB_ID. */
  lemma CalibTokenExample()
    ensures CalibToken("filter=r", "filter") == Some("r")
  {
    ExampleHasOneLine();
    CalibTokenOneLine("filter=r", "filter");
    ExampleMatch();
    assert "filter=r"[7..] == "r";
    assert Word("r") == "r";
  }

  lemma ExampleHasOneLine()
    ensures forall i :: 0 <= i < |"filter=r"| ==> "filter=r"[i] != '\n'
  {
  }

  lemma ExampleMatch()
    ensures LastMatch("filter=r", "filter" + "=", 8) == Some(0)
  {
    var data, pattern := "filter=r", "filter" + "=";
    assert pattern == "filter=";
    assert data[..7] == pattern;
    assert MatchAt(data, pattern, 0);
  }

  /** `to_physical_filter` of the current translator.  With FILTER
      present, the observation type is computed first and a bias ("zero")
      reports "NONE" without recording FILTER; otherwise FILTER is
      stripped and recorded.  Without FILTER the CALIB_ID filter field is
      used, and without either the filter is None. */
  function ModernPhysicalFilter(h: Header, observationType: Outcome<Datum>): (r: Outcome<Datum>)
    ensures "FILTER" in h && observationType.result.Err? ==> r == observationType
    ensures "FILTER" in h && observationType.result == Ok(Scalar(Str("zero"))) ==>
      r == Outcome(Ok(Scalar(Str("NONE"))), observationType.cards)
    ensures ("FILTER" in h && observationType.result.Ok? && observationType.result.value != Scalar(Str("zero")) &&
             h["FILTER"].Str?) ==>
      r == Outcome(Ok(Scalar(Str(Strip(h["FILTER"].s)))), observationType.cards + {"FILTER"})
    ensures "FILTER" !in h && "CALIB_ID" in h ==> r == CalibFromId(h, "filter")
    ensures "FILTER" !in h && "CALIB_ID" !in h ==> r == Outcome(Ok(Scalar(Null)), {})
  {
    if "FILTER" in h then
      match observationType.result
      case Err(_) => observationType
      case Ok(t) =>
        if t == Scalar(Str("zero")) then Outcome(Ok(Scalar(Str("NONE"))), observationType.cards)
        else match StrippedCard(h, "FILTER")
          case Err(e) => Outcome(Err(e), observationType.cards)
          case Ok(f) => Outcome(Ok(Scalar(Str(f))), observationType.cards + {"FILTER"})
    else if "CALIB_ID" in h then CalibFromId(h, "filter")
    else Outcome(Ok(Scalar(Null)), {})
  }

  /** `to_physical_filter` of the older translator.  A FILTER card is
      overridden by "NONE" when OBSTYPE mentions "zero", and neither card
      is then recorded; the other cases are as in the current one. */
  function LegacyPhysicalFilter(h: Header): (r: Outcome<Datum>)
    ensures ("FILTER" in h && "OBSTYPE" in h && h["OBSTYPE"].Str? && Contains(Lower(Strip(h["OBSTYPE"].s)), "zero")) ==>
      r == Outcome(Ok(Scalar(Str("NONE"))), {})
    ensures ("FILTER" in h && "OBSTYPE" in h && !h["OBSTYPE"].Str?) ==>
      r.result.Err? && r.result.error.AttributeError? && r.cards == {}
    ensures ("FILTER" in h && h["FILTER"].Str? &&
             ("OBSTYPE" in h ==> h["OBSTYPE"].Str? && !Contains(Lower(Strip(h["OBSTYPE"].s)), "zero"))) ==>
      r == Outcome(Ok(Scalar(Str(Strip(h["FILTER"].s)))), {"FILTER"})
    ensures "FILTER" !in h && "CALIB_ID" in h ==> r == CalibFromId(h, "filter")
    ensures "FILTER" !in h && "CALIB_ID" !in h ==> r == Outcome(Ok(Scalar(Null)), {})
  {
    if "FILTER" in h then
      var isBias: Result<bool> :=
        if "OBSTYPE" !in h then Ok(false)
        else match StrippedCard(h, "OBSTYPE")
          case Err(e) => Err(e)
          case Ok(t) => Ok(Contains(Lower(t), "zero"));
      match isBias
      case Err(e) => Outcome(Err(e), {})
      case Ok(bias) =>
        if bias then Outcome(Ok(Scalar(Str("NONE"))), {})
        else match StrippedCard(h, "FILTER")
          case Err(e) => Outcome(Err(e), {})
          case Ok(f) => Outcome(Ok(Scalar(Str(f))), {"FILTER"})
    else if "CALIB_ID" in h then CalibFromId(h, "filter")
    else Outcome(Ok(Scalar(Null)), {})
  }

  /** Python truthiness of a translated value. */
  predicate Truthy(d: Datum) {
    match d
    case Scalar(v) =>
      (match v
       case Str(s) => s != []
       case Int(i) => i != 0
       case Num(x) => x != 0.0
       case NaN => true
       case Bool(b) => b
       case Null => false)
    case _ => true
  }

  /** `to_abstract_filter` of the older translator: the first word of a
      non-empty physical filter, None for an empty one; a filter of only
      white space has no first word (IndexError) and a value that is not
      text cannot be split (AttributeError). */
  function LegacyAbstractFilter(physical: Datum): (r: Result<Datum>)
    ensures !Truthy(physical) ==> r == Ok(Scalar(Null))
    ensures Truthy(physical) && !(physical.Scalar? && physical.v.Str?) ==> r.Err? && r.error.AttributeError?
    ensures (Truthy(physical) && physical.Scalar? && physical.v.Str?) ==>
      match FirstWord(physical.v.s)
      case None => r.Err? && r.error.IndexError?
      case Some(w) => r == Ok(Scalar(Str(w)))
  {
    if !Truthy(physical) then Ok(Scalar(Null))
    else if !(physical.Scalar? && physical.v.Str?) then Err(AttributeError("object has no attribute 'split'"))
    else match FirstWord(physical.v.s)
      case None => Err(IndexError("list index out of range"))
      case Some(w) => Ok(Scalar(Str(w)))
  }

  /** `to_location` of both translators: OBS-LONG (west positive) is
      negated, then OBS-LAT and OBS-ELEV are read; all three are recorded. */
  function Location(h: Header): (r: Outcome<Datum>)
    ensures r.result.Err? ==> r.cards == {}
    ensures r.result.Ok? <==>
      "OBS-LONG" in h && PyNegate(h["OBS-LONG"]).Ok? && "OBS-LAT" in h && "OBS-ELEV" in h
    ensures r.result.Ok? ==>
      r == Outcome(Ok(Geodetic(PyNegate(h["OBS-LONG"]).value, h["OBS-LAT"], h["OBS-ELEV"])),
                   {"OBS-LONG", "OBS-LAT", "OBS-ELEV"})
    ensures "OBS-LONG" !in h ==> r.result == Err(KeyError(["OBS-LONG"]))
  {
    if "OBS-LONG" !in h then Outcome(Err(KeyError(["OBS-LONG"])), {})
    else match PyNegate(h["OBS-LONG"])
      case Err(e) => Outcome(Err(e), {})
      case Ok(lon) =>
        if "OBS-LAT" !in h then Outcome(Err(KeyError(["OBS-LAT"])), {})
        else if "OBS-ELEV" !in h then Outcome(Err(KeyError(["OBS-ELEV"])), {})
        else Outcome(Ok(Geodetic(lon, h["OBS-LAT"], h["OBS-ELEV"])), {"OBS-LONG", "OBS-LAT", "OBS-ELEV"})
  }

  /** A west-positive longitude becomes the conventional east-positive one. */
  lemma LocationFlipsLongitude(h: Header, west: real)
    requires "OBS-LONG" in h && h["OBS-LONG"] == Num(west) && "OBS-LAT" in h && "OBS-ELEV" in h
    ensures Location(h).result == Ok(Geodetic(Num(-west), h["OBS-LAT"], h["OBS-ELEV"]))
  {
  }

  /** `to_tracking_radec` of the current translator.  RADESYS, when
      present, gives the frame and "gappt" (a moving target) gives None
      recording RADESYS; otherwise TELRA in hours and TELDEC in degrees
      are read, and RADESYS, TELRA and TELDEC are recorded even when
      RADESYS is absent. */
  function ModernTracking(h: Header, begin: Outcome<Datum>, location: Outcome<Datum>): (r: Outcome<Datum>)
    ensures "RADESYS" in h && !h["RADESYS"].Str? ==> r.result.Err? && r.result.error.AttributeError? && r.cards == {}
    ensures ("RADESYS" in h && h["RADESYS"].Str? && Lower(Strip(h["RADESYS"].s)) == "gappt") ==>
      r == Outcome(Ok(Scalar(Null)), {"RADESYS"})
    ensures (("RADESYS" in h ==> h["RADESYS"].Str? && Lower(Strip(h["RADESYS"].s)) != "gappt") &&
             "TELRA" in h && "TELDEC" in h) ==>
      var frame := if "RADESYS" in h then Lower(Strip(h["RADESYS"].s)) else "icrs";
      r == AtTimeAndPlace((t, l) => Sky(h["TELRA"], h["TELDEC"], frame, HourAngle, Degree, t, l),
                          begin, location, {"RADESYS", "TELRA", "TELDEC"})
  {
    var frame: Result<string> :=
      if "RADESYS" !in h then Ok("icrs")
      else match StrippedCard(h, "RADESYS")
        case Err(e) => Err(e)
        case Ok(t) => Ok(Lower(t));
    match frame
    case Err(e) => Outcome(Err(e), {})
    case Ok(f) =>
      if "RADESYS" in h && f == "gappt" then Outcome(Ok(Scalar(Null)), {"RADESYS"})
      else if "TELRA" !in h then Outcome(Err(KeyError(["TELRA"])), {})
      else if "TELDEC" !in h then Outcome(Err(KeyError(["TELDEC"])), {})
      else AtTimeAndPlace((t, l) => Sky(h["TELRA"], h["TELDEC"], f, HourAngle, Degree, t, l),
                          begin, location, {"RADESYS", "TELRA", "TELDEC"})
  }

  /** `to_altaz_begin` of the current translator: AZ in degrees and the
      altitude from the zenith distance ZD; AZ and ZD are recorded. */
  function ModernAltAz(h: Header, begin: Outcome<Datum>, location: Outcome<Datum>): (r: Outcome<Datum>)
    ensures "AZ" !in h ==> r == Outcome(Err(KeyError(["AZ"])), {})
    ensures "AZ" in h && "ZD" !in h ==> r == Outcome(Err(KeyError(["ZD"])), {})
    ensures "AZ" in h && "ZD" in h ==>
      r == AtTimeAndPlace((t, l) => AltAz(Quantity(h["AZ"], Degree),
                                          AltitudeFromZenithDistance(Quantity(h["ZD"], Degree)), t, l),
                          begin, location, {"AZ", "ZD"})
  {
    if "AZ" !in h then Outcome(Err(KeyError(["AZ"])), {})
    else if "ZD" !in h then Outcome(Err(KeyError(["ZD"])), {})
    else AtTimeAndPlace((t, l) => AltAz(Quantity(h["AZ"], Degree),
                                        AltitudeFromZenithDistance(Quantity(h["ZD"], Degree)), t, l),
                        begin, location, {"AZ", "ZD"})
  }

  /** `"{:0<width>d}".format(v)`: an int (or bool) is padded; a float or
      text has no `d` format (ValueError) and None none at all
      (TypeError). */
  function FormatInteger(d: Datum, width: nat): (r: Result<string>)
    ensures d.Scalar? && d.v.Int? ==> r == Ok(FormatZeroPadded(d.v.i, width))
    ensures r.Ok? ==> d.Scalar? && (d.v.Int? || d.v.Bool?)
  {
    if !d.Scalar? then Err(ValueError("unknown format code 'd'"))
    else match d.v
      case Int(i) => Ok(FormatZeroPadded(i, width))
      case Bool(b) => Ok(FormatZeroPadded(if b then 1 else 0, width))
      case Null => Err(TypeError("unsupported format string passed to NoneType.__format__"))
      case _ => Err(ValueError("unknown format code 'd'"))
  }

  /** `to_detector_exposure_id` of the current translator: the exposure
      in seven digits and the detector in two, read back as an integer.
      Both properties are computed before either is formatted. */
  function DetectorExposureId(exposure: Outcome<Datum>, detector: Outcome<Datum>): (r: Outcome<Datum>)
    ensures exposure.result.Err? ==> r == exposure
    ensures exposure.result.Ok? ==> r.cards == exposure.cards + detector.cards
    ensures exposure.result.Ok? && detector.result.Err? ==> r.result == detector.result
    ensures (exposure.result.Ok? && detector.result.Ok? &&
             FormatInteger(exposure.result.value, 7).Ok? && FormatInteger(detector.result.value, 2).Ok?) ==>
      var text := FormatInteger(exposure.result.value, 7).value + FormatInteger(detector.result.value, 2).value;
      (ParseInt(text).Some? ==> r.result == Ok(Scalar(Int(ParseInt(text).value)))) &&
      (ParseInt(text).None? ==> r.result.Err? && r.result.error.ValueError?)
  {
    match exposure.result
    case Err(_) => exposure
    case Ok(e) =>
      var cards := exposure.cards + detector.cards;
      match detector.result
      case Err(err) => Outcome(Err(err), cards)
      case Ok(d) =>
        match FormatInteger(e, 7)
        case Err(err) => Outcome(Err(err), cards)
        case Ok(es) =>
          match FormatInteger(d, 2)
          case Err(err) => Outcome(Err(err), cards)
          case Ok(ds) =>
            match ParseInt(es + ds)
            case None => Outcome(Err(ValueError("invalid literal for int()")), cards)
            case Some(n) => Outcome(Ok(Scalar(Int(n))), cards)
  }

  /** For a non-negative exposure and a detector below 100 the identifier
      is exposure * 100 + detector, so different pairs give different
      identifiers. */
  lemma DetectorExposureIdValue(exposure: Outcome<Datum>, detector: Outcome<Datum>, e: nat, d: nat)
    requires exposure.result == Ok(Scalar(Int(e))) && detector.result == Ok(Scalar(Int(d))) && d < 100
    ensures DetectorExposureId(exposure, detector) ==
      Outcome(Ok(Scalar(Int(e * 100 + d))), exposure.cards + detector.cards)
  {
    PackedDigits(e, d);
    DetectorExposureIdParsed(exposure, detector, FormatZeroPadded(e, 7), FormatZeroPadded(d, 2), e * 100 + d);
  }

  /** Once both properties are formatted and their text parses, the
      identifier is the parsed number. */
  lemma DetectorExposureIdParsed(exposure: Outcome<Datum>, detector: Outcome<Datum>, es: string, ds: string, n: int)
    requires exposure.result.Ok? && detector.result.Ok?
    requires FormatInteger(exposure.result.value, 7) == Ok(es) && FormatInteger(detector.result.value, 2) == Ok(ds)
    requires ParseInt(es + ds) == Some(n)
    ensures DetectorExposureId(exposure, detector) == Outcome(Ok(Scalar(Int(n))), exposure.cards + detector.cards)
  {
  }

  /** The seven-digit exposure followed by the two-digit detector reads
      back as exposure * 100 + detector. */
  lemma PackedDigits(e: nat, d: nat)
    requires d < 100
    ensures ParseInt(FormatZeroPadded(e, 7) + FormatZeroPadded(d, 2)) == Some(e * 100 + d)
  {
    var es, ds := FormatZeroPadded(e, 7), FormatZeroPadded(d, 2);
    TwoDigits(d);
    DigitsValueAppend(es, ds);
    Hundreds(DigitsValue(es + ds), e, Pow10(|ds|), d);
    ParseIntDigits(es + ds);
  }

  /** A number below 100 is written in exactly two digits. */
  lemma TwoDigits(d: nat)
    requires d < 100
    ensures |FormatZeroPadded(d, 2)| == 2 && Pow10(2) == 100
  {
    assert Pow10(2) == 100;
    DecimalStringLength(d, 2);
  }

  lemma Hundreds(v: int, e: int, p: int, d: int)
    requires p == 100 && v == e * p + d
    ensures v == e * 100 + d
  {
  }

  /** The DECam test header: exposure 229388, detector 25. */
  lemma DetectorExposureIdExample(exposure: Outcome<Datum>, detector: Outcome<Datum>)
    requires exposure.result == Ok(Scalar(Int(229388))) && detector.result == Ok(Scalar(Int(25)))
    ensures DetectorExposureId(exposure, detector).result == Ok(Scalar(Int(22938825)))
  {
    DetectorExposureIdValue(exposure, detector, 229388, 25);
  }
}
