/** Rules of the Subaru translators (SuprimeCam and HSC): recognising
    their headers, parsing exposure identifiers, the MJD offset, the
    filter name, altitude clipping, the fixed site and the rotation
    angle. */
module SubaruRules {
  import opened Wrappers
  import opened Text
  import opened Values
  import opened CardResolvers
  import opened CommonRules

  /** The value of card `k` is text beginning with `prefix`. */
  predicate TextWithPrefix(h: Header, k: string, prefix: string) {
    k in h && h[k].Str? && StartsWith(h[k].s, prefix)
  }

  /** `startswith` can be called on card `k`: it is absent or text. */
  predicate Readable(h: Header, k: string) {
    k !in h || h[k].Str?
  }

  /** The recogniser of SuprimeCam and HSC: INSTRUME decides when present;
      otherwise EXP-ID and then FRAMEID are checked for the prefix, a
      present non-text card raising AttributeError. */
  function PrefixRecognizes(h: Header, instrument: string, prefix: string): (r: Result<bool>)
    ensures "INSTRUME" in h ==> r == Ok(h["INSTRUME"] == Str(instrument))
    ensures ("INSTRUME" !in h && Readable(h, "EXP-ID") && Readable(h, "FRAMEID")) ==>
      r == Ok(TextWithPrefix(h, "EXP-ID", prefix) || TextWithPrefix(h, "FRAMEID", prefix))
    ensures ("INSTRUME" !in h && TextWithPrefix(h, "EXP-ID", prefix)) ==> r == Ok(true)
    ensures ("INSTRUME" !in h && !Readable(h, "EXP-ID")) ==> r.Err? && r.error.AttributeError?
    ensures ("INSTRUME" !in h && Readable(h, "EXP-ID") && !TextWithPrefix(h, "EXP-ID", prefix) &&
             !Readable(h, "FRAMEID")) ==> r.Err? && r.error.AttributeError?
  {
    if "INSTRUME" in h then Ok(h["INSTRUME"] == Str(instrument))
    else match IdHasPrefix(h, "EXP-ID", prefix)
      case Err(e) => Err(e)
      case Ok(found) => if found then Ok(true) else IdHasPrefix(h, "FRAMEID", prefix)
  }

  /** One step of the scan: an absent card does not match. */
  function IdHasPrefix(h: Header, k: string, prefix: string): (r: Result<bool>)
    ensures Readable(h, k) <==> r.Ok?
    ensures r.Ok? ==> r.value == TextWithPrefix(h, k, prefix)
    ensures r.Err? ==> r.error.AttributeError?
  {
    if k !in h then Ok(false)
    else match AsText(h[k])
      case Err(e) => Err(e)
      case Ok(s) => Ok(StartsWith(s, prefix))
  }

  function SuprimeCamRecognizes(h: Header): Result<bool> {
    PrefixRecognizes(h, "SuprimeCam", "SUP")
  }

  function HscRecognizes(h: Header): Result<bool> {
    PrefixRecognizes(h, "Hyper Suprime-Cam", "HSC")
  }

  /** A SuprimeCam identifier: "SUP", a capital letter, seven digits and
      a final digit that must be 0 when `zeroLast`; the result is the
      seven digits as a number. */
  function ParseSuprimeId(s: string, zeroLast: bool): (r: Option<nat>)
    ensures r.Some? ==> |s| == 12 && StartsWith(s, "SUP") && IsUpperLetter(s[3]) && AllDigits(s[4..11])
    ensures r.Some? ==> r.value == DigitsValue(s[4..11]) && r.value < Pow10(7)
    ensures r.Some? ==> if zeroLast then s[11] == '0' else IsDigit(s[11])
  {
    if |s| == 12 && s[..3] == "SUP" && IsUpperLetter(s[3]) && AllDigits(s[4..11]) &&
       (if zeroLast then s[11] == '0' else IsDigit(s[11]))
    then
      DigitsBound(s[4..11]);
      Some(DigitsValue(s[4..11]))
    else None
  }

  /** A string of `n` digits denotes a number below 10^n. */
  lemma {:induction false} DigitsBound(s: string)
    requires AllDigits(s)
    ensures DigitsValue(s) < Pow10(|s|)
  {
    if s != [] {
      DigitsBound(s[..|s| - 1]);
    }
  }

  /** The SuprimeCam identifier of exposure `n` taken with `letter`,
      ending in `last`. */
  function SuprimeId(letter: char, n: nat, last: char): string
    requires IsUpperLetter(letter) && IsDigit(last) && n < Pow10(7)
  {
    "SUP" + [letter] + FormatZeroPadded(n, 7) + [last]
  }

  /** Parsing inverts formatting: every exposure below 10^7 written as an
      identifier reads back as itself. */
  lemma SuprimeIdRoundTrip(letter: char, n: nat, last: char)
    requires IsUpperLetter(letter) && IsDigit(last) && n < Pow10(7)
    ensures ParseSuprimeId(SuprimeId(letter, n, last), false) == Some(n)
    ensures last == '0' ==> ParseSuprimeId(SuprimeId(letter, n, last), true) == Some(n)
  {
    var digits := FormatZeroPadded(n, 7);
    DecimalStringLength(n, 7);
    var s := SuprimeId(letter, n, last);
    assert s[..3] == "SUP";
    assert s[3] == letter;
    assert s[4..11] == digits;
    assert s[11] == last;
  }

  /** `to_exposure_id` of SuprimeCam (`to_exposure` in the older
      package): the number in the stripped EXP-ID, or in FRAMEID when that
      number is zero; an identifier of the wrong shape is a RuntimeError.
      EXP-ID and FRAMEID are both recorded on success, even when FRAMEID
      was never read. */
  function SuprimeExposure(h: Header): (r: Outcome<Datum>)
    ensures r.result.Ok? ==> r.cards == {"EXP-ID", "FRAMEID"}
    ensures r.result.Err? ==> r.cards == {}
    ensures "EXP-ID" !in h ==> r.result == Err(KeyError(["EXP-ID"]))
    ensures "EXP-ID" in h && h["EXP-ID"].Str? ==>
      match ParseSuprimeId(Strip(h["EXP-ID"].s), true)
      case None => r.result.Err? && r.result.error.RuntimeError?
      case Some(n) => n != 0 ==> r.result == Ok(Scalar(Int(n)))
    ensures ("EXP-ID" in h && h["EXP-ID"].Str? && ParseSuprimeId(Strip(h["EXP-ID"].s), true) == Some(0) &&
             "FRAMEID" in h && h["FRAMEID"].Str?) ==>
      match ParseSuprimeId(Strip(h["FRAMEID"].s), false)
      case None => r.result.Err? && r.result.error.RuntimeError?
      case Some(m) => r.result == Ok(Scalar(Int(m)))
    ensures ("EXP-ID" in h && h["EXP-ID"].Str? && ParseSuprimeId(Strip(h["EXP-ID"].s), true) == Some(0) &&
             "FRAMEID" !in h) ==> r.result == Err(KeyError(["FRAMEID"]))
  {
    match StrippedCard(h, "EXP-ID")
    case Err(e) => Outcome(Err(e), {})
    case Ok(expId) =>
      match ParseSuprimeId(expId, true)
      case None => Outcome(Err(RuntimeError("Unable to interpret EXP-ID")), {})
      case Some(n) =>
        if n != 0 then Outcome(Ok(Scalar(Int(n))), {"EXP-ID", "FRAMEID"})
        else match StrippedCard(h, "FRAMEID")
          case Err(e) => Outcome(Err(e), {})
          case Ok(frameId) =>
            match ParseSuprimeId(frameId, false)
            case None => Outcome(Err(RuntimeError("Unable to interpret FRAMEID")), {})
            case Some(m) => Outcome(Ok(Scalar(Int(m))), {"EXP-ID", "FRAMEID"})
  }

  /** The SuprimeCam exposure of the test header. */
  lemma SuprimeExposureExample(h: Header)
    requires "EXP-ID" in h && h["EXP-ID"] == Str("SUPE00535770")
    ensures SuprimeExposure(h) == Outcome(Ok(Scalar(Int(53577))), {"EXP-ID", "FRAMEID"})
  {
    SuprimeIdExample();
    var r := SuprimeExposure(h);
    assert r.result == Ok(Scalar(Int(53577)));
  }

  lemma SuprimeIdExample()
    ensures Strip("SUPE00535770") == "SUPE00535770"
    ensures ParseSuprimeId("SUPE00535770", true) == Some(53577)
  {
    StripUnchanged("SUPE00535770");
    SuprimeParseExample();
  }

  lemma SuprimeParseExample()
    ensures ParseSuprimeId("SUPE00535770", true) == Some(53577)
  {
    var s := "SUPE00535770";
    assert s[4..11] == "0053577";
    DigitsExample();
  }

  /** The numbers denoted by the digit strings of the test identifiers,
      each evaluated one prefix at a time. */
  lemma DigitsExample()
    ensures DigitsValue("0053577") == 53577
    ensures DigitsValue("904024") == 904024
    ensures DigitsValue("040900") == 40900
  {
    SuprimeDigits();
    HscNewDigits();
    HscOldDigits();
  }

  lemma SuprimeDigits()
    ensures DigitsValue("0053577") == 53577
  {
    DigitAppended("", '0');
    assert "" + ['0'] == "0";
    assert DigitsValue("0") == 0;
    DigitAppended("0", '0');
    assert "0" + ['0'] == "00";
    assert DigitsValue("00") == 0;
    DigitAppended("00", '5');
    assert "00" + ['5'] == "005";
    assert DigitsValue("005") == 5;
    DigitAppended("005", '3');
    assert "005" + ['3'] == "0053";
    assert DigitsValue("0053") == 53;
    DigitAppended("0053", '5');
    assert "0053" + ['5'] == "00535";
    assert DigitsValue("00535") == 535;
    DigitAppended("00535", '7');
    assert "00535" + ['7'] == "005357";
    assert DigitsValue("005357") == 5357;
    DigitAppended("005357", '7');
    assert "005357" + ['7'] == "0053577";
  }

  lemma HscNewDigits()
    ensures DigitsValue("904024") == 904024
  {
    DigitAppended("", '9');
    assert "" + ['9'] == "9";
    assert DigitsValue("9") == 9;
    DigitAppended("9", '0');
    assert "9" + ['0'] == "90";
    assert DigitsValue("90") == 90;
    DigitAppended("90", '4');
    assert "90" + ['4'] == "904";
    assert DigitsValue("904") == 904;
    DigitAppended("904", '0');
    assert "904" + ['0'] == "9040";
    assert DigitsValue("9040") == 9040;
    DigitAppended("9040", '2');
    assert "9040" + ['2'] == "90402";
    assert DigitsValue("90402") == 90402;
    DigitAppended("90402", '4');
    assert "90402" + ['4'] == "904024";
  }

  lemma HscOldDigits()
    ensures DigitsValue("040900") == 40900
  {
    DigitAppended("", '0');
    assert "" + ['0'] == "0";
    assert DigitsValue("0") == 0;
    DigitAppended("0", '4');
    assert "0" + ['4'] == "04";
    assert DigitsValue("04") == 4;
    DigitAppended("04", '0');
    assert "04" + ['0'] == "040";
    assert DigitsValue("040") == 40;
    DigitAppended("040", '9');
    assert "040" + ['9'] == "0409";
    assert DigitsValue("0409") == 409;
    DigitAppended("0409", '0');
    assert "0409" + ['0'] == "04090";
    assert DigitsValue("04090") == 4090;
    DigitAppended("04090", '0');
    assert "04090" + ['0'] == "040900";
  }

  /** An HSC identifier of the current scheme: "HSCE" and eight digits. */
  function ParseHscNew(s: string): (r: Option<nat>)
    ensures r.Some? ==> |s| == 12 && StartsWith(s, "HSCE") && AllDigits(s[4..]) && r.value == DigitsValue(s[4..])
  {
    if |s| == 12 && s[..4] == "HSCE" && AllDigits(s[4..]) then Some(DigitsValue(s[4..])) else None
  }

  /** An HSC identifier of the old scheme: "HSC", a capital letter, six
      digits of visit and two more digits, which must be "00" when
      `zeroTail`. */
  function ParseHscOld(s: string, zeroTail: bool): (r: Option<(char, nat)>)
    ensures r.Some? ==> |s| == 12 && StartsWith(s, "HSC") && IsUpperLetter(s[3]) && AllDigits(s[4..10])
    ensures r.Some? ==> r.value == (s[3], DigitsValue(s[4..10])) && r.value.1 < Pow10(6)
    ensures r.Some? ==> if zeroTail then s[10..] == "00" else IsDigit(s[10]) && IsDigit(s[11])
  {
    if |s| == 12 && s[..3] == "HSC" && IsUpperLetter(s[3]) && AllDigits(s[4..10]) &&
       (if zeroTail then s[10..] == "00" else IsDigit(s[10]) && IsDigit(s[11]))
    then
      DigitsBound(s[4..10]);
      Some((s[3], DigitsValue(s[4..10])))
    else None
  }

  /** The exposure number of an old-scheme visit: the letter counts
      millions of visits from "A". */
  function HscNumber(letter: char, visit: nat): int {
    visit + 1000000 * (letter as int - 'A' as int)
  }

  /** Different letters or visits give different exposure numbers. */
  lemma HscNumberInjective(l1: char, v1: nat, l2: char, v2: nat)
    requires IsUpperLetter(l1) && IsUpperLetter(l2) && v1 < 1000000 && v2 < 1000000
    requires (l1, v1) != (l2, v2)
    ensures HscNumber(l1, v1) != HscNumber(l2, v2)
  {
    if l1 == l2 {
    } else if l1 < l2 {
      assert HscNumber(l2, v2) >= v2 + 1000000 * (l1 as int - 'A' as int) + 1000000;
    } else {
      assert HscNumber(l1, v1) >= v1 + 1000000 * (l2 as int - 'A' as int) + 1000000;
    }
  }

  /** `to_exposure` of HSC: the current scheme is read directly and only
      EXP-ID is recorded; anything else is read as the old scheme. */
  function HscExposure(h: Header): (r: Outcome<Datum>)
    ensures r.result.Err? ==> r.cards == {}
    ensures "EXP-ID" !in h ==> r.result == Err(KeyError(["EXP-ID"]))
    ensures ("EXP-ID" in h && h["EXP-ID"].Str? && ParseHscNew(Strip(h["EXP-ID"].s)).Some?) ==>
      r == Outcome(Ok(Scalar(Int(ParseHscNew(Strip(h["EXP-ID"].s)).value))), {"EXP-ID"})
    ensures ("EXP-ID" in h && h["EXP-ID"].Str? && ParseHscNew(Strip(h["EXP-ID"].s)).None?) ==>
      r == HscOldExposure(h, Strip(h["EXP-ID"].s))
  {
    match StrippedCard(h, "EXP-ID")
    case Err(e) => Outcome(Err(e), {})
    case Ok(expId) =>
      match ParseHscNew(expId)
      case Some(n) => Outcome(Ok(Scalar(Int(n))), {"EXP-ID"})
      case None => HscOldExposure(h, expId)
  }

  /** The old HSC scheme for the stripped EXP-ID `expId`: `HscNumber` of
      its letter and visit, or, when that visit is zero, of FRAMEID's
      letter and visit made even; EXP-ID and FRAMEID are both recorded on
      success.  An identifier of the wrong shape is a RuntimeError. */
  function HscOldExposure(h: Header, expId: string): (r: Outcome<Datum>)
    ensures r.result.Err? ==> r.cards == {}
    ensures r.result.Ok? ==> r.cards == {"EXP-ID", "FRAMEID"}
    ensures ParseHscOld(expId, true).None? ==> r.result.Err? && r.result.error.RuntimeError?
    ensures (ParseHscOld(expId, true).Some? && ParseHscOld(expId, true).value.1 != 0) ==>
      r.result == Ok(Scalar(Int(HscNumber(ParseHscOld(expId, true).value.0, ParseHscOld(expId, true).value.1))))
    ensures (ParseHscOld(expId, true).Some? && ParseHscOld(expId, true).value.1 == 0) ==>
      r == HscFrameExposure(h)
  {
    match ParseHscOld(expId, true)
    case None => Outcome(Err(RuntimeError("Unable to interpret EXP-ID")), {})
    case Some(lv) =>
      if lv.1 != 0 then Outcome(Ok(Scalar(Int(HscNumber(lv.0, lv.1)))), {"EXP-ID", "FRAMEID"})
      else HscFrameExposure(h)
  }

  /** The FRAMEID fallback of the old HSC scheme: its letter and its visit
      rounded down to an even number. */
  function HscFrameExposure(h: Header): (r: Outcome<Datum>)
    ensures r.result.Err? ==> r.cards == {}
    ensures r.result.Ok? ==> r.cards == {"EXP-ID", "FRAMEID"}
    ensures "FRAMEID" !in h ==> r.result == Err(KeyError(["FRAMEID"]))
    ensures ("FRAMEID" in h && h["FRAMEID"].Str?) ==>
      match ParseHscOld(Strip(h["FRAMEID"].s), false)
      case None => r.result.Err? && r.result.error.RuntimeError?
      case Some(f) => r.result == Ok(Scalar(Int(HscNumber(f.0, f.1 - f.1 % 2))))
  {
    match StrippedCard(h, "FRAMEID")
    case Err(e) => Outcome(Err(e), {})
    case Ok(frameId) =>
      match ParseHscOld(frameId, false)
      case None => Outcome(Err(RuntimeError("Unable to interpret FRAMEID")), {})
      case Some(f) =>
        var visit := if f.1 % 2 == 1 then f.1 - 1 else f.1;
        Outcome(Ok(Scalar(Int(HscNumber(f.0, visit)))), {"EXP-ID", "FRAMEID"})
  }

  /** The exposures of the two HSC test headers. */
  lemma HscExposureExamples(h1: Header, h2: Header)
    requires "EXP-ID" in h1 && h1["EXP-ID"] == Str("HSCA90402400")
    requires "EXP-ID" in h2 && h2["EXP-ID"] == Str("HSCA04090000")
    ensures HscExposure(h1) == Outcome(Ok(Scalar(Int(904024))), {"EXP-ID", "FRAMEID"})
    ensures HscExposure(h2) == Outcome(Ok(Scalar(Int(40900))), {"EXP-ID", "FRAMEID"})
  {
    HscIdExamples();
    var r1, r2 := HscExposure(h1), HscExposure(h2);
    assert r1.result == Ok(Scalar(Int(904024)));
    assert r2.result == Ok(Scalar(Int(40900)));
  }

  lemma HscIdExamples()
    ensures Strip("HSCA90402400") == "HSCA90402400" && Strip("HSCA04090000") == "HSCA04090000"
    ensures ParseHscNew("HSCA90402400").None? && ParseHscNew("HSCA04090000").None?
    ensures ParseHscOld("HSCA90402400", true) == Some(('A', 904024))
    ensures ParseHscOld("HSCA04090000", true) == Some(('A', 40900))
  {
    StripUnchanged("HSCA90402400");
    StripUnchanged("HSCA04090000");
    HscFirstParse();
    HscSecondParse();
  }

  lemma HscFirstParse()
    ensures ParseHscNew("HSCA90402400").None? && ParseHscOld("HSCA90402400", true) == Some(('A', 904024))
  {
    assert "HSCA90402400" == "HSCA" + "904024" + "00";
    DigitsExample();
    HscParseExample("HSCA90402400", "904024");
  }

  lemma HscSecondParse()
    ensures ParseHscNew("HSCA04090000").None? && ParseHscOld("HSCA04090000", true) == Some(('A', 40900))
  {
    assert "HSCA04090000" == "HSCA" + "040900" + "00";
    DigitsExample();
    HscParseExample("HSCA04090000", "040900");
  }

  lemma HscParseExample(id: string, visit: string)
    requires |visit| == 6 && id == "HSCA" + visit + "00" && AllDigits(visit)
    ensures ParseHscNew(id).None?
    ensures ParseHscOld(id, true) == Some(('A', DigitsValue(visit)))
  {
    assert id[..4] == "HSCA" && id[4..10] == visit && id[10..] == "00";
    assert id[..3] == "HSC" && id[3] == 'A';
  }

  /** `_get_adjusted_mjd`: days since MJD 53005.  MJD is recorded before
      its conversion to an integer, so a failed conversion still records
      it. */
  function AdjustedMjd(h: Header): (r: Outcome<int>)
    ensures "MJD" !in h ==> r == Outcome(Err(KeyError(["MJD"])), {})
    ensures "MJD" in h ==> r.cards == {"MJD"}
    ensures "MJD" in h && PyInt(h["MJD"]).Ok? ==> r.result == Ok(PyInt(h["MJD"]).value - 53005)
    ensures "MJD" in h && h["MJD"].Int? ==> r.result == Ok(h["MJD"].i - 53005)
  {
    if "MJD" !in h then Outcome(Err(KeyError(["MJD"])), {})
    else match PyInt(h["MJD"])
      case Err(e) => Outcome(Err(e), {"MJD"})
      case Ok(n) => Outcome(Ok(n - 53005), {"MJD"})
  }

  /** The physical filter: card `key` stripped and upper-cased, recorded. */
  function UpperFilter(h: Header, key: string): (r: Outcome<Datum>)
    ensures r.result.Ok? <==> key in h && h[key].Str?
    ensures r.result.Ok? ==> r == Outcome(Ok(Scalar(Str(Upper(Strip(h[key].s))))), {key})
    ensures r.result.Err? ==> r.cards == {}
  {
    match StrippedCard(h, key)
    case Err(e) => Outcome(Err(e), {})
    case Ok(s) => Outcome(Ok(Scalar(Str(Upper(s)))), {key})
  }

  /** An altitude above 90 is replaced by 90; any other number, and NaN,
      is kept; a value that cannot be compared raises TypeError. */
  function ClipAltitude(v: Value): (r: Result<Value>)
    ensures r.Ok? <==> !v.Str? && !v.Null?
    ensures r.Ok? && Numeric(v).Some? && Numeric(v).value > 90.0 ==> r.value == Num(90.0)
    ensures r.Ok? && !(Numeric(v).Some? && Numeric(v).value > 90.0) ==> r.value == v
    ensures r.Ok? && Numeric(r.value).Some? ==> Numeric(r.value).value <= 90.0
  {
    match Above(v, 90.0)
    case Err(e) => Err(e)
    case Ok(above) => if above then Ok(Num(90.0)) else Ok(v)
  }

  /** The Subaru telescope on Mauna Kea: a fixed location that reads and
      records no card. */
  const SubaruLocation: Datum := Geodetic(Num(-155.476667), Num(19.825556), Num(4139.0))

  /** The SuprimeCam rotation angle: INR-STR in degrees as an angle
      wrapped at 360 degrees, recording INR-STR. */
  function SuprimeRotation(h: Header, env: Env): (r: Outcome<Datum>)
    ensures r.cards == QuantityFromCard(h, env, ["INR-STR"], Degree, Null, None, None).cards
    ensures r.result.Ok? <==> QuantityFromCard(h, env, ["INR-STR"], Degree, Null, None, None).result.Ok?
    ensures r.result.Ok? ==>
      r.result.value == Wrapped360(Angle(QuantityFromCard(h, env, ["INR-STR"], Degree, Null, None, None).result.value))
  {
    var q := QuantityFromCard(h, env, ["INR-STR"], Degree, Null, None, None);
    match q.result
    case Err(e) => Outcome(Err(e), q.cards)
    case Ok(d) => Outcome(Ok(Wrapped360(Angle(d))), q.cards)
  }

  /** The HSC rotation angle: 270 degrees less INST-PA, wrapped at 360
      degrees, recording INST-PA. */
  function HscRotation(h: Header, env: Env): (r: Outcome<Datum>)
    ensures r.cards == QuantityFromCard(h, env, ["INST-PA"], Degree, Null, None, None).cards
    ensures r.result.Ok? <==> QuantityFromCard(h, env, ["INST-PA"], Degree, Null, None, None).result.Ok?
    ensures r.result.Ok? ==>
      var q := QuantityFromCard(h, env, ["INST-PA"], Degree, Null, None, None).result.value;
      r.result.value == Wrapped360(Difference(Angle(Quantity(Num(270.0), Degree)), Angle(q)))
  {
    var q := QuantityFromCard(h, env, ["INST-PA"], Degree, Null, None, None);
    match q.result
    case Err(e) => Outcome(Err(e), q.cards)
    case Ok(d) => Outcome(Ok(Wrapped360(Difference(Angle(Quantity(Num(270.0), Degree)), Angle(d)))), q.cards)
  }

  /** `to_abstract_filter` of HSC: the lower-cased fifth character of a
      physical filter beginning "HSC-", else None; a filter of exactly
      "HSC-" has no fifth character, and a non-text filter has no
      `startswith`. */
  function HscAbstractFilter(physical: Datum): (r: Result<Datum>)
    ensures r.Ok? <==> physical.Scalar? && physical.v.Str? && physical.v.s != "HSC-"
    ensures r.Ok? && StartsWith(physical.v.s, "HSC-") ==> r.value == Scalar(Str([LowerChar(physical.v.s[4])]))
    ensures r.Ok? && !StartsWith(physical.v.s, "HSC-") ==> r.value == Scalar(Null)
  {
    if !(physical.Scalar? && physical.v.Str?) then Err(AttributeError("filter has no startswith"))
    else
      var s := physical.v.s;
      if StartsWith(s, "HSC-") then
        if |s| > 4 then Ok(Scalar(Str([LowerChar(s[4])]))) else Err(IndexError("string index out of range"))
      else Ok(Scalar(Null))
  }
  /** `to_visit_id` (`to_visit` in the older translator): the exposure
      identifier of a science observation and None for any other; the
      exposure is only computed, and its cards only recorded, for a
      science observation. */
  function ScienceVisit(observationType: Outcome<Datum>, exposure: Outcome<Datum>): (r: Outcome<Datum>)
    ensures observationType.result.Err? ==> r == observationType
    ensures observationType.result == Ok(Science) ==>
      r.result == exposure.result && r.cards == observationType.cards + exposure.cards
    ensures (observationType.result.Ok? && observationType.result.value != Science) ==>
      r == Outcome(Ok(Scalar(Null)), observationType.cards)
  {
    match observationType.result
    case Err(e) => Outcome(Err(e), observationType.cards)
    case Ok(t) =>
      if t == Science then Outcome(exposure.result, observationType.cards + exposure.cards)
      else Outcome(Ok(Scalar(Null)), observationType.cards)
  }

  /** The SuprimeCam tracking position: RA2000 in hours and DEC2000 in
      degrees, ICRS, at the start time and the location; RA2000 and
      DEC2000 are recorded only once the position is built. */
  function SuprimeTracking(h: Header, begin: Outcome<Datum>, location: Outcome<Datum>): (r: Outcome<Datum>)
    ensures r.result.Ok? <==> "RA2000" in h && "DEC2000" in h && begin.result.Ok? && location.result.Ok?
    ensures r.result.Ok? ==>
      r == Outcome(Ok(Sky(h["RA2000"], h["DEC2000"], "icrs", HourAngle, Degree,
                          begin.result.value, location.result.value)),
                   begin.cards + location.cards + {"RA2000", "DEC2000"})
    ensures "RA2000" !in h ==> r == Outcome(Err(KeyError(["RA2000"])), {})
    ensures "RA2000" in h && "DEC2000" !in h ==> r == Outcome(Err(KeyError(["DEC2000"])), {})
    ensures r.result.Err? ==> r.cards <= begin.cards + location.cards
  {
    if "RA2000" !in h then Outcome(Err(KeyError(["RA2000"])), {})
    else if "DEC2000" !in h then Outcome(Err(KeyError(["DEC2000"])), {})
    else AtTimeAndPlace((t, l) => Sky(h["RA2000"], h["DEC2000"], "icrs", HourAngle, Degree, t, l),
                        begin, location, {"RA2000", "DEC2000"})
  }

  /** The SuprimeCam start position: AZIMUTH and ALTITUDE in degrees,
      the altitude clipped at 90, at the start time and the location.
      ALTITUDE is read and compared before AZIMUTH is read. */
  function SuprimeAltAz(h: Header, begin: Outcome<Datum>, location: Outcome<Datum>): (r: Outcome<Datum>)
    ensures r.result.Ok? <==>
      "ALTITUDE" in h && ClipAltitude(h["ALTITUDE"]).Ok? && "AZIMUTH" in h &&
      begin.result.Ok? && location.result.Ok?
    ensures r.result.Ok? ==>
      r == Outcome(Ok(AltAz(Quantity(h["AZIMUTH"], Degree), Quantity(ClipAltitude(h["ALTITUDE"]).value, Degree),
                            begin.result.value, location.result.value)),
                   begin.cards + location.cards + {"AZIMUTH", "ALTITUDE"})
    ensures r.result.Ok? && Numeric(r.result.value.alt.magnitude).Some? ==>
      Numeric(r.result.value.alt.magnitude).value <= 90.0
    ensures "ALTITUDE" !in h ==> r == Outcome(Err(KeyError(["ALTITUDE"])), {})
    ensures ("ALTITUDE" in h && ClipAltitude(h["ALTITUDE"]).Ok? && "AZIMUTH" !in h) ==>
      r == Outcome(Err(KeyError(["AZIMUTH"])), {})
    ensures r.result.Err? ==> r.cards <= begin.cards + location.cards
  {
    if "ALTITUDE" !in h then Outcome(Err(KeyError(["ALTITUDE"])), {})
    else match ClipAltitude(h["ALTITUDE"])
      case Err(e) => Outcome(Err(e), {})
      case Ok(altitude) =>
        if "AZIMUTH" !in h then Outcome(Err(KeyError(["AZIMUTH"])), {})
        else AtTimeAndPlace((t, l) => AltAz(Quantity(h["AZIMUTH"], Degree), Quantity(altitude, Degree), t, l),
                            begin, location, {"AZIMUTH", "ALTITUDE"})
  }
}
