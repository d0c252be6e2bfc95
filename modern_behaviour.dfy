/** What the current package's classes do with a header, as consequences
    of their class bodies and the build step: which definition wins for a
    property, what the base and stub classes answer, and which class the
    registry selects. */
module ModernBehaviour {
  import opened Wrappers
  import opened Values
  import opened CardResolvers
  import opened ClassBuild
  import opened Engine
  import opened FitsRules
  import opened ModernClasses
  import Properties
  import SR = SubaruRules
  import MP = MegaPrimeRules
  import CommonRules
  import Registry

  /** The base class binds exactly the standard properties, each to the
      abstract method. */
  lemma BaseTable(c: TranslatorClass)
    requires c == MetadataTranslator
    ensures forall p :: p in StateOf(c).table <==> p in Properties.Names
    ensures forall p :: p in Properties.Names ==> StateOf(c).table[p] == Abstract
  {
  }

  /** Every standard property of the base class raises
      NotImplementedError without reading a card; it has no other
      method.  The base class is abstract and never instantiated, so this
      is the table a concrete subclass inherits for every property it does
      not define. */
  lemma BaseRaises(c: TranslatorClass, env: Env, h: Header, p: string)
    requires c == MetadataTranslator
    ensures WellFormed(StateOf(c).table)
    ensures p in Properties.Names ==>
      Eval(StateOf(c).table, env, h, p) == Outcome(Err(NotImplementedError(p)), {})
    ensures p !in Properties.Names ==>
      Eval(StateOf(c).table, env, h, p) == Outcome(Err(AttributeError(p)), {})
  {
    StatesWellFormed(c);
    BaseTable(c);
    var t := StateOf(c).table;
    if p in Properties.Names {
      EvalAbstract(t, env, h, p);
    } else {
      EvalMissing(t, env, h, p);
    }
  }

  /** The stub class binds exactly the standard properties, each to the
      stub method. */
  lemma StubTable(c: TranslatorClass)
    requires c == StubTranslator
    ensures StateOf(c).table.Keys == set p | p in Properties.Names
    ensures forall p :: p in Properties.Names ==> StateOf(c).table[p] == Stub
  {
    var base := StateOf(MetadataTranslator);
    assert base.table.Keys == set p | p in Properties.Names;
    var built := Build(base, StubDef(), TrivialResolver, ConstResolver);
    assert built.table.Keys == base.table.Keys;
    assert StateOf(c) == ForAll(built, Properties.Names, Stub);
  }

  /** Every standard property of the stub class is None, read from no
      card.  The stub class is itself abstract; this is what a concrete
      subclass of it inherits for every property it does not define. */
  lemma StubAnswersNone(c: TranslatorClass, env: Env, h: Header, p: string)
    requires c == StubTranslator
    ensures WellFormed(StateOf(c).table)
    ensures p in Properties.Names ==> Eval(StateOf(c).table, env, h, p) == Outcome(Ok(Scalar(Null)), {})
    ensures p !in Properties.Names ==> Eval(StateOf(c).table, env, h, p) == Outcome(Err(AttributeError(p)), {})
  {
    StatesWellFormed(c);
    StubTable(c);
    var t := StateOf(c).table;
    if p in Properties.Names {
      EvalStub(t, env, h, p);
    } else {
      EvalMissing(t, env, h, p);
    }
  }

  /** The FITS class's own maps; its trivial map has no location entry. */
  lemma FitsMaps(c: TranslatorClass)
    requires c == FitsTranslator
    ensures StateOf(c).trivialMap == FitsTrivial() && StateOf(c).constMap == map[]
    ensures "location" !in FitsTrivial()
  {
  }

  lemma SubaruLocationMethod(c: TranslatorClass)
    requires c == SubaruTranslator
    ensures "location" in StateOf(c).table && StateOf(c).table["location"] == Custom(Subaru(SubaruSite))
  {
    SubaruStep(c);
    FitsMaps(Parent(c));
    MethodEntry(StateOf(Parent(c)), SubaruDef(), TrivialResolver, ConstResolver, "location");
  }

  /** Names SuprimeCam's body does not define. */
  lemma SuprimeCamUndefined()
    ensures "location" !in SuprimeCamMethods()
    ensures "location" !in SuprimeCamTrivial()
    ensures "location" !in SuprimeCamConst()
  {
  }

  lemma SuprimeCamLocationMethod(c: TranslatorClass)
    requires c == SuprimeCamTranslator
    ensures "location" in StateOf(c).table && StateOf(c).table["location"] == Custom(Subaru(SubaruSite))
  {
    SuprimeCamStep(c);
    SubaruLocationMethod(Parent(c));
    SuprimeCamUndefined();
    InheritedEntry(StateOf(Parent(c)), SuprimeCamDef(), TrivialResolver, ConstResolver, "location");
  }

  /** SuprimeCam's location is the Subaru site, read from no card: the
      Subaru class's method replaces the FITS one and SuprimeCam does not
      redefine it. */
  lemma SuprimeCamLocation(c: TranslatorClass, env: Env, h: Header)
    requires c == SuprimeCamTranslator
    ensures WellFormed(StateOf(c).table)
    ensures Eval(StateOf(c).table, env, h, "location") == Outcome(Ok(SR.SubaruLocation), {})
  {
    StatesWellFormed(c);
    SuprimeCamLocationMethod(c);
    EvalSubaruSite(StateOf(c).table, env, h, "location");
  }

  /** The base class declares empty maps. */
  lemma BaseMaps(c: TranslatorClass)
    requires c == MetadataTranslator
    ensures StateOf(c).trivialMap == map[] && StateOf(c).constMap == map[]
  {
  }

  lemma FitsTrivialInstrument()
    ensures "instrument" in FitsTrivial() && FitsTrivial()["instrument"] == Key("INSTRUME")
  {
  }

  /** The FITS class reads the instrument from INSTRUME. */
  lemma FitsInstrument(c: TranslatorClass)
    requires c == FitsTranslator
    ensures "instrument" in StateOf(c).table && StateOf(c).table["instrument"] == Trivial(Key("INSTRUME"))
  {
    FitsStep(c);
    BaseMaps(Parent(c));
    FitsTrivialInstrument();
    TrivialEntry(StateOf(Parent(c)), FitsDef(), TrivialResolver, ConstResolver, "instrument");
  }

  /** Names the MegaPrime body does not define. */
  lemma MegaPrimeUndefined()
    ensures "instrument" !in MegaPrimeMethods()
    ensures "instrument" !in MegaPrimeTrivial()
    ensures "instrument" !in MegaPrimeConst()
  {
    MegaPrimeNoInstrumentMethod();
    MegaPrimeNoInstrumentEntry();
    MegaPrimeNoInstrumentConst();
  }

  lemma MegaPrimeNoInstrumentMethod()
    ensures "instrument" !in MegaPrimeMethods()
  {
  }

  lemma MegaPrimeNoInstrumentEntry()
    ensures "instrument" !in MegaPrimeTrivial()
  {
  }

  lemma MegaPrimeNoInstrumentConst()
    ensures "instrument" !in MegaPrimeConst()
  {
  }

  /** Names the DECam body does not define. */
  lemma DecamUndefined()
    ensures "instrument" !in DecamMethods()
    ensures "instrument" !in DecamTrivial()
    ensures "instrument" !in DecamConst()
  {
    DecamNoInstrumentMethod();
    DecamNoInstrumentEntry();
    DecamNoInstrumentConst();
  }

  lemma DecamNoInstrumentMethod()
    ensures "instrument" !in DecamMethods()
  {
  }

  lemma DecamNoInstrumentEntry()
    ensures "instrument" !in DecamTrivial()
  {
  }

  lemma DecamNoInstrumentConst()
    ensures "instrument" !in DecamConst()
  {
  }

  /** MegaPrime inherits the FITS instrument card. */
  lemma MegaPrimeInstrument(c: TranslatorClass)
    requires c == MegaPrimeTranslator
    ensures "instrument" in StateOf(c).table && StateOf(c).table["instrument"] == Trivial(Key("INSTRUME"))
  {
    MegaPrimeStep(c);
    FitsInstrument(Parent(c));
    MegaPrimeUndefined();
    InheritedEntry(StateOf(Parent(c)), MegaPrimeDef(), TrivialResolver, ConstResolver, "instrument");
  }

  /** DECam inherits the FITS instrument card. */
  lemma DecamInstrument(c: TranslatorClass)
    requires c == DecamTranslator
    ensures "instrument" in StateOf(c).table && StateOf(c).table["instrument"] == Trivial(Key("INSTRUME"))
  {
    DecamStep(c);
    FitsInstrument(Parent(c));
    DecamUndefined();
    InheritedEntry(StateOf(Parent(c)), DecamDef(), TrivialResolver, ConstResolver, "instrument");
  }

  /** A class that reads the instrument from INSTRUME gives that card's
      text, and a KeyError when it is absent. */
  lemma InstrumentFromCard(t: Table, env: Env, h: Header)
    requires WellFormed(t) && "instrument" in t && t["instrument"] == Trivial(Key("INSTRUME"))
    ensures "INSTRUME" !in h ==> Eval(t, env, h, "instrument").result == Err(KeyError(["INSTRUME"]))
    ensures "INSTRUME" in h && h["INSTRUME"].Str? ==> Eval(t, env, h, "instrument").result == Ok(Scalar(h["INSTRUME"]))
  {
    Properties.TextProperties("instrument");
  }

  /** The FITS instrument test on a class that reads INSTRUME: declined
      without the card, and otherwise accepted exactly when the card's
      text is the supported instrument. */
  lemma CardRecognizes(t: Table, s: string, env: Env, h: Header)
    requires WellFormed(t) && "instrument" in t && t["instrument"] == Trivial(Key("INSTRUME"))
    ensures "INSTRUME" !in h ==> FitsRecognizes(Some(s), Eval(t, env, h, "instrument").result) == Ok(false)
    ensures "INSTRUME" in h && h["INSTRUME"].Str? ==>
      FitsRecognizes(Some(s), Eval(t, env, h, "instrument").result) == Ok(h["INSTRUME"].s == s)
  {
    InstrumentFromCard(t, env, h);
  }

  /** MegaPrime accepts a header exactly when its INSTRUME card is
      present and, as text, is "MegaPrime". */
  lemma MegaPrimeRecognized(c: TranslatorClass, env: Env, h: Header)
    requires c == MegaPrimeTranslator
    ensures "INSTRUME" !in h ==> CanTranslate(env, c, h) == Ok(false)
    ensures "INSTRUME" in h && h["INSTRUME"].Str? ==> CanTranslate(env, c, h) == Ok(h["INSTRUME"].s == "MegaPrime")
  {
    InstrumentTest(env, c, h);
    MegaPrimeInstrument(c);
    CardRecognizes(StateOf(c).table, "MegaPrime", env, h);
  }

  /** DECam accepts a header exactly when its INSTRUME card is present
      and, as text, is "DECam". */
  lemma DecamRecognized(c: TranslatorClass, env: Env, h: Header)
    requires c == DecamTranslator
    ensures "INSTRUME" !in h ==> CanTranslate(env, c, h) == Ok(false)
    ensures "INSTRUME" in h && h["INSTRUME"].Str? ==> CanTranslate(env, c, h) == Ok(h["INSTRUME"].s == "DECam")
  {
    InstrumentTest(env, c, h);
    DecamInstrument(c);
    CardRecognizes(StateOf(c).table, "DECam", env, h);
  }

  /** MegaPrime's constant rotation entries. */
  lemma MegaPrimeConstEntries()
    ensures "boresight_rotation_angle" in MegaPrimeConst()
    ensures MegaPrimeConst()["boresight_rotation_angle"] == UnknownAngle
    ensures "relative_humidity" !in MegaPrimeConst()
  {
  }

  /** MegaPrime's humidity entry: RELHUMID, else HUMIDITY. */
  lemma MegaPrimeHumidityEntry()
    ensures "relative_humidity" in MegaPrimeTrivial()
    ensures MegaPrimeTrivial()["relative_humidity"] == Keys(["RELHUMID", "HUMIDITY"])
  {
  }

  lemma MegaPrimeEntries(c: TranslatorClass)
    requires c == MegaPrimeTranslator
    ensures "boresight_rotation_angle" in StateOf(c).table
    ensures StateOf(c).table["boresight_rotation_angle"] == Const(UnknownAngle)
    ensures "relative_humidity" in StateOf(c).table
    ensures StateOf(c).table["relative_humidity"] == Trivial(Keys(["RELHUMID", "HUMIDITY"]))
  {
    MegaPrimeStep(c);
    MegaPrimeConstEntries();
    MegaPrimeHumidityEntry();
    ConstEntry(StateOf(Parent(c)), MegaPrimeDef(), TrivialResolver, ConstResolver, "boresight_rotation_angle");
    TrivialEntry(StateOf(Parent(c)), MegaPrimeDef(), TrivialResolver, ConstResolver, "relative_humidity");
  }

  /** MegaPrime's rotation angle is the constant unknown angle, read from
      no card. */
  lemma MegaPrimeRotation(c: TranslatorClass, env: Env, h: Header)
    requires c == MegaPrimeTranslator
    ensures WellFormed(StateOf(c).table)
    ensures Eval(StateOf(c).table, env, h, "boresight_rotation_angle") == Outcome(Ok(UnknownAngle), {})
  {
    StatesWellFormed(c);
    MegaPrimeEntries(c);
  }

  /** MegaPrime's identifier maps: the exposure is read from EXPNUM, and
      neither map touches the detector properties. */
  lemma MegaPrimeIdMaps()
    ensures "exposure_id" in MegaPrimeTrivial() && MegaPrimeTrivial()["exposure_id"] == Key("EXPNUM")
    ensures "exposure_id" !in MegaPrimeConst() && "detector_num" !in MegaPrimeConst()
    ensures "detector_exposure_id" !in MegaPrimeConst()
  {
  }

  /** MegaPrime's detector methods. */
  lemma MegaPrimeIdMethods()
    ensures "detector_num" in MegaPrimeMethods() && "detector_num" !in MegaPrimeTrivial()
    ensures MegaPrimeMethods()["detector_num"] == Custom(MegaPrime(MegaPrimeDetectorNum))
    ensures "detector_exposure_id" in MegaPrimeMethods() && "detector_exposure_id" !in MegaPrimeTrivial()
    ensures MegaPrimeMethods()["detector_exposure_id"] == Custom(Shared(CombinedId("exposure_id", 36, "detector_num")))
  {
  }

  lemma MegaPrimeIdEntries(c: TranslatorClass)
    requires c == MegaPrimeTranslator
    ensures "exposure_id" in StateOf(c).table && StateOf(c).table["exposure_id"] == Trivial(Key("EXPNUM"))
    ensures "detector_num" in StateOf(c).table &&
      StateOf(c).table["detector_num"] == Custom(MegaPrime(MegaPrimeDetectorNum))
    ensures "detector_exposure_id" in StateOf(c).table &&
      StateOf(c).table["detector_exposure_id"] == Custom(Shared(CombinedId("exposure_id", 36, "detector_num")))
  {
    MegaPrimeStep(c);
    MegaPrimeIdMaps();
    MegaPrimeIdMethods();
    var parent := StateOf(Parent(c));
    TrivialEntry(parent, MegaPrimeDef(), TrivialResolver, ConstResolver, "exposure_id");
    MethodEntry(parent, MegaPrimeDef(), TrivialResolver, ConstResolver, "detector_num");
    MethodEntry(parent, MegaPrimeDef(), TrivialResolver, ConstResolver, "detector_exposure_id");
  }

  /** `to_exposure_id()` of an uncoerced single-card entry without a
      default: the card as read, recording it, or a KeyError naming it. */
  function CardAsRead(h: Header, k: string): Outcome<Datum> {
    if k in h then Outcome(Ok(Scalar(h[k])), {k}) else Outcome(Err(KeyError([k])), {})
  }

  lemma KeyAsRead(h: Header, env: Env, p: string, k: string)
    requires Properties.CoercionOf(p) == Properties.AsRead
    ensures ModernTrivial(h, env, p, Key(k)) == CardAsRead(h, k)
  {
    if k in h {
      assert FirstPresent(h, [k]) == Some(0);
    }
  }

  lemma ExposureFromCard(t: Table, env: Env, h: Header)
    requires WellFormed(t) && "exposure_id" in t && t["exposure_id"] == Trivial(Key("EXPNUM"))
    ensures Eval(t, env, h, "exposure_id") == CardAsRead(h, "EXPNUM")
  {
    Properties.UncoercedProperties("exposure_id");
    KeyAsRead(h, env, "exposure_id", "EXPNUM");
  }

  lemma DetectorFromExtname(t: Table, env: Env, h: Header)
    requires WellFormed(t) && "detector_num" in t && t["detector_num"] == Custom(MegaPrime(MegaPrimeDetectorNum))
    ensures Eval(t, env, h, "detector_num") == MP.ModernDetectorNum(h)
  {
  }

  /** A combined identifier calls its two properties on the same
      translator. */
  lemma CombinedIdEval(t: Table, env: Env, h: Header, p: string, a: string, k: int, b: string)
    requires WellFormed(t) && p in t && t[p] == Custom(Shared(CombinedId(a, k, b)))
    ensures Eval(t, env, h, p) == CommonRules.LinearId(Eval(t, env, h, a), k, Eval(t, env, h, b))
  {
    assert Eval(t, env, h, p) == EvalCustom(t, env, h, Shared(CombinedId(a, k, b)));
    assert EvalCustom(t, env, h, Shared(CombinedId(a, k, b))) == EvalShared(t, env, h, CombinedId(a, k, b));
  }

  /** What `to_exposure_id() * k + to_detector_num()` gives when the
      exposure is EXPNUM and the detector comes from EXTNAME. */
  predicate ExposureDetectorId(r: Outcome<Datum>, h: Header, k: int) {
    var d := MP.ModernDetectorNum(h);
    ("EXPNUM" !in h ==> r == Outcome(Err(KeyError(["EXPNUM"])), {})) &&
    ("EXPNUM" in h && h["EXPNUM"].Int? ==> r.cards == {"EXPNUM"} + d.cards) &&
    ("EXPNUM" in h && h["EXPNUM"].Int? && d.result.Ok? && d.result.value.Scalar? && d.result.value.v.Int? ==>
       r.result == Ok(Scalar(Int(h["EXPNUM"].i * k + d.result.value.v.i))))
  }

  lemma CombinedExposure(h: Header, k: int)
    ensures ExposureDetectorId(CommonRules.LinearId(CardAsRead(h, "EXPNUM"), k, MP.ModernDetectorNum(h)), h, k)
  {
  }

  /** An identifier combining the exposure number read as is from EXPNUM
      with the detector number read from EXTNAME: EXPNUM is read first,
      and its absence is a KeyError before EXTNAME is looked at. */
  lemma ExposureTimesDetector(t: Table, env: Env, h: Header, k: int)
    requires WellFormed(t)
    requires "exposure_id" in t && t["exposure_id"] == Trivial(Key("EXPNUM"))
    requires "detector_num" in t && t["detector_num"] == Custom(MegaPrime(MegaPrimeDetectorNum))
    requires "detector_exposure_id" in t &&
      t["detector_exposure_id"] == Custom(Shared(CombinedId("exposure_id", k, "detector_num")))
    ensures ExposureDetectorId(Eval(t, env, h, "detector_exposure_id"), h, k)
  {
    ExposureFromCard(t, env, h);
    DetectorFromExtname(t, env, h);
    CombinedIdEval(t, env, h, "detector_exposure_id", "exposure_id", k, "detector_num");
    CombinedExposure(h, k);
  }

  /** MegaPrime's detector_exposure_id is the EXPNUM exposure times 36
      plus the EXTNAME detector, recording EXPNUM and whatever the detector
      number recorded; without EXPNUM it is a KeyError. */
  lemma MegaPrimeDetectorExposureId(c: TranslatorClass, env: Env, h: Header)
    requires c == MegaPrimeTranslator
    ensures WellFormed(StateOf(c).table)
    ensures ExposureDetectorId(Eval(StateOf(c).table, env, h, "detector_exposure_id"), h, 36)
  {
    StatesWellFormed(c);
    MegaPrimeIdEntries(c);
    ExposureTimesDetector(StateOf(c).table, env, h, 36);
  }

  /** The primary header's placeholder detector 99 exceeds the 36
      detectors, so its detector_exposure_id is the one detector 27 has
      two exposures later. */
  lemma MegaPrimeIdOverlap(c: TranslatorClass, env: Env, h1: Header, h2: Header, e: int)
    requires c == MegaPrimeTranslator
    requires "EXPNUM" in h1 && h1["EXPNUM"] == Int(e) && "EXTNAME" in h1 && h1["EXTNAME"] == Str("PHU")
    requires "EXPNUM" in h2 && h2["EXPNUM"] == Int(e + 2) && "EXTNAME" in h2 && h2["EXTNAME"] == Str("ccd27")
    ensures WellFormed(StateOf(c).table)
    ensures Eval(StateOf(c).table, env, h1, "detector_exposure_id").result == Ok(Scalar(Int(e * 36 + 99)))
    ensures Eval(StateOf(c).table, env, h2, "detector_exposure_id").result == Ok(Scalar(Int(e * 36 + 99)))
  {
    MegaPrimeDetectorExposureId(c, env, h1);
    MegaPrimeDetectorExposureId(c, env, h2);
    IdOverlap(Eval(StateOf(c).table, env, h1, "detector_exposure_id"),
              Eval(StateOf(c).table, env, h2, "detector_exposure_id"), h1, h2, e);
  }

  lemma IdOverlap(r1: Outcome<Datum>, r2: Outcome<Datum>, h1: Header, h2: Header, e: int)
    requires "EXPNUM" in h1 && h1["EXPNUM"] == Int(e) && "EXTNAME" in h1 && h1["EXTNAME"] == Str("PHU")
    requires "EXPNUM" in h2 && h2["EXPNUM"] == Int(e + 2) && "EXTNAME" in h2 && h2["EXTNAME"] == Str("ccd27")
    requires ExposureDetectorId(r1, h1, 36) && ExposureDetectorId(r2, h2, 36)
    ensures r1.result == Ok(Scalar(Int(e * 36 + 99))) && r2.result == Ok(Scalar(Int(e * 36 + 99)))
  {
    MP.DetectorNumPrimaryHeader(h1);
    MP.DetectorNumTwentySeven(h2);
    assert (e + 2) * 36 + 27 == e * 36 + 99;
  }

  /** A float property read from the first of two candidate cards. */
  lemma TwoCandidates(t: Table, env: Env, h: Header, p: string, k1: string, k2: string)
    requires WellFormed(t) && p in t && t[p] == Trivial(Keys([k1, k2]))
    requires Properties.CoercionOf(p) == Properties.ToFloat
    ensures var r := Eval(t, env, h, p);
      (k1 in h ==> r.cards == {k1}) &&
      (k1 in h && h[k1].Num? ==> r.result == Ok(Scalar(h[k1]))) &&
      (k1 !in h && k2 in h ==> r.cards == {k2}) &&
      (k1 !in h && k2 in h && h[k2].Num? ==> r.result == Ok(Scalar(h[k2]))) &&
      (k1 !in h && k2 !in h ==> r == Outcome(Err(KeyError([k1, k2])), {}))
  {
    if k1 !in h && k2 in h {
      assert FirstPresent(h, [k1, k2]) == Some(1);
    }
  }

  /** MegaPrime's humidity prefers RELHUMID to HUMIDITY, records only the
      card it reads, and raises KeyError naming both when neither is
      present. */
  lemma MegaPrimeHumidity(c: TranslatorClass, env: Env, h: Header)
    requires c == MegaPrimeTranslator
    ensures WellFormed(StateOf(c).table)
    ensures var r := Eval(StateOf(c).table, env, h, "relative_humidity");
      ("RELHUMID" in h ==> r.cards == {"RELHUMID"}) &&
      ("RELHUMID" in h && h["RELHUMID"].Num? ==> r.result == Ok(Scalar(h["RELHUMID"]))) &&
      ("RELHUMID" !in h && "HUMIDITY" in h ==> r.cards == {"HUMIDITY"}) &&
      ("RELHUMID" !in h && "HUMIDITY" in h && h["HUMIDITY"].Num? ==> r.result == Ok(Scalar(h["HUMIDITY"]))) &&
      ("RELHUMID" !in h && "HUMIDITY" !in h ==> r == Outcome(Err(KeyError(["RELHUMID", "HUMIDITY"])), {}))
  {
    StatesWellFormed(c);
    MegaPrimeEntries(c);
    Properties.FloatProperties("relative_humidity");
    TwoCandidates(StateOf(c).table, env, h, "relative_humidity", "RELHUMID", "HUMIDITY");
  }

  /** DECam's humidity entry. */
  lemma DecamHumidityEntry()
    ensures "relative_humidity" in DecamTrivial() && "relative_humidity" !in DecamConst()
    ensures DecamTrivial()["relative_humidity"] == TrivialSpec(["HUMIDITY"], Num(40.0), Some(0.0), Some(100.0), None)
  {
  }

  /** DECam's temperature entry. */
  lemma DecamTemperatureEntry()
    ensures "temperature" in DecamTrivial() && "temperature" !in DecamConst()
    ensures DecamTrivial()["temperature"] == TrivialSpec(["OUTTEMP"], Num(10.0), Some(-10.0), Some(40.0), Some(Celsius))
  {
  }

  lemma DecamTable(c: TranslatorClass)
    requires c == DecamTranslator
    ensures "relative_humidity" in StateOf(c).table && "temperature" in StateOf(c).table
    ensures StateOf(c).table["relative_humidity"] ==
      Trivial(TrivialSpec(["HUMIDITY"], Num(40.0), Some(0.0), Some(100.0), None))
    ensures StateOf(c).table["temperature"] ==
      Trivial(TrivialSpec(["OUTTEMP"], Num(10.0), Some(-10.0), Some(40.0), Some(Celsius)))
  {
    DecamStep(c);
    DecamHumidityEntry();
    DecamTemperatureEntry();
    TrivialEntry(StateOf(Parent(c)), DecamDef(), TrivialResolver, ConstResolver, "relative_humidity");
    TrivialEntry(StateOf(Parent(c)), DecamDef(), TrivialResolver, ConstResolver, "temperature");
  }

  /** A float property read from one card with a default and bounds: the
      default when the card is absent or out of range, the card's value
      otherwise, and the card recorded whenever present. */
  lemma BoundedCard(t: Table, env: Env, h: Header, p: string, k: string, d: real, lo: real, hi: real)
    requires WellFormed(t) && p in t && t[p] == Trivial(TrivialSpec([k], Num(d), Some(lo), Some(hi), None))
    requires Properties.CoercionOf(p) == Properties.ToFloat
    ensures k !in h ==> Eval(t, env, h, p) == Outcome(Ok(Scalar(Num(d))), {})
    ensures k in h && h[k].Num? && (h[k].r < lo || h[k].r > hi) ==> Eval(t, env, h, p) == Outcome(Ok(Scalar(Num(d))), {k})
    ensures k in h && h[k].Num? && lo <= h[k].r <= hi ==> Eval(t, env, h, p) == Outcome(Ok(Scalar(h[k])), {k})
  {
  }

  /** DECam's humidity falls back to 40 when HUMIDITY is absent or
      outside [0, 100], and is the card's value otherwise; the card is
      recorded whenever it is present. */
  lemma DecamHumidity(c: TranslatorClass, env: Env, h: Header)
    requires c == DecamTranslator
    ensures WellFormed(StateOf(c).table)
    ensures "HUMIDITY" !in h ==>
      Eval(StateOf(c).table, env, h, "relative_humidity") == Outcome(Ok(Scalar(Num(40.0))), {})
    ensures "HUMIDITY" in h && h["HUMIDITY"].Num? && (h["HUMIDITY"].r < 0.0 || h["HUMIDITY"].r > 100.0) ==>
      Eval(StateOf(c).table, env, h, "relative_humidity") == Outcome(Ok(Scalar(Num(40.0))), {"HUMIDITY"})
    ensures "HUMIDITY" in h && h["HUMIDITY"].Num? && 0.0 <= h["HUMIDITY"].r <= 100.0 ==>
      Eval(StateOf(c).table, env, h, "relative_humidity") == Outcome(Ok(Scalar(h["HUMIDITY"])), {"HUMIDITY"})
  {
    StatesWellFormed(c);
    DecamTable(c);
    Properties.FloatProperties("relative_humidity");
    BoundedCard(StateOf(c).table, env, h, "relative_humidity", "HUMIDITY", 40.0, 0.0, 100.0);
  }

  /** DECam's temperature declares a unit, so an absent OUTTEMP raises
      KeyError although a default is declared. */
  lemma DecamTemperatureRequired(c: TranslatorClass, env: Env, h: Header)
    requires c == DecamTranslator && "OUTTEMP" !in h
    ensures WellFormed(StateOf(c).table)
    ensures Eval(StateOf(c).table, env, h, "temperature") == Outcome(Err(KeyError(["OUTTEMP"])), {})
  {
    StatesWellFormed(c);
    DecamTable(c);
    UnitCardRequired(StateOf(c).table, env, h, "temperature", "OUTTEMP", Num(10.0), Some(-10.0), Some(40.0), Celsius);
  }

  /** A trivial entry that declares a unit reads its card as a quantity
      and raises KeyError when the card is absent, whatever default it
      declares. */
  lemma UnitCardRequired(t: Table, env: Env, h: Header, p: string, k: string, d: Value,
                         lo: Option<real>, hi: Option<real>, u: Unit)
    requires WellFormed(t) && p in t && t[p] == Trivial(TrivialSpec([k], d, lo, hi, Some(u))) && k !in h
    ensures Eval(t, env, h, p) == Outcome(Err(KeyError([k])), {})
  {
  }

  /** A header naming an instrument in INSTRUME is not SuprimeCam's unless
      it names SuprimeCam. */
  lemma SuprimeCamDeclines(c: TranslatorClass, env: Env, h: Header)
    requires c == SuprimeCamTranslator
    requires "INSTRUME" in h && h["INSTRUME"] != Str("SuprimeCam")
    ensures CanTranslate(env, c, h) == Ok(false)
  {
  }

  /** The registered classes, in the order they are tried. */
  lemma SelectionOrder(env: Env, h: Header)
    ensures DetermineTranslator(env, h) == Registry.Select(
      [("SuprimeCam", SuprimeCamTranslator), ("MegaPrime", MegaPrimeTranslator), ("DECam", DecamTranslator)],
      Accepts(env, h))
  {
    RegisteredClasses();
  }

  /** Of three registered classes, the second is selected when the
      first declines and it accepts. */
  lemma SelectSecond<C>(a: C, b: C, d: C, accepts: C -> Result<bool>)
    requires accepts(a) == Ok(false) && accepts(b) == Ok(true)
    ensures Registry.Select([("SuprimeCam", a), ("MegaPrime", b), ("DECam", d)], accepts) == Ok(b)
  {
    Registry.SelectFirst([("SuprimeCam", a), ("MegaPrime", b), ("DECam", d)], accepts, 1);
  }

  /** Of three registered classes, the third is selected when the others
      decline and it accepts. */
  lemma SelectThird<C>(a: C, b: C, d: C, accepts: C -> Result<bool>)
    requires accepts(a) == Ok(false) && accepts(b) == Ok(false) && accepts(d) == Ok(true)
    ensures Registry.Select([("SuprimeCam", a), ("MegaPrime", b), ("DECam", d)], accepts) == Ok(d)
  {
    Registry.SelectFirst([("SuprimeCam", a), ("MegaPrime", b), ("DECam", d)], accepts, 2);
  }

  /** When all three registered classes decline, the selection raises
      ValueError. */
  lemma SelectNoneOfThree<C>(a: C, b: C, d: C, accepts: C -> Result<bool>)
    requires accepts(a) == Ok(false) && accepts(b) == Ok(false) && accepts(d) == Ok(false)
    ensures var r := Registry.Select([("SuprimeCam", a), ("MegaPrime", b), ("DECam", d)], accepts);
      r.Err? && r.error.ValueError?
  {
    Registry.SearchMeaning([("SuprimeCam", a), ("MegaPrime", b), ("DECam", d)], accepts, 0);
  }

  /** A MegaPrime header selects the MegaPrime translator: SuprimeCam,
      registered first, declines it. */
  lemma SelectsMegaPrime(env: Env, h: Header)
    requires "INSTRUME" in h && h["INSTRUME"] == Str("MegaPrime")
    ensures DetermineTranslator(env, h) == Ok(MegaPrimeTranslator)
  {
    SelectionOrder(env, h);
    SuprimeCamDeclines(SuprimeCamTranslator, env, h);
    MegaPrimeRecognized(MegaPrimeTranslator, env, h);
    SelectSecond(SuprimeCamTranslator, MegaPrimeTranslator, DecamTranslator, Accepts(env, h));
  }

  /** A DECam header selects the DECam translator once SuprimeCam and
      MegaPrime decline it. */
  lemma SelectsDecam(env: Env, h: Header)
    requires "INSTRUME" in h && h["INSTRUME"] == Str("DECam")
    ensures DetermineTranslator(env, h) == Ok(DecamTranslator)
  {
    SelectionOrder(env, h);
    SuprimeCamDeclines(SuprimeCamTranslator, env, h);
    MegaPrimeRecognized(MegaPrimeTranslator, env, h);
    DecamRecognized(DecamTranslator, env, h);
    SelectThird(SuprimeCamTranslator, MegaPrimeTranslator, DecamTranslator, Accepts(env, h));
  }

  /** A header naming any other instrument is understood by no
      registered class: ValueError. */
  lemma SelectsNone(env: Env, h: Header)
    requires "INSTRUME" in h && h["INSTRUME"].Str?
    requires h["INSTRUME"].s != "SuprimeCam" && h["INSTRUME"].s != "MegaPrime" && h["INSTRUME"].s != "DECam"
    ensures DetermineTranslator(env, h).Err? && DetermineTranslator(env, h).error.ValueError?
  {
    SelectionOrder(env, h);
    SuprimeCamDeclines(SuprimeCamTranslator, env, h);
    MegaPrimeRecognized(MegaPrimeTranslator, env, h);
    DecamRecognized(DecamTranslator, env, h);
    SelectNoneOfThree(SuprimeCamTranslator, MegaPrimeTranslator, DecamTranslator, Accepts(env, h));
  }
}
