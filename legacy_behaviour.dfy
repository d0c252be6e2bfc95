/** What the older package's classes do with a header: the base class
    provides nothing, HSC overrides what it inherits from SuprimeCam,
    the test suite's translator overrides the FITS telescope card, and
    the registry hands a header to the class that recognises it. */
module LegacyBehaviour {
  import opened Wrappers
  import opened Values
  import opened CardResolvers
  import opened ClassBuild
  import opened Engine
  import opened LegacyClasses
  import FitsRules
  import SR = SubaruRules
  import Registry

  /** The base class has no property methods: every property is an
      AttributeError, read from no card. */
  lemma BaseProvidesNothing(c: LegacyClass, env: Env, h: Header, p: string)
    requires c == MetadataTranslator
    ensures WellFormed(StateOf(c).table)
    ensures Eval(StateOf(c).table, env, h, p) == Outcome(Err(AttributeError(p)), {})
  {
    StatesWellFormed(c);
  }

  /** The base class's maps are empty. */
  lemma BaseMaps(c: LegacyClass)
    requires c == MetadataTranslator
    ensures StateOf(c).trivialMap == map[] && StateOf(c).constMap == map[]
  {
  }

  /** The FITS class's maps: its own trivial map and the base's empty
      constant map. */
  lemma FitsMaps(c: LegacyClass)
    requires c == FitsTranslator
    ensures StateOf(c).trivialMap == FitsTrivial() && StateOf(c).constMap == map[]
  {
  }

  lemma FitsTrivialEntries()
    ensures "instrument" in FitsTrivial() && FitsTrivial()["instrument"] == Read("INSTRUME")
    ensures "telescope" in FitsTrivial() && FitsTrivial()["telescope"] == Read("TELESCOP")
  {
  }

  /** The FITS class reads the instrument from INSTRUME and the telescope
      from TELESCOP. */
  lemma FitsCards(c: LegacyClass)
    requires c == FitsTranslator
    ensures "instrument" in StateOf(c).table && StateOf(c).table["instrument"] == SingleCard(Read("INSTRUME"))
    ensures "telescope" in StateOf(c).table && StateOf(c).table["telescope"] == SingleCard(Read("TELESCOP"))
  {
    FitsStep(c);
    BaseMaps(Parent(c));
    FitsTrivialEntries();
    TrivialEntry(StateOf(Parent(c)), FitsDef(), CardResolver, ConstResolver, "instrument");
    TrivialEntry(StateOf(Parent(c)), FitsDef(), CardResolver, ConstResolver, "telescope");
  }

  /** A property read as it is from one card: the card's value, with the
      card recorded, or a KeyError naming it. */
  lemma RawCard(t: Table, env: Env, h: Header, p: string, k: string)
    requires WellFormed(t) && p in t && t[p] == SingleCard(Read(k))
    ensures k in h ==> Eval(t, env, h, p) == Outcome(Ok(Scalar(h[k])), {k})
    ensures k !in h ==> Eval(t, env, h, p) == Outcome(Err(KeyError([k])), {})
  {
  }

  /** The FITS recogniser on a class that reads the instrument from
      INSTRUME: declined without the card, accepted exactly when the card
      is the supported instrument. */
  lemma InstrumentCheck(t: Table, s: string, env: Env, h: Header)
    requires WellFormed(t) && "instrument" in t && t["instrument"] == SingleCard(Read("INSTRUME"))
    ensures "INSTRUME" !in h ==> FitsRules.FitsRecognizes(Some(s), Eval(t, env, h, "instrument").result) == Ok(false)
    ensures "INSTRUME" in h ==>
      FitsRules.FitsRecognizes(Some(s), Eval(t, env, h, "instrument").result) == Ok(h["INSTRUME"] == Str(s))
  {
    RawCard(t, env, h, "instrument", "INSTRUME");
  }

  /** The recogniser the FITS class passes on to its subclasses. */
  lemma InheritedRecogniser(c: LegacyClass, env: Env, h: Header)
    requires c == MegaPrimeTranslator || c == DecamTranslator || c == InstrumentTestTranslator
    ensures WellFormed(StateOf(c).table)
    ensures CanTranslate(env, c, h) ==
      FitsRules.FitsRecognizes(SupportedInstrument(c), Eval(StateOf(c).table, env, h, "instrument").result)
  {
    StatesWellFormed(c);
  }

  /** The FITS class gives the INSTRUME and TELESCOP cards as they are. */
  lemma FitsReads(c: LegacyClass, env: Env, h: Header)
    requires c == FitsTranslator
    ensures WellFormed(StateOf(c).table)
    ensures "INSTRUME" in h ==> Eval(StateOf(c).table, env, h, "instrument") == Outcome(Ok(Scalar(h["INSTRUME"])), {"INSTRUME"})
    ensures "TELESCOP" in h ==> Eval(StateOf(c).table, env, h, "telescope") == Outcome(Ok(Scalar(h["TELESCOP"])), {"TELESCOP"})
  {
    StatesWellFormed(c);
    FitsCards(c);
    RawCard(StateOf(c).table, env, h, "instrument", "INSTRUME");
    RawCard(StateOf(c).table, env, h, "telescope", "TELESCOP");
  }

  /** The test translator's entries. */
  lemma TestEntries()
    ensures "telescope" in TestTrivial() && TestTrivial()["telescope"] == Read("TELCODE")
    ensures "foobar" in TestTrivial() && TestTrivial()["foobar"] == Read("BAZ")
    ensures "instrument" !in TestTrivial()
  {
  }

  lemma TestConstEntries()
    ensures "format" in TestConst() && TestConst()["format"] == Words("HDF5")
    ensures "telescope" !in TestConst() && "foobar" !in TestConst() && "instrument" !in TestConst()
  {
  }

  /** The test translator's table: its own entries, the telescope
      override, and the FITS instrument card it inherits. */
  lemma TestTable(c: LegacyClass)
    requires c == InstrumentTestTranslator
    ensures "telescope" in StateOf(c).table && StateOf(c).table["telescope"] == SingleCard(Read("TELCODE"))
    ensures "foobar" in StateOf(c).table && StateOf(c).table["foobar"] == SingleCard(Read("BAZ"))
    ensures "format" in StateOf(c).table && StateOf(c).table["format"] == Const(Words("HDF5"))
    ensures "instrument" in StateOf(c).table && StateOf(c).table["instrument"] == SingleCard(Read("INSTRUME"))
  {
    TestStep(c);
    FitsCards(Parent(c));
    TestEntries();
    TestConstEntries();
    TrivialEntry(StateOf(Parent(c)), TestDef(), CardResolver, ConstResolver, "telescope");
    TrivialEntry(StateOf(Parent(c)), TestDef(), CardResolver, ConstResolver, "foobar");
    ConstEntry(StateOf(Parent(c)), TestDef(), CardResolver, ConstResolver, "format");
    InheritedEntry(StateOf(Parent(c)), TestDef(), CardResolver, ConstResolver, "instrument");
  }

  /** The test translator keeps the FITS instrument card. */
  lemma TestInstrument(c: LegacyClass)
    requires c == InstrumentTestTranslator
    ensures "instrument" in StateOf(c).table && StateOf(c).table["instrument"] == SingleCard(Read("INSTRUME"))
  {
    TestStep(c);
    FitsCards(Parent(c));
    TestEntries();
    TestConstEntries();
    InheritedEntry(StateOf(Parent(c)), TestDef(), CardResolver, ConstResolver, "instrument");
  }

  /** The test translator reads the telescope from TELCODE instead of
      TELESCOP, `foobar` from BAZ, the instrument from INSTRUME, and
      gives the constant format "HDF5". */
  lemma TestTranslation(c: LegacyClass, env: Env, h: Header)
    requires c == InstrumentTestTranslator
    ensures WellFormed(StateOf(c).table)
    ensures "TELCODE" in h ==> Eval(StateOf(c).table, env, h, "telescope") == Outcome(Ok(Scalar(h["TELCODE"])), {"TELCODE"})
    ensures "TELCODE" !in h ==> Eval(StateOf(c).table, env, h, "telescope") == Outcome(Err(KeyError(["TELCODE"])), {})
    ensures "BAZ" in h ==> Eval(StateOf(c).table, env, h, "foobar") == Outcome(Ok(Scalar(h["BAZ"])), {"BAZ"})
    ensures "INSTRUME" in h ==> Eval(StateOf(c).table, env, h, "instrument") == Outcome(Ok(Scalar(h["INSTRUME"])), {"INSTRUME"})
    ensures Eval(StateOf(c).table, env, h, "format") == Outcome(Ok(Words("HDF5")), {})
  {
    StatesWellFormed(c);
    TestTable(c);
    RawCard(StateOf(c).table, env, h, "telescope", "TELCODE");
    RawCard(StateOf(c).table, env, h, "foobar", "BAZ");
    RawCard(StateOf(c).table, env, h, "instrument", "INSTRUME");
  }

  /** The test translator accepts exactly the headers whose INSTRUME card
      is "SCUBA_test", and declines one without INSTRUME. */
  lemma TestRecognized(c: LegacyClass, env: Env, h: Header)
    requires c == InstrumentTestTranslator
    ensures "INSTRUME" !in h ==> CanTranslate(env, c, h) == Ok(false)
    ensures "INSTRUME" in h ==> CanTranslate(env, c, h) == Ok(h["INSTRUME"] == Str("SCUBA_test"))
  {
    StatesWellFormed(c);
    TestInstrument(c);
    InheritedRecogniser(c, env, h);
    InstrumentCheck(StateOf(c).table, "SCUBA_test", env, h);
  }


  lemma MegaPrimeUndefined()
    ensures "instrument" !in MegaPrimeMethods() && "instrument" !in MegaPrimeTrivial()
  {
    MegaPrimeNoInstrumentMethod();
    MegaPrimeNoInstrumentEntry();
  }

  lemma MegaPrimeNoInstrumentMethod()
    ensures "instrument" !in MegaPrimeMethods()
  {
  }

  lemma MegaPrimeNoInstrumentEntry()
    ensures "instrument" !in MegaPrimeTrivial()
  {
  }

  lemma DecamUndefined()
    ensures "instrument" !in DecamMethods() && "instrument" !in DecamTrivial()
  {
    DecamNoInstrumentMethod();
    DecamNoInstrumentEntry();
  }

  lemma DecamNoInstrumentMethod()
    ensures "instrument" !in DecamMethods()
  {
  }

  lemma DecamNoInstrumentEntry()
    ensures "instrument" !in DecamTrivial()
  {
  }

  /** MegaPrime inherits the FITS instrument card. */
  lemma MegaPrimeInstrument(c: LegacyClass)
    requires c == MegaPrimeTranslator
    ensures "instrument" in StateOf(c).table && StateOf(c).table["instrument"] == SingleCard(Read("INSTRUME"))
  {
    MegaPrimeStep(c);
    FitsCards(Parent(c));
    FitsMaps(Parent(c));
    MegaPrimeUndefined();
    InheritedEntry(StateOf(Parent(c)), MegaPrimeDef(), CardResolver, ConstResolver, "instrument");
  }

  /** DECam inherits the FITS instrument card. */
  lemma DecamInstrument(c: LegacyClass)
    requires c == DecamTranslator
    ensures "instrument" in StateOf(c).table && StateOf(c).table["instrument"] == SingleCard(Read("INSTRUME"))
  {
    DecamStep(c);
    FitsCards(Parent(c));
    FitsMaps(Parent(c));
    DecamUndefined();
    InheritedEntry(StateOf(Parent(c)), DecamDef(), CardResolver, ConstResolver, "instrument");
  }

  /** MegaPrime accepts a header exactly when its INSTRUME card is
      "MegaPrime". */
  lemma MegaPrimeRecognized(c: LegacyClass, env: Env, h: Header)
    requires c == MegaPrimeTranslator
    ensures "INSTRUME" !in h ==> CanTranslate(env, c, h) == Ok(false)
    ensures "INSTRUME" in h ==> CanTranslate(env, c, h) == Ok(h["INSTRUME"] == Str("MegaPrime"))
  {
    StatesWellFormed(c);
    MegaPrimeInstrument(c);
    InheritedRecogniser(c, env, h);
    InstrumentCheck(StateOf(c).table, "MegaPrime", env, h);
  }


  /** DECam accepts a header exactly when its INSTRUME card is "DECam". */
  lemma DecamRecognized(c: LegacyClass, env: Env, h: Header)
    requires c == DecamTranslator
    ensures "INSTRUME" !in h ==> CanTranslate(env, c, h) == Ok(false)
    ensures "INSTRUME" in h ==> CanTranslate(env, c, h) == Ok(h["INSTRUME"] == Str("DECam"))
  {
    StatesWellFormed(c);
    DecamInstrument(c);
    InheritedRecogniser(c, env, h);
    InstrumentCheck(StateOf(c).table, "DECam", env, h);
  }


  lemma SuprimeCamFilterEntry()
    ensures "abstract_filter" in SuprimeCamTrivial() && SuprimeCamTrivial()["abstract_filter"] == Read("FILTER")
  {
  }

  lemma SuprimeCamExposureTimeEntry()
    ensures "exposure_time" in SuprimeCamTrivial() && SuprimeCamTrivial()["exposure_time"] == Read("EXPTIME")
  {
  }

  lemma SuprimeCamObsidEntry()
    ensures "obsid" in SuprimeCamTrivial() && SuprimeCamTrivial()["obsid"] == Read("EXP-ID")
  {
  }

  lemma SuprimeCamNotConst()
    ensures "abstract_filter" !in SuprimeCamConst() && "exposure_time" !in SuprimeCamConst()
    ensures "obsid" !in SuprimeCamConst() && "instrument" !in SuprimeCamConst()
  {
  }

  /** SuprimeCam reads the abstract filter from FILTER and the exposure
      time and observation id from single cards. */
  lemma SuprimeCamTable(c: LegacyClass)
    requires c == SuprimeCamTranslator
    ensures "abstract_filter" in StateOf(c).table && StateOf(c).table["abstract_filter"] == SingleCard(Read("FILTER"))
    ensures "exposure_time" in StateOf(c).table && StateOf(c).table["exposure_time"] == SingleCard(Read("EXPTIME"))
    ensures "obsid" in StateOf(c).table && StateOf(c).table["obsid"] == SingleCard(Read("EXP-ID"))
  {
    SuprimeCamStep(c);
    SuprimeCamFilterEntry();
    SuprimeCamExposureTimeEntry();
    SuprimeCamObsidEntry();
    SuprimeCamNotConst();
    TrivialEntry(StateOf(Parent(c)), SuprimeCamDef(), CardResolver, ConstResolver, "abstract_filter");
    TrivialEntry(StateOf(Parent(c)), SuprimeCamDef(), CardResolver, ConstResolver, "exposure_time");
    TrivialEntry(StateOf(Parent(c)), SuprimeCamDef(), CardResolver, ConstResolver, "obsid");
  }

  /** SuprimeCam's exposure time is the EXPTIME card as it is: the older
      trivial map declares no unit for it. */
  lemma SuprimeCamExposureTime(c: LegacyClass, env: Env, h: Header)
    requires c == SuprimeCamTranslator
    ensures WellFormed(StateOf(c).table)
    ensures "EXPTIME" in h ==> Eval(StateOf(c).table, env, h, "exposure_time") == Outcome(Ok(Scalar(h["EXPTIME"])), {"EXPTIME"})
    ensures "EXPTIME" !in h ==> Eval(StateOf(c).table, env, h, "exposure_time") == Outcome(Err(KeyError(["EXPTIME"])), {})
  {
    StatesWellFormed(c);
    SuprimeCamTable(c);
    RawCard(StateOf(c).table, env, h, "exposure_time", "EXPTIME");
  }

  lemma HscEntries()
    ensures "instrument" in HscConst() && HscConst()["instrument"] == Words("HSC")
    ensures "abstract_filter" in HscMethods() && HscMethods()["abstract_filter"] == Custom(Subaru(HscAbstractFilter))
    ensures "detector_name" in HscTrivial() && HscTrivial()["detector_name"] == Read("T_CCDSN")
  {
  }

  lemma HscUndeclared()
    ensures "abstract_filter" !in HscTrivial() && "abstract_filter" !in HscConst()
    ensures "obsid" !in HscTrivial() && "obsid" !in HscConst() && "obsid" !in HscMethods()
    ensures "detector_name" !in HscConst()
  {
  }

  /** HSC's table: the constant instrument, its own abstract-filter
      method replacing SuprimeCam's FILTER entry, its own detector card,
      and SuprimeCam's other entries inherited. */
  lemma HscTable(c: LegacyClass)
    requires c == HscTranslator
    ensures "instrument" in StateOf(c).table && StateOf(c).table["instrument"] == Const(Words("HSC"))
    ensures "abstract_filter" in StateOf(c).table && StateOf(c).table["abstract_filter"] == Custom(Subaru(HscAbstractFilter))
    ensures "detector_name" in StateOf(c).table && StateOf(c).table["detector_name"] == SingleCard(Read("T_CCDSN"))
    ensures "obsid" in StateOf(c).table && StateOf(c).table["obsid"] == SingleCard(Read("EXP-ID"))
  {
    HscStep(c);
    SuprimeCamTable(Parent(c));
    HscEntries();
    HscUndeclared();
    ConstEntry(StateOf(Parent(c)), HscDef(), CardResolver, ConstResolver, "instrument");
    MethodEntry(StateOf(Parent(c)), HscDef(), CardResolver, ConstResolver, "abstract_filter");
    TrivialEntry(StateOf(Parent(c)), HscDef(), CardResolver, ConstResolver, "detector_name");
    InheritedEntry(StateOf(Parent(c)), HscDef(), CardResolver, ConstResolver, "obsid");
  }

  /** HSC's instrument is the constant "HSC" whatever INSTRUME says, and
      its observation id is still SuprimeCam's EXP-ID card. */
  lemma HscInstrument(c: LegacyClass, env: Env, h: Header)
    requires c == HscTranslator
    ensures WellFormed(StateOf(c).table)
    ensures Eval(StateOf(c).table, env, h, "instrument") == Outcome(Ok(Words("HSC")), {})
    ensures "EXP-ID" in h ==> Eval(StateOf(c).table, env, h, "obsid") == Outcome(Ok(Scalar(h["EXP-ID"])), {"EXP-ID"})
  {
    StatesWellFormed(c);
    HscTable(c);
    RawCard(StateOf(c).table, env, h, "obsid", "EXP-ID");
  }

  /** A class whose abstract filter is HSC's method derives it from the
      same class's physical filter. */
  lemma AbstractFromPhysical(t: Table, env: Env, h: Header)
    requires WellFormed(t) && "abstract_filter" in t && t["abstract_filter"] == Custom(Subaru(HscAbstractFilter))
    ensures Eval(t, env, h, "abstract_filter") == OnFilter(Eval(t, env, h, "physical_filter"), SR.HscAbstractFilter)
  {
  }

  /** HSC's abstract filter comes from its physical filter, not from the
      FILTER card SuprimeCam reads. */
  lemma HscAbstractFilterFromPhysical(c: LegacyClass, env: Env, h: Header)
    requires c == HscTranslator
    ensures WellFormed(StateOf(c).table)
    ensures Eval(StateOf(c).table, env, h, "abstract_filter") ==
      OnFilter(Eval(StateOf(c).table, env, h, "physical_filter"), SR.HscAbstractFilter)
  {
    StatesWellFormed(c);
    HscTable(c);
    AbstractFromPhysical(StateOf(c).table, env, h);
  }

  /** The test translator's name is not among the package's. */
  lemma TestNameFresh(e: Registry.Entries<LegacyClass>)
    requires e == [("SuprimeCam", SuprimeCamTranslator), ("HSC", HscTranslator), ("MegaPrime", MegaPrimeTranslator),
                   ("DECam", DecamTranslator)]
    ensures Registry.IndexOf(e, "TestTranslator").None?
  {
  }

  /** A class defined after the others, under a name not yet
      registered, joins the registry at its end. */
  lemma AppendOne<C>(order: seq<C>, c: C, nameOf: C -> Option<string>, e: Registry.Entries<C>, n: string)
    requires Registry.Registrations([], order, nameOf) == e
    requires nameOf(c) == Some(n) && Registry.IndexOf(e, n).None?
    ensures Registry.Registrations([], order + [c], nameOf) == e + [(n, c)]
  {
    Registry.RegistrationsAppend([], order, c, nameOf);
  }

  /** The classes the test module sees registered, in the order tried. */
  lemma TestRegistrations()
    ensures Registry.Registrations([], TestOrder, NameOf) ==
      [("SuprimeCam", SuprimeCamTranslator), ("HSC", HscTranslator), ("MegaPrime", MegaPrimeTranslator),
       ("DECam", DecamTranslator), ("TestTranslator", InstrumentTestTranslator)]
  {
    var e := [("SuprimeCam", SuprimeCamTranslator), ("HSC", HscTranslator), ("MegaPrime", MegaPrimeTranslator),
              ("DECam", DecamTranslator)];
    RegisteredClasses();
    ClassName(InstrumentTestTranslator);
    TestNameFresh(e);
    AppendOne(PackageOrder, InstrumentTestTranslator, NameOf, e, "TestTranslator");
  }

  lemma TestSelectionOrder(env: Env, h: Header)
    ensures DetermineTranslator(env, h, TestOrder) == Registry.Select(
      [("SuprimeCam", SuprimeCamTranslator), ("HSC", HscTranslator), ("MegaPrime", MegaPrimeTranslator),
       ("DECam", DecamTranslator), ("TestTranslator", InstrumentTestTranslator)],
      Accepts(env, h))
  {
    TestRegistrations();
  }

  /** The fourth and fifth of five registered classes. */
  lemma SelectFifth<C>(a: C, b: C, d: C, f: C, g: C, accepts: C -> Result<bool>)
    requires accepts(a) == Ok(false) && accepts(b) == Ok(false) && accepts(d) == Ok(false)
    requires accepts(f) == Ok(false) && accepts(g) == Ok(true)
    ensures Registry.Select([("SuprimeCam", a), ("HSC", b), ("MegaPrime", d), ("DECam", f), ("TestTranslator", g)],
                            accepts) == Ok(g)
  {
    Registry.SelectFirst([("SuprimeCam", a), ("HSC", b), ("MegaPrime", d), ("DECam", f), ("TestTranslator", g)],
                         accepts, 4);
  }

  lemma SelectSecondOfFive<C>(a: C, b: C, d: C, f: C, g: C, accepts: C -> Result<bool>)
    requires accepts(a) == Ok(false) && accepts(b) == Ok(true)
    ensures Registry.Select([("SuprimeCam", a), ("HSC", b), ("MegaPrime", d), ("DECam", f), ("TestTranslator", g)],
                            accepts) == Ok(b)
  {
    Registry.SelectFirst([("SuprimeCam", a), ("HSC", b), ("MegaPrime", d), ("DECam", f), ("TestTranslator", g)],
                         accepts, 1);
  }

  /** SuprimeCam and HSC decline a header whose INSTRUME card names
      neither of them. */
  lemma SubaruDecline(env: Env, h: Header)
    requires "INSTRUME" in h && h["INSTRUME"] != Str("SuprimeCam") && h["INSTRUME"] != Str("Hyper Suprime-Cam")
    ensures CanTranslate(env, SuprimeCamTranslator, h) == Ok(false)
    ensures CanTranslate(env, HscTranslator, h) == Ok(false)
  {
  }

  /** With the test translator defined, the automatic choice for a header
      whose INSTRUME card is "SCUBA_test" is the test translator: every
      package class declines it first. */
  lemma SelectsTestTranslator(env: Env, h: Header)
    requires "INSTRUME" in h && h["INSTRUME"] == Str("SCUBA_test")
    ensures DetermineTranslator(env, h, TestOrder) == Ok(InstrumentTestTranslator)
  {
    TestSelectionOrder(env, h);
    SubaruDecline(env, h);
    MegaPrimeRecognized(MegaPrimeTranslator, env, h);
    DecamRecognized(DecamTranslator, env, h);
    TestRecognized(InstrumentTestTranslator, env, h);
    SelectFifth(SuprimeCamTranslator, HscTranslator, MegaPrimeTranslator, DecamTranslator,
                InstrumentTestTranslator, Accepts(env, h));
  }

  /** A header whose INSTRUME card is "Hyper Suprime-Cam" selects HSC. */
  lemma SelectsHsc(env: Env, h: Header)
    requires "INSTRUME" in h && h["INSTRUME"] == Str("Hyper Suprime-Cam")
    ensures DetermineTranslator(env, h, TestOrder) == Ok(HscTranslator)
  {
    TestSelectionOrder(env, h);
    assert CanTranslate(env, SuprimeCamTranslator, h) == Ok(false);
    assert CanTranslate(env, HscTranslator, h) == Ok(true);
    SelectSecondOfFive(SuprimeCamTranslator, HscTranslator, MegaPrimeTranslator, DecamTranslator,
                       InstrumentTestTranslator, Accepts(env, h));
  }

  /** The classes the package registers, in the order tried. */
  lemma PackageSelectionOrder(env: Env, h: Header)
    ensures DetermineTranslator(env, h, PackageOrder) == Registry.Select(
      [("SuprimeCam", SuprimeCamTranslator), ("HSC", HscTranslator), ("MegaPrime", MegaPrimeTranslator),
       ("DECam", DecamTranslator)],
      Accepts(env, h))
  {
    RegisteredClasses();
  }

  /** When all four registered classes decline, the selection raises
      ValueError. */
  lemma SelectNoneOfFour<C>(a: C, b: C, d: C, f: C, accepts: C -> Result<bool>)
    requires accepts(a) == Ok(false) && accepts(b) == Ok(false) && accepts(d) == Ok(false) && accepts(f) == Ok(false)
    ensures var r := Registry.Select([("SuprimeCam", a), ("HSC", b), ("MegaPrime", d), ("DECam", f)], accepts);
      r.Err? && r.error.ValueError?
  {
    Registry.SearchMeaning([("SuprimeCam", a), ("HSC", b), ("MegaPrime", d), ("DECam", f)], accepts, 0);
  }

  /** With only the package's classes, a header whose INSTRUME card names
      none of its instruments is understood by no class: ValueError. */
  lemma PackageDeclines(env: Env, h: Header)
    requires "INSTRUME" in h
    requires h["INSTRUME"] !in {Str("SuprimeCam"), Str("Hyper Suprime-Cam"), Str("MegaPrime"), Str("DECam")}
    ensures DetermineTranslator(env, h, PackageOrder).Err?
    ensures DetermineTranslator(env, h, PackageOrder).error.ValueError?
  {
    PackageSelectionOrder(env, h);
    SubaruDecline(env, h);
    MegaPrimeRecognized(MegaPrimeTranslator, env, h);
    DecamRecognized(DecamTranslator, env, h);
    SelectNoneOfFour(SuprimeCamTranslator, HscTranslator, MegaPrimeTranslator, DecamTranslator, Accepts(env, h));
  }
}
