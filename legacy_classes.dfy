/** The translator classes of the older package: its abstract base
    class, the FITS base class, the Subaru base class, and the SuprimeCam,
    HSC, MegaPrime and DECam translators, together with the translator
    the test suite defines on top of the FITS class.  Every trivial-map
    entry names a single card; the base class has no property methods at
    all, so a property a class does not provide is an AttributeError. */
module LegacyClasses {
  import opened Wrappers
  import opened Values
  import opened CardResolvers
  import opened ClassBuild
  import opened Engine
  import opened FitsRules
  import SR = SubaruRules
  import Registry

  type State = ClassState<Resolver, CardSpec, Datum>

  type Def = ClassDef<Resolver, CardSpec, Datum>

  datatype LegacyClass =
    | MetadataTranslator
    | FitsTranslator
    | SubaruTranslator
    | SuprimeCamTranslator
    | HscTranslator
    | MegaPrimeTranslator
    | DecamTranslator
    | InstrumentTestTranslator

  /** The package's classes in the order they are defined, which is the
      order in which the named ones are registered. */
  const PackageOrder: seq<LegacyClass> := [
    MetadataTranslator, FitsTranslator, SubaruTranslator, SuprimeCamTranslator,
    HscTranslator, MegaPrimeTranslator, DecamTranslator]

  /** The classes defined once the test module has defined its own. */
  const TestOrder: seq<LegacyClass> := PackageOrder + [InstrumentTestTranslator]

  /** Trivial-map entries: a card read as it is, or read as a quantity. */
  function Read(k: string): CardSpec {
    CardSpec(k, Null, None, None, None)
  }

  function ReadIn(k: string, u: Unit): CardSpec {
    CardSpec(k, Null, None, None, Some(u))
  }

  function Words(s: string): Datum {
    Scalar(Str(s))
  }

  function Parent(c: LegacyClass): LegacyClass
    requires c != MetadataTranslator
  {
    match c
    case FitsTranslator => MetadataTranslator
    case SubaruTranslator => FitsTranslator
    case SuprimeCamTranslator => SubaruTranslator
    case HscTranslator => SuprimeCamTranslator
    case MegaPrimeTranslator => FitsTranslator
    case DecamTranslator => FitsTranslator
    case InstrumentTestTranslator => FitsTranslator
  }

  /** How many classes separate `c` from the base class. */
  function Depth(c: LegacyClass): nat {
    match c
    case MetadataTranslator => 0
    case FitsTranslator => 1
    case SubaruTranslator => 2
    case SuprimeCamTranslator => 3
    case HscTranslator => 4
    case MegaPrimeTranslator => 2
    case DecamTranslator => 2
    case InstrumentTestTranslator => 2
  }

  /** The class bodies. */
  function MetadataDef(): Def {
    ClassDef(Inherit, Declare(map[]), Declare(map[]), map[])
  }

  function FitsTrivial(): map<string, CardSpec> {
    map["instrument" := Read("INSTRUME"), "telescope" := Read("TELESCOP")]
  }

  function FitsMethods(): map<string, Resolver> {
    map[
      "datetime_begin" := Custom(Shared(FitsDate("DATE-OBS"))),
      "datetime_end" := Custom(Shared(FitsDate("DATE-END"))),
      "location" := Custom(Shared(FitsLocation))]
  }

  function FitsDef(): Def {
    ClassDef(Inherit, Declare(FitsTrivial()), Inherit, FitsMethods())
  }

  function SubaruMethods(): map<string, Resolver> {
    map["location" := Custom(Subaru(SubaruSite))]
  }

  function SubaruDef(): Def {
    ClassDef(Inherit, Inherit, Inherit, SubaruMethods())
  }

  function SuprimeCamTrivial(): map<string, CardSpec> {
    map[
      "obsid" := Read("EXP-ID"),
      "object" := Read("OBJECT"),
      "science_program" := Read("PROP-ID"),
      "abstract_filter" := Read("FILTER"),
      "detector_num" := Read("DET-ID"),
      "detector_name" := Read("DETECTOR"),
      "boresight_airmass" := Read("AIRMASS"),
      "relative_humidity" := Read("OUT-HUM"),
      "temperature" := ReadIn("OUT-TMP", Kelvin),
      "pressure" := ReadIn("OUT-PRS", HectoPascal),
      "exposure_time" := Read("EXPTIME"),
      "dark_time" := Read("EXPTIME")]
  }

  function SuprimeCamConst(): map<string, Datum> {
    map["boresight_rotation_coord" := Words("unknown")]
  }

  function SuprimeCamMethods(): map<string, Resolver> {
    map[
      "physical_filter" := Custom(Subaru(FilterInCapitals("FILTER01"))),
      "datetime_begin" := Custom(Shared(DateAndTime("DATE-OBS", "UT"))),
      "datetime_end" := Custom(Shared(DateAndTime("DATE-OBS", "UT-END"))),
      "exposure" := Custom(Subaru(SuprimeCamExposure)),
      "visit" := Custom(Subaru(VisitOfScience("obstype", "exposure"))),
      "obstype" := Custom(Shared(ObservationType("DATA-TYP"))),
      "tracking_radec" := Custom(Subaru(SuprimeCamTracking)),
      "altaz_begin" := Custom(Subaru(SuprimeCamAltAz)),
      "boresight_rotation_angle" := Custom(Subaru(SuprimeCamRotation)),
      "detector_exposure_id" := Custom(Shared(CombinedId("exposure", 10, "detector_num")))]
  }

  function SuprimeCamDef(): Def {
    ClassDef(Declare(Some("SuprimeCam")), Declare(SuprimeCamTrivial()),
                                         Declare(SuprimeCamConst()), SuprimeCamMethods())
  }

  function HscTrivial(): map<string, CardSpec> {
    map["detector_name" := Read("T_CCDSN")]
  }

  function HscConst(): map<string, Datum> {
    map["instrument" := Words("HSC"), "boresight_rotation_coord" := Words("sky")]
  }

  function HscMethods(): map<string, Resolver> {
    map[
      "abstract_filter" := Custom(Subaru(HscAbstractFilter)),
      "exposure" := Custom(Subaru(HscExposure)),
      "boresight_rotation_angle" := Custom(Subaru(HscRotation))]
  }

  function HscDef(): Def {
    ClassDef(Declare(Some("HSC")), Declare(HscTrivial()),
                                  Declare(HscConst()), HscMethods())
  }

  function MegaPrimeTrivial(): map<string, CardSpec> {
    map[
      "physical_filter" := Read("FILTER"),
      "dark_time" := Read("DARKTIME"),
      "exposure_time" := Read("EXPTIME"),
      "obsid" := Read("OBSID"),
      "object" := Read("OBJECT"),
      "science_program" := Read("RUNID"),
      "exposure" := Read("EXPNUM"),
      "visit" := Read("EXPNUM"),
      "detector_name" := Read("CCDNAME"),
      "relative_humidity" := Read("RELHUMID"),
      "boresight_airmass" := Read("AIRMASS")]
  }

  function MegaPrimeMethods(): map<string, Resolver> {
    map[
      "abstract_filter" := Custom(MegaPrime(MegaPrimeAbstractFilter)),
      "datetime_begin" := Custom(Shared(DateAndTime("DATE-OBS", "UTC-OBS"))),
      "datetime_end" := Custom(Shared(DateAndTime("DATE-OBS", "UTCEND"))),
      "location" := Custom(MegaPrime(MegaPrimeLegacyLocation)),
      "detector_num" := Custom(MegaPrime(MegaPrimeLegacyDetectorNum)),
      "obstype" := Custom(Shared(ObservationType("OBSTYPE"))),
      "temperature" := Custom(Shared(CardQuantity("TEMPERAT", Celsius))),
      "pressure" := Custom(Shared(CardQuantity("PRESSURE", MillimetreOfMercury))),
      "tracking_radec" := Custom(MegaPrime(MegaPrimeLegacyTracking)),
      "altaz_begin" := Custom(MegaPrime(MegaPrimeLegacyAltAz))]
  }

  function MegaPrimeDef(): Def {
    ClassDef(Declare(Some("MegaPrime")), Declare(MegaPrimeTrivial()),
                                        Inherit, MegaPrimeMethods())
  }

  function DecamTrivial(): map<string, CardSpec> {
    map[
      "exposure_time" := Read("EXPTIME"),
      "dark_time" := Read("DARKTIME"),
      "boresight_airmass" := Read("AIRMASS"),
      "obsid" := Read("OBSID"),
      "detector_num" := Read("CCDNUM"),
      "detector_name" := Read("DETPOS"),
      "exposure" := Read("EXPNUM"),
      "visit" := Read("EXPNUM")]
  }

  function DecamMethods(): map<string, Resolver> {
    map[
      "datetime_end" := Custom(Shared(FitsDate("DTUTC"))),
      "abstract_filter" := Custom(Decam(DecamAbstractFilter)),
      "physical_filter" := Custom(Decam(DecamLegacyPhysicalFilter)),
      "location" := Custom(Decam(DecamLocation))]
  }

  function DecamDef(): Def {
    ClassDef(Declare(Some("DECam")), Declare(DecamTrivial()), Inherit, DecamMethods())
  }

  /** The test suite's translator: a new mapping, an override of the
      telescope card, and a constant. */
  function TestTrivial(): map<string, CardSpec> {
    map["foobar" := Read("BAZ"), "telescope" := Read("TELCODE")]
  }

  function TestConst(): map<string, Datum> {
    map["format" := Words("HDF5")]
  }

  function TestDef(): Def {
    ClassDef(Declare(Some("TestTranslator")), Declare(TestTrivial()),
                                   Declare(TestConst()), map[])
  }

  function DefOf(c: LegacyClass): Def {
    match c
    case MetadataTranslator => MetadataDef()
    case FitsTranslator => FitsDef()
    case SubaruTranslator => SubaruDef()
    case SuprimeCamTranslator => SuprimeCamDef()
    case HscTranslator => HscDef()
    case MegaPrimeTranslator => MegaPrimeDef()
    case DecamTranslator => DecamDef()
    case InstrumentTestTranslator => TestDef()
  }

  /** The state of `object`, the parent of the base class. */
  const Root: State := ClassState(None, map[], map[], map[])

  /** Every class's state: its body built on its parent's state, each
      trivial entry becoming a single-card reader. */
  function StateOf(c: LegacyClass): State
    decreases Depth(c)
  {
    match c
    case MetadataTranslator => Build(Root, MetadataDef(), CardResolver, ConstResolver)
    case _ => Build(StateOf(Parent(c)), DefOf(c), CardResolver, ConstResolver)
  }

  /** The methods of the class bodies with methods that call other
      properties: each such method is bound to a property of higher
      rank than the ones it calls. */
  lemma SuprimeCamRanked() ensures WellFormed(DefOf(SuprimeCamTranslator).methods) { SuprimeCamMethodsRanked(); }

  lemma SuprimeCamMethodsRanked() ensures WellFormed(SuprimeCamMethods()) {
    forall q | q in SuprimeCamMethods() && SuprimeCamMethods()[q].Custom?
      ensures CustomRank(SuprimeCamMethods()[q].id) <= Rank(q)
    {
      if q in {"visit", "tracking_radec", "altaz_begin", "detector_exposure_id"} {
        assert Rank(q) == 1;
      } else {
        assert CustomRank(SuprimeCamMethods()[q].id) == 0;
      }
    }
  }

  lemma MegaPrimeRanked() ensures WellFormed(DefOf(MegaPrimeTranslator).methods) { MegaPrimeMethodsRanked(); }

  lemma MegaPrimeMethodsRanked() ensures WellFormed(MegaPrimeMethods()) {
    forall q | q in MegaPrimeMethods() && MegaPrimeMethods()[q].Custom?
      ensures CustomRank(MegaPrimeMethods()[q].id) <= Rank(q)
    {
      if q == "abstract_filter" {
        assert Rank(q) == 2;
      } else if q in {"tracking_radec", "altaz_begin"} {
        assert Rank(q) == 1;
      } else {
        assert CustomRank(MegaPrimeMethods()[q].id) == 0;
      }
    }
  }

  lemma FitsRanked() ensures WellFormed(DefOf(FitsTranslator).methods) { FitsMethodsRanked(); }

  lemma FitsMethodsRanked() ensures WellFormed(FitsMethods()) {}

  lemma SubaruRanked() ensures WellFormed(DefOf(SubaruTranslator).methods) { SubaruMethodsRanked(); }

  lemma SubaruMethodsRanked() ensures WellFormed(SubaruMethods()) {}

  lemma HscRanked() ensures WellFormed(DefOf(HscTranslator).methods) { HscMethodsRanked(); }

  lemma HscMethodsRanked() ensures WellFormed(HscMethods()) {}

  lemma DecamRanked() ensures WellFormed(DefOf(DecamTranslator).methods) { DecamMethodsRanked(); }

  lemma DecamMethodsRanked() ensures WellFormed(DecamMethods()) {}

  /** The methods each class body defines call only properties of
      lower rank. */
  lemma MethodsWellFormed(c: LegacyClass)
    ensures WellFormed(DefOf(c).methods)
  {
    match c
    case MetadataTranslator =>
    case FitsTranslator => FitsRanked();
    case SubaruTranslator => SubaruRanked();
    case SuprimeCamTranslator => SuprimeCamRanked();
    case HscTranslator => HscRanked();
    case MegaPrimeTranslator => MegaPrimeRanked();
    case DecamTranslator => DecamRanked();
    case InstrumentTestTranslator =>
  }

  /** Every class table is well formed, so every property of every class
      can be translated. */
  lemma {:induction false} StatesWellFormed(c: LegacyClass)
    ensures WellFormed(StateOf(c).table)
    decreases Depth(c)
  {
    MethodsWellFormed(c);
    if c == MetadataTranslator {
      BuildKeepsWellFormed(Root, MetadataDef(), CardResolver);
    } else {
      StatesWellFormed(Parent(c));
      BuildKeepsWellFormed(StateOf(Parent(c)), DefOf(c), CardResolver);
    }
  }

  /** `supportedInstrument`, declared by each instrument class. */
  function SupportedInstrument(c: LegacyClass): Option<string> {
    match c
    case SuprimeCamTranslator => Some("SuprimeCam")
    case HscTranslator => Some("HSC")
    case MegaPrimeTranslator => Some("MegaPrime")
    case DecamTranslator => Some("DECam")
    case InstrumentTestTranslator => Some("SCUBA_test")
    case _ => None
  }

  /** The `name` each class declares: the supported instrument, except
      for the test translator. */
  function DeclaredName(c: LegacyClass): Option<string> {
    if c == InstrumentTestTranslator then Some("TestTranslator") else SupportedInstrument(c)
  }

  /** `canTranslate`: abstract in the base class, the instrument test of
      the FITS class (inherited by MegaPrime, DECam and the test
      translator), and the recognisers of SuprimeCam and HSC. */
  function CanTranslate(env: Env, c: LegacyClass, h: Header): (r: Result<bool>)
    ensures c == MetadataTranslator ==> r == Err(NotImplementedError("canTranslate"))
    ensures c == FitsTranslator || c == SubaruTranslator ==> r == Ok(false)
    ensures c == SuprimeCamTranslator ==> r == SR.SuprimeCamRecognizes(h)
    ensures c == HscTranslator ==> r == SR.HscRecognizes(h)
  {
    StatesWellFormed(c);
    match c
    case MetadataTranslator => Err(NotImplementedError("canTranslate"))
    case SuprimeCamTranslator => SR.SuprimeCamRecognizes(h)
    case HscTranslator => SR.HscRecognizes(h)
    case FitsTranslator | SubaruTranslator => Ok(false)
    case _ => FitsRecognizes(SupportedInstrument(c), Eval(StateOf(c).table, env, h, "instrument").result)
  }

  /** The name a class carries, possibly inherited. */
  function NameOf(c: LegacyClass): Option<string> {
    StateOf(c).name
  }

  /** A class's name is the one it declares: no class inherits a name,
      because every class below a named one declares its own. */
  lemma ClassName(c: LegacyClass)
    ensures StateOf(c).name == DeclaredName(c)
  {
    if c.MetadataTranslator? || c.FitsTranslator? || c.SubaruTranslator? {
      UnnamedClassName(c);
    } else if c.SuprimeCamTranslator? || c.HscTranslator? {
      SubaruClassName(c);
    } else if c.MegaPrimeTranslator? || c.DecamTranslator? {
      OtherClassName(c);
    } else {
      TestName(c);
    }
  }

  lemma UnnamedClassName(c: LegacyClass)
    requires c.MetadataTranslator? || c.FitsTranslator? || c.SubaruTranslator?
    ensures StateOf(c).name == DeclaredName(c)
  {
    match c
    case MetadataTranslator => BaseName(c);
    case FitsTranslator => FitsName(c);
    case SubaruTranslator => SubaruName(c);
  }

  lemma SubaruClassName(c: LegacyClass)
    requires c.SuprimeCamTranslator? || c.HscTranslator?
    ensures StateOf(c).name == DeclaredName(c)
  {
    match c
    case SuprimeCamTranslator => SuprimeCamName(c);
    case HscTranslator => HscName(c);
  }

  lemma OtherClassName(c: LegacyClass)
    requires c.MegaPrimeTranslator? || c.DecamTranslator?
    ensures StateOf(c).name == DeclaredName(c)
  {
    match c
    case MegaPrimeTranslator => MegaPrimeName(c);
    case DecamTranslator => DecamName(c);
  }

  /** Each subclass's state is its own body built on its parent's
      state. */
  lemma FitsStep(c: LegacyClass)
    requires c == FitsTranslator
    ensures StateOf(c) == Build(StateOf(Parent(c)), FitsDef(), CardResolver, ConstResolver)
  {
    assert DefOf(c) == FitsDef();
  }

  lemma SubaruStep(c: LegacyClass)
    requires c == SubaruTranslator
    ensures StateOf(c) == Build(StateOf(Parent(c)), SubaruDef(), CardResolver, ConstResolver)
  {
    assert DefOf(c) == SubaruDef();
  }

  lemma SuprimeCamStep(c: LegacyClass)
    requires c == SuprimeCamTranslator
    ensures StateOf(c) == Build(StateOf(Parent(c)), SuprimeCamDef(), CardResolver, ConstResolver)
  {
    assert DefOf(c) == SuprimeCamDef();
  }

  lemma HscStep(c: LegacyClass)
    requires c == HscTranslator
    ensures StateOf(c) == Build(StateOf(Parent(c)), HscDef(), CardResolver, ConstResolver)
  {
    assert DefOf(c) == HscDef();
  }

  lemma MegaPrimeStep(c: LegacyClass)
    requires c == MegaPrimeTranslator
    ensures StateOf(c) == Build(StateOf(Parent(c)), MegaPrimeDef(), CardResolver, ConstResolver)
  {
    assert DefOf(c) == MegaPrimeDef();
  }

  lemma DecamStep(c: LegacyClass)
    requires c == DecamTranslator
    ensures StateOf(c) == Build(StateOf(Parent(c)), DecamDef(), CardResolver, ConstResolver)
  {
    assert DefOf(c) == DecamDef();
  }

  lemma TestStep(c: LegacyClass)
    requires c == InstrumentTestTranslator
    ensures StateOf(c) == Build(StateOf(Parent(c)), TestDef(), CardResolver, ConstResolver)
  {
    assert DefOf(c) == TestDef();
  }

  /** The name each class carries. */
  lemma BaseName(c: LegacyClass)
    requires c == MetadataTranslator
    ensures StateOf(c).name == None
  {
  }

  lemma FitsName(c: LegacyClass)
    requires c == FitsTranslator
    ensures StateOf(c).name == None
  {
    FitsStep(c);
    BaseName(Parent(c));
  }

  lemma SubaruName(c: LegacyClass)
    requires c == SubaruTranslator
    ensures StateOf(c).name == None
  {
    SubaruStep(c);
    FitsName(Parent(c));
  }

  lemma SuprimeCamName(c: LegacyClass)
    requires c == SuprimeCamTranslator
    ensures StateOf(c).name == Some("SuprimeCam")
  {
    SuprimeCamStep(c);
  }

  lemma HscName(c: LegacyClass)
    requires c == HscTranslator
    ensures StateOf(c).name == Some("HSC")
  {
    HscStep(c);
  }

  lemma MegaPrimeName(c: LegacyClass)
    requires c == MegaPrimeTranslator
    ensures StateOf(c).name == Some("MegaPrime")
  {
    MegaPrimeStep(c);
  }

  lemma DecamName(c: LegacyClass)
    requires c == DecamTranslator
    ensures StateOf(c).name == Some("DECam")
  {
    DecamStep(c);
  }

  lemma TestName(c: LegacyClass)
    requires c == InstrumentTestTranslator
    ensures StateOf(c).name == Some("TestTranslator")
  {
    TestStep(c);
  }

  lemma DefinedNames(order: seq<LegacyClass>)
    ensures forall i :: 0 <= i < |order| ==> NameOf(order[i]) == DeclaredName(order[i])
  {
    forall i | 0 <= i < |order| ensures NameOf(order[i]) == DeclaredName(order[i]) {
      ClassName(order[i]);
    }
  }

  /** The registrations the package's class definitions make. */
  lemma PackageRegistrations()
    ensures Registry.Registrations([], PackageOrder, DeclaredName) ==
      [("SuprimeCam", SuprimeCamTranslator), ("HSC", HscTranslator), ("MegaPrime", MegaPrimeTranslator),
       ("DECam", DecamTranslator)]
  {
    UnnamedRegisterNothing();
    FirstTwoRegister();
    LastTwoRegister();
  }

  /** The three base classes come first and carry no name. */
  lemma UnnamedRegisterNothing()
    ensures Registry.Registrations([], PackageOrder, DeclaredName) ==
      Registry.Registrations([], PackageOrder[3..], DeclaredName)
  {
    var o, f := PackageOrder, DeclaredName;
    Registry.SkipsUnnamed([], o, f);
    Registry.SkipsUnnamed([], o[1..], f);
    Registry.SkipsUnnamed([], o[2..], f);
  }

  /** SuprimeCam and HSC register next, in that order. */
  lemma FirstTwoRegister()
    ensures Registry.Registrations([], PackageOrder[3..], DeclaredName) ==
      Registry.Registrations([("SuprimeCam", SuprimeCamTranslator), ("HSC", HscTranslator)],
                             PackageOrder[5..], DeclaredName)
  {
    var o, f := PackageOrder, DeclaredName;
    var e1 := [("SuprimeCam", SuprimeCamTranslator)];
    assert [] + [("SuprimeCam", SuprimeCamTranslator)] == e1;
    assert e1 + [("HSC", HscTranslator)] == [("SuprimeCam", SuprimeCamTranslator), ("HSC", HscTranslator)];
    assert o[3..][1..] == o[4..] && o[4..][1..] == o[5..];
    Registry.RegistersFresh([], o[3..], f, "SuprimeCam", SuprimeCamTranslator);
    Registry.RegistersFresh(e1, o[4..], f, "HSC", HscTranslator);
  }

  /** MegaPrime and DECam register last. */
  lemma LastTwoRegister()
    ensures Registry.Registrations([("SuprimeCam", SuprimeCamTranslator), ("HSC", HscTranslator)],
                                   PackageOrder[5..], DeclaredName) ==
      [("SuprimeCam", SuprimeCamTranslator), ("HSC", HscTranslator), ("MegaPrime", MegaPrimeTranslator),
       ("DECam", DecamTranslator)]
  {
    var o, f := PackageOrder, DeclaredName;
    var e2 := [("SuprimeCam", SuprimeCamTranslator), ("HSC", HscTranslator)];
    var e3 := e2 + [("MegaPrime", MegaPrimeTranslator)];
    Registry.RegistersFresh(e2, o[5..], f, "MegaPrime", MegaPrimeTranslator);
    Registry.RegistersFresh(e3, o[6..], f, "DECam", DecamTranslator);
    assert o[7..] == [];
  }

  /** Defining the package's classes registers its four instrument
      translators, in definition order. */
  lemma RegisteredClasses()
    ensures Registry.Registrations([], PackageOrder, NameOf) ==
      [("SuprimeCam", SuprimeCamTranslator), ("HSC", HscTranslator), ("MegaPrime", MegaPrimeTranslator),
       ("DECam", DecamTranslator)]
  {
    DefinedNames(PackageOrder);
    PackageRegistrations();
    Registry.RegistrationsAgree([], PackageOrder, NameOf, DeclaredName);
  }

  /** The recogniser `determineTranslator` asks of each class. */
  function Accepts(env: Env, h: Header): LegacyClass -> Result<bool> {
    c => CanTranslate(env, c, h)
  }

  /** `determineTranslator` once the classes of `order` are defined. */
  function DetermineTranslator(env: Env, h: Header, order: seq<LegacyClass>): Result<LegacyClass> {
    Registry.Select(Registry.Registrations([], order, NameOf), Accepts(env, h))
  }
}
