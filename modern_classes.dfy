/** The translator classes of the current package: the abstract base
    class and the stub class, the FITS base class, the Subaru base class
    and the SuprimeCam, MegaPrime and DECam translators.  Each class is
    its class body, built on its parent's state by the class build step;
    the base class then receives an abstract method and the stub class a
    stub method for every standard property. */
module ModernClasses {
  import opened Wrappers
  import opened Values
  import opened CardResolvers
  import opened ClassBuild
  import opened Engine
  import opened FitsRules
  import Properties
  import SR = SubaruRules
  import Registry

  type State = ClassState<Resolver, TrivialSpec, Datum>

  type Def = ClassDef<Resolver, TrivialSpec, Datum>

  datatype TranslatorClass =
    | MetadataTranslator
    | StubTranslator
    | FitsTranslator
    | SubaruTranslator
    | SuprimeCamTranslator
    | MegaPrimeTranslator
    | DecamTranslator

  /** The classes in the order they are defined, which is the order in
      which named classes are registered. */
  const DefinitionOrder: seq<TranslatorClass> := [
    MetadataTranslator, StubTranslator, FitsTranslator, SubaruTranslator,
    SuprimeCamTranslator, MegaPrimeTranslator, DecamTranslator]

  /** Trivial-map entries: one card, a list of candidate cards, a card
      read as a quantity. */
  function Key(k: string): TrivialSpec {
    TrivialSpec([k], Null, None, None, None)
  }

  function Keys(ks: seq<string>): TrivialSpec {
    TrivialSpec(ks, Null, None, None, None)
  }

  function InUnit(ks: seq<string>, u: Unit): TrivialSpec {
    TrivialSpec(ks, Null, None, None, Some(u))
  }

  function Words(s: string): Datum {
    Scalar(Str(s))
  }

  /** `Angle(float("nan")*u.deg)`. */
  const UnknownAngle: Datum := Angle(Quantity(NaN, Degree))

  function Parent(c: TranslatorClass): TranslatorClass
    requires c != MetadataTranslator
  {
    match c
    case StubTranslator => MetadataTranslator
    case FitsTranslator => MetadataTranslator
    case SubaruTranslator => FitsTranslator
    case SuprimeCamTranslator => SubaruTranslator
    case MegaPrimeTranslator => FitsTranslator
    case DecamTranslator => FitsTranslator
  }

  /** The class bodies.  The base class declares empty maps and no
      name; the classes below it inherit what they do not declare. */
  function MetadataDef(): Def {
    ClassDef(Inherit, Declare(map[]), Declare(map[]), map[])
  }

  function StubDef(): Def {
    ClassDef(Inherit, Inherit, Inherit, map[])
  }

  function FitsTrivial(): map<string, TrivialSpec> {
    map["instrument" := Key("INSTRUME"), "telescope" := Key("TELESCOP")]
  }

  function FitsMethods(): map<string, Resolver> {
    map[
      "datetime_begin" := Custom(Shared(FitsDate("DATE-OBS"))),
      "datetime_end" := Custom(Shared(FitsDate("DATE-END"))),
      "location" := Custom(Shared(FitsLocation))]
  }

  function FitsDef(): Def {
    ClassDef(Inherit, Declare(FitsTrivial()), Inherit, FitsMethods())
  }

  function SubaruMethods(): map<string, Resolver> {
    map["location" := Custom(Subaru(SubaruSite))]
  }

  function SubaruDef(): Def {
    ClassDef(Inherit, Inherit, Inherit, SubaruMethods())
  }

  function SuprimeCamTrivial(): map<string, TrivialSpec> {
    map[
      "observation_id" := Key("EXP-ID"),
      "object" := Key("OBJECT"),
      "science_program" := Key("PROP-ID"),
      "detector_num" := Key("DET-ID"),
      "detector_name" := Key("DETECTOR"),
      "boresight_airmass" := Key("AIRMASS"),
      "relative_humidity" := Key("OUT-HUM"),
      "temperature" := InUnit(["OUT-TMP"], Kelvin),
      "pressure" := InUnit(["OUT-PRS"], HectoPascal),
      "exposure_time" := InUnit(["EXPTIME"], Second),
      "dark_time" := InUnit(["EXPTIME"], Second)]
  }

  function SuprimeCamConst(): map<string, Datum> {
    map["boresight_rotation_coord" := Words("unknown")]
  }

  function SuprimeCamMethods(): map<string, Resolver> {
    map[
      "physical_filter" := Custom(Subaru(FilterInCapitals("FILTER01"))),
      "datetime_begin" := Custom(Shared(DateAndTime("DATE-OBS", "UT"))),
      "datetime_end" := Custom(Shared(DateAndTime("DATE-OBS", "UT-END"))),
      "exposure_id" := Custom(Subaru(SuprimeCamExposure)),
      "visit_id" := Custom(Subaru(VisitOfScience("observation_type", "exposure_id"))),
      "observation_type" := Custom(Shared(ObservationType("DATA-TYP"))),
      "tracking_radec" := Custom(Subaru(SuprimeCamTracking)),
      "altaz_begin" := Custom(Subaru(SuprimeCamAltAz)),
      "boresight_rotation_angle" := Custom(Subaru(SuprimeCamRotation)),
      "detector_exposure_id" := Custom(Shared(CombinedId("exposure_id", 10, "detector_num")))]
  }

  function SuprimeCamDef(): Def {
    ClassDef(Declare(Some("SuprimeCam")), Declare(SuprimeCamTrivial()),
                                         Declare(SuprimeCamConst()), SuprimeCamMethods())
  }

  function MegaPrimeTrivial(): map<string, TrivialSpec> {
    map[
      "physical_filter" := Key("FILTER"),
      "dark_time" := InUnit(["DARKTIME"], Second),
      "exposure_time" := InUnit(["EXPTIME"], Second),
      "observation_id" := Key("OBSID"),
      "object" := Key("OBJECT"),
      "science_program" := Key("RUNID"),
      "exposure_id" := Key("EXPNUM"),
      "visit_id" := Key("EXPNUM"),
      "detector_name" := Key("CCDNAME"),
      "relative_humidity" := Keys(["RELHUMID", "HUMIDITY"]),
      "temperature" := InUnit(["TEMPERAT", "AIRTEMP"], Celsius),
      "boresight_airmass" := Keys(["AIRMASS", "BORE-AIRMASS"])]
  }

  function MegaPrimeConst(): map<string, Datum> {
    map[
      "boresight_rotation_angle" := UnknownAngle, "boresight_rotation_coord" := Words("unknown")]
  }

  function MegaPrimeMethods(): map<string, Resolver> {
    map[
      "datetime_begin" := Custom(Shared(DateAndTime("DATE-OBS", "UTC-OBS"))),
      "datetime_end" := Custom(MegaPrime(MegaPrimeDatetimeEnd)),
      "location" := Custom(MegaPrime(MegaPrimeLocation)),
      "detector_num" := Custom(MegaPrime(MegaPrimeDetectorNum)),
      "observation_type" := Custom(Shared(ObservationType("OBSTYPE"))),
      "tracking_radec" := Custom(MegaPrime(MegaPrimeTracking)),
      "altaz_begin" := Custom(MegaPrime(MegaPrimeAltAz)),
      "detector_exposure_id" := Custom(Shared(CombinedId("exposure_id", 36, "detector_num"))),
      "pressure" := Custom(MegaPrime(MegaPrimePressure))]
  }

  function MegaPrimeDef(): Def {
    ClassDef(Declare(Some("MegaPrime")), Declare(MegaPrimeTrivial()),
                                        Declare(MegaPrimeConst()), MegaPrimeMethods())
  }

  function DecamTrivial(): map<string, TrivialSpec> {
    map[
      "exposure_time" := InUnit(["EXPTIME"], Second),
      "dark_time" := InUnit(["DARKTIME"], Second),
      "boresight_airmass" := Key("AIRMASS"),
      "observation_id" := Key("OBSID"),
      "object" := Key("OBJECT"),
      "science_program" := Key("PROPID"),
      "detector_num" := Key("CCDNUM"),
      "detector_name" := Key("DETPOS"),
      "relative_humidity" := TrivialSpec(["HUMIDITY"], Num(40.0), Some(0.0), Some(100.0), None),
      "temperature" := TrivialSpec(["OUTTEMP"], Num(10.0), Some(-10.0), Some(40.0), Some(Celsius)),
      "pressure" := TrivialSpec(["PRESSURE"], Num(771.611), Some(700.0), Some(850.0), Some(HectoPascal)),
      "exposure_id" := Key("EXPNUM"),
      "visit_id" := Key("EXPNUM")]
  }

  function DecamConst(): map<string, Datum> {
    map[
      "boresight_rotation_angle" := UnknownAngle, "boresight_rotation_coord" := Words("unknown")]
  }

  function DecamMethods(): map<string, Resolver> {
    map[
      "datetime_end" := Custom(Shared(FitsDate("DTUTC"))),
      "physical_filter" := Custom(Decam(DecamPhysicalFilter)),
      "location" := Custom(Decam(DecamLocation)),
      "observation_type" := Custom(Shared(ObservationType("OBSTYPE"))),
      "tracking_radec" := Custom(Decam(DecamTracking)),
      "altaz_begin" := Custom(Decam(DecamAltAz)),
      "detector_exposure_id" := Custom(Decam(DecamDetectorExposureId))]
  }

  function DecamDef(): Def {
    ClassDef(Declare(Some("DECam")), Declare(DecamTrivial()),
                                    Declare(DecamConst()), DecamMethods())
  }

  function DefOf(c: TranslatorClass): Def {
    match c
    case MetadataTranslator => MetadataDef()
    case StubTranslator => StubDef()
    case FitsTranslator => FitsDef()
    case SubaruTranslator => SubaruDef()
    case SuprimeCamTranslator => SuprimeCamDef()
    case MegaPrimeTranslator => MegaPrimeDef()
    case DecamTranslator => DecamDef()
  }

  /** The state of `object`, the parent of the base class. */
  const Root: State := ClassState(None, map[], map[], map[])

  /** The same resolver `r` for every name of `names`, as the
      module-level loops over the property table install it. */
  function ForAll(c: State, names: seq<string>, r: Resolver): (d: State)
    ensures d.name == c.name && d.trivialMap == c.trivialMap && d.constMap == c.constMap
    ensures d.table.Keys == c.table.Keys + (set p | p in names)
    ensures forall p :: p in names ==> d.table[p] == r
    ensures forall p :: p in c.table && p !in names ==> d.table[p] == c.table[p]
  {
    c.(table := c.table + map p | p in names :: r)
  }

  /** The module-level loop: each name in turn gets resolver `r`. */
  method InstallForAll(c: State, names: seq<string>, r: Resolver) returns (d: State)
    ensures d == ForAll(c, names, r)
  {
    var table := c.table;
    var i := 0;
    while i < |names|
      invariant 0 <= i <= |names|
      invariant table.Keys == c.table.Keys + (set p | p in names[..i])
      invariant forall p :: p in names[..i] ==> table[p] == r
      invariant forall p :: p in c.table && p !in names[..i] ==> table[p] == c.table[p]
    {
      assert names[..i + 1] == names[..i] + [names[i]];
      table := table[names[i] := r];
      i := i + 1;
    }
    assert names[..i] == names;
    d := c.(table := table);
    assert d.table == ForAll(c, names, r).table;
  }

  /** Every class's state: its body built on its parent's state; the base
      class then gets an abstract method and the stub class a stub method
      for every standard property. */
  function StateOf(c: TranslatorClass): State
    decreases if c == MetadataTranslator then 0 else if c == StubTranslator || c == FitsTranslator then 1
              else if c == SubaruTranslator || c == MegaPrimeTranslator || c == DecamTranslator then 2 else 3
  {
    match c
    case MetadataTranslator => ForAll(Build(Root, MetadataDef(), TrivialResolver, ConstResolver), Properties.Names, Abstract)
    case StubTranslator => ForAll(Build(StateOf(MetadataTranslator), StubDef(), TrivialResolver, ConstResolver), Properties.Names, Stub)
    case _ => Build(StateOf(Parent(c)), DefOf(c), TrivialResolver, ConstResolver)
  }

  /** The methods of the class bodies with methods that call other
      properties: each such method is bound to a property of higher
      rank than the ones it calls. */
  lemma SuprimeCamRanked() ensures WellFormed(DefOf(SuprimeCamTranslator).methods) { SuprimeCamMethodsRanked(); }

  lemma SuprimeCamMethodsRanked() ensures WellFormed(SuprimeCamMethods()) {
    forall q | q in SuprimeCamMethods() && SuprimeCamMethods()[q].Custom?
      ensures CustomRank(SuprimeCamMethods()[q].id) <= Rank(q)
    {
      if q in {"visit_id", "tracking_radec", "altaz_begin", "detector_exposure_id"} {
        assert Rank(q) == 1;
      } else {
        assert CustomRank(SuprimeCamMethods()[q].id) == 0;
      }
    }
  }

  lemma MegaPrimeRanked() ensures WellFormed(DefOf(MegaPrimeTranslator).methods) { MegaPrimeMethodsRanked(); }

  lemma MegaPrimeMethodsRanked() ensures WellFormed(MegaPrimeMethods()) {
    forall q | q in MegaPrimeMethods() && MegaPrimeMethods()[q].Custom?
      ensures CustomRank(MegaPrimeMethods()[q].id) <= Rank(q)
    {
      if q in {"datetime_end", "tracking_radec", "altaz_begin", "detector_exposure_id"} {
        assert Rank(q) == 1;
      } else {
        assert CustomRank(MegaPrimeMethods()[q].id) == 0;
      }
    }
  }

  lemma DecamRanked() ensures WellFormed(DefOf(DecamTranslator).methods) { DecamMethodsRanked(); }

  lemma DecamMethodsRanked() ensures WellFormed(DecamMethods()) {
    forall q | q in DecamMethods() && DecamMethods()[q].Custom?
      ensures CustomRank(DecamMethods()[q].id) <= Rank(q)
    {
      if q in {"physical_filter", "tracking_radec", "altaz_begin", "detector_exposure_id"} {
        assert Rank(q) == 1;
      } else {
        assert CustomRank(DecamMethods()[q].id) == 0;
      }
    }
  }

  lemma FitsRanked() ensures WellFormed(DefOf(FitsTranslator).methods) { FitsMethodsRanked(); }

  lemma FitsMethodsRanked() ensures WellFormed(FitsMethods()) {}

  lemma SubaruRanked() ensures WellFormed(DefOf(SubaruTranslator).methods) { SubaruMethodsRanked(); }

  lemma SubaruMethodsRanked() ensures WellFormed(SubaruMethods()) {}

  /** The methods each class body defines call only properties of
      lower rank. */
  lemma MethodsWellFormed(c: TranslatorClass)
    ensures WellFormed(DefOf(c).methods)
  {
    match c
    case MetadataTranslator =>
    case StubTranslator =>
    case FitsTranslator => FitsRanked();
    case SubaruTranslator => SubaruRanked();
    case SuprimeCamTranslator => SuprimeCamRanked();
    case MegaPrimeTranslator => MegaPrimeRanked();
    case DecamTranslator => DecamRanked();
  }

  /** Every class table is well formed, so every property of every class
      can be translated. */
  lemma {:induction false} StatesWellFormed(c: TranslatorClass)
    ensures WellFormed(StateOf(c).table)
    decreases if c == MetadataTranslator then 0 else if c == StubTranslator || c == FitsTranslator then 1
              else if c == SubaruTranslator || c == MegaPrimeTranslator || c == DecamTranslator then 2 else 3
  {
    MethodsWellFormed(c);
    if c == MetadataTranslator {
      BuildKeepsWellFormed(Root, MetadataDef(), TrivialResolver);
    } else {
      StatesWellFormed(Parent(c));
      BuildKeepsWellFormed(StateOf(Parent(c)), DefOf(c), TrivialResolver);
    }
  }

  /** The instrument each class supports: none for the base classes. */
  function SupportedInstrument(c: TranslatorClass): Option<string> {
    match c
    case SuprimeCamTranslator => Some("SuprimeCam")
    case MegaPrimeTranslator => Some("MegaPrime")
    case DecamTranslator => Some("DECam")
    case _ => None
  }

  /** `can_translate`: abstract in the base classes, the instrument test
      of the FITS class, and SuprimeCam's own recogniser. */
  function CanTranslate(env: Env, c: TranslatorClass, h: Header): (r: Result<bool>)
    ensures c == MetadataTranslator || c == StubTranslator ==> r.Err? && r.error.NotImplementedError?
    ensures c == FitsTranslator || c == SubaruTranslator ==> r == Ok(false)
    ensures c == SuprimeCamTranslator ==> r == SR.SuprimeCamRecognizes(h)
  {
    StatesWellFormed(c);
    match c
    case MetadataTranslator => Err(NotImplementedError("can_translate"))
    case StubTranslator => Err(NotImplementedError("can_translate"))
    case SuprimeCamTranslator => SR.SuprimeCamRecognizes(h)
    case FitsTranslator | SubaruTranslator => Ok(false)
    case _ => FitsRecognizes(SupportedInstrument(c), Eval(StateOf(c).table, env, h, "instrument").result)
  }

  /** MegaPrime and DECam recognise a header through the instrument the
      FITS class reads. */
  lemma InstrumentTest(env: Env, c: TranslatorClass, h: Header)
    requires c == MegaPrimeTranslator || c == DecamTranslator
    ensures WellFormed(StateOf(c).table)
    ensures CanTranslate(env, c, h) ==
      FitsRecognizes(SupportedInstrument(c), Eval(StateOf(c).table, env, h, "instrument").result)
  {
    StatesWellFormed(c);
  }

  /** The name a class carries, possibly inherited. */
  function NameOf(c: TranslatorClass): Option<string> {
    StateOf(c).name
  }

  /** Every class in the definition order carries the name of its
      supported instrument. */
  lemma DefinedNames()
    ensures forall i :: 0 <= i < |DefinitionOrder| ==> NameOf(DefinitionOrder[i]) == SupportedInstrument(DefinitionOrder[i])
  {
    forall i | 0 <= i < |DefinitionOrder| ensures NameOf(DefinitionOrder[i]) == SupportedInstrument(DefinitionOrder[i]) {
      ClassName(DefinitionOrder[i]);
    }
  }

  /** Registering every class of the definition order under its supported
      instrument gives the three instrument classes in that order. */
  lemma InstrumentRegistrations()
    ensures Registry.Registrations([], DefinitionOrder, SupportedInstrument) ==
      [("SuprimeCam", SuprimeCamTranslator), ("MegaPrime", MegaPrimeTranslator), ("DECam", DecamTranslator)]
  {
    UnnamedRegisterNothing();
    InstrumentsRegister();
  }

  /** The four base classes come first and support no instrument. */
  lemma UnnamedRegisterNothing()
    ensures Registry.Registrations([], DefinitionOrder, SupportedInstrument) ==
      Registry.Registrations([], DefinitionOrder[4..], SupportedInstrument)
  {
    var o, f := DefinitionOrder, SupportedInstrument;
    Registry.SkipsUnnamed([], o, f);
    Registry.SkipsUnnamed([], o[1..], f);
    Registry.SkipsUnnamed([], o[2..], f);
    Registry.SkipsUnnamed([], o[3..], f);
  }

  /** SuprimeCam, MegaPrime and DECam then register in that order. */
  lemma InstrumentsRegister()
    ensures Registry.Registrations([], DefinitionOrder[4..], SupportedInstrument) ==
      [("SuprimeCam", SuprimeCamTranslator), ("MegaPrime", MegaPrimeTranslator), ("DECam", DecamTranslator)]
  {
    var o, f := DefinitionOrder, SupportedInstrument;
    var e1 := [("SuprimeCam", SuprimeCamTranslator)];
    var e2 := e1 + [("MegaPrime", MegaPrimeTranslator)];
    assert [] + [("SuprimeCam", SuprimeCamTranslator)] == e1;
    assert o[4..][1..] == o[5..] && o[5..][1..] == o[6..] && o[6..][1..] == [];
    Registry.RegistersFresh([], o[4..], f, "SuprimeCam", SuprimeCamTranslator);
    Registry.RegistersFresh(e1, o[5..], f, "MegaPrime", MegaPrimeTranslator);
    Registry.RegistersFresh(e2, o[6..], f, "DECam", DecamTranslator);
  }

  /** The module imports define the classes in turn, and the named ones
      register under their names. */
  lemma RegisteredClasses()
    ensures Registry.Registrations([], DefinitionOrder, NameOf) ==
      [("SuprimeCam", SuprimeCamTranslator), ("MegaPrime", MegaPrimeTranslator), ("DECam", DecamTranslator)]
  {
    DefinedNames();
    InstrumentRegistrations();
    Registry.RegistrationsAgree([], DefinitionOrder, NameOf, SupportedInstrument);
  }

  /** Only the three instrument classes carry a name, each its own. */
  lemma ClassName(c: TranslatorClass)
    ensures StateOf(c).name == SupportedInstrument(c)
  {
    if c.MetadataTranslator? || c.StubTranslator? || c.FitsTranslator? || c.SubaruTranslator? {
      UnnamedClassName(c);
    } else {
      NamedClassName(c);
    }
  }

  lemma UnnamedClassName(c: TranslatorClass)
    requires c.MetadataTranslator? || c.StubTranslator? || c.FitsTranslator? || c.SubaruTranslator?
    ensures StateOf(c).name == SupportedInstrument(c)
  {
    match c
    case MetadataTranslator => BaseName(c);
    case StubTranslator => StubName(c);
    case FitsTranslator => FitsName(c);
    case SubaruTranslator => SubaruName(c);
  }

  lemma NamedClassName(c: TranslatorClass)
    requires c.SuprimeCamTranslator? || c.MegaPrimeTranslator? || c.DecamTranslator?
    ensures StateOf(c).name == SupportedInstrument(c)
  {
    match c
    case SuprimeCamTranslator => SuprimeCamName(c);
    case MegaPrimeTranslator => MegaPrimeName(c);
    case DecamTranslator => DecamName(c);
  }

  /** Each subclass's state is its own body built on its parent's
      state. */
  lemma FitsStep(c: TranslatorClass)
    requires c == FitsTranslator
    ensures StateOf(c) == Build(StateOf(Parent(c)), FitsDef(), TrivialResolver, ConstResolver)
  {
    assert DefOf(c) == FitsDef();
  }

  lemma SubaruStep(c: TranslatorClass)
    requires c == SubaruTranslator
    ensures StateOf(c) == Build(StateOf(Parent(c)), SubaruDef(), TrivialResolver, ConstResolver)
  {
    assert DefOf(c) == SubaruDef();
  }

  lemma SuprimeCamStep(c: TranslatorClass)
    requires c == SuprimeCamTranslator
    ensures StateOf(c) == Build(StateOf(Parent(c)), SuprimeCamDef(), TrivialResolver, ConstResolver)
  {
    assert DefOf(c) == SuprimeCamDef();
  }

  lemma MegaPrimeStep(c: TranslatorClass)
    requires c == MegaPrimeTranslator
    ensures StateOf(c) == Build(StateOf(Parent(c)), MegaPrimeDef(), TrivialResolver, ConstResolver)
  {
    assert DefOf(c) == MegaPrimeDef();
  }

  lemma DecamStep(c: TranslatorClass)
    requires c == DecamTranslator
    ensures StateOf(c) == Build(StateOf(Parent(c)), DecamDef(), TrivialResolver, ConstResolver)
  {
    assert DefOf(c) == DecamDef();
  }

  /** The name each class carries. */
  lemma BaseName(c: TranslatorClass)
    requires c == MetadataTranslator
    ensures StateOf(c).name == None
  {
  }

  lemma StubName(c: TranslatorClass)
    requires c == StubTranslator
    ensures StateOf(c).name == None
  {
    BaseName(MetadataTranslator);
  }

  lemma FitsName(c: TranslatorClass)
    requires c == FitsTranslator
    ensures StateOf(c).name == None
  {
    FitsStep(c);
    BaseName(Parent(c));
  }

  lemma SubaruName(c: TranslatorClass)
    requires c == SubaruTranslator
    ensures StateOf(c).name == None
  {
    SubaruStep(c);
    FitsName(Parent(c));
  }

  lemma SuprimeCamName(c: TranslatorClass)
    requires c == SuprimeCamTranslator
    ensures StateOf(c).name == Some("SuprimeCam")
  {
    SuprimeCamStep(c);
  }

  lemma MegaPrimeName(c: TranslatorClass)
    requires c == MegaPrimeTranslator
    ensures StateOf(c).name == Some("MegaPrime")
  {
    MegaPrimeStep(c);
  }

  lemma DecamName(c: TranslatorClass)
    requires c == DecamTranslator
    ensures StateOf(c).name == Some("DECam")
  {
    DecamStep(c);
  }

  /** The recogniser `determine_translator` asks of each class. */
  function Accepts(env: Env, h: Header): TranslatorClass -> Result<bool> {
    c => CanTranslate(env, c, h)
  }

  /** `determine_translator` over the registered classes. */
  function DetermineTranslator(env: Env, h: Header): Result<TranslatorClass> {
    Registry.Select(Registry.Registrations([], DefinitionOrder, NameOf), Accepts(env, h))
  }
}
