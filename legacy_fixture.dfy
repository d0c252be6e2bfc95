/** The test suite's scenario for the older package: a header with
    TELESCOP, TELCODE, INSTRUME "SCUBA_test", DATE-OBS, DATE-END and BAZ,
    observed through the test translator, given explicitly or found by
    the registry. */
module LegacyFixture {
  import opened Wrappers
  import opened Values
  import opened ClassBuild
  import opened Engine
  import opened LegacyClasses
  import opened LegacyBehaviour
  import opened LegacyObservation
  import FitsRules

  /** What the test header provides: the cards the test translator
      reads, and no TIMESYS or geocentric location cards. */
  predicate TestHeaderShape(h: Header) {
    "INSTRUME" in h && "TELCODE" in h && "DATE-OBS" in h && "DATE-END" in h &&
    "TIMESYS" !in h && "OBSGEO-X" !in h
  }

  lemma FitsMethodKeys()
    ensures FitsMethods().Keys <= {"datetime_begin", "datetime_end", "location"}
  {
  }

  lemma FitsTrivialKeys()
    ensures FitsTrivial().Keys <= {"instrument", "telescope"}
  {
  }

  lemma TestMapKeys()
    ensures TestTrivial().Keys <= {"foobar", "telescope"}
    ensures TestConst().Keys <= {"format"}
  {
  }

  lemma FitsDateEntries()
    ensures "datetime_begin" in FitsMethods() && FitsMethods()["datetime_begin"] == Custom(Shared(FitsDate("DATE-OBS")))
    ensures "datetime_end" in FitsMethods() && FitsMethods()["datetime_end"] == Custom(Shared(FitsDate("DATE-END")))
  {
  }

  lemma FitsLocationEntry()
    ensures "location" in FitsMethods() && FitsMethods()["location"] == Custom(Shared(FitsLocation))
  {
  }

  /** The base class binds nothing. */
  lemma BaseTable(c: LegacyClass)
    requires c == MetadataTranslator
    ensures StateOf(c).table == map[]
  {
  }

  /** The FITS class binds only its two cards and its three methods. */
  lemma FitsKeys(c: LegacyClass)
    requires c == FitsTranslator
    ensures StateOf(c).table.Keys <= {"instrument", "telescope", "datetime_begin", "datetime_end", "location"}
  {
    FitsStep(c);
    BaseTable(Parent(c));
    FitsMaps(c);
    FitsMethodKeys();
    FitsTrivialKeys();
    KeysWithin(StateOf(Parent(c)), FitsDef(), CardResolver, ConstResolver,
               {"instrument", "telescope", "datetime_begin", "datetime_end", "location"});
  }

  /** The FITS class's date methods. */
  lemma FitsDatesBound(c: LegacyClass)
    requires c == FitsTranslator
    ensures "datetime_begin" in StateOf(c).table && StateOf(c).table["datetime_begin"] == Custom(Shared(FitsDate("DATE-OBS")))
    ensures "datetime_end" in StateOf(c).table && StateOf(c).table["datetime_end"] == Custom(Shared(FitsDate("DATE-END")))
  {
    FitsStep(c);
    FitsMaps(c);
    FitsTrivialKeys();
    FitsDateEntries();
    MethodEntry(StateOf(Parent(c)), FitsDef(), CardResolver, ConstResolver, "datetime_begin");
    MethodEntry(StateOf(Parent(c)), FitsDef(), CardResolver, ConstResolver, "datetime_end");
  }

  /** The FITS class's location method. */
  lemma FitsLocationBound(c: LegacyClass)
    requires c == FitsTranslator
    ensures "location" in StateOf(c).table && StateOf(c).table["location"] == Custom(Shared(FitsLocation))
  {
    FitsStep(c);
    FitsMaps(c);
    FitsTrivialKeys();
    FitsLocationEntry();
    MethodEntry(StateOf(Parent(c)), FitsDef(), CardResolver, ConstResolver, "location");
  }

  /** The test translator binds only what it inherits and `foobar` and
      `format`. */
  lemma TestKeys(c: LegacyClass)
    requires c == InstrumentTestTranslator
    ensures StateOf(c).table.Keys <=
      {"instrument", "telescope", "datetime_begin", "datetime_end", "location", "foobar", "format"}
  {
    TestStep(c);
    FitsKeys(Parent(c));
    TestMapKeys();
    KeysWithin(StateOf(Parent(c)), TestDef(), CardResolver, ConstResolver,
               {"instrument", "telescope", "datetime_begin", "datetime_end", "location", "foobar", "format"});
  }

  /** A class body that declares no methods and whose maps avoid `ks`
      keeps the parent's bindings of `ks`. */
  lemma KeptBindings(parent: State, def: Def, s: State, ks: set<string>)
    requires s == Build(parent, def, CardResolver, ConstResolver)
    requires def.methods == map[]
    requires Effective(def.trivialMap, parent.trivialMap).Keys !! ks
    requires Effective(def.constMap, parent.constMap).Keys !! ks
    ensures forall k :: k in ks && k in parent.table ==> k in s.table && s.table[k] == parent.table[k]
  {
  }

  /** The test class body declares no methods and its maps leave the
      date and location properties alone. */
  lemma TestBodyAvoids(c: LegacyClass, ks: set<string>)
    requires c == InstrumentTestTranslator && ks == {"datetime_begin", "datetime_end", "location"}
    ensures TestDef().methods == map[]
    ensures Effective(TestDef().trivialMap, StateOf(Parent(c)).trivialMap).Keys !! ks
    ensures Effective(TestDef().constMap, StateOf(Parent(c)).constMap).Keys !! ks
  {
    TestDefShape();
    TestTrivialAvoids(ks);
    TestConstAvoids(ks);
  }

  lemma TestDefShape()
    ensures TestDef().methods == map[]
    ensures TestDef().trivialMap == Declare(TestTrivial()) && TestDef().constMap == Declare(TestConst())
  {
  }

  lemma TestTrivialAvoids(ks: set<string>)
    requires ks == {"datetime_begin", "datetime_end", "location"}
    ensures TestTrivial().Keys !! ks
  {
    TestMapKeys();
  }

  lemma TestConstAvoids(ks: set<string>)
    requires ks == {"datetime_begin", "datetime_end", "location"}
    ensures TestConst().Keys !! ks
  {
    TestMapKeys();
  }

  /** The test translator keeps the FITS date and location methods. */
  lemma TestMethods(c: LegacyClass)
    requires c == InstrumentTestTranslator
    ensures "datetime_begin" in StateOf(c).table && StateOf(c).table["datetime_begin"] == Custom(Shared(FitsDate("DATE-OBS")))
    ensures "datetime_end" in StateOf(c).table && StateOf(c).table["datetime_end"] == Custom(Shared(FitsDate("DATE-END")))
    ensures "location" in StateOf(c).table && StateOf(c).table["location"] == Custom(Shared(FitsLocation))
  {
    var ks := {"datetime_begin", "datetime_end", "location"};
    TestStep(c);
    TestBodyAvoids(c, ks);
    KeptBindings(StateOf(Parent(c)), TestDef(), StateOf(c), ks);
    FitsDatesBound(Parent(c));
    FitsLocationBound(Parent(c));
  }

  /** A FITS date method on a header without TIMESYS: the card's value on
      the UTC scale, with the card recorded. */
  lemma FitsDateCard(t: Table, env: Env, h: Header, p: string, k: string)
    requires WellFormed(t) && p in t && t[p] == Custom(Shared(FitsDate(k)))
    requires k in h && "TIMESYS" !in h
    ensures Eval(t, env, h, p) == Outcome(Ok(Time(h[k], "utc")), {k})
  {
    assert Eval(t, env, h, p) == EvalShared(t, env, h, FitsDate(k));
    assert FitsRules.TimeScale(h) == Ok("utc");
    assert {k} + {} == {k};
  }

  /** The FITS location method on a header without OBSGEO-X: KeyError,
      with no card recorded. */
  lemma NoGeocentricLocation(t: Table, env: Env, h: Header)
    requires WellFormed(t) && "location" in t && t["location"] == Custom(Shared(FitsLocation))
    requires "OBSGEO-X" !in h
    ensures Eval(t, env, h, "location") == Outcome(Err(KeyError(["OBSGEO-X"])), {})
  {
  }

  /** A property a class does not bind is an AttributeError, which the
      loop passes over, and reads no card. */
  lemma UnboundPasses(t: Table, env: Env, h: Header, p: string)
    requires WellFormed(t) && p !in t
    ensures Passes(t, env, h, p) && Eval(t, env, h, p).cards == {}
  {
  }

  /** On such a header the test translator's dates read their cards and
      its location fails with KeyError, reading none. */
  lemma TestDates(c: LegacyClass, env: Env, h: Header)
    requires c == InstrumentTestTranslator && TestHeaderShape(h)
    ensures WellFormed(StateOf(c).table)
    ensures Eval(StateOf(c).table, env, h, "datetime_begin") == Outcome(Ok(Time(h["DATE-OBS"], "utc")), {"DATE-OBS"})
    ensures Eval(StateOf(c).table, env, h, "datetime_end") == Outcome(Ok(Time(h["DATE-END"], "utc")), {"DATE-END"})
    ensures Eval(StateOf(c).table, env, h, "location") == Outcome(Err(KeyError(["OBSGEO-X"])), {})
  {
    StatesWellFormed(c);
    TestMethods(c);
    FitsDateCard(StateOf(c).table, env, h, "datetime_begin", "DATE-OBS");
    FitsDateCard(StateOf(c).table, env, h, "datetime_end", "DATE-END");
    NoGeocentricLocation(StateOf(c).table, env, h);
  }

  /** The loop passes over every property when every bound one passes,
      and reads only cards of `cards` when every bound one does. */
  lemma BoundPasses(t: Table, env: Env, h: Header, ps: seq<string>, cards: set<string>)
    requires WellFormed(t)
    requires forall p :: p in t && p in ps ==> Passes(t, env, h, p) && Eval(t, env, h, p).cards <= cards
    ensures forall i :: 0 <= i < |ps| ==> Passes(t, env, h, ps[i])
    ensures forall i :: 0 <= i < |ps| ==> Eval(t, env, h, ps[i]).cards <= cards
  {
    forall i | 0 <= i < |ps|
      ensures Passes(t, env, h, ps[i]) && Eval(t, env, h, ps[i]).cards <= cards
    {
      if ps[i] !in t {
        UnboundPasses(t, env, h, ps[i]);
      }
    }
  }

  /** A table binding only the test translator's seven names passes over
      a list without `foobar` and `format` when its five other bindings
      pass. */
  lemma FivePass(t: Table, env: Env, h: Header, ps: seq<string>, cards: set<string>)
    requires WellFormed(t)
    requires t.Keys <= {"instrument", "telescope", "datetime_begin", "datetime_end", "location", "foobar", "format"}
    requires "foobar" !in ps && "format" !in ps
    requires Eval(t, env, h, "instrument").result.Ok? && Eval(t, env, h, "instrument").cards <= cards
    requires Eval(t, env, h, "telescope").result.Ok? && Eval(t, env, h, "telescope").cards <= cards
    requires Eval(t, env, h, "datetime_begin").result.Ok? && Eval(t, env, h, "datetime_begin").cards <= cards
    requires Eval(t, env, h, "datetime_end").result.Ok? && Eval(t, env, h, "datetime_end").cards <= cards
    requires Eval(t, env, h, "location").result.Err? && Eval(t, env, h, "location").result.error.KeyError?
    requires Eval(t, env, h, "location").cards <= cards
    ensures forall i :: 0 <= i < |ps| ==> Passes(t, env, h, ps[i])
    ensures forall i :: 0 <= i < |ps| ==> Eval(t, env, h, ps[i]).cards <= cards
  {
    BoundPasses(t, env, h, ps, cards);
  }

  /** The test translator's two cards pass, each reading its card. */
  lemma TestCardsPass(c: LegacyClass, env: Env, h: Header, cards: set<string>)
    requires c == InstrumentTestTranslator && TestHeaderShape(h)
    requires cards == {"INSTRUME", "TELCODE", "DATE-OBS", "DATE-END"}
    ensures WellFormed(StateOf(c).table)
    ensures Eval(StateOf(c).table, env, h, "instrument").result.Ok? && Eval(StateOf(c).table, env, h, "instrument").cards <= cards
    ensures Eval(StateOf(c).table, env, h, "telescope").result.Ok? && Eval(StateOf(c).table, env, h, "telescope").cards <= cards
  {
    TestTranslation(c, env, h);
  }

  /** The test translator's dates pass and its location fails with
      KeyError, each reading at most the date cards. */
  lemma TestMethodsPass(c: LegacyClass, env: Env, h: Header, cards: set<string>)
    requires c == InstrumentTestTranslator && TestHeaderShape(h)
    requires cards == {"INSTRUME", "TELCODE", "DATE-OBS", "DATE-END"}
    ensures WellFormed(StateOf(c).table)
    ensures Eval(StateOf(c).table, env, h, "datetime_begin").result.Ok? && Eval(StateOf(c).table, env, h, "datetime_begin").cards <= cards
    ensures Eval(StateOf(c).table, env, h, "datetime_end").result.Ok? && Eval(StateOf(c).table, env, h, "datetime_end").cards <= cards
    ensures Eval(StateOf(c).table, env, h, "location").result.Err? && Eval(StateOf(c).table, env, h, "location").result.error.KeyError?
    ensures Eval(StateOf(c).table, env, h, "location").cards <= cards
  {
    TestDates(c, env, h);
  }

  lemma StandardNames()
    ensures "foobar" !in LegacyProperties && "format" !in LegacyProperties
  {
  }

  /** Every standard property passes on such a header, reading at most
      the four cards the test translator reads. */
  lemma TestProperties(c: LegacyClass, env: Env, h: Header)
    requires c == InstrumentTestTranslator && TestHeaderShape(h)
    ensures WellFormed(StateOf(c).table)
    ensures forall i :: 0 <= i < |LegacyProperties| ==> Passes(StateOf(c).table, env, h, LegacyProperties[i])
    ensures forall i :: 0 <= i < |LegacyProperties| ==>
      Eval(StateOf(c).table, env, h, LegacyProperties[i]).cards <= {"INSTRUME", "TELCODE", "DATE-OBS", "DATE-END"}
  {
    var cards := {"INSTRUME", "TELCODE", "DATE-OBS", "DATE-END"};
    TestKeys(c);
    TestCardsPass(c, env, h, cards);
    TestMethodsPass(c, env, h, cards);
    StandardNames();
    FivePass(StateOf(c).table, env, h, LegacyProperties, cards);
  }

  /** When every property of `ps` passes, the loop succeeds and keeps
      the instrument and telescope values. */
  lemma CollectedValues(t: Table, env: Env, h: Header, ps: seq<string>, vi: Datum, vt: Datum)
    requires WellFormed(t)
    requires forall i :: 0 <= i < |ps| ==> Passes(t, env, h, ps[i])
    requires "telescope" in ps && "instrument" in ps
    requires Eval(t, env, h, "instrument").result == Ok(vi)
    requires Eval(t, env, h, "telescope").result == Ok(vt)
    ensures var r := Collect(t, env, h, ps);
      r.Ok? && "instrument" in r.value && r.value["instrument"] == vi &&
      "telescope" in r.value && r.value["telescope"] == vt
  {
    CollectMeaning(t, env, h, ps);
  }

  /** When every property of `ps` reads only cards of `cards` and every
      card of `cards` is read by one of them, the cards used are exactly
      `cards`. */
  lemma CardsExactly(t: Table, env: Env, h: Header, ps: seq<string>, cards: set<string>)
    requires WellFormed(t)
    requires forall i :: 0 <= i < |ps| ==> Eval(t, env, h, ps[i]).cards <= cards
    requires forall k :: k in cards ==> exists i :: 0 <= i < |ps| && k in Eval(t, env, h, ps[i]).cards
    ensures CardsOf(t, env, h, ps) == cards
  {
    CardsMeaning(t, env, h, ps);
  }

  /** The four cards of the test translator are each read by one of the
      standard properties, `read` giving the cards a property reads. */
  lemma FourCardsRead(read: string -> set<string>, ps: seq<string>, cards: set<string>)
    requires cards == {"INSTRUME", "TELCODE", "DATE-OBS", "DATE-END"}
    requires |ps| > 8 && ps[0] == "telescope" && ps[1] == "instrument"
    requires ps[7] == "datetime_begin" && ps[8] == "datetime_end"
    requires "INSTRUME" in read("instrument") && "TELCODE" in read("telescope")
    requires "DATE-OBS" in read("datetime_begin") && "DATE-END" in read("datetime_end")
    ensures forall k :: k in cards ==> exists i :: 0 <= i < |ps| && k in read(ps[i])
  {
    forall k | k in cards
      ensures exists i :: 0 <= i < |ps| && k in read(ps[i])
    {
      if k == "INSTRUME" {
        assert k in read(ps[1]);
      } else if k == "TELCODE" {
        assert k in read(ps[0]);
      } else if k == "DATE-OBS" {
        assert k in read(ps[7]);
      } else {
        assert k in read(ps[8]);
      }
    }
  }

  /** What the test translator reads from such a header: INSTRUME for the
      instrument, TELCODE for the telescope, and the two date cards. */
  lemma TestCardsRead(c: LegacyClass, env: Env, h: Header)
    requires c == InstrumentTestTranslator && TestHeaderShape(h)
    ensures WellFormed(StateOf(c).table)
    ensures Eval(StateOf(c).table, env, h, "instrument").result == Ok(Scalar(h["INSTRUME"]))
    ensures "INSTRUME" in Eval(StateOf(c).table, env, h, "instrument").cards
    ensures Eval(StateOf(c).table, env, h, "telescope").result == Ok(Scalar(h["TELCODE"]))
    ensures "TELCODE" in Eval(StateOf(c).table, env, h, "telescope").cards
    ensures "DATE-OBS" in Eval(StateOf(c).table, env, h, "datetime_begin").cards
    ensures "DATE-END" in Eval(StateOf(c).table, env, h, "datetime_end").cards
  {
    TestTranslation(c, env, h);
    TestDates(c, env, h);
  }

  lemma StandardOrder()
    ensures |LegacyProperties| > 8 && LegacyProperties[0] == "telescope" && LegacyProperties[1] == "instrument"
    ensures LegacyProperties[7] == "datetime_begin" && LegacyProperties[8] == "datetime_end"
  {
  }

  /** The loop over the standard properties succeeds on such a header and
      keeps its instrument and telescope. */
  lemma TestCollected(c: LegacyClass, env: Env, h: Header, ps: seq<string>)
    requires c == InstrumentTestTranslator && TestHeaderShape(h) && ps == LegacyProperties
    ensures WellFormed(StateOf(c).table)
    ensures var r := Collect(StateOf(c).table, env, h, ps);
      r.Ok? && "instrument" in r.value && r.value["instrument"] == Scalar(h["INSTRUME"]) &&
      "telescope" in r.value && r.value["telescope"] == Scalar(h["TELCODE"])
  {
    TestProperties(c, env, h);
    TestCardsRead(c, env, h);
    StandardOrder();
    CollectedValues(StateOf(c).table, env, h, ps, Scalar(h["INSTRUME"]), Scalar(h["TELCODE"]));
  }

  /** The cards the test translator uses on such a header are exactly
      INSTRUME, TELCODE, DATE-OBS and DATE-END. */
  lemma TestCardsUsed(c: LegacyClass, env: Env, h: Header, ps: seq<string>)
    requires c == InstrumentTestTranslator && TestHeaderShape(h) && ps == LegacyProperties
    ensures WellFormed(StateOf(c).table)
    ensures CardsOf(StateOf(c).table, env, h, ps) == {"INSTRUME", "TELCODE", "DATE-OBS", "DATE-END"}
  {
    TestProperties(c, env, h);
    TestCardsRead(c, env, h);
    StandardOrder();
    var t := StateOf(c).table;
    FourCardsRead(p => Eval(t, env, h, p).cards, ps, {"INSTRUME", "TELCODE", "DATE-OBS", "DATE-END"});
    CardsExactly(StateOf(c).table, env, h, ps, {"INSTRUME", "TELCODE", "DATE-OBS", "DATE-END"});
  }

  /** Stripping the test translator's cards removes INSTRUME and keeps
      TELESCOP. */
  lemma StrippedTest(h: Header, used: set<string>)
    requires used == {"INSTRUME", "TELCODE", "DATE-OBS", "DATE-END"}
    ensures "INSTRUME" !in Stripped(h, used)
    ensures "TELESCOP" in h ==> "TELESCOP" in Stripped(h, used)
  {
  }

  /** The test translator keeps the instrument and telescope of such a
      header, records exactly INSTRUME, TELCODE, DATE-OBS and DATE-END,
      and so the stripped header loses INSTRUME and keeps TELESCOP. */
  lemma TestObservation(c: LegacyClass, env: Env, h: Header, ps: seq<string>)
    requires c == InstrumentTestTranslator && TestHeaderShape(h) && ps == LegacyProperties
    ensures WellFormed(StateOf(c).table)
    ensures var r := Collect(StateOf(c).table, env, h, ps);
      r.Ok? && "instrument" in r.value && r.value["instrument"] == Scalar(h["INSTRUME"]) &&
      "telescope" in r.value && r.value["telescope"] == Scalar(h["TELCODE"])
    ensures CardsOf(StateOf(c).table, env, h, ps) == {"INSTRUME", "TELCODE", "DATE-OBS", "DATE-END"}
    ensures "INSTRUME" !in Stripped(h, CardsOf(StateOf(c).table, env, h, ps))
    ensures "TELESCOP" in h ==> "TELESCOP" in Stripped(h, CardsOf(StateOf(c).table, env, h, ps))
  {
    TestCollected(c, env, h, ps);
    TestCardsUsed(c, env, h, ps);
    StrippedTest(h, CardsOf(StateOf(c).table, env, h, ps));
  }

  /** Without a class given, a header whose INSTRUME card is
      "SCUBA_test" is observed through the test translator. */
  lemma AutomaticChoice(env: Env, h: Header)
    requires "INSTRUME" in h && h["INSTRUME"] == Str("SCUBA_test")
    ensures ChosenClass(env, h, Automatic, TestOrder) == Ok(InstrumentTestTranslator)
    ensures ChosenClass(env, h, Automatic, PackageOrder).Err?
    ensures ChosenClass(env, h, Automatic, PackageOrder).error.ValueError?
  {
    SelectsTestTranslator(env, h);
    PackageDeclines(env, h);
  }
}
