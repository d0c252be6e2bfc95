/** The older package's standardised view of one observation: a
    translator class is chosen (given, or found by the registry), an
    instance of it translates every standard property in turn, and the
    results and the cards used are kept.  A property the class does not
    provide, or whose cards are missing, is left unset; any other error
    aborts the construction. */
module LegacyObservation {
  import opened Wrappers
  import opened Values
  import opened Engine
  import opened LegacyClasses

  /** The standard properties, in the order they are translated. */
  const LegacyProperties: seq<string> := [
    "telescope", "instrument", "location", "exposure", "visit", "abstract_filter",
    "physical_filter", "datetime_begin", "datetime_end", "exposure_time", "dark_time",
    "boresight_airmass", "boresight_rotation_angle", "boresight_rotation_coord",
    "detector_num", "detector_name", "detector_exposure_id", "object", "temperature",
    "pressure", "relative_humidity", "tracking_radec", "altaz_begin", "science_program",
    "obstype", "obsid"]

  /** The `translator_class` argument: absent, a translator class, or
      something else (described by its text). */
  datatype TranslatorChoice = Automatic | Given(c: LegacyClass) | NotATranslator(description: string)

  /** The class to translate with: found by the registry when none is
      given, and a TypeError when what is given is not a translator. */
  function ChosenClass(env: Env, h: Header, choice: TranslatorChoice, order: seq<LegacyClass>): (r: Result<LegacyClass>)
    ensures choice.Automatic? ==> r == DetermineTranslator(env, h, order)
    ensures choice.Given? ==> r == Ok(choice.c)
    ensures choice.NotATranslator? ==> r.Err? && r.error.TypeError?
  {
    match choice
    case Automatic => DetermineTranslator(env, h, order)
    case Given(c) => Ok(c)
    case NotATranslator(d) => Err(TypeError("Translator class must be a MetadataTranslator, not " + d))
  }

  /** The errors the property loop logs and passes over. */
  predicate Caught(e: Error) {
    e.AttributeError? || e.KeyError?
  }

  /** The property values the loop collects over `ps`, or the first error
      it does not catch. */
  function Collect(t: Table, env: Env, h: Header, ps: seq<string>): Result<map<string, Datum>>
    requires WellFormed(t)
  {
    if ps == [] then Ok(map[])
    else match Collect(t, env, h, ps[..|ps| - 1])
      case Err(e) => Err(e)
      case Ok(m) =>
        var p := ps[|ps| - 1];
        match Eval(t, env, h, p).result
        case Ok(d) => Ok(m[p := d])
        case Err(e) => if Caught(e) then Ok(m) else Err(e)
  }

  /** The union of `f(p)` over the names of `ps`, built in order. */
  function UnionOf(ps: seq<string>, f: string -> set<string>): set<string> {
    if ps == [] then {} else UnionOf(ps[..|ps| - 1], f) + f(ps[|ps| - 1])
  }

  lemma {:induction false} UnionMeaning(ps: seq<string>, f: string -> set<string>)
    ensures forall k :: k in UnionOf(ps, f) <==> exists i :: 0 <= i < |ps| && k in f(ps[i])
  {
    if ps != [] {
      var n := |ps| - 1;
      var init := ps[..n];
      UnionMeaning(init, f);
      forall k ensures k in UnionOf(ps, f) <==> exists i :: 0 <= i < |ps| && k in f(ps[i]) {
        if k in UnionOf(init, f) {
          var i :| 0 <= i < |init| && k in f(init[i]);
          assert ps[i] == init[i];
        }
        if exists i :: 0 <= i < |ps| && k in f(ps[i]) {
          var i :| 0 <= i < |ps| && k in f(ps[i]);
          if i < n {
            assert init[i] == ps[i];
          }
        }
      }
    }
  }

  /** The cards the translator has recorded after translating `ps`. */
  function CardsOf(t: Table, env: Env, h: Header, ps: seq<string>): set<string>
    requires WellFormed(t)
  {
    UnionOf(ps, p => Eval(t, env, h, p).cards)
  }

  /** A property translates without an error the loop lets through. */
  predicate Passes(t: Table, env: Env, h: Header, p: string)
    requires WellFormed(t)
  {
    Eval(t, env, h, p).result.Ok? || Caught(Eval(t, env, h, p).result.error)
  }

  /** The loop succeeds exactly when every property passes; it then holds
      exactly the properties that translated, each with its value. */
  lemma {:induction false} CollectMeaning(t: Table, env: Env, h: Header, ps: seq<string>)
    requires WellFormed(t)
    ensures Collect(t, env, h, ps).Ok? <==> forall i :: 0 <= i < |ps| ==> Passes(t, env, h, ps[i])
    ensures Collect(t, env, h, ps).Ok? ==>
      forall p :: p in Collect(t, env, h, ps).value <==> p in ps && Eval(t, env, h, p).result.Ok?
    ensures Collect(t, env, h, ps).Ok? ==>
      forall p :: p in Collect(t, env, h, ps).value ==> Eval(t, env, h, p).result == Ok(Collect(t, env, h, ps).value[p])
  {
    CollectSucceeds(t, env, h, ps);
    CollectHolds(t, env, h, ps);
  }

  lemma {:induction false} CollectSucceeds(t: Table, env: Env, h: Header, ps: seq<string>)
    requires WellFormed(t)
    ensures Collect(t, env, h, ps).Ok? <==> forall i :: 0 <= i < |ps| ==> Passes(t, env, h, ps[i])
  {
    if ps != [] {
      var init := ps[..|ps| - 1];
      CollectSucceeds(t, env, h, init);
      assert forall i :: 0 <= i < |init| ==> init[i] == ps[i];
    }
  }

  lemma {:induction false} CollectHolds(t: Table, env: Env, h: Header, ps: seq<string>)
    requires WellFormed(t)
    ensures Collect(t, env, h, ps).Ok? ==>
      forall p :: p in Collect(t, env, h, ps).value <==> p in ps && Eval(t, env, h, p).result.Ok?
    ensures Collect(t, env, h, ps).Ok? ==>
      forall p :: p in Collect(t, env, h, ps).value ==> Eval(t, env, h, p).result == Ok(Collect(t, env, h, ps).value[p])
  {
    if ps != [] {
      var init := ps[..|ps| - 1];
      CollectHolds(t, env, h, init);
      assert ps == init + [ps[|ps| - 1]];
    }
  }

  /** The error that aborts the loop is the first error it does not
      catch. */
  lemma {:induction false} CollectError(t: Table, env: Env, h: Header, ps: seq<string>)
    requires WellFormed(t)
    ensures Collect(t, env, h, ps).Err? ==>
      exists i :: 0 <= i < |ps| && Eval(t, env, h, ps[i]).result == Err(Collect(t, env, h, ps).error) &&
        !Passes(t, env, h, ps[i]) && forall j :: 0 <= j < i ==> Passes(t, env, h, ps[j])
  {
    if ps != [] {
      var init := ps[..|ps| - 1];
      CollectError(t, env, h, init);
      CollectMeaning(t, env, h, init);
      assert forall i :: 0 <= i < |init| ==> init[i] == ps[i];
      if Collect(t, env, h, init).Err? {
        var i :| 0 <= i < |init| && Eval(t, env, h, init[i]).result == Err(Collect(t, env, h, init).error) &&
          !Passes(t, env, h, init[i]) && forall j :: 0 <= j < i ==> Passes(t, env, h, init[j]);
        assert ps[i] == init[i];
      } else if Collect(t, env, h, ps).Err? {
        assert Eval(t, env, h, ps[|ps| - 1]).result == Err(Collect(t, env, h, ps).error);
      }
    }
  }

  /** The cards recorded are those some property's translation used. */
  lemma CardsMeaning(t: Table, env: Env, h: Header, ps: seq<string>)
    requires WellFormed(t)
    ensures forall k :: k in CardsOf(t, env, h, ps) <==> exists i :: 0 <= i < |ps| && k in Eval(t, env, h, ps[i]).cards
  {
    UnionMeaning(ps, p => Eval(t, env, h, p).cards);
  }

  /** `copy(header)` with every card of `used` deleted. */
  function Stripped(h: Header, used: set<string>): (r: Header)
    ensures r.Keys == h.Keys - used
    ensures forall k :: k in r ==> r[k] == h[k]
  {
    h - used
  }

  /** One observation: the header as given, the translator that
      translated it (which holds the cards used) and the properties it
      could translate. */
  class ObservationInfo {
    const header: Header
    const translatorClass: LegacyClass
    const translator: Translator
    const values: map<string, Datum>

    constructor(header: Header, translatorClass: LegacyClass, translator: Translator, values: map<string, Datum>)
      ensures this.header == header && this.translatorClass == translatorClass
      ensures this.translator == translator && this.values == values
    {
      this.header := header;
      this.translatorClass := translatorClass;
      this.translator := translator;
      this.values := values;
    }

    /** A standard property's value, None when it could not be
        translated; any other name is not an attribute. */
    function Property(p: string): (r: Result<Option<Datum>>)
      reads this
      ensures p !in LegacyProperties ==> r == Err(AttributeError(p))
      ensures p in LegacyProperties && p in values ==> r == Ok(Some(values[p]))
      ensures p in LegacyProperties && p !in values ==> r == Ok(None)
    {
      if p !in LegacyProperties then Err(AttributeError(p))
      else if p in values then Ok(Some(values[p]))
      else Ok(None)
    }

    /** `cards_used`, asked of the translator. */
    function CardsUsed(): set<string>
      reads this, translator
    {
      translator.CardsUsed()
    }

    /** `strippedHeader`: a copy of the header without the cards used;
        deleting a card the header lacks raises KeyError. */
    method StrippedHeader() returns (r: Result<Header>)
      ensures CardsUsed() <= header.Keys ==> r == Ok(Stripped(header, CardsUsed()))
      ensures !(CardsUsed() <= header.Keys) ==> r.Err? && r.error.KeyError?
    {
      var used := translator.CardsUsed();
      var hdr := header;
      var todo := used;
      while todo != {}
        invariant todo <= used
        invariant used - todo <= header.Keys
        invariant hdr == header - (used - todo)
        decreases todo
      {
        var c :| c in todo;
        if c !in hdr {
          return Err(KeyError([c]));
        }
        hdr := hdr - {c};
        todo := todo - {c};
        assert hdr == header - (used - todo);
      }
      assert used - todo == used;
      return Ok(hdr);
    }
  }

  /** `ObservationInfo(header, translator_class)`: the chosen class's
      translator translates every standard property; the result keeps the
      values collected and the translator with the cards it used, or is
      the first error the loop does not catch. */
  method MakeObservationInfo(env: Env, h: Header, choice: TranslatorChoice, order: seq<LegacyClass>)
    returns (r: Result<ObservationInfo>)
    ensures ChosenClass(env, h, choice, order).Err? ==> r == Err(ChosenClass(env, h, choice, order).error)
    ensures ChosenClass(env, h, choice, order).Ok? ==>
      var c := ChosenClass(env, h, choice, order).value;
      WellFormed(StateOf(c).table) &&
      (Collect(StateOf(c).table, env, h, LegacyProperties).Err? ==>
         r == Err(Collect(StateOf(c).table, env, h, LegacyProperties).error)) &&
      (Collect(StateOf(c).table, env, h, LegacyProperties).Ok? ==>
         r.Ok? && fresh(r.value) && fresh(r.value.translator) &&
         r.value.header == h && r.value.translatorClass == c &&
         r.value.values == Collect(StateOf(c).table, env, h, LegacyProperties).value &&
         r.value.translator.header == h && r.value.translator.table == StateOf(c).table &&
         r.value.CardsUsed() == CardsOf(StateOf(c).table, env, h, LegacyProperties))
  {
    var chosen := ChosenClass(env, h, choice, order);
    if chosen.Err? {
      return Err(chosen.error);
    }
    var c := chosen.value;
    StatesWellFormed(c);
    r := Observe(env, h, c, StateOf(c).table);
  }

  /** The construction once the class is known: a fresh translator for
      the header with the class's table translates every standard
      property. */
  method Observe(env: Env, h: Header, c: LegacyClass, t: Table) returns (r: Result<ObservationInfo>)
    requires WellFormed(t)
    ensures Collect(t, env, h, LegacyProperties).Err? ==> r == Err(Collect(t, env, h, LegacyProperties).error)
    ensures Collect(t, env, h, LegacyProperties).Ok? ==>
      r.Ok? && fresh(r.value) && fresh(r.value.translator) &&
      r.value.header == h && r.value.translatorClass == c &&
      r.value.values == Collect(t, env, h, LegacyProperties).value &&
      r.value.translator.header == h && r.value.translator.table == t &&
      r.value.CardsUsed() == CardsOf(t, env, h, LegacyProperties)
  {
    var tr := new Translator(h, t, env);
    var collected := TranslateAll(tr, LegacyProperties);
    if collected.Err? {
      return Err(collected.error);
    }
    var info := new ObservationInfo(h, c, tr, collected.value);
    return Ok(info);
  }

  /** The property loop: each property of `ps` is translated in turn by
      `tr`, which records the cards used; an error other than
      AttributeError or KeyError ends the loop. */
  method TranslateAll(tr: Translator, ps: seq<string>) returns (r: Result<map<string, Datum>>)
    requires WellFormed(tr.table)
    modifies tr
    ensures r == Collect(tr.table, tr.env, tr.header, ps)
    ensures r.Ok? ==> tr.usedCards == old(tr.usedCards) + CardsOf(tr.table, tr.env, tr.header, ps)
  {
    var values: map<string, Datum> := map[];
    var i := 0;
    while i < |ps|
      invariant 0 <= i <= |ps|
      invariant Collect(tr.table, tr.env, tr.header, ps[..i]) == Ok(values)
      invariant tr.usedCards == old(tr.usedCards) + CardsOf(tr.table, tr.env, tr.header, ps[..i])
    {
      var p := ps[i];
      var x := tr.Translate(p);
      CollectNext(tr.table, tr.env, tr.header, ps, i, values, x);
      UnionRegroups(old(tr.usedCards), CardsOf(tr.table, tr.env, tr.header, ps[..i]),
                    Eval(tr.table, tr.env, tr.header, p).cards);
      if x.Err? && !Caught(x.error) {
        PrefixError(tr.table, tr.env, tr.header, ps, i + 1);
        return Err(x.error);
      }
      if x.Ok? {
        values := values[p := x.value];
      }
      i := i + 1;
    }
    assert ps[..i] == ps;
    return Ok(values);
  }
  /** Cards recorded in two steps are the cards of both steps. */
  lemma UnionRegroups(a: set<string>, b: set<string>, c: set<string>)
    ensures (a + b) + c == a + (b + c)
  {
  }

  /** The loop over one more property: its result decides whether the
      loop keeps it, passes over it or stops, and its cards join those
      recorded. */
  lemma CollectNext(t: Table, env: Env, h: Header, ps: seq<string>, i: nat, m: map<string, Datum>,
                    x: Result<Datum>)
    requires WellFormed(t) && i < |ps| && Collect(t, env, h, ps[..i]) == Ok(m)
    requires x == Eval(t, env, h, ps[i]).result
    ensures x.Ok? ==> Collect(t, env, h, ps[..i + 1]) == Ok(m[ps[i] := x.value])
    ensures x.Err? && Caught(x.error) ==> Collect(t, env, h, ps[..i + 1]) == Ok(m)
    ensures x.Err? && !Caught(x.error) ==> Collect(t, env, h, ps[..i + 1]) == Err(x.error)
    ensures CardsOf(t, env, h, ps[..i + 1]) == CardsOf(t, env, h, ps[..i]) + Eval(t, env, h, ps[i]).cards
  {
    assert ps[..i + 1][..i] == ps[..i];
  }

  /** Once the loop stops at an error, later properties do not change it. */
  lemma {:induction false} PrefixError(t: Table, env: Env, h: Header, ps: seq<string>, n: nat)
    requires WellFormed(t) && n <= |ps| && Collect(t, env, h, ps[..n]).Err?
    ensures Collect(t, env, h, ps) == Collect(t, env, h, ps[..n])
    decreases |ps| - n
  {
    if n < |ps| {
      assert ps[..n + 1][..n] == ps[..n];
      PrefixError(t, env, h, ps, n + 1);
    } else {
      assert ps[..n] == ps;
    }
  }
}
