/** The earliest engine: a metaclass that turns each class's trivial map
    (standard property to FITS keyword) and constant map into static
    `to_<property>` functions of the header alone, registers every class
    that names itself, and a selection over the registered classes.
    A class is given by its lineage, the class bodies from the base class
    down to itself. */
module StaticEngine {
  import opened Wrappers
  import opened Values
  import opened ClassBuild
  import Registry

  /** A static translator: a constant, or a copy of one header card. */
  datatype StaticResolver = ConstantOf(constant: Datum) | FitsCard(fitsKey: string)

  type StaticState = ClassState<StaticResolver, string, Datum>
  type StaticDef = ClassDef<StaticResolver, string, Datum>

  function TrivialMapping(fitsKey: string): StaticResolver {
    FitsCard(fitsKey)
  }

  function ConstMapping(constant: Datum): StaticResolver {
    ConstantOf(constant)
  }

  /** The cards a static translator looks at. */
  function Reads(r: StaticResolver): set<string> {
    match r
    case ConstantOf(_) => {}
    case FitsCard(k) => {k}
  }

  /** Calling a static translator on a header: a constant is returned as
      it is, a card is copied or raises KeyError naming it. */
  function Apply(r: StaticResolver, h: Header): (res: Result<Datum>)
    ensures r.ConstantOf? ==> res == Ok(r.constant)
    ensures r.FitsCard? && r.fitsKey in h ==> res == Ok(Scalar(h[r.fitsKey]))
    ensures r.FitsCard? && r.fitsKey !in h ==> res == Err(KeyError([r.fitsKey]))
  {
    match r
    case ConstantOf(v) => Ok(v)
    case FitsCard(k) => match Card(h, k) case Ok(v) => Ok(Scalar(v)) case Err(e) => Err(e)
  }

  /** The translators hold no state: two headers that agree on the cards a
      translator reads give the same answer. */
  lemma ApplyLocal(r: StaticResolver, h1: Header, h2: Header)
    requires forall k :: k in Reads(r) ==> (k in h1 <==> k in h2)
    requires forall k :: k in Reads(r) && k in h1 && k in h2 ==> h1[k] == h2[k]
    ensures Apply(r, h1) == Apply(r, h2)
  {
    if r.FitsCard? {
      assert r.fitsKey in Reads(r);
    }
  }

  /** `getattr(translator, "to_" + p)(header)`: AttributeError when the
      class has no translator for `p`. */
  function Translate(st: StaticState, p: string, h: Header): (r: Result<Datum>)
    ensures p !in st.table ==> r == Err(AttributeError("to_" + p))
    ensures p in st.table ==> r == Apply(st.table[p], h)
  {
    if p in st.table then Apply(st.table[p], h) else Err(AttributeError("to_" + p))
  }

  /** The state `object` gives the base class: no name, no maps. */
  const Root: StaticState := ClassState(None, map[], map[], map[])

  /** The base class declares empty maps and no name. */
  const BaseDef: StaticDef := ClassDef(Inherit, Declare(map[]), Declare(map[]), map[])

  /** The class built from its lineage, each body on its parent's state:
      trivial entries are installed first and constants over them. */
  function StateOf(lineage: seq<StaticDef>): StaticState
    decreases |lineage|
  {
    if lineage == [] then Root
    else Build(StateOf(lineage[..|lineage| - 1]), lineage[|lineage| - 1], TrivialMapping, ConstMapping)
  }

  /** The base class translates nothing. */
  lemma BaseTranslatesNothing(p: string, h: Header)
    ensures Translate(StateOf([BaseDef]), p, h) == Err(AttributeError("to_" + p))
  {
    assert [BaseDef][..0] == [];
  }

  /** A constant entry answers its constant on every header, whatever the
      trivial map says about the same property. */
  lemma ConstantWins(parent: StaticState, def: StaticDef, p: string, h: Header)
    requires p in Effective(def.constMap, parent.constMap)
    ensures Translate(Build(parent, def, TrivialMapping, ConstMapping), p, h) ==
      Ok(Effective(def.constMap, parent.constMap)[p])
  {
  }

  /** A trivial entry without a constant copies its FITS card, and raises
      KeyError naming the card when the header lacks it. */
  lemma TrivialCopies(parent: StaticState, def: StaticDef, p: string, h: Header)
    requires p in Effective(def.trivialMap, parent.trivialMap)
    requires p !in Effective(def.constMap, parent.constMap)
    ensures var k := Effective(def.trivialMap, parent.trivialMap)[p];
      var r := Translate(Build(parent, def, TrivialMapping, ConstMapping), p, h);
      (k in h ==> r == Ok(Scalar(h[k]))) && (k !in h ==> r == Err(KeyError([k])))
  {
  }

  /** A property the class body leaves alone translates as in the
      parent. */
  lemma InheritsTranslation(parent: StaticState, def: StaticDef, p: string, h: Header)
    requires p !in def.methods
    requires p !in Effective(def.trivialMap, parent.trivialMap)
    requires p !in Effective(def.constMap, parent.constMap)
    ensures Translate(Build(parent, def, TrivialMapping, ConstMapping), p, h) == Translate(parent, p, h)
  {
  }

  /** A class's translators together read only the FITS keywords of the
      trivial maps along its lineage; constants read nothing. */
  lemma {:induction false} ReadsOnlyTrivialKeys(lineage: seq<StaticDef>, p: string, k: string)
    requires forall i :: 0 <= i < |lineage| ==> lineage[i].methods == map[]
    requires p in StateOf(lineage).table && k in Reads(StateOf(lineage).table[p])
    ensures exists i :: (0 <= i < |lineage| && lineage[i].trivialMap.Declare? &&
                         p in lineage[i].trivialMap.value && lineage[i].trivialMap.value[p] == k)
    decreases |lineage|
  {
    var n := |lineage| - 1;
    var init := lineage[..n];
    var parent := StateOf(init);
    var def := lineage[n];
    assert forall i :: 0 <= i < |init| ==> init[i] == lineage[i];
    var tm := Effective(def.trivialMap, parent.trivialMap);
    var cm := Effective(def.constMap, parent.constMap);
    if p in cm {
      assert false;
    } else if p in tm {
      if def.trivialMap.Declare? {
        assert lineage[n].trivialMap.value[p] == k;
      } else {
        TrivialFromLineage(init, p);
        var i :| 0 <= i < |init| && init[i].trivialMap.Declare? &&
          p in init[i].trivialMap.value && init[i].trivialMap.value[p] == parent.trivialMap[p];
        assert lineage[i] == init[i];
      }
    } else {
      ReadsOnlyTrivialKeys(init, p, k);
      var i :| 0 <= i < |init| && init[i].trivialMap.Declare? &&
        p in init[i].trivialMap.value && init[i].trivialMap.value[p] == k;
      assert lineage[i] == init[i];
    }
  }

  /** Every entry of a class's trivial map was declared by a body of its
      lineage. */
  lemma {:induction false} TrivialFromLineage(lineage: seq<StaticDef>, p: string)
    requires p in StateOf(lineage).trivialMap
    ensures exists i :: (0 <= i < |lineage| && lineage[i].trivialMap.Declare? &&
                         p in lineage[i].trivialMap.value &&
                         lineage[i].trivialMap.value[p] == StateOf(lineage).trivialMap[p])
    decreases |lineage|
  {
    var n := |lineage| - 1;
    var init := lineage[..n];
    assert forall i :: 0 <= i < |init| ==> init[i] == lineage[i];
    if lineage[n].trivialMap.Inherit? {
      TrivialFromLineage(init, p);
      var i :| 0 <= i < |init| && init[i].trivialMap.Declare? &&
        p in init[i].trivialMap.value && init[i].trivialMap.value[p] == StateOf(init).trivialMap[p];
      assert lineage[i] == init[i];
    }
  }

  /** Defining a class registers it under its name when it has one: the
      name then selects it, every other name keeps its class, and a class
      without a name changes nothing. */
  function Define<C>(e: Registry.Entries<C>, st: StaticState, c: C): (r: Registry.Entries<C>)
    requires Registry.UniqueNames(e)
    ensures Registry.UniqueNames(r)
    ensures st.name.None? ==> r == e
    ensures st.name.Some? ==> Registry.Lookup(r, st.name.value) == Some(c)
    ensures forall n :: (st.name.None? || n != st.name.value) ==> Registry.Lookup(r, n) == Registry.Lookup(e, n)
  {
    match st.name
    case None => e
    case Some(n) =>
      Registry.RegisteredLaws(e, n, c);
      Registry.Registered(e, n, c)
  }

  /** The base class's `canTranslate` is abstract. */
  function BaseCanTranslate(h: Header): (r: Result<bool>)
    ensures r.Err? && r.error.NotImplementedError?
  {
    Err(NotImplementedError(""))
  }

  /** `determineTranslator`: the registered classes are asked in
      registration order and the first that recognises the header wins. */
  function DetermineTranslator<C>(e: Registry.Entries<C>, canTranslate: C -> Header -> Result<bool>,
                                  h: Header): Result<C>
  {
    Registry.Select(e, c => canTranslate(c)(h))
  }

  /** The chosen class is registered, recognises the header, and every
      class registered before it declines; when every class declines the
      answer is ValueError; a recogniser error is passed on only when no
      earlier class accepted. */
  lemma DetermineMeaning<C>(e: Registry.Entries<C>, canTranslate: C -> Header -> Result<bool>, h: Header)
    ensures var r := DetermineTranslator(e, canTranslate, h);
      r.Ok? ==> exists i :: (0 <= i < |e| && e[i].1 == r.value && canTranslate(r.value)(h) == Ok(true) &&
                             forall j :: 0 <= j < i ==> canTranslate(e[j].1)(h) == Ok(false))
    ensures (forall j :: 0 <= j < |e| ==> canTranslate(e[j].1)(h) == Ok(false)) ==>
      DetermineTranslator(e, canTranslate, h) == Err(ValueError("None of the registered translation classes understood this header"))
    ensures forall i :: (0 <= i < |e| && canTranslate(e[i].1)(h) == Ok(true) &&
                         (forall j :: 0 <= j < i ==> canTranslate(e[j].1)(h) == Ok(false))) ==>
                        DetermineTranslator(e, canTranslate, h) == Ok(e[i].1)
  {
    var accepts := c => canTranslate(c)(h);
    Registry.SearchMeaning(e, accepts, 0);
    forall i | 0 <= i < |e| && canTranslate(e[i].1)(h) == Ok(true) &&
      (forall j :: 0 <= j < i ==> canTranslate(e[j].1)(h) == Ok(false))
      ensures DetermineTranslator(e, canTranslate, h) == Ok(e[i].1)
    {
      Registry.SelectFirst(e, accepts, i);
    }
    AllDecline(e, accepts, 0);
  }

  /** When every class declines the search ends in its ValueError. */
  lemma {:induction false} AllDecline<C>(e: Registry.Entries<C>, accepts: C -> Result<bool>, from: nat)
    requires from <= |e|
    ensures (forall j :: from <= j < |e| ==> accepts(e[j].1) == Ok(false)) ==>
      Registry.Search(e, accepts, from) == Err(ValueError("None of the registered translation classes understood this header"))
    decreases |e| - from
  {
    if from < |e| {
      AllDecline(e, accepts, from + 1);
    }
  }
}
