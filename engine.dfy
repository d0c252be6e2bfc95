/** The translation engine: a translator class binds each property name
    to a resolver, and translating a property runs its resolver against
    the header, recording the cards it used.  A resolver written as a
    method of the class is a rule from the instrument modules; the rules
    that call other properties of the same translator get those
    properties' outcomes from the same table. */
module Engine {
  import opened Wrappers
  import opened Values
  import opened Validation
  import opened CardResolvers
  import opened Properties
  import opened CommonRules
  import opened FitsRules
  import opened ClassBuild
  import SR = SubaruRules
  import MP = MegaPrimeRules
  import DC = DecamRules

  /** The translator methods written by hand in the translator classes,
      grouped by the module that defines them and named by what they
      compute.  Property names given as arguments are the properties the
      method calls, which differ between the two generations of
      translators. */
  datatype SharedMethod =
    | ObservationType(key: string)
    | FitsDate(key: string)
    | DateAndTime(dateKey: string, timeKey: string)
    | FitsLocation
    | CardQuantity(key: string, unit: Unit)
    | CombinedId(first: string, factor: int, second: string)

  datatype SubaruMethod =
    | SubaruSite
    | SuprimeCamExposure
    | HscExposure
    | FilterInCapitals(key: string)
    | VisitOfScience(observationType: string, exposure: string)
    | SuprimeCamTracking
    | SuprimeCamAltAz
    | SuprimeCamRotation
    | HscRotation
    | HscAbstractFilter

  datatype MegaPrimeMethod =
    | MegaPrimeDatetimeEnd
    | MegaPrimeLocation
    | MegaPrimeLegacyLocation
    | MegaPrimeDetectorNum
    | MegaPrimeLegacyDetectorNum
    | MegaPrimeTracking
    | MegaPrimeLegacyTracking
    | MegaPrimeAltAz
    | MegaPrimeLegacyAltAz
    | MegaPrimePressure
    | MegaPrimeAbstractFilter

  datatype DecamMethod =
    | DecamPhysicalFilter
    | DecamLegacyPhysicalFilter
    | DecamAbstractFilter
    | DecamLocation
    | DecamTracking
    | DecamAltAz
    | DecamDetectorExposureId

  datatype CustomId =
    | Shared(shared: SharedMethod)
    | Subaru(subaru: SubaruMethod)
    | MegaPrime(megaPrime: MegaPrimeMethod)
    | Decam(decam: DecamMethod)

  /** What a property name is bound to in a translator class: a constant
      from the constant map, a modern or an older trivial-map entry, a
      hand-written method, the abstract method of the base class (which
      raises NotImplementedError) or the stub method (which returns
      None). */
  datatype Resolver =
    | Const(value: Datum)
    | Trivial(spec: TrivialSpec)
    | SingleCard(card: CardSpec)
    | Custom(id: CustomId)
    | Abstract
    | Stub

  type Table = map<string, Resolver>

  /** How many layers of other properties a property's method may call:
      identifiers and positions call properties of rank 0, and the
      abstract filter calls the physical filter. */
  function Rank(p: string): nat {
    if p == "abstract_filter" then 2
    else if p in {"visit_id", "visit", "detector_exposure_id", "tracking_radec", "altaz_begin",
                  "physical_filter", "datetime_end"} then 1
    else 0
  }

  function Max(a: nat, b: nat): nat {
    if a < b then b else a
  }

  /** One more than the highest rank of the properties a method calls;
      0 for a method that calls none. */
  function CustomRank(id: CustomId): nat {
    match id
    case Shared(m) => SharedRank(m)
    case Subaru(m) => SubaruRank(m)
    case MegaPrime(m) => MegaPrimeRank(m)
    case Decam(m) => DecamRank(m)
  }

  function SharedRank(m: SharedMethod): nat {
    if m.CombinedId? then 1 + Max(Rank(m.first), Rank(m.second)) else 0
  }

  function SubaruRank(m: SubaruMethod): nat {
    if m.VisitOfScience? then 1 + Max(Rank(m.observationType), Rank(m.exposure))
    else if m.SuprimeCamTracking? || m.SuprimeCamAltAz? then 1
    else if m.HscAbstractFilter? then 2
    else 0
  }

  function MegaPrimeRank(m: MegaPrimeMethod): nat {
    if m.MegaPrimeAbstractFilter? then 2
    else if m.MegaPrimeDatetimeEnd? || m.MegaPrimeTracking? || m.MegaPrimeLegacyTracking? ||
            m.MegaPrimeAltAz? || m.MegaPrimeLegacyAltAz? then 1
    else 0
  }

  function DecamRank(m: DecamMethod): nat {
    if m.DecamAbstractFilter? then 2
    else if m.DecamLegacyPhysicalFilter? || m.DecamLocation? then 0
    else 1
  }

  /** No method calls, directly or through others, the property it is
      bound to: every table of the translator classes has this shape, and
      it is what makes translation terminate. */
  predicate WellFormed(t: Table) {
    forall q :: q in t && t[q].Custom? ==> CustomRank(t[q].id) <= Rank(q)
  }

  /** Translating property `p` of header `h` with the class whose table
      is `t`: a name the class has no method for is an AttributeError. */
  function Eval(t: Table, env: Env, h: Header, p: string): (r: Outcome<Datum>)
    requires WellFormed(t)
    decreases Rank(p), 2
  {
    if p !in t then Outcome(Err(AttributeError(p)), {})
    else match t[p]
      case Const(d) => Outcome(Ok(d), {})
      case Trivial(spec) => ModernTrivial(h, env, p, spec)
      case SingleCard(spec) => LegacyTrivial(h, env, spec)
      case Custom(id) => EvalCustom(t, env, h, id)
      case Abstract => Outcome(Err(NotImplementedError(p)), {})
      case Stub => Outcome(Ok(Scalar(Null)), {})
  }

  /** A rule applied to the physical filter the same translator gives. */
  function OnFilter(filter: Outcome<Datum>, f: Datum -> Result<Datum>): (r: Outcome<Datum>)
    ensures r.cards == filter.cards
    ensures filter.result.Err? ==> r.result == filter.result
    ensures filter.result.Ok? ==> r.result == f(filter.result.value)
  {
    match filter.result
    case Err(e) => Outcome(Err(e), filter.cards)
    case Ok(d) => Outcome(f(d), filter.cards)
  }

  /** Running a hand-written method. */
  function EvalCustom(t: Table, env: Env, h: Header, id: CustomId): (r: Outcome<Datum>)
    requires WellFormed(t)
    decreases CustomRank(id), 1
  {
    match id
    case Shared(m) => EvalShared(t, env, h, m)
    case Subaru(m) => EvalSubaru(t, env, h, m)
    case MegaPrime(m) => EvalMegaPrime(t, env, h, m)
    case Decam(m) => EvalDecam(t, env, h, m)
  }

  function EvalShared(t: Table, env: Env, h: Header, m: SharedMethod): (r: Outcome<Datum>)
    requires WellFormed(t)
    decreases CustomRank(Shared(m)), 0
  {
    match m
    case ObservationType(key) => ObservationTypeFrom(h, key)
    case FitsDate(key) => FromFitsDate(h, key)
    case DateAndTime(d, k) => DateWithTime(h, env, d, k)
    case FitsLocation => GeocentricLocation(h)
    case CardQuantity(key, unit) => QuantityFromCard(h, env, [key], unit, Null, None, None)
    case CombinedId(a, k, b) => LinearId(Eval(t, env, h, a), k, Eval(t, env, h, b))
  }

  function EvalSubaru(t: Table, env: Env, h: Header, m: SubaruMethod): (r: Outcome<Datum>)
    requires WellFormed(t)
    decreases CustomRank(Subaru(m)), 0
  {
    match m
    case SubaruSite => Outcome(Ok(SR.SubaruLocation), {})
    case SuprimeCamExposure => SR.SuprimeExposure(h)
    case HscExposure => SR.HscExposure(h)
    case FilterInCapitals(key) => SR.UpperFilter(h, key)
    case VisitOfScience(o, e) => SR.ScienceVisit(Eval(t, env, h, o), Eval(t, env, h, e))
    case SuprimeCamTracking =>
      SR.SuprimeTracking(h, Eval(t, env, h, "datetime_begin"), Eval(t, env, h, "location"))
    case SuprimeCamAltAz =>
      SR.SuprimeAltAz(h, Eval(t, env, h, "datetime_begin"), Eval(t, env, h, "location"))
    case SuprimeCamRotation => SR.SuprimeRotation(h, env)
    case HscRotation => SR.HscRotation(h, env)
    case HscAbstractFilter => OnFilter(Eval(t, env, h, "physical_filter"), SR.HscAbstractFilter)
  }

  function EvalMegaPrime(t: Table, env: Env, h: Header, m: MegaPrimeMethod): (r: Outcome<Datum>)
    requires WellFormed(t)
    decreases CustomRank(MegaPrime(m)), 0
  {
    match m
    case MegaPrimeDatetimeEnd =>
      MP.ModernDatetimeEnd(h, env, Eval(t, env, h, "datetime_begin"), Eval(t, env, h, "exposure_time"))
    case MegaPrimeLocation => MP.ModernLocation(h)
    case MegaPrimeLegacyLocation => MP.LegacyLocation(h)
    case MegaPrimeDetectorNum => MP.ModernDetectorNum(h)
    case MegaPrimeLegacyDetectorNum => MP.LegacyDetectorNum(h)
    case MegaPrimeTracking =>
      TrackingFromDegreeHeaders(h, MP.TrackingSystems, MP.TrackingPairs, Degree, Degree,
                                Eval(t, env, h, "datetime_begin"), Eval(t, env, h, "location"),
                                Eval(t, env, h, "observation_type"))
    case MegaPrimeLegacyTracking =>
      MP.LegacyTracking(h, Eval(t, env, h, "datetime_begin"), Eval(t, env, h, "location"))
    case MegaPrimeAltAz =>
      MP.ModernAltAz(h, Eval(t, env, h, "datetime_begin"), Eval(t, env, h, "location"),
                     Eval(t, env, h, "observation_type"))
    case MegaPrimeLegacyAltAz =>
      MP.LegacyAltAz(h, Eval(t, env, h, "datetime_begin"), Eval(t, env, h, "location"))
    case MegaPrimePressure => MP.ModernPressure(h, env)
    case MegaPrimeAbstractFilter =>
      OnFilter(Eval(t, env, h, "physical_filter"), d => Ok(MP.LegacyAbstractFilter(d)))
  }

  function EvalDecam(t: Table, env: Env, h: Header, m: DecamMethod): (r: Outcome<Datum>)
    requires WellFormed(t)
    decreases CustomRank(Decam(m)), 0
  {
    match m
    case DecamPhysicalFilter => DC.ModernPhysicalFilter(h, Eval(t, env, h, "observation_type"))
    case DecamLegacyPhysicalFilter => DC.LegacyPhysicalFilter(h)
    case DecamAbstractFilter => OnFilter(Eval(t, env, h, "physical_filter"), DC.LegacyAbstractFilter)
    case DecamLocation => DC.Location(h)
    case DecamTracking =>
      DC.ModernTracking(h, Eval(t, env, h, "datetime_begin"), Eval(t, env, h, "location"))
    case DecamAltAz =>
      DC.ModernAltAz(h, Eval(t, env, h, "datetime_begin"), Eval(t, env, h, "location"))
    case DecamDetectorExposureId =>
      DC.DetectorExposureId(Eval(t, env, h, "exposure_id"), Eval(t, env, h, "detector_num"))
  }

  /** The resolvers the class build step makes of map entries. */
  function ConstResolver(d: Datum): Resolver {
    Const(d)
  }

  function TrivialResolver(s: TrivialSpec): Resolver {
    Trivial(s)
  }

  function CardResolver(s: CardSpec): Resolver {
    SingleCard(s)
  }

  /** The resolvers that call nothing: a name without one raises
      AttributeError, and a constant, the abstract method and the stub
      answer without reading a card. */
  lemma EvalMissing(t: Table, env: Env, h: Header, p: string)
    requires WellFormed(t) && p !in t
    ensures Eval(t, env, h, p) == Outcome(Err(AttributeError(p)), {})
  {
  }

  lemma EvalConst(t: Table, env: Env, h: Header, p: string)
    requires WellFormed(t) && p in t && t[p].Const?
    ensures Eval(t, env, h, p) == Outcome(Ok(t[p].value), {})
  {
  }

  lemma EvalAbstract(t: Table, env: Env, h: Header, p: string)
    requires WellFormed(t) && p in t && t[p] == Abstract
    ensures Eval(t, env, h, p) == Outcome(Err(NotImplementedError(p)), {})
  {
  }

  lemma EvalStub(t: Table, env: Env, h: Header, p: string)
    requires WellFormed(t) && p in t && t[p] == Stub
    ensures Eval(t, env, h, p) == Outcome(Ok(Scalar(Null)), {})
  {
  }

  /** The Subaru site method answers the observatory's location without
      reading a card. */
  lemma EvalSubaruSite(t: Table, env: Env, h: Header, p: string)
    requires WellFormed(t) && p in t && t[p] == Custom(Subaru(SubaruSite))
    ensures Eval(t, env, h, p) == Outcome(Ok(SR.SubaruLocation), {})
  {
  }

  /** The build step keeps a class table well formed when the class's own
      methods are: map entries never become methods. */
  lemma BuildKeepsWellFormed<S>(parent: ClassState<Resolver, S, Datum>, def: ClassDef<Resolver, S, Datum>,
                                trivial: S -> Resolver)
    requires WellFormed(parent.table) && WellFormed(def.methods)
    requires forall s :: !trivial(s).Custom?
    ensures WellFormed(Build(parent, def, trivial, ConstResolver).table)
  {
  }

  /** The resolvers a translator instance runs: constants, trivial
      entries and the base-class methods need no other property; a class
      with a table holding only these, plus methods whose rank is right,
      translates every property to the outcome `Eval` gives.  The class
      keeps the header it was made with and the cards used so far. */
  class Translator {
    const header: Header
    const table: Table
    const env: Env
    var usedCards: set<string>

    /** A new translator for `header` has used no card. */
    constructor(header: Header, table: Table, env: Env)
      ensures this.header == header && this.table == table && this.env == env
      ensures usedCards == {}
    {
      this.header := header;
      this.table := table;
      this.env := env;
      usedCards := {};
    }

    /** `cards_used`. */
    function CardsUsed(): set<string>
      reads this
    {
      usedCards
    }

    /** `to_<p>()`: the property's value, or the exception it raises,
        after recording the cards its resolver used.  Trivial entries
        run their own loops; everything else follows `Eval`. */
    method Translate(p: string) returns (r: Result<Datum>)
      requires WellFormed(table)
      modifies this
      ensures r == Eval(table, env, header, p).result
      ensures usedCards == old(usedCards) + Eval(table, env, header, p).cards
    {
      if p in table && table[p].Trivial? {
        r := ReadTrivial(p, table[p].spec);
      } else if p in table && table[p].SingleCard? && table[p].card.unit.Some? {
        var c := table[p].card;
        r := ReadQuantity([c.key], c.unit.value, c.default, c.minimum, c.maximum);
      } else {
        var o := Eval(table, env, header, p);
        usedCards := usedCards + o.cards;
        r := o.result;
      }
    }

    /** `quantity_from_card`: the candidate cards are tried in turn; the
        first present is read, converted to a float if it is text,
        recorded, then validated when a default is given. */
    method ReadQuantity(keys: seq<string>, unit: Unit, default: Value, minimum: Option<real>, maximum: Option<real>)
      returns (r: Result<Datum>)
      modifies this
      ensures r == QuantityFromCard(header, env, keys, unit, default, minimum, maximum).result
      ensures usedCards == old(usedCards) + QuantityFromCard(header, env, keys, unit, default, minimum, maximum).cards
    {
      var i := 0;
      while i < |keys| && keys[i] !in header
        invariant 0 <= i <= |keys|
        invariant forall j :: 0 <= j < i ==> keys[j] !in header
      {
        i := i + 1;
      }
      if i == |keys| {
        return Err(KeyError(keys));
      }
      assert FirstPresent(header, keys) == Some(i);
      var key := keys[i];
      var value := header[key];
      if value.Str? {
        var f := PyFloat(env, value);
        if f.Err? {
          return Err(f.error);
        }
        value := f.value;
      }
      usedCards := usedCards + {key};
      if !default.Null? {
        value := ValidateValue(value, default, minimum, maximum).value;
      }
      r := Ok(Quantity(value, unit));
    }

    /** The modern trivial resolver for property `p`: with a unit it is
        `quantity_from_card`; otherwise the first candidate card present
        is read (validated when a default is given and it is not text)
        and recorded, or the default is used, or KeyError is raised; the
        value is then coerced to the property's documented type. */
    method ReadTrivial(p: string, spec: TrivialSpec) returns (r: Result<Datum>)
      modifies this
      ensures r == ModernTrivial(header, env, p, spec).result
      ensures usedCards == old(usedCards) + ModernTrivial(header, env, p, spec).cards
    {
      if spec.unit.Some? {
        r := ReadQuantity(spec.keys, spec.unit.value, spec.default, spec.minimum, spec.maximum);
        return;
      }
      var value := spec.default;
      var found := false;
      var i := 0;
      while i < |spec.keys|
        invariant 0 <= i <= |spec.keys|
        invariant forall j :: 0 <= j < i ==> spec.keys[j] !in header
        invariant usedCards == old(usedCards)
      {
        var key := spec.keys[i];
        if key in header {
          assert FirstPresent(header, spec.keys) == Some(i);
          value := header[key];
          if !spec.default.Null? && !value.Str? {
            value := ValidateValue(value, spec.default, spec.minimum, spec.maximum).value;
          }
          usedCards := usedCards + {key};
          found := true;
          break;
        }
        i := i + 1;
      }
      if !found {
        assert FirstPresent(header, spec.keys).None?;
        if spec.default.Null? {
          return Err(KeyError(spec.keys));
        }
      }
      match Coerce(env, CoercionOf(p), value)
      case Ok(w) => r := Ok(Scalar(w));
      case Err(e) => r := Err(e);
    }
  }
}
