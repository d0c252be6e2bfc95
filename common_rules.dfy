/** Rules shared by several instrument translators, and the generic
    helpers they build on: normalising the observation type, choosing
    the first complete pair of cards, the tracking frame, the science
    check and the altitude from a zenith distance. */
module CommonRules {
  import opened Wrappers
  import opened Text
  import opened Values

  /** The observation type as the translators report it: the card's text
      stripped and lower-cased, with "object" renamed "science". */
  function NormalisedObservationType(raw: string): (r: string)
    ensures r != "object"
    ensures r == "science" <==> Lower(Strip(raw)) == "object" || Lower(Strip(raw)) == "science"
    ensures r != "science" ==> r == Lower(Strip(raw))
  {
    var t := Lower(Strip(raw));
    if t == "object" then "science" else t
  }

  /** `to_observation_type` reading card `key`: a missing card is a
      KeyError and a non-text value an AttributeError, both before the
      card is recorded. */
  function ObservationTypeFrom(h: Header, key: string): (r: Outcome<Datum>)
    ensures key !in h ==> r == Outcome(Err(KeyError([key])), {})
    ensures key in h && !h[key].Str? ==> r.result.Err? && r.result.error.AttributeError? && r.cards == {}
    ensures key in h && h[key].Str? ==>
      r == Outcome(Ok(Scalar(Str(NormalisedObservationType(h[key].s)))), {key})
  {
    match StrippedCard(h, key)
    case Err(e) => Outcome(Err(e), {})
    case Ok(t) => Outcome(Ok(Scalar(Str(if Lower(t) == "object" then "science" else Lower(t)))), {key})
  }

  /** The science observation type. */
  const Science: Datum := Scalar(Str("science"))

  /** The position of the first pair whose two cards are both present. */
  function FirstCompletePair(h: Header, pairs: seq<(string, string)>): (r: Option<nat>)
    ensures r.Some? ==> r.value < |pairs| && pairs[r.value].0 in h && pairs[r.value].1 in h
    ensures r.Some? ==> forall j :: 0 <= j < r.value ==> !(pairs[j].0 in h && pairs[j].1 in h)
    ensures r.None? <==> forall j :: 0 <= j < |pairs| ==> !(pairs[j].0 in h && pairs[j].1 in h)
  {
    if pairs == [] then None
    else if pairs[0].0 in h && pairs[0].1 in h then Some(0)
    else match FirstCompletePair(h, pairs[1..])
      case None => None
      case Some(i) => Some(i + 1)
  }

  /** The tracking frame: the stripped, lower-cased text of the first
      system card present together with that card, or "icrs" and no card
      when none is present. */
  function TrackingSystem(h: Header, systems: seq<string>): (r: Result<(string, seq<string>)>)
    ensures FirstPresent(h, systems).None? ==> r == Ok(("icrs", []))
    ensures FirstPresent(h, systems).Some? ==>
      var k := systems[FirstPresent(h, systems).value];
      (h[k].Str? ==> r == Ok((Lower(Strip(h[k].s)), [k]))) &&
      (!h[k].Str? ==> r.Err? && r.error.AttributeError?)
  {
    match FirstPresent(h, systems)
    case None => Ok(("icrs", []))
    case Some(i) =>
      var k := systems[i];
      match StrippedCard(h, k)
      case Err(e) => Err(e)
      case Ok(t) => Ok((Lower(t), [k]))
  }

  /** `is_non_science`, given what `to_observation_type` produced: a
      science observation raises KeyError, as does the observation type's
      own failure; anything else passes. */
  function IsNonScience(observationType: Result<Datum>): (r: Result<bool>)
    ensures r.Ok? <==> observationType.Ok? && observationType.value != Science
    ensures observationType == Ok(Science) ==> r.Err? && r.error.KeyError?
  {
    match observationType
    case Err(e) => Err(e)
    case Ok(t) => if t == Science then Err(KeyError([])) else Ok(true)
  }

  /** The altitude as 90 degrees less the zenith distance. */
  function AltitudeFromZenithDistance(zd: Datum): Datum {
    Difference(Quantity(Num(90.0), Degree), zd)
  }

  /** Subtracting from the same 90 degrees loses nothing: two zenith
      distances give the same altitude only when they are the same. */
  lemma ZenithDistanceRecoverable(zd1: Datum, zd2: Datum)
    ensures AltitudeFromZenithDistance(zd1) == AltitudeFromZenithDistance(zd2) <==> zd1 == zd2
  {
  }

  /** What a resolver that needs no reading of its own gives when a
      science observation lacks the cards it wanted: a KeyError for a
      science observation, None otherwise; the observation type's cards
      and errors are kept. */
  function NonScienceDefault(observationType: Outcome<Datum>): (r: Outcome<Datum>)
    ensures r.cards == observationType.cards
    ensures r.result.Ok? <==> observationType.result.Ok? && observationType.result.value != Science
    ensures r.result.Ok? ==> r.result.value == Scalar(Null)
    ensures observationType.result == Ok(Science) ==> r.result.Err? && r.result.error.KeyError?
    ensures observationType.result.Err? ==> r.result == observationType.result
  {
    match IsNonScience(observationType.result)
    case Err(e) => Outcome(Err(e), observationType.cards)
    case Ok(_) => Outcome(Ok(Scalar(Null)), observationType.cards)
  }

  /** A coordinate built with the start time and the location, in that
      order, after which `cards` are recorded; a failure of either call
      propagates with the cards recorded so far. */
  function AtTimeAndPlace(make: (Datum, Datum) -> Datum, begin: Outcome<Datum>, location: Outcome<Datum>,
                          cards: set<string>): (r: Outcome<Datum>)
    ensures r.result.Ok? <==> begin.result.Ok? && location.result.Ok?
    ensures r.result.Ok? ==>
      r == Outcome(Ok(make(begin.result.value, location.result.value)), begin.cards + location.cards + cards)
    ensures begin.result.Err? ==> r == Outcome(Err(begin.result.error), begin.cards)
    ensures begin.result.Ok? && location.result.Err? ==>
      r == Outcome(Err(location.result.error), begin.cards + location.cards)
  {
    match begin.result
    case Err(e) => Outcome(Err(e), begin.cards)
    case Ok(t) =>
      match location.result
      case Err(e) => Outcome(Err(e), begin.cards + location.cards)
      case Ok(l) => Outcome(Ok(make(t, l)), begin.cards + location.cards + cards)
  }

  /** `tracking_from_degree_headers`: the frame from the first system card
      present ("icrs" if none), None for a moving target ("gappt"), else
      the sky position from the first complete RA/Dec pair, recording the
      pair and the system card; with no pair it is `NonScienceDefault`. */
  function TrackingFromDegreeHeaders(h: Header, systems: seq<string>, pairs: seq<(string, string)>,
                                     raUnit: Unit, decUnit: Unit, begin: Outcome<Datum>,
                                     location: Outcome<Datum>, observationType: Outcome<Datum>): (r: Outcome<Datum>)
    ensures TrackingSystem(h, systems).Err? ==> r == Outcome(Err(TrackingSystem(h, systems).error), {})
    ensures (TrackingSystem(h, systems).Ok? && TrackingSystem(h, systems).value.0 == "gappt") ==>
      r == Outcome(Ok(Scalar(Null)), set k | k in TrackingSystem(h, systems).value.1)
    ensures (TrackingSystem(h, systems).Ok? && TrackingSystem(h, systems).value.0 != "gappt" &&
             FirstCompletePair(h, pairs).Some?) ==>
      var frame, used, pair := TrackingSystem(h, systems).value.0, TrackingSystem(h, systems).value.1,
                               pairs[FirstCompletePair(h, pairs).value];
      r == AtTimeAndPlace((t, l) => Sky(h[pair.0], h[pair.1], frame, raUnit, decUnit, t, l), begin, location,
                          {pair.0, pair.1} + set k | k in used)
    ensures (TrackingSystem(h, systems).Ok? && TrackingSystem(h, systems).value.0 != "gappt" &&
             FirstCompletePair(h, pairs).None?) ==>
      r == NonScienceDefault(observationType)
  {
    match TrackingSystem(h, systems)
    case Err(e) => Outcome(Err(e), {})
    case Ok(fu) =>
      var (frame, used) := fu;
      if frame == "gappt" then Outcome(Ok(Scalar(Null)), set k | k in used)
      else match FirstCompletePair(h, pairs)
        case Some(i) =>
          var (raKey, decKey) := pairs[i];
          AtTimeAndPlace((t, l) => Sky(h[raKey], h[decKey], frame, raUnit, decUnit, t, l), begin, location,
                         {raKey, decKey} + set k | k in used)
        case None => NonScienceDefault(observationType)
  }

  /** A moving target ("gappt") never gets a sky position, and a sky
      position always carries the frame and the first complete pair. */
  lemma TrackingShape(h: Header, systems: seq<string>, pairs: seq<(string, string)>, raUnit: Unit, decUnit: Unit,
                      begin: Outcome<Datum>, location: Outcome<Datum>, observationType: Outcome<Datum>)
    requires TrackingSystem(h, systems).Ok?
    ensures var r := TrackingFromDegreeHeaders(h, systems, pairs, raUnit, decUnit, begin, location, observationType);
      r.result.Ok? && r.result.value.Sky? ==>
        TrackingSystem(h, systems).value.0 != "gappt" && FirstCompletePair(h, pairs).Some? &&
        r.result.value.frame == TrackingSystem(h, systems).value.0 &&
        r.result.value.ra == h[pairs[FirstCompletePair(h, pairs).value].0]
  {
  }

  /** `self.to_a() * k + self.to_b()`: the first property is computed and
      multiplied before the second is called; errors of either call or of
      the arithmetic propagate with the cards recorded so far. */
  function LinearId(a: Outcome<Datum>, k: int, b: Outcome<Datum>): (r: Outcome<Datum>)
    ensures a.result.Err? ==> r == Outcome(Err(a.result.error), a.cards)
    ensures (a.result.Ok? && a.result.value.Scalar? && a.result.value.v.Int?) ==>
      r.cards == a.cards + b.cards
    ensures (a.result.Ok? && a.result.value.Scalar? && a.result.value.v.Int? &&
             b.result.Ok? && b.result.value.Scalar? && b.result.value.v.Int?) ==>
      r.result == Ok(Scalar(Int(a.result.value.v.i * k + b.result.value.v.i)))
  {
    match a.result
    case Err(e) => Outcome(Err(e), a.cards)
    case Ok(x) =>
      if !x.Scalar? then Outcome(Err(TypeError("unsupported operand type for *")), a.cards)
      else match PyMulInt(x.v, k)
        case Err(e) => Outcome(Err(e), a.cards)
        case Ok(m) =>
          match b.result
          case Err(e) => Outcome(Err(e), a.cards + b.cards)
          case Ok(y) =>
            if !y.Scalar? then Outcome(Err(TypeError("unsupported operand type for +")), a.cards + b.cards)
            else match PyAdd(m, y.v)
              case Err(e) => Outcome(Err(e), a.cards + b.cards)
              case Ok(s) => Outcome(Ok(Scalar(s)), a.cards + b.cards)
  }

  /** With detector numbers in `[0, k)`, the combined identifier
      determines both the exposure and the detector. */
  lemma LinearIdInjective(e1: int, d1: int, e2: int, d2: int, k: int)
    requires k > 0 && 0 <= d1 < k && 0 <= d2 < k
    requires e1 * k + d1 == e2 * k + d2
    ensures e1 == e2 && d1 == d2
  {
    StepBound(e1 - e2, k);
    assert (e1 - e2) * k == e1 * k - e2 * k;
  }

  /** A non-zero multiple of `k` is at least `k` away from zero. */
  lemma StepBound(q: int, k: int)
    requires k > 0
    ensures q >= 1 ==> q * k >= k
    ensures q <= -1 ==> q * k <= -k
  {
    if q >= 1 {
      MultiplyMonotone(1, q, k);
    } else if q <= -1 {
      MultiplyMonotone(q, -1, k);
    }
  }

  lemma MultiplyMonotone(x: int, y: int, k: int)
    requires x <= y && k > 0
    ensures x * k <= y * k
  {
  }
}
