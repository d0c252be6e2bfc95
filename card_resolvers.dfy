/** Resolvers that read a property straight from header cards: the
    quantity reader and the trivial resolvers built from a class's
    trivial map, in the modern form (a list of candidate cards, type
    coercion) and the legacy form (one card, no coercion). */
module CardResolvers {
  import opened Wrappers
  import opened Values
  import opened Validation
  import opened Properties

  /** A modern trivial-map entry: candidate cards in order of preference,
      and the optional default (`Null` for none), bounds and unit. */
  datatype TrivialSpec = TrivialSpec(
    keys: seq<string>, default: Value, minimum: Option<real>, maximum: Option<real>, unit: Option<Unit>)

  /** A legacy trivial-map entry, which names a single card. */
  datatype CardSpec = CardSpec(
    key: string, default: Value, minimum: Option<real>, maximum: Option<real>, unit: Option<Unit>)

  /** The magnitude of a quantity: text is converted to a float first. */
  function Magnitude(env: Env, v: Value): (r: Result<Value>)
    ensures !v.Str? ==> r == Ok(v)
    ensures v.Str? && r.Ok? ==> r.value.Num? || r.value.NaN?
  {
    if v.Str? then PyFloat(env, v) else Ok(v)
  }

  /** `quantity_from_card`: the first candidate card present is read,
      converted to a number if it is text, recorded, validated when a
      default is given, and given the unit. */
  function QuantityFromCard(h: Header, env: Env, keys: seq<string>, unit: Unit, default: Value,
                            minimum: Option<real>, maximum: Option<real>): (r: Outcome<Datum>)
    ensures FirstPresent(h, keys).None? ==> r == Outcome(Err(KeyError(keys)), {})
    ensures FirstPresent(h, keys).Some? ==>
      var k := keys[FirstPresent(h, keys).value];
      (Magnitude(env, h[k]).Err? ==> r == Outcome(Err(Magnitude(env, h[k]).error), {})) &&
      (Magnitude(env, h[k]).Ok? ==> r.cards == {k} && r.result.Ok?) &&
      (Magnitude(env, h[k]).Ok? && default.Null? ==>
         r.result == Ok(Quantity(Magnitude(env, h[k]).value, unit))) &&
      (Magnitude(env, h[k]).Ok? && !default.Null? ==>
         r.result == Ok(Quantity(ValidateValue(Magnitude(env, h[k]).value, default, minimum, maximum).value, unit)))
  {
    match FirstPresent(h, keys)
    case None => Outcome(Err(KeyError(keys)), {})
    case Some(i) =>
      var k := keys[i];
      match Magnitude(env, h[k])
      case Err(e) => Outcome(Err(e), {})
      case Ok(v) =>
        if default.Null? then Outcome(Ok(Quantity(v, unit)), {k})
        else match ValidateValue(v, default, minimum, maximum)
          case Err(e) => Outcome(Err(e), {k})
          case Ok(w) => Outcome(Ok(Quantity(w, unit)), {k})
  }

  /** A quantity never records more than the one card it read, and a
      missing card is an error even when a default is given. */
  lemma QuantityCards(h: Header, env: Env, keys: seq<string>, unit: Unit, default: Value,
                      minimum: Option<real>, maximum: Option<real>)
    ensures var r := QuantityFromCard(h, env, keys, unit, default, minimum, maximum);
      |r.cards| <= 1 && (forall k :: k in r.cards ==> k in keys && k in h) &&
      (r.result.Ok? ==> r.result.value.Quantity? && r.result.value.unit == unit)
  {
  }

  /** The post-processing a property's documented type calls for. */
  function Coerce(env: Env, c: Coercion, v: Value): (r: Result<Value>)
    ensures c == ToText ==> r.Ok? && r.value.Str? && (v.Str? ==> r.value == v)
    ensures c == ToFloat && r.Ok? ==> r.value.Num? || r.value.NaN?
    ensures c == ToFloat && (v.Num? || v.NaN?) ==> r == Ok(v)
    ensures c == AsRead ==> r == Ok(v)
  {
    match c
    case ToText => if v.Str? then Ok(v) else Ok(Str(PyStr(env, v)))
    case ToFloat => if v.Num? || v.NaN? then Ok(v) else PyFloat(env, v)
    case AsRead => Ok(v)
  }

  /** Returning `v` for property `p` after recording `cards`; a failed
      conversion raises after the cards were recorded. */
  function Finish(env: Env, p: string, v: Value, cards: set<string>): (r: Outcome<Datum>)
    ensures r.cards == cards
  {
    match Coerce(env, CoercionOf(p), v)
    case Ok(w) => Outcome(Ok(Scalar(w)), cards)
    case Err(e) => Outcome(Err(e), cards)
  }

  /** The modern trivial resolver for property `p`. */
  function ModernTrivial(h: Header, env: Env, p: string, spec: TrivialSpec): (r: Outcome<Datum>)
    ensures spec.unit.Some? ==>
      r == QuantityFromCard(h, env, spec.keys, spec.unit.value, spec.default, spec.minimum, spec.maximum)
    ensures spec.unit.None? && FirstPresent(h, spec.keys).None? ==>
      r.cards == {} &&
      (spec.default.Null? ==> r.result == Err(KeyError(spec.keys))) &&
      (!spec.default.Null? ==> r == Finish(env, p, spec.default, {}))
    ensures spec.unit.None? && FirstPresent(h, spec.keys).Some? ==>
      var k := spec.keys[FirstPresent(h, spec.keys).value];
      r.cards == {k} &&
      (spec.default.Null? || h[k].Str? ==> r == Finish(env, p, h[k], {k})) &&
      (!spec.default.Null? && !h[k].Str? ==>
         r == Finish(env, p, ValidateValue(h[k], spec.default, spec.minimum, spec.maximum).value, {k}))
  {
    if spec.unit.Some? then
      QuantityFromCard(h, env, spec.keys, spec.unit.value, spec.default, spec.minimum, spec.maximum)
    else match FirstPresent(h, spec.keys)
      case None =>
        if spec.default.Null? then Outcome(Err(KeyError(spec.keys)), {})
        else Finish(env, p, spec.default, {})
      case Some(i) =>
        var k := spec.keys[i];
        var v := h[k];
        if !spec.default.Null? && !v.Str? then
          match ValidateValue(v, spec.default, spec.minimum, spec.maximum)
          case Err(e) => Outcome(Err(e), {})
          case Ok(w) => Finish(env, p, w, {k})
        else Finish(env, p, v, {k})
  }

  /** The type of a modern trivial result follows the property's
      documented type: text for "str", a float for "float", and the value
      as read (possibly validated) otherwise. */
  lemma ModernTrivialTyped(h: Header, env: Env, p: string, spec: TrivialSpec)
    requires spec.unit.None?
    ensures var r := ModernTrivial(h, env, p, spec);
      (CoercionOf(p) == ToText && r.result.Ok? ==>
         r.result.value.Scalar? && r.result.value.v.Str?) &&
      (CoercionOf(p) == ToFloat && r.result.Ok? ==>
         r.result.value.Scalar? && (r.result.value.v.Num? || r.result.value.v.NaN?)) &&
      (CoercionOf(p) == ToText && (FirstPresent(h, spec.keys).Some? || !spec.default.Null?) ==>
         r.result.Ok?) &&
      (CoercionOf(p) == AsRead && spec.default.Null? && FirstPresent(h, spec.keys).Some? ==>
         r.result == Ok(Scalar(h[spec.keys[FirstPresent(h, spec.keys).value]])))
  {
  }

  /** The legacy trivial resolver: exactly one card is read; with a
      default the value is validated, and it is returned without any
      type coercion. */
  function LegacyTrivial(h: Header, env: Env, spec: CardSpec): (r: Outcome<Datum>)
    ensures spec.unit.Some? ==>
      r == QuantityFromCard(h, env, [spec.key], spec.unit.value, spec.default, spec.minimum, spec.maximum)
    ensures spec.unit.None? && spec.key !in h ==> r == Outcome(Err(KeyError([spec.key])), {})
    ensures spec.unit.None? && spec.key in h && spec.default.Null? ==>
      r == Outcome(Ok(Scalar(h[spec.key])), {spec.key})
    ensures spec.unit.None? && spec.key in h && !spec.default.Null? && h[spec.key].Str? ==>
      r.result.Err? && r.result.error.TypeError? && r.cards == {}
    ensures spec.unit.None? && spec.key in h && !spec.default.Null? && !h[spec.key].Str? ==>
      r.cards == {spec.key} && r.result.Ok? &&
      (r.result.value == Scalar(h[spec.key]) || r.result.value == Scalar(spec.default))
  {
    if spec.unit.Some? then
      QuantityFromCard(h, env, [spec.key], spec.unit.value, spec.default, spec.minimum, spec.maximum)
    else if spec.key !in h then Outcome(Err(KeyError([spec.key])), {})
    else
      var v := h[spec.key];
      if spec.default.Null? then Outcome(Ok(Scalar(v)), {spec.key})
      else match ValidateValue(v, spec.default, spec.minimum, spec.maximum)
        case Err(e) => Outcome(Err(e), {})
        case Ok(w) => Outcome(Ok(Scalar(w)), {spec.key})
  }

  /** The legacy quantity reader on its single card: a missing card is a
      KeyError even with a default, and once the value is a number the
      card is recorded whether or not validation then replaces it. */
  lemma SingleCardQuantity(h: Header, env: Env, key: string, unit: Unit, default: Value,
                           minimum: Option<real>, maximum: Option<real>)
    ensures var r := QuantityFromCard(h, env, [key], unit, default, minimum, maximum);
      (key !in h ==> r == Outcome(Err(KeyError([key])), {})) &&
      (key in h && Magnitude(env, h[key]).Ok? ==> r.cards == {key} && r.result.Ok?) &&
      (key in h && Magnitude(env, h[key]).Err? ==> r.cards == {} && r.result.Err?)
  {
    assert key in h ==> FirstPresent(h, [key]) == Some(0);
  }
}
