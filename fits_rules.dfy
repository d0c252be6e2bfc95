/** The standard FITS rules every instrument translator inherits:
    recognising a header by its instrument, reading ISO dates with their
    time scale, and the geocentric observatory location. */
module FitsRules {
  import opened Wrappers
  import opened Text
  import opened Values

  /** `s[:n]`. */
  function Take(s: string, n: nat): (r: string)
    ensures |r| == if |s| <= n then |s| else n
    ensures r == s[..|r|]
  {
    if |s| <= n then s else s[..n]
  }

  /** The date part (at most ten characters) of a date value joined by
      "T" to the text of a time value; slicing needs the date to be
      text. */
  function DateTimeText(env: Env, date: Value, time: Value): (r: Result<string>)
    ensures r.Ok? <==> date.Str?
    ensures date.Str? ==>
      var d := Take(date.s, 10);
      |r.value| == |d| + 1 + |PyStr(env, time)| &&
      r.value[..|d|] == d && r.value[|d|] == 'T' && r.value[|d| + 1..] == PyStr(env, time)
  {
    if date.Str? then
      var d := Take(date.s, 10);
      var t := PyStr(env, time);
      assert (d + "T" + t)[..|d|] == d;
      assert (d + "T" + t)[|d| + 1..] == t;
      Ok(d + "T" + t)
    else Err(TypeError("date is not text"))
  }

  /** `_from_fits_date_string`: with a time value, the date keeps its
      first ten characters and gains the time after a "T".  A `Null` time
      is the absent optional argument. */
  function FitsDateString(env: Env, date: Value, scale: string, time: Value): (r: Result<Datum>)
    ensures time.Null? ==> r == Ok(Time(date, scale))
    ensures !time.Null? ==> (r.Ok? <==> date.Str?)
    ensures !time.Null? && date.Str? ==> r == Ok(Time(Str(DateTimeText(env, date, time).value), scale))
  {
    if time.Null? then Ok(Time(date, scale))
    else match DateTimeText(env, date, time)
      case Err(e) => Err(e)
      case Ok(text) => Ok(Time(Str(text), scale))
  }

  /** The time scale of a header: the lower-cased TIMESYS when present,
      otherwise "utc"; a non-text TIMESYS has no `lower`. */
  function TimeScale(h: Header): (r: Result<string>)
    ensures "TIMESYS" !in h ==> r == Ok("utc")
    ensures "TIMESYS" in h ==> (r.Ok? <==> h["TIMESYS"].Str?)
    ensures "TIMESYS" in h && h["TIMESYS"].Str? ==> r == Ok(Lower(h["TIMESYS"].s))
  {
    if "TIMESYS" in h then
      match AsText(h["TIMESYS"])
      case Err(e) => Err(e)
      case Ok(s) => Ok(Lower(s))
    else Ok("utc")
  }

  /** `_from_fits_date(dateKey)`: the date card on the header's time
      scale.  It records the date card, and TIMESYS only when present. */
  function FromFitsDate(h: Header, dateKey: string): (r: Outcome<Datum>)
    ensures r.result.Ok? <==> TimeScale(h).Ok? && dateKey in h
    ensures r.result.Ok? ==> r.result.value == Time(h[dateKey], TimeScale(h).value)
    ensures r.result.Ok? ==> r.cards == {dateKey} + (if "TIMESYS" in h then {"TIMESYS"} else {})
    ensures r.result.Err? ==> r.cards == {}
  {
    match TimeScale(h)
    case Err(e) => Outcome(Err(e), {})
    case Ok(scale) =>
      var used := {dateKey} + (if "TIMESYS" in h then {"TIMESYS"} else {});
      if dateKey !in h then Outcome(Err(KeyError([dateKey])), {})
      else Outcome(Ok(Time(h[dateKey], scale)), used)
  }

  /** A time from a date card and a separate time-of-day card on the UTC
      scale, recording both cards. */
  function DateWithTime(h: Header, env: Env, dateKey: string, timeKey: string): (r: Outcome<Datum>)
    ensures dateKey !in h ==> r == Outcome(Err(KeyError([dateKey])), {})
    ensures dateKey in h && timeKey !in h ==> r == Outcome(Err(KeyError([timeKey])), {})
    ensures dateKey in h && timeKey in h ==>
      r.result == FitsDateString(env, h[dateKey], "utc", h[timeKey]) &&
      r.cards == if r.result.Ok? then {dateKey, timeKey} else {}
  {
    if dateKey !in h then Outcome(Err(KeyError([dateKey])), {})
    else if timeKey !in h then Outcome(Err(KeyError([timeKey])), {})
    else match FitsDateString(env, h[dateKey], "utc", h[timeKey])
      case Err(e) => Outcome(Err(e), {})
      case Ok(t) => Outcome(Ok(t), {dateKey, timeKey})
  }

  const GeocentricCards: seq<string> := ["OBSGEO-X", "OBSGEO-Y", "OBSGEO-Z"]

  /** The location from the three geocentric cards, all recorded; the
      first missing one is a KeyError. */
  function GeocentricLocation(h: Header): (r: Outcome<Datum>)
    ensures r.result.Ok? <==> forall c :: c in GeocentricCards ==> c in h
    ensures r.result.Ok? ==>
      r == Outcome(Ok(Geocentric(h["OBSGEO-X"], h["OBSGEO-Y"], h["OBSGEO-Z"])), {"OBSGEO-X", "OBSGEO-Y", "OBSGEO-Z"})
    ensures r.result.Err? ==> r.cards == {} && r.result.error.KeyError?
  {
    if "OBSGEO-X" !in h then Outcome(Err(KeyError(["OBSGEO-X"])), {})
    else if "OBSGEO-Y" !in h then Outcome(Err(KeyError(["OBSGEO-Y"])), {})
    else if "OBSGEO-Z" !in h then Outcome(Err(KeyError(["OBSGEO-Z"])), {})
    else Outcome(Ok(Geocentric(h["OBSGEO-X"], h["OBSGEO-Y"], h["OBSGEO-Z"])), {"OBSGEO-X", "OBSGEO-Y", "OBSGEO-Z"})
  }

  /** `canTranslate` of the FITS translator, given what `to_instrument`
      produces for the header: no supported instrument never matches, a
      KeyError declines, any other error propagates, and otherwise the
      instrument must equal the supported one. */
  function FitsRecognizes(supported: Option<string>, instrument: Result<Datum>): (r: Result<bool>)
    ensures supported.None? ==> r == Ok(false)
    ensures supported.Some? && instrument.Err? ==>
      r == if instrument.error.KeyError? then Ok(false) else Err(instrument.error)
    ensures supported.Some? && instrument.Ok? ==> r == Ok(instrument.value == Scalar(Str(supported.value)))
  {
    match supported
    case None => Ok(false)
    case Some(name) =>
      match instrument
      case Err(e) => if e.KeyError? then Ok(false) else Err(e)
      case Ok(d) => Ok(d == Scalar(Str(name)))
  }
}
