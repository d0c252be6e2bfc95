/** The standard properties a modern translator can provide, each with
    the name of the type it is documented to return.  The type name
    drives the coercion applied by trivial resolvers; the set of names
    decides which properties get base resolvers and which map entries
    are reported as unknown. */
module Properties {

  /** Property names in their declared order. */
  const Names: seq<string> := [
    "telescope", "instrument", "location", "exposure_id", "visit_id",
    "physical_filter", "datetime_begin", "datetime_end", "exposure_time",
    "dark_time", "boresight_airmass", "boresight_rotation_angle",
    "boresight_rotation_coord", "detector_num", "detector_name",
    "detector_exposure_id", "object", "temperature", "pressure",
    "relative_humidity", "tracking_radec", "altaz_begin",
    "science_program", "observation_type", "observation_id"]

  /** The documented return type of each property. */
  const Types: map<string, string> := map[
    "telescope" := "str",
    "instrument" := "str",
    "location" := "astropy.coordinates.EarthLocation",
    "exposure_id" := "int",
    "visit_id" := "int",
    "physical_filter" := "str",
    "datetime_begin" := "astropy.time.Time",
    "datetime_end" := "astropy.time.Time",
    "exposure_time" := "astropy.units.Quantity",
    "dark_time" := "astropy.units.Quantity",
    "boresight_airmass" := "float",
    "boresight_rotation_angle" := "astropy.coordinates.Angle",
    "boresight_rotation_coord" := "str",
    "detector_num" := "int",
    "detector_name" := "str",
    "detector_exposure_id" := "int",
    "object" := "str",
    "temperature" := "astropy.units.Quantity",
    "pressure" := "astropy.units.Quantity",
    "relative_humidity" := "float",
    "tracking_radec" := "astropy.coordinates.SkyCoord",
    "altaz_begin" := "astropy.coordinates.AltAz",
    "science_program" := "str",
    "observation_type" := "str",
    "observation_id" := "str"]

  predicate Known(p: string) {
    p in Types
  }

  /** How a trivial resolver post-processes the value it found. */
  datatype Coercion = ToText | ToFloat | AsRead

  /** "str" properties become text, "float" ones floats; every other
      property, including one not in the table, is returned as read. */
  function CoercionOf(p: string): (c: Coercion)
    ensures c == ToText <==> p in Types && Types[p] == "str"
    ensures c == ToFloat <==> p in Types && Types[p] == "float"
  {
    if p in Types && Types[p] == "str" then ToText
    else if p in Types && Types[p] == "float" then ToFloat
    else AsRead
  }

  /** The table's keys are exactly the listed names, each once. */
  lemma NamesAreTheTable()
    ensures |Names| == 25
    ensures forall i, j :: 0 <= i < j < |Names| ==> Names[i] != Names[j]
    ensures forall p :: p in Types <==> p in Names
  {
  }

  /** Exactly these nine properties are converted to text. */
  lemma TextProperties(p: string)
    ensures CoercionOf(p) == ToText <==>
      p in {"telescope", "instrument", "physical_filter", "boresight_rotation_coord",
            "detector_name", "object", "science_program", "observation_type", "observation_id"}
  {
  }

  /** Exactly the airmass and the humidity are forced to float. */
  lemma FloatProperties(p: string)
    ensures CoercionOf(p) == ToFloat <==> p == "boresight_airmass" || p == "relative_humidity"
  {
  }

  /** The integer identifiers and the quantities are returned as read. */
  lemma UncoercedProperties(p: string)
    requires p in {"exposure_id", "visit_id", "detector_num", "detector_exposure_id",
                   "datetime_begin", "datetime_end", "exposure_time", "dark_time",
                   "temperature", "pressure"}
    ensures CoercionOf(p) == AsRead
  {
  }
}
