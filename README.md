# Header translation in astro_metadata_translator, modelled in Dafny

The package turns an instrument's FITS-style header into standard
observation properties (telescope, instrument, start and end time,
location, exposure identifiers, filters, pointing). Each instrument has a
translator class. A class build step (the metaclass) turns each class's
trivial map and constant map into `to_<property>` methods. The class also
writes methods of its own by hand. Every translator instance records the
header cards its methods use. A registry of named classes picks the first
class that recognises a header.

The model covers three generations of that engine:

- **The current engine** (`astro_metadata_translator/translator.py`): the
  validation rule, `quantity_from_card`, trivial and constant resolvers
  with type coercion driven by the property table, the abstract base and
  the stub class, registration and `determine_translator`. These are in
  `validation.dfy`, `card_resolvers.dfy`, `properties.dfy`,
  `class_build.dfy`, `registry.dfy`, `engine.dfy`, `modern_classes.dfy`
  and `modern_behaviour.dfy`.
- **The older engine** (`lsst/obs/metadata/translator.py` with
  `observationInfo.py`): single-card trivial resolvers without coercion,
  the FITS base class, and the `ObservationInfo` loop that calls every
  standard property, catches AttributeError and KeyError, and strips the
  used cards from the header. These are in `legacy_classes.dfy`,
  `legacy_behaviour.dfy`, `legacy_observation.dfy` and
  `legacy_fixture.dfy`. The last of these replays the package's own test
  scenario: the test translator, given explicitly or found by the
  registry.
- **The earliest engine** (`lsst/obs/metadata/metadata.py`): static
  functions of the header, in `static_engine.dfy`.

The instrument rules are in `fits_rules.dfy`, `common_rules.dfy`,
`subaru_rules.dfy`, `megaprime_rules.dfy` and `decam_rules.dfy`. They
cover SuprimeCam and HSC, MegaPrime and DECam, in both packages. They are
written as pure functions that return an `Outcome`: a result (a value or
the Python exception raised) together with the cards recorded before that
result.

A class's table maps property names to resolvers. `Engine.Eval` runs the
resolver bound to a name. A hand-written method may call other properties
of the same translator. `Engine.WellFormed` (ranked property names) rules
out a method calling itself, and that is what makes translation
terminate.

The `Engine.Translator` class holds the header and its `usedCards`. Its
methods run the trivial-map and quantity loops and union the cards they
use into `usedCards`. The `ObservationInfo` class and its
`MakeObservationInfo` constructor method run the property loop over such
a translator.

Astropy objects (`Time`, `Quantity`, `EarthLocation`, `SkyCoord`, `AltAz`,
`Angle`) are kept symbolic. They are the `Values.Datum` constructors,
which record their arguments. Python's `float(str)` and `str(float)` are
the functions of an `Env` parameter.

## Model

Paths are relative to the repository root.

| member | source | states |
|---|---|---|
| Validation.ValidateValue | python/astro_metadata_translator/translator.py:304-334 | None or NaN gives the default; a number below the minimum or above the maximum gives the default, never a clamped bound; any other non-text value is returned unchanged; text cannot be tested for NaN and raises TypeError |
| Validation.ValidateIdempotent | python/lsst/obs/metadata/translator.py:248-278 | with an acceptable default, validating the result again changes nothing |
| CardResolvers.QuantityFromCard | python/astro_metadata_translator/translator.py:336-382 | the first candidate card present is read, converted to a float if it is text, recorded, validated only when a default is given, and given the unit; no candidate present is a KeyError naming the candidates, even when a default is given |
| CardResolvers.QuantityCards | python/astro_metadata_translator/translator.py:359-382 | at most one card is recorded, it is one of the candidates and present, and a result is always a quantity in the requested unit |
| CardResolvers.Coerce | python/astro_metadata_translator/translator.py:159-167 | a "str" property always becomes text, leaving text alone; a "float" property becomes a float or NaN; the others are returned as read |
| CardResolvers.ModernTrivial | python/astro_metadata_translator/translator.py:140-168 | with a unit it is exactly `quantity_from_card`; otherwise the first candidate present is recorded and validated when a default is given and it is not text; with none present the default is used (recording nothing), else KeyError |
| CardResolvers.ModernTrivialTyped | python/astro_metadata_translator/translator.py:159-167 | a "str" result is text and a "float" result a float; a "str" property never fails once a card or a default exists; an uncoerced property with no default returns the card as read |
| CardResolvers.LegacyTrivial | python/lsst/obs/metadata/translator.py:121-129 | one card; missing is KeyError; without a default the raw value with the card recorded; with a default a text value raises TypeError and any other value is either kept or replaced by the default; no type coercion |
| CardResolvers.SingleCardQuantity | python/lsst/obs/metadata/translator.py:280-313 | on one card: missing is KeyError even with a default; a numeric reading records the card whether or not validation replaces the value; a failed float conversion records nothing |
| Properties.CoercionOf | python/astro_metadata_translator/properties.py:35-73 | the coercion a property gets comes from its type name in the table: "str" to text, "float" to float, everything else as read |
| Properties.NamesAreTheTable | python/astro_metadata_translator/properties.py:35-73 | the 25 listed standard property names are distinct, and they are exactly the table's keys |
| Properties.TextProperties | python/astro_metadata_translator/properties.py:35-73 | exactly the nine "str" properties (telescope, instrument, physical_filter, boresight_rotation_coord, detector_name, object, science_program, observation_type, observation_id) are converted to text |
| Properties.FloatProperties | python/astro_metadata_translator/properties.py:50-64 | exactly boresight_airmass and relative_humidity are forced to float |
| Properties.UncoercedProperties | python/astro_metadata_translator/properties.py:38-63 | the integer identifiers and the quantity-typed properties are returned as read |
| ClassBuild.Build | python/astro_metadata_translator/translator.py:181-206 | the inherited maps are reused when a class declares none; constants win over trivial entries, which win over class-body methods, which win over the parent's table; the table binds exactly the parent's names, the methods and both maps' names |
| ClassBuild.Install | python/astro_metadata_translator/translator.py:191-206 | the metaclass loops (trivial entries first, constants after) build exactly `Build`'s state, and report exactly the map names outside the standard properties |
| ClassBuild.Overlay | python/lsst/obs/metadata/translator.py:148-156 | one installation loop binds every entry of the map over a copy of the table, and collects the entries whose names are unknown |
| Registry.IndexOf | python/astro_metadata_translator/translator.py:186 | the position of a name's first (and only) occurrence, or none if no entry has that name |
| Registry.Registered | python/astro_metadata_translator/translator.py:186 | dictionary assignment: a new name joins at the end, while a known name is rebound where it stands |
| Registry.RegisteredLaws | python/astro_metadata_translator/translator.py:186 | after registering, the name looks up the new class, every other name keeps its class, names stay unique, and the order of names changes only by a new name being appended |
| Registry.SearchMeaning | python/astro_metadata_translator/translator.py:276-281 | a class found accepts and every class before it declines; when all decline the answer is ValueError; when the search fails, every accepting class has a class with an error before it |
| Registry.SelectFirst | python/astro_metadata_translator/translator.py:276-279 | when the classes before position i decline and class i accepts, class i is chosen |
| Registry.RegistrationsAgree | python/astro_metadata_translator/translator.py:185-187 | the registry built by defining classes in turn depends only on the names the classes carry |
| Registry.RegistrationsAppend | python/astro_metadata_translator/translator.py:185-187 | defining one more class registers it after all the earlier registrations |
| Registry.Registry.Register | python/astro_metadata_translator/translator.py:186 | the registry's entries become `Registered(old entries, name, class)` |
| Registry.Registry.Determine | python/astro_metadata_translator/translator.py:276-281 | the search loop returns exactly the selection `Select` specifies |
| Registry.Registry.RegisterAll | python/lsst/obs/metadata/translator.py:144-145 | registering classes as they are defined gives exactly `Registrations` |
| Engine.OnFilter | python/lsst/obs/metadata/translators/hsc.py:84-88 | a rule on the physical filter is applied to what the same translator's physical filter gives, with its cards, and its error is passed on |
| Engine.BuildKeepsWellFormed | python/astro_metadata_translator/translator.py:191-206 | the build step keeps a table well formed, because map entries never become methods that call other properties |
| Engine.Translator.constructor | python/astro_metadata_translator/translator.py:232-234 | a new translator keeps its header and has used no card |
| Engine.Translator.Translate | python/astro_metadata_translator/translator.py:283-301 | `to_<p>()` returns exactly `Eval`'s result, and the cards used grow by exactly `Eval`'s cards |
| Engine.Translator.ReadQuantity | python/astro_metadata_translator/translator.py:336-382 | the candidate loop returns `QuantityFromCard`'s result, and the cards used grow by its cards |
| Engine.Translator.ReadTrivial | python/astro_metadata_translator/translator.py:140-168 | the trivial-resolver loop returns `ModernTrivial`'s result, and the cards used grow by its cards |
| ModernClasses.ForAll | python/astro_metadata_translator/translator.py:424-426 | the module-level loop binds every standard property to the same resolver, and keeps the maps, the name and the other bindings |
| ModernClasses.InstallForAll | python/astro_metadata_translator/translator.py:479-480 | the loop over the property table builds exactly `ForAll`'s state |
| ModernClasses.MethodsWellFormed | python/astro_metadata_translator/translators/megaprime.py:194-197 | every method of every class body calls only properties of lower rank |
| ModernClasses.StatesWellFormed | python/astro_metadata_translator/translator.py:181-206 | every class table is well formed, so every property of every class translates |
| ModernClasses.CanTranslate | python/astro_metadata_translator/translator.py:238-253 | abstract (NotImplementedError) in the base and stub classes; the FITS and Subaru bases, which support no instrument, decline; SuprimeCam uses its own recogniser |
| ModernClasses.DefinedNames | python/astro_metadata_translator/translators/suprimecam.py:42-45 | every class in definition order carries exactly the name of its supported instrument |
| ModernClasses.InstrumentRegistrations | python/astro_metadata_translator/translators/megaprime.py:51-54 | registering by supported instrument gives SuprimeCam, MegaPrime and DECam in that order |
| ModernClasses.RegisteredClasses | python/astro_metadata_translator/translator.py:185-187 | defining the classes registers exactly SuprimeCam, MegaPrime and DECam, in that order |
| ModernClasses.ClassName | python/astro_metadata_translator/translators/decam.py:39-42 | every class's name is the instrument it supports, so only the three instrument classes carry one |
| ModernBehaviour.BaseRaises | python/astro_metadata_translator/translator.py:402-403 | every standard property of the base class raises NotImplementedError without reading a card, and it has no other method |
| ModernBehaviour.StubTable | python/astro_metadata_translator/translator.py:429-480 | the stub class binds exactly the standard properties, each to the stub method |
| ModernBehaviour.StubAnswersNone | python/astro_metadata_translator/translator.py:459-462 | every standard property of the stub class is None, read from no card |
| ModernBehaviour.SuprimeCamLocation | python/astro_metadata_translator/translators/subaru.py:35-45 | SuprimeCam's location is the Subaru site, read from no card: the Subaru method replaces the FITS one, and SuprimeCam does not redefine it |
| ModernBehaviour.FitsInstrument | python/astro_metadata_translator/translator.py:191-197 | the FITS class reads the instrument from INSTRUME |
| ModernBehaviour.MegaPrimeInstrument | python/astro_metadata_translator/translators/megaprime.py:47-71 | MegaPrime inherits the FITS instrument card, because its own maps do not mention the instrument |
| ModernBehaviour.DecamInstrument | python/astro_metadata_translator/translators/decam.py:35-64 | DECam inherits the FITS instrument card |
| ModernBehaviour.InstrumentFromCard | python/astro_metadata_translator/translator.py:140-168 | an instrument read from INSTRUME is that card's text with the card recorded, and a KeyError when the card is absent |
| ModernBehaviour.MegaPrimeRecognized | python/lsst/obs/metadata/translators/fits.py:50-79 | MegaPrime accepts a header exactly when INSTRUME is present and, as text, is "MegaPrime" |
| ModernBehaviour.DecamRecognized | python/lsst/obs/metadata/translators/fits.py:50-79 | DECam accepts a header exactly when INSTRUME is present and, as text, is "DECam" |
| ModernBehaviour.MegaPrimeRotation | python/astro_metadata_translator/translators/megaprime.py:57-58 | MegaPrime's rotation angle is the constant unknown (NaN) angle, read from no card |
| ModernBehaviour.TwoCandidates | python/astro_metadata_translator/translator.py:145-158 | a float property with two candidates reads the first that is present, records only that card, and raises KeyError naming both when neither is present |
| ModernBehaviour.MegaPrimeHumidity | python/astro_metadata_translator/translators/megaprime.py:69 | MegaPrime's humidity prefers RELHUMID to HUMIDITY, records only the card it reads, and raises KeyError naming both when neither is present |
| ModernBehaviour.BoundedCard | python/astro_metadata_translator/translator.py:145-158 | a bounded float property with a default gives the default when its card is absent or out of range and the card's value otherwise, recording the card whenever it is present |
| ModernBehaviour.DecamHumidity | python/astro_metadata_translator/translators/decam.py:57 | DECam's humidity is 40 when HUMIDITY is absent or outside [0, 100], and the card's value otherwise |
| ModernBehaviour.DecamTemperatureRequired | python/astro_metadata_translator/translators/decam.py:58 | DECam's temperature has a unit, so an absent OUTTEMP raises KeyError although a default is declared |
| ModernBehaviour.SuprimeCamDeclines | python/astro_metadata_translator/translators/suprimecam.py:69-91 | a header whose INSTRUME names another instrument is not SuprimeCam's |
| ModernBehaviour.SelectionOrder | python/astro_metadata_translator/translator.py:276-281 | selection asks SuprimeCam, MegaPrime and DECam in that order |
| ModernBehaviour.SelectsMegaPrime | python/astro_metadata_translator/translator.py:276-279 | a MegaPrime header selects the MegaPrime translator, once SuprimeCam (registered first) declines it |
| ModernBehaviour.SelectsDecam | python/astro_metadata_translator/translator.py:276-279 | a DECam header selects the DECam translator, once SuprimeCam and MegaPrime decline it |
| ModernBehaviour.SelectsNone | python/astro_metadata_translator/translator.py:280-281 | a header naming any other instrument is understood by no class, and selection raises ValueError |
| FitsRules.FitsDateString | python/lsst/obs/metadata/translators/fits.py:82-106 | with a time, the date keeps at most its first ten characters and gains "T" and the time; without one, the date is used as it is |
| FitsRules.TimeScale | python/lsst/obs/metadata/translators/fits.py:119-123 | the scale is the lower-cased TIMESYS when present (AttributeError when TIMESYS is not text), and "utc" otherwise |
| FitsRules.FromFitsDate | python/lsst/obs/metadata/translators/fits.py:108-134 | the date card on the header's scale; it records the date card, and records TIMESYS only when present; a missing date card is a KeyError with nothing recorded |
| FitsRules.DateWithTime | python/lsst/obs/metadata/translators/suprimecam.py:110-122 | a date card and a time-of-day card make one UTC time, and both cards are recorded |
| FitsRules.GeocentricLocation | python/lsst/obs/metadata/translators/fits.py:160-174 | a location from OBSGEO-X, -Y and -Z with all three recorded; the first missing card is a KeyError and nothing is recorded |
| FitsRules.FitsRecognizes | python/lsst/obs/metadata/translators/fits.py:50-79 | no supported instrument declines; a KeyError from the instrument declines; any other error propagates; otherwise accept exactly when the instrument equals the supported one |
| CommonRules.NormalisedObservationType | python/astro_metadata_translator/translators/suprimecam.py:170-183 | the observation type is the card's text stripped and lower-cased, with "object" renamed "science" |
| CommonRules.ObservationTypeFrom | python/astro_metadata_translator/translators/decam.py:116-128 | a missing card is a KeyError and a non-text value an AttributeError, both before the card is recorded; otherwise the normalised type, with the card recorded |
| CommonRules.FirstCompletePair | python/astro_metadata_translator/translators/helpers.py:120-121 | the first RA/Dec pair whose two cards are both present; earlier pairs each lack a card |
| CommonRules.TrackingSystem | python/astro_metadata_translator/translators/helpers.py:110-119 | the frame is the stripped, lower-cased value of the first system card present, together with that card; "icrs" with no card when none is present |
| CommonRules.IsNonScience | python/astro_metadata_translator/translators/helpers.py:55-65 | a science observation raises KeyError; a failed observation type fails; any other observation type passes |
| CommonRules.NonScienceDefault | python/astro_metadata_translator/translators/helpers.py:129-131 | a science observation missing the wanted cards raises KeyError; any other observation gives None; the observation type's cards are recorded |
| CommonRules.AtTimeAndPlace | python/astro_metadata_translator/translators/helpers.py:122-126 | a coordinate is built with the start time and then the location; a failure of either propagates with the cards recorded so far |
| CommonRules.TrackingFromDegreeHeaders | python/astro_metadata_translator/translators/helpers.py:84-131 | a moving target ("gappt") gives None and records the system card; otherwise the first complete pair gives a sky position, with the pair and the system card recorded; with no pair, a science observation is a KeyError and any other observation gives None |
| CommonRules.TrackingShape | python/astro_metadata_translator/translators/helpers.py:112-128 | a moving target never gets a sky position, and a sky position always carries the frame and the first complete pair |
| CommonRules.LinearId | python/astro_metadata_translator/translators/megaprime.py:194-197 | `to_a() * k + to_b()`: the first property is computed and multiplied before the second is called; errors propagate with the cards recorded so far |
| CommonRules.ZenithDistanceRecoverable | python/astro_metadata_translator/translators/helpers.py:68-81 | the altitude is 90 degrees less the zenith distance, and different zenith distances give different altitudes |
| CommonRules.LinearIdInjective | python/astro_metadata_translator/translators/megaprime.py:194-197 | with detector numbers in [0, k), the combined identifier determines both the exposure and the detector |
| SubaruRules.PrefixRecognizes | python/astro_metadata_translator/translators/suprimecam.py:69-91 | INSTRUME decides when present; otherwise EXP-ID and then FRAMEID are checked for the prefix, and a present non-text card raises AttributeError |
| SubaruRules.ParseSuprimeId | python/astro_metadata_translator/translators/suprimecam.py:131-153 | an identifier is "SUP", a capital letter, seven digits and a last digit (0 when required); the result is the seven digits' value |
| SubaruRules.SuprimeIdRoundTrip | python/astro_metadata_translator/translators/suprimecam.py:131-153 | every exposure below 10^7, written as an identifier, parses back to itself |
| SubaruRules.SuprimeExposure | python/lsst/obs/metadata/translators/suprimecam.py:124-145 | the number in the stripped EXP-ID, or the one in FRAMEID when that number is zero; a malformed identifier is a RuntimeError; a zero EXP-ID number with FRAMEID missing is a KeyError naming FRAMEID; EXP-ID and FRAMEID are both recorded |
| SubaruRules.SuprimeExposureExample | tests/test_subaru.py:76-88 | the SuprimeCam test identifier SUPE00535770 gives exposure 53577 |
| SubaruRules.ParseHscNew | python/lsst/obs/metadata/translators/hsc.py:97-104 | the current HSC scheme is "HSCE" and eight digits |
| SubaruRules.ParseHscOld | python/lsst/obs/metadata/translators/hsc.py:106-121 | the old scheme is "HSC", a capital letter, six visit digits and two more digits ("00" when required) |
| SubaruRules.HscNumberInjective | python/lsst/obs/metadata/translators/hsc.py:106-121 | different letters or different visits give different exposure numbers |
| SubaruRules.HscExposure | python/lsst/obs/metadata/translators/hsc.py:90-121 | the current scheme is read directly and records only EXP-ID; anything else is read as the old scheme |
| SubaruRules.HscOldExposure | python/lsst/obs/metadata/translators/hsc.py:106-121 | the old scheme uses the letter and visit of EXP-ID, or of FRAMEID (visit made even) when that visit is zero; both cards are recorded |
| SubaruRules.HscFrameExposure | python/lsst/obs/metadata/translators/hsc.py:113-121 | the FRAMEID fallback uses its letter and its visit rounded down to an even number |
| SubaruRules.HscExposureExamples | tests/test_subaru.py:30-60 | the two HSC test identifiers give exposures 904024 and 40900 |
| SubaruRules.AdjustedMjd | python/astro_metadata_translator/translators/suprimecam.py:93-104 | days since MJD 53005, the MJD text read as a Python integer (optional sign, single underscores between digits); MJD is recorded before its conversion to an integer, so it is recorded even when the conversion fails |
| SubaruRules.UpperFilter | python/astro_metadata_translator/translators/suprimecam.py:106-111 | the physical filter is the card stripped and upper-cased, with the card recorded |
| SubaruRules.ClipAltitude | python/astro_metadata_translator/translators/suprimecam.py:194-205 | an altitude above 90 becomes 90; any other number, and NaN, is kept; a value that cannot be compared raises TypeError |
| SubaruRules.SuprimeRotation | python/astro_metadata_translator/translators/suprimecam.py:207-212 | INR-STR in degrees, as an angle wrapped at 360 degrees, with INR-STR recorded |
| SubaruRules.HscRotation | python/lsst/obs/metadata/translators/hsc.py:123-128 | 270 degrees less INST-PA, wrapped at 360, with INST-PA recorded |
| SubaruRules.HscAbstractFilter | python/lsst/obs/metadata/translators/hsc.py:84-88 | the lower-cased fifth character of a physical filter that starts with "HSC-", otherwise None; exactly "HSC-" has no fifth character (IndexError); a non-text filter raises AttributeError |
| SubaruRules.ScienceVisit | python/astro_metadata_translator/translators/suprimecam.py:155-168 | the visit is the exposure identifier of a science observation and None for any other; the exposure and its cards are only computed for science observations |
| SubaruRules.SuprimeTracking | python/astro_metadata_translator/translators/suprimecam.py:185-192 | RA2000 in hours and DEC2000 in degrees, ICRS, at the start time and location; both cards are recorded only once the position is built |
| SubaruRules.SuprimeAltAz | python/astro_metadata_translator/translators/suprimecam.py:194-205 | AZIMUTH and ALTITUDE in degrees with the altitude clipped at 90, at the start time and location; ALTITUDE is read and compared before AZIMUTH is read |
| MegaPrimeRules.FilterBands | python/lsst/obs/metadata/translators/megaprime.py:32-43 | every short filter name begins with the band letter its physical name begins with |
| MegaPrimeRules.LegacyAbstractFilter | python/lsst/obs/metadata/translators/megaprime.py:68-72 | the first letter of a known physical filter's short name, otherwise None |
| MegaPrimeRules.ExtnameNumber | python/astro_metadata_translator/translators/megaprime.py:122 | the number after the first three characters of EXTNAME, read as Python reads an integer (surrounding white space, optional sign, single underscores between digits); only text can be sliced |
| MegaPrimeRules.ModernDetectorNum | python/astro_metadata_translator/translators/megaprime.py:117-127 | the EXTNAME number (as `ExtnameNumber` reads it, so "ccd1_0" is 10) with EXTNAME recorded; 99, recording nothing, when EXTNAME is missing or its text holds no number; a non-text EXTNAME raises TypeError |
| MegaPrimeRules.LegacyDetectorNum | python/lsst/obs/metadata/translators/megaprime.py:101-109 | like the current version, but an unreadable number raises ValueError instead of giving 99 |
| MegaPrimeRules.DetectorNumRoundTrip | python/astro_metadata_translator/translators/megaprime.py:121-124 | a detector number written after any three-character prefix, zero-padded to any width, reads back in both versions |
| MegaPrimeRules.DetectorNumPrimaryHeader | python/astro_metadata_translator/translators/megaprime.py:125-127 | the primary header's EXTNAME "PHU" gives 99 in the current version and ValueError in the older one |
| MegaPrimeRules.ModernLocation | python/astro_metadata_translator/translators/megaprime.py:97-115 | the first complete longitude/latitude pair at a height of 4215 m, with the pair recorded; the CFHT site, recording nothing, when no pair is complete |
| MegaPrimeRules.ModernLocationPrefersLongitud | python/astro_metadata_translator/translators/megaprime.py:108 | LONGITUD and LATITUDE are preferred to OBS-LONG and OBS-LAT |
| MegaPrimeRules.LegacyLocation | python/lsst/obs/metadata/translators/megaprime.py:88-99 | the older location needs LONGITUD and LATITUDE, and records both |
| MegaPrimeRules.ModernAltAz | python/astro_metadata_translator/translators/megaprime.py:163-192 | the first complete azimuth/altitude pair decides: a reading below 1 degree gives None with nothing recorded; otherwise the position with the pair recorded; with no pair, as for tracking |
| MegaPrimeRules.PlaceholderGivesNoPosition | python/astro_metadata_translator/translators/megaprime.py:181-184 | the calibration placeholder -9999 never gives a position |
| MegaPrimeRules.LegacyAltAz | python/lsst/obs/metadata/translators/megaprime.py:144-148 | TELAZ and TELALT, both recorded |
| MegaPrimeRules.ModernPressure | python/astro_metadata_translator/translators/megaprime.py:199-207 | PRESSURE in hectopascals, else AIRPRESS in pascals, else a KeyError |
| MegaPrimeRules.ModernDatetimeEnd | python/astro_metadata_translator/translators/megaprime.py:83-95 | DATE-OBS with UTCEND when UTCEND is present; otherwise the start time plus the exposure time, computed in that order |
| MegaPrimeRules.LegacyTracking | python/lsst/obs/metadata/translators/megaprime.py:132-142 | the frame comes from OBJRADEC; a moving target calls a set as a function and so raises TypeError; otherwise RA_DEG and DEC_DEG in degrees |
| MegaPrimeRules.DetectorNumGrouped | python/astro_metadata_translator/translators/megaprime.py:121 | EXTNAME "ccd1_0" is detector 10 in both versions, because the integer reading accepts an underscore between digits |
| MegaPrimeRules.DetectorNumTwentySeven | python/astro_metadata_translator/translators/megaprime.py:117-123 | EXTNAME "ccd27" is detector 27 in both versions, with EXTNAME recorded |
| ModernBehaviour.ExposureTimesDetector | python/astro_metadata_translator/translators/megaprime.py:194-196 | for any table binding the exposure to EXPNUM, the detector to MegaPrime's EXTNAME rule and the combined identifier to exposure * k + detector: a missing EXPNUM is a KeyError recording nothing; an integer EXPNUM records EXPNUM and the detector's cards, and with a readable detector gives EXPNUM * k + detector |
| ModernBehaviour.MegaPrimeDetectorExposureId | python/astro_metadata_translator/translators/megaprime.py:194-196 | MegaPrime's detector_exposure_id, as its built class table computes it, is the EXPNUM exposure times 36 plus the EXTNAME detector number |
| ModernBehaviour.MegaPrimeIdOverlap | python/astro_metadata_translator/translators/megaprime.py:124-127 | the primary header ("PHU", placeholder detector 99) of exposure e and detector 27 of exposure e + 2 get the same detector_exposure_id, e * 36 + 99 |
| DecamRules.FirstLine | python/astro_metadata_translator/translators/decam.py:76-77 | the text up to the first newline, which a regular-expression `.` cannot cross |
| DecamRules.CalibToken | python/astro_metadata_translator/translators/decam.py:76-78 | a token found is a non-empty run of non-space characters; the search moves on line by line, because a regular-expression `.` cannot cross a newline |
| DecamRules.CalibTokenOneLine | python/astro_metadata_translator/translators/decam.py:76-78 | within one line, the token is the word after the field's last occurrence |
| DecamRules.CalibFromId | python/astro_metadata_translator/translators/decam.py:69-78 | CALIB_ID is read (KeyError if missing), searched (TypeError if not text) and recorded; no match is an AttributeError after recording |
| DecamRules.CalibTokenExample | python/lsst/obs/metadata/translators/decam.py:55-64 | "filter=r" gives the filter token "r" |
| DecamRules.ModernPhysicalFilter | python/astro_metadata_translator/translators/decam.py:80-100 | with FILTER present, the observation type is computed first: its error propagates, and a "zero" (bias) observation gives "NONE" without recording FILTER; otherwise FILTER is stripped and recorded; without FILTER, the calibration id is used, or None when CALIB_ID is also missing |
| DecamRules.LegacyPhysicalFilter | python/lsst/obs/metadata/translators/decam.py:81-101 | an OBSTYPE mentioning "zero" overrides FILTER with "NONE", and neither card is recorded; otherwise as in the current version |
| DecamRules.LegacyAbstractFilter | python/lsst/obs/metadata/translators/decam.py:66-79 | the first word of a non-empty physical filter, None for an empty one; a blank filter raises IndexError and a non-text one AttributeError |
| DecamRules.Location | python/astro_metadata_translator/translators/decam.py:102-114 | OBS-LONG (west positive) is negated; OBS-LAT and OBS-ELEV are then read, and all three are recorded |
| DecamRules.LocationFlipsLongitude | python/lsst/obs/metadata/translators/decam.py:103-115 | a west-positive longitude becomes the east-positive one |
| DecamRules.ModernTracking | python/astro_metadata_translator/translators/decam.py:130-143 | RADESYS gives the frame, and "gappt" gives None with RADESYS recorded; otherwise TELRA in hours and TELDEC in degrees, with all three recorded after the position is built |
| DecamRules.ModernAltAz | python/astro_metadata_translator/translators/decam.py:145-150 | AZ in degrees and the altitude from the zenith distance ZD, with AZ and ZD recorded |
| DecamRules.FormatInteger | python/astro_metadata_translator/translators/decam.py:153 | an integer is zero-padded to the width; only integers and booleans have a `d` format, so any other value fails |
| DecamRules.DetectorExposureId | python/astro_metadata_translator/translators/decam.py:152-153 | the exposure in seven digits then the detector in two, read back as an integer; both properties are computed before either is formatted |
| DecamRules.DetectorExposureIdValue | python/astro_metadata_translator/translators/decam.py:152-153 | for a non-negative exposure and a detector below 100, the identifier is exposure * 100 + detector |
| DecamRules.DetectorExposureIdExample | tests/test_decam.py:30-40 | exposure 229388 and detector 25 give 22938825 |
| LegacyClasses.MethodsWellFormed | python/lsst/obs/metadata/translators/hsc.py:84-88 | every method of every class body in the older package calls only properties of lower rank |
| LegacyClasses.StatesWellFormed | python/lsst/obs/metadata/translator.py:140-156 | every class table of the older package is well formed |
| LegacyClasses.CanTranslate | python/lsst/obs/metadata/translator.py:188-203 | abstract (NotImplementedError) in the base class; the FITS and Subaru bases decline; SuprimeCam and HSC use the prefix recognisers |
| LegacyClasses.ClassName | python/lsst/obs/metadata/translators/hsc.py:41-44 | each class's name is the one the class itself declares |
| LegacyClasses.PackageRegistrations | python/lsst/obs/metadata/translator.py:144-145 | the package's class definitions register by declared name |
| LegacyClasses.RegisteredClasses | python/lsst/obs/metadata/translator.py:144-145 | defining the package's classes registers SuprimeCam, HSC, MegaPrime and DECam, in that order |
| LegacyBehaviour.BaseProvidesNothing | python/lsst/obs/metadata/translator.py:159-184 | the older base class has no property methods: every property is an AttributeError, read from no card |
| LegacyBehaviour.FitsCards | python/lsst/obs/metadata/translators/fits.py:46-47 | the FITS class reads the instrument from INSTRUME and the telescope from TELESCOP |
| LegacyBehaviour.RawCard | python/lsst/obs/metadata/translator.py:121-129 | a single-card property gives the card's value as it is, with the card recorded, or a KeyError naming the card with nothing recorded |
| LegacyBehaviour.InstrumentCheck | python/lsst/obs/metadata/translators/fits.py:68-79 | with INSTRUME as the instrument card, a header without INSTRUME is declined, and is otherwise accepted exactly when the card equals the supported instrument |
| LegacyBehaviour.InheritedRecogniser | python/lsst/obs/metadata/translators/fits.py:50-79 | MegaPrime, DECam and the test translator use the FITS recogniser on their own instrument |
| LegacyBehaviour.FitsReads | tests/test_translation.py:57-62 | the FITS class gives the INSTRUME and TELESCOP cards as they are |
| LegacyBehaviour.TestTable | tests/test_translation.py:28-40 | the test translator binds its own entries and the telescope override, and keeps the inherited FITS instrument card |
| LegacyBehaviour.TestTranslation | tests/test_translation.py:67-72 | the test translator reads telescope from TELCODE instead of TELESCOP, foobar from BAZ and instrument from INSTRUME, and its format is "HDF5" |
| LegacyBehaviour.TestRecognized | tests/test_translation.py:67-68 | the test translator accepts exactly the headers whose INSTRUME is "SCUBA_test", and declines a header without INSTRUME |
| LegacyBehaviour.MegaPrimeInstrument | python/lsst/obs/metadata/translators/megaprime.py:56-66 | MegaPrime inherits the FITS instrument card |
| LegacyBehaviour.DecamInstrument | python/lsst/obs/metadata/translators/decam.py:43-50 | DECam inherits the FITS instrument card |
| LegacyBehaviour.MegaPrimeRecognized | python/lsst/obs/metadata/translators/fits.py:68-79 | MegaPrime accepts exactly when INSTRUME is "MegaPrime" |
| LegacyBehaviour.DecamRecognized | python/lsst/obs/metadata/translators/fits.py:68-79 | DECam accepts exactly when INSTRUME is "DECam" |
| LegacyBehaviour.SuprimeCamTable | python/lsst/obs/metadata/translators/suprimecam.py:50-62 | SuprimeCam reads the abstract filter from FILTER, and the exposure time and observation id from single cards |
| LegacyBehaviour.SuprimeCamExposureTime | python/lsst/obs/metadata/translators/suprimecam.py:60 | SuprimeCam's exposure time is the EXPTIME card as it is, because the older map gives it no unit |
| LegacyBehaviour.HscTable | python/lsst/obs/metadata/translators/hsc.py:47-52 | HSC's instrument is a constant; its own abstract-filter method replaces SuprimeCam's FILTER entry; its own detector card; SuprimeCam's observation id is inherited |
| LegacyBehaviour.HscInstrument | python/lsst/obs/metadata/translators/hsc.py:47 | HSC's instrument is "HSC" whatever INSTRUME says, and its observation id is still SuprimeCam's EXP-ID |
| LegacyBehaviour.AbstractFromPhysical | python/lsst/obs/metadata/translators/hsc.py:84-88 | a class whose abstract filter is HSC's method derives it from the same class's physical filter |
| LegacyBehaviour.HscAbstractFilterFromPhysical | python/lsst/obs/metadata/translators/hsc.py:84-88 | HSC's abstract filter comes from its physical filter, not from the FILTER card that SuprimeCam reads |
| LegacyBehaviour.AppendOne | python/lsst/obs/metadata/translator.py:144-145 | a class defined after the others, under a new name, joins the registry at its end |
| LegacyBehaviour.TestRegistrations | tests/test_translation.py:28-31 | with the test translator defined, the registry holds the package's four classes and then the test translator |
| LegacyBehaviour.SubaruDecline | python/lsst/obs/metadata/translators/suprimecam.py:69-91 | SuprimeCam and HSC decline a header whose INSTRUME names neither of them |
| LegacyBehaviour.SelectsTestTranslator | tests/test_translation.py:82-85 | with the test translator defined, a header whose INSTRUME is "SCUBA_test" selects it |
| LegacyBehaviour.SelectsHsc | python/lsst/obs/metadata/translators/hsc.py:56-82 | a header whose INSTRUME is "Hyper Suprime-Cam" selects HSC: SuprimeCam, registered first, declines it |
| LegacyBehaviour.PackageDeclines | python/lsst/obs/metadata/translator.py:206-225 | with only the package's classes, a header naming none of its instruments is understood by no class, and selection raises ValueError |
| LegacyObservation.ChosenClass | python/lsst/obs/metadata/observationInfo.py:107-110 | with no class given, the registry's choice (and its ValueError); a given translator class as it is; anything else raises TypeError |
| LegacyObservation.UnionMeaning | python/lsst/obs/metadata/translator.py:227-235 | the union of the cards of a list of properties holds exactly the cards some property used |
| LegacyObservation.CollectMeaning | python/lsst/obs/metadata/observationInfo.py:121-133 | the loop succeeds exactly when every property translates or fails with AttributeError or KeyError; it then holds exactly the properties that translated, each with its translated value |
| LegacyObservation.CollectError | python/lsst/obs/metadata/observationInfo.py:126-133 | an error other than AttributeError and KeyError stops the loop; the first such error is the one raised |
| LegacyObservation.CardsMeaning | python/lsst/obs/metadata/translator.py:237-245 | the cards used are exactly those some property's translation recorded |
| LegacyObservation.Stripped | python/lsst/obs/metadata/observationInfo.py:148-152 | the stripped header has exactly the header's cards less the used ones, each with its value |
| LegacyObservation.ObservationInfo.Property | python/lsst/obs/metadata/observationInfo.py:173-190 | a standard property's value, or None if it was not translated; any other name is an AttributeError |
| LegacyObservation.ObservationInfo.StrippedHeader | python/lsst/obs/metadata/observationInfo.py:139-152 | deleting the used cards from a copy gives `Stripped`; deleting a card the header lacks raises KeyError |
| LegacyObservation.MakeObservationInfo | python/lsst/obs/metadata/observationInfo.py:97-133 | the class is chosen as `ChosenClass` says; a fresh translator translates every standard property, giving `Collect`'s values and `CardsOf`'s cards, or `Collect`'s error |
| LegacyObservation.TranslateAll | python/lsst/obs/metadata/observationInfo.py:121-133 | the property loop returns `Collect`; when it succeeds, the translator's cards grow by exactly `CardsOf` |
| LegacyObservation.Observe | python/lsst/obs/metadata/observationInfo.py:112-133 | a fresh translator over the header and the class's table runs the property loop; the new observation keeps the header, the class, `Collect`'s values and exactly `CardsOf`'s cards, or the construction fails with `Collect`'s error |
| LegacyObservation.CollectSucceeds | python/lsst/obs/metadata/observationInfo.py:121-133 | the loop gives values exactly when every property translates or fails with AttributeError or KeyError |
| LegacyObservation.CollectHolds | python/lsst/obs/metadata/observationInfo.py:121-133 | a loop that gives values holds exactly the properties that translated, each with its translated value |
| LegacyObservation.PrefixError | python/lsst/obs/metadata/observationInfo.py:121-133 | once the loop stops at an error, later properties do not change it |
| LegacyFixture.FitsKeys | python/lsst/obs/metadata/translators/fits.py:46-174 | the FITS class binds only its two cards and its three methods |
| LegacyFixture.TestKeys | tests/test_translation.py:28-40 | the test translator binds at most the FITS names plus foobar and format |
| LegacyFixture.TestMethods | tests/test_translation.py:28-40 | the test translator keeps the FITS date and location methods |
| LegacyFixture.FitsDateCard | python/lsst/obs/metadata/translators/fits.py:108-146 | without TIMESYS, a FITS date method gives the card's value on the UTC scale and records only that card |
| LegacyFixture.NoGeocentricLocation | python/lsst/obs/metadata/translators/fits.py:160-174 | without OBSGEO-X, the FITS location raises KeyError and records nothing |
| LegacyFixture.UnboundPasses | python/lsst/obs/metadata/observationInfo.py:128-130 | a property the class does not bind is an AttributeError, which the loop passes over, and reads no card |
| LegacyFixture.TestDates | tests/test_translation.py:47-52 | on the test header the dates read their cards, and the location fails with KeyError having read none |
| LegacyFixture.TestProperties | python/lsst/obs/metadata/observationInfo.py:121-133 | on the test header every standard property passes the loop, reading at most INSTRUME, TELCODE, DATE-OBS and DATE-END |
| LegacyFixture.TestCollected | tests/test_translation.py:78-80 | the observation succeeds with instrument "SCUBA_test" (INSTRUME) and telescope from TELCODE |
| LegacyFixture.TestCardsUsed | tests/test_translation.py:74-91 | the cards used are exactly INSTRUME, TELCODE, DATE-OBS and DATE-END |
| LegacyFixture.TestObservation | tests/test_translation.py:74-91 | the observation keeps the instrument and the TELCODE telescope, uses exactly INSTRUME, TELCODE, DATE-OBS and DATE-END, and its stripped header loses INSTRUME and keeps TELESCOP |
| LegacyFixture.AutomaticChoice | tests/test_translation.py:82-85 | without a class given, a "SCUBA_test" header chooses the test translator; with only the package's classes, the choice is a ValueError |
| StaticEngine.Apply | python/lsst/obs/metadata/metadata.py:34-68 | a constant translator returns its constant; a trivial one returns `header[fitsKey]`, or raises KeyError naming the key |
| StaticEngine.ApplyLocal | python/lsst/obs/metadata/metadata.py:76-82 | the translators are static and hold no state: two headers that agree on the cards a translator reads give the same answer |
| StaticEngine.Translate | python/lsst/obs/metadata/metadata.py:76-82 | `to_<p>` of a class runs the translator bound to p; a class without one raises AttributeError |
| StaticEngine.BaseTranslatesNothing | python/lsst/obs/metadata/metadata.py:85-99 | the base class, with empty maps, translates nothing |
| StaticEngine.ConstantWins | python/lsst/obs/metadata/metadata.py:76-82 | a constant entry answers its constant on every header, whatever the trivial map says, because constants are installed last |
| StaticEngine.TrivialCopies | python/lsst/obs/metadata/metadata.py:52-54 | a trivial entry without a constant copies its FITS card, and raises KeyError naming the card when it is missing |
| StaticEngine.InheritsTranslation | python/lsst/obs/metadata/metadata.py:70-82 | a property the class body leaves alone translates as in the parent |
| StaticEngine.ReadsOnlyTrivialKeys | python/lsst/obs/metadata/metadata.py:76-82 | any card a class's translators read is a FITS keyword declared by some trivial map in the class's ancestry; constants read nothing |
| StaticEngine.TrivialFromLineage | python/lsst/obs/metadata/metadata.py:76 | every entry of a class's trivial map was declared by one of the bodies in its lineage |
| StaticEngine.Define | python/lsst/obs/metadata/metadata.py:73-74 | a named class is then the registry's answer for its name, every other name keeps its class, and a class without a name changes nothing |
| StaticEngine.BaseCanTranslate | python/lsst/obs/metadata/metadata.py:101-118 | the base class's recogniser is abstract and raises NotImplementedError |
| StaticEngine.DetermineMeaning | python/lsst/obs/metadata/metadata.py:135-140 | the chosen class is registered and recognises the header, and every class registered before it declines; the first accepting class after only declining ones is chosen; if all decline, ValueError |

## Left out

- Astropy: `Time`, `Quantity`, `EarthLocation`, `SkyCoord`, `AltAz` and `Angle` are symbolic values that record their arguments. No arithmetic is modelled, no unit is converted and no site is looked up.
- Floating point: Python's `float(text)` and `str(x)` for a float are the functions of an `Env` parameter, and reals stand for floats.
- Logging: the log lines and the warnings of the stub methods and of `ObservationInfo` are left out. So are the warnings for map entries that name unknown properties; those names are only collected, by `ClassBuild.Install`.
- `print`: the legacy `ObservationInfo` prints nothing, and its caller's print is left out.
- `VisitInfo` (in `lsst/obs/metadata/metadata.py`), the command-line script and the `toOrderedDict` conversion are left out. They are callers or I/O.
- Copying the header: `StrippedHeader` works on the header value, so it does not model the copy's class or any aliasing with the caller's header.
- `cache_translation` is imported by `translators/suprimecam.py` (line 32) and decorates the current package's `to_*` methods, but `translator.py` as modelled here does not define it. The model assumes it changes no result; each call translates afresh and records its cards. A cache that skipped the reading on later calls would record cards only on the first call.
- `to_location_via_telescope_name` (`translators/helpers.py:44-52`) is not modelled: no class of the model calls it, and the site lookup it makes is an astropy call.
- Text.ParseInt: decimal digits are the ASCII digits only, and Python's `int()` also accepts other Unicode decimal digits (Arabic-Indic, full-width and so on). Since FITS cards are ASCII, this leaves MegaPrimeRules.ExtnameNumber, MegaPrimeRules.ModernDetectorNum, MegaPrimeRules.LegacyDetectorNum and SubaruRules.AdjustedMjd unchanged for any header that can occur. Underscores between digits and surrounding white space are modelled.
- Text.LowerChar, Text.UpperChar, Text.IsDigit and Text.IsUpperLetter cover ASCII only, while Python's `str.lower()`, `str.upper()` and the regular expression class `\d` are Unicode-aware (`[A-Z]` is ASCII in Python too). FITS cards are ASCII, so this only matters for headers that cannot occur. It affects CommonRules.NormalisedObservationType, CommonRules.TrackingSystem, FitsRules.TimeScale, SubaruRules.UpperFilter, SubaruRules.HscAbstractFilter, SubaruRules.ParseSuprimeId, SubaruRules.ParseHscNew and SubaruRules.ParseHscOld.
- Registration order: class definition (import) order is taken as given. For the current package it is SuprimeCam, MegaPrime, DECam. For the older package it is FITS, Subaru, SuprimeCam, HSC, MegaPrime, DECam, and the test translator is defined after them.
- The current package's `translators/fits.py` is not part of this model. Its FITS class is assumed to behave like the older package's: the instrument and telescope cards, `DATE-OBS`/`DATE-END`, and the `OBSGEO-` location.
- The older package's `translators/subaru.py` is not part of this model. Its location is assumed to be the Subaru site (as in the current package's `subaru.py`), and it has no name.
- Engine.WellFormed: cyclic method calls are excluded by ranking property names. This matches every class of both packages, but a class whose methods call each other in a cycle would not terminate in Python, and the model cannot express such a class.
- Registry.Select: the branch giving IndexError cannot be reached. The search only returns positions inside the registry.
- The older base class defines no `to_*` methods (unlike the current base class, with its abstract methods), so its properties are AttributeErrors.
- The current HSC translator is not part of this model. HSC is modelled from the older package only.
