# GRIB2 decoding core: simple packing, product definitions, parameter table

A Dafny model of three pieces of the NGrib GRIB2 decoder (WMO FM 92 GRIB
Edition 2):

- **Simple packing (Data Representation Template 5.0).** The descriptor
  parse (R, E, D, W, type of original field values; 10 octets), the reading
  of the packed samples (one re-alignment, then `dataPointsNumber` reads of
  W bits each), and `Unpack`, which maps each sample X to
  (R + X·2^E) / 10^D, or to R when W = 0. Values are `real`. The value
  constructor of the descriptor is the datatype constructor
  `GridPointDataSimplePacking(...)`.
- **Product definitions (section 4).** The common 3-octet prefix of the
  abstract `ProductDefinition` base and the fixed 49-octet layout of
  Template 4.48 (optical properties of aerosol). Both look the parameter
  up and then register content keys in a typed registry that callers query
  with `TryGet`.
- **Code Table 4.2.** `Parameter.Get` is a two-stage first-match lookup.
  `BuildParameterDictionary` groups parameters by category. The static
  caches of `ParametersByCategory` and `ParametersByCategoryWithLocalTables`
  are modelled by the class `ParameterTable`. That class lays the NCEP
  (centre 7) or DWD (centre 78) local table over the master table.

Modules and files:

| file | module | models |
|---|---|---|
| wrappers.dfy | Wrappers | `Option` (C# nullable) and `Result` (exceptions) |
| real_power.dfy | RealPower | integer powers over `real` and `nat` |
| bit_reader.dfy | BitReader | the octet/bit cursor the templates read from |
| simple_packing.dfy | SimplePacking | Template 5.0 |
| parameter.dfy | Parameters | Code Table 4.2 lookup and caches |
| template.dfy | Templates | the content registry and its keys |
| product_definition.dfy | ProductDefinitions | the base prefix and Template 4.48 |

The C# constructors that read from the reader are each modelled in two
parts. A static `Read` method makes the reads in source order and returns
`Failure(EndOfData)` when the octets run out, which is how the reader's
exception is modelled. It then calls a plain constructor that stores the
fields and registers the content.

Notes on the code:
- Template 4.48 registers only the four prefix keys: parameter category,
  parameter number, parameter (when found) and generating-process type.
  Its aerosol, size, wavelength, forecast-time and surface fields are
  fields only, not registry entries.
- The class comment of `ProductDefinition0048` names Template 4.32. The
  layout the code parses is that of 4.48.
- Octet 14 of Template 4.48 (type of size interval) is read as a signed
  octet, while octet 25 (type of wavelength interval) is read unsigned.
  Both are Code Table 4.91 codes, and the signed reading can never yield
  192 (local use) or 255 (missing). The model keeps the signed read, as
  the code has it.
- With W = 0 the unpacker yields R itself for every point; the decimal
  scale factor is not applied in that branch.

## Model

| member | source | states |
|---|---|---|
| SimplePacking.ReadGridPointDataSimplePacking | src/NGrib/Grib2/Templates/DataRepresentations/0000_GridPointDataSimplePacking.cs:64-72 | reads R (IEEE single, 4 octets), E and D (signed 16-bit), W and the original-field type (unsigned octets), in that order; consumes exactly 10 octets; fails exactly when fewer than 10 remain |
| SimplePacking.ReadPackedValues | src/NGrib/Grib2/Templates/DataRepresentations/0000_GridPointDataSimplePacking.cs:88-95 | aligns once to the next octet boundary, then yields the `dataPointsNumber` consecutive W-bit samples in order (none for a non-positive count); the cursor ends exactly count·W bits after the aligned start; fails exactly when those bits are not all present |
| SimplePacking.EnumerateDataValues | src/NGrib/Grib2/Templates/DataRepresentations/0000_GridPointDataSimplePacking.cs:83-86 | the decoded values are `Unpack` of the samples `ReadPackedValues` reads, with the same cursor movement and the same failure condition |
| SimplePacking.UnpackLength | src/NGrib/Grib2/Templates/DataRepresentations/0000_GridPointDataSimplePacking.cs:97-130 | exactly one output per packed input |
| SimplePacking.UnpackConstantWithoutBits | src/NGrib/Grib2/Templates/DataRepresentations/0000_GridPointDataSimplePacking.cs:99-107 | with W = 0 every output equals R, whatever the packed values are |
| SimplePacking.UnpackFormula | src/NGrib/Grib2/Templates/DataRepresentations/0000_GridPointDataSimplePacking.cs:109-129 | with W > 0, output i is (R + X_i·2^E) / 10^D |
| SimplePacking.UnpackPointwise | src/NGrib/Grib2/Templates/DataRepresentations/0000_GridPointDataSimplePacking.cs:125-129 | output i depends only on input i: two inputs that agree at i give the same output at i |
| SimplePacking.WorkedExample | src/NGrib/Grib2/Templates/DataRepresentations/0000_GridPointDataSimplePacking.cs:128 | R = 280, E = 1, D = 1, X = 100 decodes to 48 |
| SimplePacking.ScaledSampleMonotone | src/NGrib/Grib2/Templates/DataRepresentations/0000_GridPointDataSimplePacking.cs:128 | for fixed R, E, D the formula is non-decreasing in X, for every sign of E and D |
| SimplePacking.UnpackMonotone | src/NGrib/Grib2/Templates/DataRepresentations/0000_GridPointDataSimplePacking.cs:97-130 | a larger packed value never decodes to a smaller output, in both branches |
| SimplePacking.UnpackBounds | src/NGrib/Grib2/Templates/DataRepresentations/0000_GridPointDataSimplePacking.cs:109-128 | with W > 0 and every X in [0, 2^W), every output lies in [R / 10^D, (R + (2^W − 1)·2^E) / 10^D] |
| SimplePacking.DecodedValuesInRange | src/NGrib/Grib2/Templates/DataRepresentations/0000_GridPointDataSimplePacking.cs:83-128 | decoding N samples read from the data with W > 0 yields N values, each inside that range |
| SimplePacking.DecodedConstantField | src/NGrib/Grib2/Templates/DataRepresentations/0000_GridPointDataSimplePacking.cs:88-107 | with W = 0, decoding N points yields N copies of R |
| SimplePacking.RasterExample | src/NGrib/Grib2/Templates/DataRepresentations/0000_GridPointDataSimplePacking.cs:83-130 | R = E = D = 0 and W = 8 over the octets 10, 20, 30, 40 decode to 10, 20, 30, 40 in order |
| SimplePacking.PackedSampleAt | src/NGrib/Grib2/Templates/DataRepresentations/0000_GridPointDataSimplePacking.cs:91-94 | sample k is the W-bit value starting k·W bits after the aligned start |
| SimplePacking.PackedSamplesBounded | src/NGrib/Grib2/Templates/DataRepresentations/0000_GridPointDataSimplePacking.cs:93 | every sample read with width W is below 2^W |
| BitReader.BitsValueBound | src/NGrib/Grib2/Templates/DataRepresentations/0000_GridPointDataSimplePacking.cs:93 | a run of W bits holds a value below 2^W |
| BitReader.AlignedOctetBits | src/NGrib/Grib2/Templates/DataRepresentations/0000_GridPointDataSimplePacking.cs:90-93 | after alignment an 8-bit sample read equals the octet it covers, so bit reads and octet reads agree |
| Parameters.MasterParameter | src/NGrib/Grib2/CodeTables/4_2_Parameter.cs:59-62 | master-table entries keep their category, code, name and unit and have `LocalUse` false |
| Parameters.LocalParameter | src/NGrib/Grib2/CodeTables/4_2_Parameter.cs:64-71 | stores the five fields; `localUse` defaults to true |
| Parameters.BuildParameterDictionaryGroups | src/NGrib/Grib2/CodeTables/4_2_Parameter.cs:1809-1816 | the keys are exactly the categories that occur in the input and no group is empty; every parameter is in the group of its own category, each group holds only its category, and each parameter occurs in its group exactly as often as in the input |
| Parameters.BuildParameterDictionaryAppend | src/NGrib/Grib2/CodeTables/4_2_Parameter.cs:1809-1816 | each group keeps input order: grouping a + b gives, per category, a's group followed by b's |
| Parameters.FirstCategoryWithCodeIsFirst | src/NGrib/Grib2/CodeTables/4_2_Parameter.cs:77-78 | the category chosen is the first in the discipline's list with the code; none exactly when no category has it |
| Parameters.FirstParameterWithCodeIsFirst | src/NGrib/Grib2/CodeTables/4_2_Parameter.cs:81-85 | the parameter chosen is the first of the group with the number; none exactly when no parameter has it |
| Parameters.FirstParameterWithCodeAppend | src/NGrib/Grib2/CodeTables/4_2_Parameter.cs:81-84 | over a + b the first match comes from a whenever a has one |
| Parameters.LookupAbsent | src/NGrib/Grib2/CodeTables/4_2_Parameter.cs:73-90 | `Get` is absent exactly when the discipline has no category list, no category has the code, that category has no group, or no parameter in it has the number |
| Parameters.LookupFound | src/NGrib/Grib2/CodeTables/4_2_Parameter.cs:77-85 | a parameter found has the requested number, is in the table, and belongs to the first category of the discipline with the requested code |
| Parameters.MasterEntryWins | src/NGrib/Grib2/CodeTables/4_2_Parameter.cs:1839-1851 | when the master table has a match, laying any local table over it does not change what `Get` returns |
| Parameters.OtherCentresSeeMaster | src/NGrib/Grib2/CodeTables/4_2_Parameter.cs:1837-1851 | an in-range centre other than NCEP and DWD gets exactly the master grouping |
| Parameters.ParameterTable.constructor | src/NGrib/Grib2/CodeTables/4_2_Parameter.cs:1832-1859 | both caches start empty and the previous centre starts at −1 |
| Parameters.ParameterTable.ParametersByCategory | src/NGrib/Grib2/CodeTables/4_2_Parameter.cs:1818-1830 | returns the master grouping; fills the cache once and keeps a filled cache |
| Parameters.ParameterTable.ParametersByCategoryWithLocalTables | src/NGrib/Grib2/CodeTables/4_2_Parameter.cs:1834-1855 | returns the grouping for the centre. A centre outside 0..254 goes through `ParametersByCategory`: the master cache ends filled, and the local cache and previous centre are unchanged. Any other centre leaves the master cache alone; the local cache ends holding that centre's grouping and the previous centre is the centre. A repeated centre keeps the cached grouping |
| Parameters.ParameterTable.Get | src/NGrib/Grib2/CodeTables/4_2_Parameter.cs:73-90 | the result is the two-stage first-match lookup over the centre's grouping; the caches change exactly as `ParametersByCategoryWithLocalTables` changes them when the discipline is known and one of its categories has the code, and are all unchanged otherwise |
| Templates.Template.RegisterContent | src/NGrib/Grib2/Templates/ProductDefinitions/ProductDefinition.cs:72-80 | binds the key to its value and leaves the other keys alone |
| Templates.Template.TryGet | src/NGrib/Grib2/Templates/ITemplate.cs:5 | true with the registered value for a registered key; false with the default of the key's type otherwise; the value always has the key's type |
| ProductDefinitions.RegisterPrefixContent | src/NGrib/Grib2/Templates/ProductDefinitions/ProductDefinition.cs:72-80 | registers category, number and generating-process type always, and the parameter exactly when it was found; no other key |
| ProductDefinitions.ProductDefinition.Read | src/NGrib/Grib2/Templates/ProductDefinitions/ProductDefinition.cs:64-70 | `offset` is the position on entry; reads category, number, generating-process type (one octet each, 3 in all); the parameter is `Get` on the first two, and the table's caches end as that `Get` leaves them (untouched when the first two octets are missing); fails exactly when fewer than 3 octets remain |
| ProductDefinitions.ProductDefinition.constructor | src/NGrib/Grib2/Templates/ProductDefinitions/ProductDefinition.cs:64-81 | stores the fields and leaves the registry holding exactly the prefix registrations |
| ProductDefinitions.ProductDefinition.TryGet | src/NGrib/Grib2/Templates/ProductDefinitions/ProductDefinition.cs:72-80 | over the base constructor's own registrations: the three prefix keys are always found with their field values, the parameter key is found exactly when the parameter is present, and no other key is registered |
| ProductDefinitions.ProductDefinition0048.Read | src/NGrib/Grib2/Templates/ProductDefinitions/ProductDefinition0048.cs:118-177 | `offset` is the position on entry; consumes exactly the 49 octets 10–58, each field taken from its own octets in the template's order; the parameter is `Get` on octets 10 and 11, and the table's caches end as that `Get` leaves them (untouched when those octets are missing); the cutoff is 60·hours + minutes; fails exactly when fewer than 49 octets remain |
| ProductDefinitions.ProductDefinition0048.ReadIntervals | src/NGrib/Grib2/Templates/ProductDefinitions/ProductDefinition0048.cs:133-148 | octets 14–35: size interval type as a signed octet, two scaled sizes, wavelength interval type as an unsigned octet, two scaled wavelengths |
| ProductDefinitions.ProductDefinition0048.ReadProcessAndCutoff | src/NGrib/Grib2/Templates/ProductDefinitions/ProductDefinition0048.cs:151-163 | octets 36–41: generating process, background and analysis identifiers, cutoff hours (2 octets), cutoff minutes |
| ProductDefinitions.ProductDefinition0048.ReadTimeAndSurfaces | src/NGrib/Grib2/Templates/ProductDefinitions/ProductDefinition0048.cs:165-177 | octets 42–58: time-range unit, signed 32-bit forecast time, first and second fixed surface type and scaled value |
| ProductDefinitions.ProductDefinition0048.constructor | src/NGrib/Grib2/Templates/ProductDefinitions/ProductDefinition0048.cs:118-188 | stores the fields, sets the observational-data cutoff to 60·hours + minutes minutes, and registers exactly the prefix keys |
| ProductDefinitions.ProductDefinition0048.TryGet | src/NGrib/Grib2/Templates/ProductDefinitions/ProductDefinition0048.cs:179-187 | the registry's key set is exactly the four prefix keys: category, number and process type answer with their fields, the parameter answers exactly when it was found, and the ensemble keys are not found |
| ProductDefinitions.SignedAndUnsignedIntervalType | src/NGrib/Grib2/Templates/ProductDefinitions/ProductDefinition0048.cs:133-142 | the signed reading of octet 14 agrees with the unsigned reading used for octet 25 exactly for octets below 128; the signed reading stays within −127..127, so it can never yield the Code Table 4.91 codes 192 (local use) or 255 (missing) |

## Left out

- `BufferedBinaryReader` is not part of this model. Its primitives are modelled on a bit cursor over the message octets. Fixed-width reads are big-endian and start at the next whole octet. Signed reads use the GRIB sign-and-magnitude convention. A read past the end returns `EndOfData` and leaves the cursor where it was.
- BitReader.ScaledValue: the missing-value sentinel is taken to be the four value octets all set to 255. The reader's own sentinel test is not part of this model.
- BitReader.SingleValue: finite IEEE single patterns are decoded exactly. Infinities and NaN have no `real` counterpart, and the model maps them to 0.
- Floating point is left out. `Math.Pow` in double precision and the final `(float)` rounding are replaced by exact `real` arithmetic with integer exponents.
- BitReader.Reader.ReadUIntN: returns the mathematical value for any width. The C# `int` result would overflow for widths above 31.
- SimplePacking.EnumerateDataValues: the C# enumerator is lazy and yields the values before a failing read. The model is all or nothing: it returns every value or a failure.
- SimplePacking.ReadPackedValues: returns exactly `dataPointsNumber` samples. The source's loop counter is a 32-bit `int` compared against a `long` count. For a count of 2^31 or more it wraps to a negative value before reaching the count, so the C# loop never stops on the count: with W = 0 it yields R forever, and with W > 0 it reads until the data runs out. The model's counter is unbounded and does not capture that wrap.
- SimplePacking.EnumerateDataValues: inherits the same limit from `ReadPackedValues`. For counts of 2^31 or more the C# enumeration does not end on the count, and the model does not capture that.
- SimplePacking.ReadPackedValues: the `DataSection` argument is unused by simple packing and is not modelled.
- SimplePacking.GridPointDataSimplePacking: the bit width is a `nat`. A negative width passed to the internal value constructor would reach `ReadUIntN`, whose behaviour is not part of this model.
- The reflection of `GetListOfParameterProperties` and the several hundred literal parameter entries are replaced by the sequences `master`, `ncepLocal` and `dwdLocal` given to `ParameterTable`. `ParameterCategory.CategoriesByDiscipline` is the map `categoriesByDiscipline`.
- `Center` is not part of this model. NCEP is centre 7 and DWD (Offenbach) is centre 78, as in WMO Common Code Table C-11.
- Enumerated code values (aerosol type, interval type, generating-process type, surface type, time-range unit, original-field type) are plain integers. The source's casts do not validate them.
- The `Template` base class is not part of this model. `RegisterContent` and `TryGet` are modelled from how the product definitions call them. Each lazy accessor is reduced to the value it returns, which is the same because the fields never change. Registering a key twice overwrites it.
- Only the content keys the core touches are modelled. The two ensemble keys, `EnsembleForecastsNumber` and `PerturbationNumber`, are part of the key type, but only product definitions outside this model register them. Here they are never found.
- ProductDefinitions.ProductDefinition: the class stands for what the abstract base constructor registers. Concrete product definitions derived from it are not part of this model, and they register further keys such as the ensemble keys. So the closed key set of its `TryGet` holds only for the base's own registrations, not for a derived template.
- Templates.DefaultValue: the C# default of the `Parameter` struct is approximated by a descriptor with zero codes and empty strings.
- Thread safety of the static caches is left out. The model is single-threaded.
