/**
  Product Definition templates (section 4 of a GRIB2 message): the common
  prefix shared by the product definitions derived from the abstract base,
  and Template 4.48 (optical properties of aerosol), which parses its own
  fixed layout of octets 10-58.
 */
module ProductDefinitions {
  import opened Wrappers
  import opened BitReader
  import opened Parameters
  import opened Templates

  /** The four prefix registrations: category, number and process type always; the parameter when found. */
  ghost predicate RegistersPrefix(content: map<ProductDefinitionContent, ContentValue>,
                                  category: int, number: int, parameter: Option<Parameter>, generatingProcessType: int)
  {
    && content.Keys == {ProductDefinitionContent.ParameterCategory, ProductDefinitionContent.ParameterNumber,
                        ProductDefinitionContent.GeneratingProcessType}
                       + (if parameter.Some? then {ProductDefinitionContent.Parameter} else {})
    && content[ProductDefinitionContent.ParameterCategory] == IntValue(category)
    && content[ProductDefinitionContent.ParameterNumber] == IntValue(number)
    && content[ProductDefinitionContent.GeneratingProcessType] == IntValue(generatingProcessType)
    && (parameter.Some? ==> content[ProductDefinitionContent.Parameter] == ParameterValue(parameter.value))
  }

  /** The RegisterContent calls at the end of both constructors, in source order. */
  method RegisterPrefixContent(t: Template, category: int, number: int, parameter: Option<Parameter>,
                               generatingProcessType: int)
    requires t.Valid() && t.content == map[]
    modifies t
    ensures t.Valid() && RegistersPrefix(t.content, category, number, parameter, generatingProcessType)
  {
    t.RegisterContent(ProductDefinitionContent.ParameterCategory, IntValue(category));
    t.RegisterContent(ProductDefinitionContent.ParameterNumber, IntValue(number));
    if parameter.Some? {
      t.RegisterContent(ProductDefinitionContent.Parameter, ParameterValue(parameter.value));
    }
    t.RegisterContent(ProductDefinitionContent.GeneratingProcessType, IntValue(generatingProcessType));
  }

  /**
    Template 4.48 reads the size interval type as a signed octet and the
    wavelength interval type as an unsigned one: the two readings agree
    below 128 and differ from 128 on, so the signed reading never yields
    the Code Table 4.91 codes 192 (local use) or 255 (missing).
   */
  lemma SignedAndUnsignedIntervalType(x: Octet)
    ensures SignMagnitude([x]) == if x < 128 then x else 128 - x
    ensures SignMagnitude([x]) == x <==> x < 128
    ensures -127 <= SignMagnitude([x]) <= 127
    ensures SignMagnitude([x]) != 192 && SignMagnitude([x]) != 255
  {
    assert [x][1..] == [];
    assert BigEndian([x]) == x by {
      assert [x][..0] == [];
    }
    if x >= 128 {
      assert BigEndian([x - 128]) == x - 128 by {
        assert [x - 128][..0] == [];
      }
    }
  }

  /** The fields and registry of the abstract ProductDefinition base. */
  class ProductDefinition {
    /** Reader position at the start of the template. */
    const offset: nat
    const parameterCategory: int
    const parameterNumber: int
    /** None when the discipline, category and number are unknown: missing metadata, not an error. */
    const parameter: Option<Parameter>
    const generatingProcessType: int
    const template: Template

    ghost predicate Valid()
      reads this, template
    {
      template.Valid() && RegistersPrefix(template.content, parameterCategory, parameterNumber, parameter, generatingProcessType)
    }

    constructor (offset: nat, parameterCategory: int, parameterNumber: int, parameter: Option<Parameter>,
                 generatingProcessType: int)
      ensures Valid() && fresh(template)
      ensures this.offset == offset && this.parameterCategory == parameterCategory
      ensures this.parameterNumber == parameterNumber && this.parameter == parameter
      ensures this.generatingProcessType == generatingProcessType
    {
      this.offset := offset;
      this.parameterCategory := parameterCategory;
      this.parameterNumber := parameterNumber;
      this.parameter := parameter;
      this.generatingProcessType := generatingProcessType;
      var t := new Template();
      RegisterPrefixContent(t, parameterCategory, parameterNumber, parameter, generatingProcessType);
      template := t;
    }

    /**
      The base constructor's parse: records the position, reads category and
      number, looks the parameter up, then reads the generating-process type.
     */
    static method Read(reader: Reader, table: ParameterTable, discipline: int, centerCode: int)
      returns (r: Result<ProductDefinition, ReadError>)
      requires reader.Valid() && table.Valid()
      modifies reader, table
      ensures reader.Valid() && table.Valid()
      ensures r.Success? <==> old(reader.Position()) + 3 <= |reader.data|
      ensures old(reader.Position()) + 2 <= |reader.data| ==>
        table.CachesAfterGet(discipline, centerCode, reader.data[old(reader.Position())])
      ensures old(reader.Position()) + 2 > |reader.data| ==> unchanged(table)
      ensures r.Success? ==>
        var p, o, pd := old(reader.Position()), reader.data, r.value;
        && fresh(pd) && fresh(pd.template) && pd.Valid()
        && reader.Position() == p + 3
        && pd.offset == p
        && pd.parameterCategory == o[p]
        && pd.parameterNumber == o[p + 1]
        && pd.generatingProcessType == o[p + 2]
        && pd.parameter == Lookup(table.categoriesByDiscipline, GroupingFor(table.master, table.ncepLocal, table.dwdLocal, centerCode),
                                  discipline, o[p], o[p + 1])
    {
      var offset := reader.Position();
      var parameterCategory :- reader.ReadUInt8();
      var parameterNumber :- reader.ReadUInt8();
      var parameter := table.Get(discipline, centerCode, parameterCategory, parameterNumber);
      var generatingProcessType :- reader.ReadUInt8();
      var pd := new ProductDefinition(offset, parameterCategory, parameterNumber, parameter, generatingProcessType);
      return Success(pd);
    }

    /** TryGet: the four prefix keys answer with their fields; every other key is not found. */
    method TryGet(key: ProductDefinitionContent) returns (found: bool, result: ContentValue)
      requires Valid()
      ensures found <==> key in {ProductDefinitionContent.ParameterCategory, ProductDefinitionContent.ParameterNumber,
                                 ProductDefinitionContent.GeneratingProcessType}
                         || (key == ProductDefinitionContent.Parameter && parameter.Some?)
      ensures key == ProductDefinitionContent.ParameterCategory ==> result == IntValue(parameterCategory)
      ensures key == ProductDefinitionContent.ParameterNumber ==> result == IntValue(parameterNumber)
      ensures key == ProductDefinitionContent.GeneratingProcessType ==> result == IntValue(generatingProcessType)
      ensures key == ProductDefinitionContent.Parameter && parameter.Some? ==> result == ParameterValue(parameter.value)
      ensures !found ==> result == DefaultValue(key)
    {
      found, result := template.TryGet(key);
    }
  }

  /** Product Definition Template 4.48: optical properties of aerosol. */
  class ProductDefinition0048 {
    const offset: nat
    const parameterCategory: int                  // octet 10
    const parameterNumber: int                    // octet 11
    const parameter: Option<Parameter>
    const aerosolType: int                        // octets 12-13
    const intervalTypeSize: int                   // octet 14
    const scaledValueFirstSize: Option<real>      // octets 15-19
    const scaledValueSecondSize: Option<real>     // octets 20-24
    const intervalTypeWaveLength: int             // octet 25
    const scaledValueFirstWavelength: Option<real>   // octets 26-30
    const scaledValueSecondWavelength: Option<real>  // octets 31-35
    const generatingProcessType: int              // octet 36
    const backgroundGeneratingProcessIdentifier: int // octet 37
    const analysisGeneratingProcessIdentifier: int   // octet 38
    const hoursAfter: int                         // octets 39-40
    const minutesAfter: int                       // octet 41
    /** The observational data cutoff, in minutes. */
    const observationalDataCutoff: int
    const timeRangeUnit: int                      // octet 42
    const forecastTime: int                       // octets 43-46
    const firstFixedSurfaceType: int              // octet 47
    const firstFixedSurfaceValue: Option<real>    // octets 48-52
    const secondFixedSurfaceType: int             // octet 53
    const secondFixedSurfaceValue: Option<real>   // octets 54-58
    const template: Template

    ghost predicate Valid()
      reads this, template
    {
      && template.Valid()
      && RegistersPrefix(template.content, parameterCategory, parameterNumber, parameter, generatingProcessType)
      && observationalDataCutoff == 60 * hoursAfter + minutesAfter
    }

    constructor (offset: nat, parameterCategory: int, parameterNumber: int, parameter: Option<Parameter>,
                 aerosolType: int, intervalTypeSize: int, scaledValueFirstSize: Option<real>, scaledValueSecondSize: Option<real>,
                 intervalTypeWaveLength: int, scaledValueFirstWavelength: Option<real>, scaledValueSecondWavelength: Option<real>,
                 generatingProcessType: int, backgroundGeneratingProcessIdentifier: int, analysisGeneratingProcessIdentifier: int,
                 hoursAfter: int, minutesAfter: int, timeRangeUnit: int, forecastTime: int,
                 firstFixedSurfaceType: int, firstFixedSurfaceValue: Option<real>,
                 secondFixedSurfaceType: int, secondFixedSurfaceValue: Option<real>)
      ensures Valid() && fresh(template)
      ensures this.offset == offset && this.parameterCategory == parameterCategory
      ensures this.parameterNumber == parameterNumber && this.parameter == parameter
      ensures this.aerosolType == aerosolType && this.intervalTypeSize == intervalTypeSize
      ensures this.scaledValueFirstSize == scaledValueFirstSize && this.scaledValueSecondSize == scaledValueSecondSize
      ensures this.intervalTypeWaveLength == intervalTypeWaveLength
      ensures this.scaledValueFirstWavelength == scaledValueFirstWavelength
      ensures this.scaledValueSecondWavelength == scaledValueSecondWavelength
      ensures this.generatingProcessType == generatingProcessType
      ensures this.backgroundGeneratingProcessIdentifier == backgroundGeneratingProcessIdentifier
      ensures this.analysisGeneratingProcessIdentifier == analysisGeneratingProcessIdentifier
      ensures this.hoursAfter == hoursAfter && this.minutesAfter == minutesAfter
      ensures this.timeRangeUnit == timeRangeUnit && this.forecastTime == forecastTime
      ensures this.firstFixedSurfaceType == firstFixedSurfaceType && this.firstFixedSurfaceValue == firstFixedSurfaceValue
      ensures this.secondFixedSurfaceType == secondFixedSurfaceType && this.secondFixedSurfaceValue == secondFixedSurfaceValue
    {
      this.offset := offset;
      this.parameterCategory := parameterCategory;
      this.parameterNumber := parameterNumber;
      this.parameter := parameter;
      this.aerosolType := aerosolType;
      this.intervalTypeSize := intervalTypeSize;
      this.scaledValueFirstSize := scaledValueFirstSize;
      this.scaledValueSecondSize := scaledValueSecondSize;
      this.intervalTypeWaveLength := intervalTypeWaveLength;
      this.scaledValueFirstWavelength := scaledValueFirstWavelength;
      this.scaledValueSecondWavelength := scaledValueSecondWavelength;
      this.generatingProcessType := generatingProcessType;
      this.backgroundGeneratingProcessIdentifier := backgroundGeneratingProcessIdentifier;
      this.analysisGeneratingProcessIdentifier := analysisGeneratingProcessIdentifier;
      this.hoursAfter := hoursAfter;
      this.minutesAfter := minutesAfter;
      this.observationalDataCutoff := 60 * hoursAfter + minutesAfter;
      this.timeRangeUnit := timeRangeUnit;
      this.forecastTime := forecastTime;
      this.firstFixedSurfaceType := firstFixedSurfaceType;
      this.firstFixedSurfaceValue := firstFixedSurfaceValue;
      this.secondFixedSurfaceType := secondFixedSurfaceType;
      this.secondFixedSurfaceValue := secondFixedSurfaceValue;
      var t := new Template();
      RegisterPrefixContent(t, parameterCategory, parameterNumber, parameter, generatingProcessType);
      template := t;
    }

    /**
      The parsing constructor: records the position, then reads octets 10-58
      in order, looking the parameter up right after octet 11; the size
      interval type is read as a signed octet, the wavelength one unsigned.
     */
    static method Read(reader: Reader, table: ParameterTable, discipline: int, centerCode: int)
      returns (r: Result<ProductDefinition0048, ReadError>)
      requires reader.Valid() && table.Valid()
      modifies reader, table
      ensures reader.Valid() && table.Valid()
      ensures r.Success? <==> old(reader.Position()) + 49 <= |reader.data|
      ensures old(reader.Position()) + 2 <= |reader.data| ==>
        table.CachesAfterGet(discipline, centerCode, reader.data[old(reader.Position())])
      ensures old(reader.Position()) + 2 > |reader.data| ==> unchanged(table)
      ensures r.Success? ==>
        var p, o, pd := old(reader.Position()), reader.data, r.value;
        && fresh(pd) && fresh(pd.template) && pd.Valid()
        && reader.Position() == p + 49
        && pd.offset == p
        && pd.parameterCategory == o[p]
        && pd.parameterNumber == o[p + 1]
        && pd.parameter == Lookup(table.categoriesByDiscipline, GroupingFor(table.master, table.ncepLocal, table.dwdLocal, centerCode),
                                  discipline, o[p], o[p + 1])
        && pd.aerosolType == BigEndian(o[p + 2..p + 4])
        && pd.intervalTypeSize == SignMagnitude(o[p + 4..p + 5])
        && pd.scaledValueFirstSize == ScaledValue(o[p + 5..p + 10])
        && pd.scaledValueSecondSize == ScaledValue(o[p + 10..p + 15])
        && pd.intervalTypeWaveLength == o[p + 15]
        && pd.scaledValueFirstWavelength == ScaledValue(o[p + 16..p + 21])
        && pd.scaledValueSecondWavelength == ScaledValue(o[p + 21..p + 26])
        && pd.generatingProcessType == o[p + 26]
        && pd.backgroundGeneratingProcessIdentifier == o[p + 27]
        && pd.analysisGeneratingProcessIdentifier == o[p + 28]
        && pd.hoursAfter == BigEndian(o[p + 29..p + 31])
        && pd.minutesAfter == o[p + 31]
        && pd.observationalDataCutoff == 60 * pd.hoursAfter + pd.minutesAfter
        && pd.timeRangeUnit == o[p + 32]
        && pd.forecastTime == SignMagnitude(o[p + 33..p + 37])
        && pd.firstFixedSurfaceType == o[p + 37]
        && pd.firstFixedSurfaceValue == ScaledValue(o[p + 38..p + 43])
        && pd.secondFixedSurfaceType == o[p + 43]
        && pd.secondFixedSurfaceValue == ScaledValue(o[p + 44..p + 49])
    {
      var offset := reader.Position();
      var parameterCategory :- reader.ReadUInt8();                       // 10
      var parameterNumber :- reader.ReadUInt8();                         // 11
      var parameter := table.Get(discipline, centerCode, parameterCategory, parameterNumber);
      var aerosolType :- reader.ReadUInt16();                            // 12-13
      var intervals :- ReadIntervals(reader);                            // 14-35
      var process :- ReadProcessAndCutoff(reader);                       // 36-41
      var level :- ReadTimeAndSurfaces(reader);                          // 42-58
      var pd := new ProductDefinition0048(
        offset, parameterCategory, parameterNumber, parameter, aerosolType,
        intervals.0, intervals.1, intervals.2, intervals.3, intervals.4, intervals.5,
        process.0, process.1, process.2, process.3, process.4,
        level.0, level.1, level.2, level.3, level.4, level.5);
      return Success(pd);
    }

    /** Octets 14-35: size interval type (signed), two sizes, wavelength interval type (unsigned), two wavelengths. */
    static method ReadIntervals(reader: Reader)
      returns (r: Result<(int, Option<real>, Option<real>, int, Option<real>, Option<real>), ReadError>)
      requires reader.Valid()
      modifies reader
      ensures reader.Valid()
      ensures r.Success? <==> old(reader.Position()) + 22 <= |reader.data|
      ensures r.Success? ==>
        var p, o := old(reader.Position()), reader.data;
        && reader.Position() == p + 22
        && r.value == (SignMagnitude(o[p..p + 1]), ScaledValue(o[p + 1..p + 6]), ScaledValue(o[p + 6..p + 11]),
                       o[p + 11], ScaledValue(o[p + 12..p + 17]), ScaledValue(o[p + 17..p + 22]))
    {
      var intervalTypeSize :- reader.ReadInt8();
      var scaledValueFirstSize :- reader.ReadScaledValue();
      var scaledValueSecondSize :- reader.ReadScaledValue();
      var intervalTypeWaveLength :- reader.ReadUInt8();
      var scaledValueFirstWavelength :- reader.ReadScaledValue();
      var scaledValueSecondWavelength :- reader.ReadScaledValue();
      return Success((intervalTypeSize, scaledValueFirstSize, scaledValueSecondSize,
                      intervalTypeWaveLength, scaledValueFirstWavelength, scaledValueSecondWavelength));
    }

    /** Octets 36-41: generating process, background and analysis identifiers, cutoff hours (2 octets) and minutes. */
    static method ReadProcessAndCutoff(reader: Reader) returns (r: Result<(int, int, int, int, int), ReadError>)
      requires reader.Valid()
      modifies reader
      ensures reader.Valid()
      ensures r.Success? <==> old(reader.Position()) + 6 <= |reader.data|
      ensures r.Success? ==>
        var p, o := old(reader.Position()), reader.data;
        && reader.Position() == p + 6
        && r.value == (o[p], o[p + 1], o[p + 2], BigEndian(o[p + 3..p + 5]), o[p + 5])
    {
      var generatingProcessType :- reader.ReadUInt8();
      var backgroundGeneratingProcessIdentifier :- reader.ReadUInt8();
      var analysisGeneratingProcessIdentifier :- reader.ReadUInt8();
      var hoursAfter :- reader.ReadUInt16();
      var minutesAfter :- reader.ReadUInt8();
      return Success((generatingProcessType, backgroundGeneratingProcessIdentifier, analysisGeneratingProcessIdentifier,
                      hoursAfter, minutesAfter));
    }

    /** Octets 42-58: time unit, forecast time (signed 32-bit), then both fixed surfaces. */
    static method ReadTimeAndSurfaces(reader: Reader)
      returns (r: Result<(int, int, int, Option<real>, int, Option<real>), ReadError>)
      requires reader.Valid()
      modifies reader
      ensures reader.Valid()
      ensures r.Success? <==> old(reader.Position()) + 17 <= |reader.data|
      ensures r.Success? ==>
        var p, o := old(reader.Position()), reader.data;
        && reader.Position() == p + 17
        && r.value == (o[p], SignMagnitude(o[p + 1..p + 5]), o[p + 5], ScaledValue(o[p + 6..p + 11]),
                       o[p + 11], ScaledValue(o[p + 12..p + 17]))
    {
      var timeRangeUnit :- reader.ReadUInt8();
      var forecastTime :- reader.ReadInt32();
      var firstFixedSurfaceType :- reader.ReadUInt8();
      var firstFixedSurfaceValue :- reader.ReadScaledValue();
      var secondFixedSurfaceType :- reader.ReadUInt8();
      var secondFixedSurfaceValue :- reader.ReadScaledValue();
      return Success((timeRangeUnit, forecastTime, firstFixedSurfaceType, firstFixedSurfaceValue,
                      secondFixedSurfaceType, secondFixedSurfaceValue));
    }

    /** TryGet: the four prefix keys answer with their fields; every other key is not found. */
    method TryGet(key: ProductDefinitionContent) returns (found: bool, result: ContentValue)
      requires Valid()
      ensures found <==> key in {ProductDefinitionContent.ParameterCategory, ProductDefinitionContent.ParameterNumber,
                                 ProductDefinitionContent.GeneratingProcessType}
                         || (key == ProductDefinitionContent.Parameter && parameter.Some?)
      ensures key == ProductDefinitionContent.ParameterCategory ==> result == IntValue(parameterCategory)
      ensures key == ProductDefinitionContent.ParameterNumber ==> result == IntValue(parameterNumber)
      ensures key == ProductDefinitionContent.GeneratingProcessType ==> result == IntValue(generatingProcessType)
      ensures key == ProductDefinitionContent.Parameter && parameter.Some? ==> result == ParameterValue(parameter.value)
      ensures !found ==> result == DefaultValue(key)
    {
      found, result := template.TryGet(key);
    }
  }
}
