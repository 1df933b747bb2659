/**
  Data Representation Template 5.0, grid point data with simple packing:
  each grid point is stored as an unsigned W-bit integer X and decodes to
  (R + X * 2^E) / 10^D, or to R alone when W is 0.
 */
module SimplePacking {
  import opened Wrappers
  import opened RealPower
  import opened BitReader

  /** The descriptor of Template 5.0 (octets 12-21 of the Data Representation section). */
  datatype GridPointDataSimplePacking = GridPointDataSimplePacking(
    referenceValue: real,         // R
    binaryScaleFactor: int,       // E
    decimalScaleFactor: int,      // D
    numberOfBits: nat,            // W
    originalFieldValuesType: int)

  /**
    The parsing constructor: reads R (IEEE single), E and D (signed 16-bit),
    W and the type of original field values (unsigned octets), in that order.
   */
  method ReadGridPointDataSimplePacking(reader: Reader) returns (r: Result<GridPointDataSimplePacking, ReadError>)
    requires reader.Valid()
    modifies reader
    ensures reader.Valid()
    ensures r.Success? <==> old(reader.Position()) + 10 <= |reader.data|
    ensures r.Success? ==>
      var p, o := old(reader.Position()), reader.data;
      && r.value == GridPointDataSimplePacking(
           SingleValue(o[p..p + 4]), SignMagnitude(o[p + 4..p + 6]), SignMagnitude(o[p + 6..p + 8]), o[p + 8], o[p + 9])
      && reader.Position() == p + 10
  {
    var referenceValue :- reader.ReadSingle();
    var binaryScaleFactor :- reader.ReadInt16();
    var decimalScaleFactor :- reader.ReadInt16();
    var numberOfBits :- reader.ReadUInt8();
    var originalFieldValuesType :- reader.ReadUInt8();
    return Success(GridPointDataSimplePacking(
      referenceValue, binaryScaleFactor, decimalScaleFactor, numberOfBits, originalFieldValuesType));
  }

  /** The reconstruction formula Y = (R + X * 2^E) / 10^D. */
  function ScaledSample(referenceValue: real, binaryScaleFactor: int, decimalScaleFactor: int, x: int): real
  {
    (referenceValue + (x as real) * Pow(2.0, binaryScaleFactor)) / Pow(10.0, decimalScaleFactor)
  }

  /** One R for every packed value (the W = 0 branch). */
  function RepeatReference(referenceValue: real, packed: seq<int>): seq<real>
  {
    if packed == [] then [] else [referenceValue] + RepeatReference(referenceValue, packed[1..])
  }

  /** The formula applied to every packed value, in order (the W > 0 branch). */
  function ScaleEach(p: GridPointDataSimplePacking, packed: seq<int>): seq<real>
  {
    if packed == [] then []
    else [ScaledSample(p.referenceValue, p.binaryScaleFactor, p.decimalScaleFactor, packed[0])]
         + ScaleEach(p, packed[1..])
  }

  /** Unpack: maps the packed integers to physical values. */
  function Unpack(p: GridPointDataSimplePacking, packed: seq<int>): seq<real>
  {
    if p.numberOfBits == 0 then RepeatReference(p.referenceValue, packed) else ScaleEach(p, packed)
  }

  lemma {:induction false} RepeatReferenceAt(v: real, packed: seq<int>)
    ensures |RepeatReference(v, packed)| == |packed|
    ensures forall i :: 0 <= i < |packed| ==> RepeatReference(v, packed)[i] == v
  {
    if packed != [] {
      RepeatReferenceAt(v, packed[1..]);
    }
  }

  lemma {:induction false} ScaleEachAt(p: GridPointDataSimplePacking, packed: seq<int>)
    ensures |ScaleEach(p, packed)| == |packed|
    ensures forall i :: 0 <= i < |packed| ==>
      ScaleEach(p, packed)[i] == ScaledSample(p.referenceValue, p.binaryScaleFactor, p.decimalScaleFactor, packed[i])
  {
    if packed != [] {
      ScaleEachAt(p, packed[1..]);
    }
  }

  /** Unpack yields exactly one value per packed value. */
  lemma UnpackLength(p: GridPointDataSimplePacking, packed: seq<int>)
    ensures |Unpack(p, packed)| == |packed|
  {
    RepeatReferenceAt(p.referenceValue, packed);
    ScaleEachAt(p, packed);
  }

  /** With W = 0 every value is R, whatever was packed. */
  lemma UnpackConstantWithoutBits(p: GridPointDataSimplePacking, packed: seq<int>)
    requires p.numberOfBits == 0
    ensures |Unpack(p, packed)| == |packed|
    ensures forall i :: 0 <= i < |packed| ==> Unpack(p, packed)[i] == p.referenceValue
  {
    RepeatReferenceAt(p.referenceValue, packed);
  }

  /** With W > 0, value i is (R + X_i * 2^E) / 10^D. */
  lemma UnpackFormula(p: GridPointDataSimplePacking, packed: seq<int>)
    requires p.numberOfBits > 0
    ensures |Unpack(p, packed)| == |packed|
    ensures forall i :: 0 <= i < |packed| ==>
      Unpack(p, packed)[i] == ScaledSample(p.referenceValue, p.binaryScaleFactor, p.decimalScaleFactor, packed[i])
  {
    ScaleEachAt(p, packed);
  }

  /** Value i depends on packed value i only. */
  lemma UnpackPointwise(p: GridPointDataSimplePacking, packed: seq<int>, other: seq<int>, i: int)
    requires |packed| == |other| && 0 <= i < |packed| && packed[i] == other[i]
    ensures |Unpack(p, packed)| == |Unpack(p, other)| == |packed|
    ensures Unpack(p, packed)[i] == Unpack(p, other)[i]
  {
    RepeatReferenceAt(p.referenceValue, packed);
    RepeatReferenceAt(p.referenceValue, other);
    ScaleEachAt(p, packed);
    ScaleEachAt(p, other);
  }

  /** The worked example: R = 280, E = 1, D = 1, X = 100 decodes to 48. */
  lemma WorkedExample()
    ensures ScaledSample(280.0, 1, 1, 100) == 48.0
  {
    assert Pow(2.0, 1) == 2.0;
    assert Pow(10.0, 1) == 10.0;
  }

  /** For fixed R, E and D the formula is non-decreasing in X. */
  lemma ScaledSampleMonotone(referenceValue: real, e: int, d: int, x1: int, x2: int)
    requires x1 <= x2
    ensures ScaledSample(referenceValue, e, d, x1) <= ScaledSample(referenceValue, e, d, x2)
  {
    var b, q := Pow(2.0, e), Pow(10.0, d);
    assert (x1 as real) * b <= (x2 as real) * b by {
      assert ((x2 - x1) as real) * b >= 0.0;
    }
    var lo, hi := referenceValue + (x1 as real) * b, referenceValue + (x2 as real) * b;
    assert hi / q - lo / q == (hi - lo) / q;
  }

  /** Unpack preserves the order of the packed values. */
  lemma UnpackMonotone(p: GridPointDataSimplePacking, packed: seq<int>, i: int, j: int)
    requires 0 <= i < |packed| && 0 <= j < |packed| && packed[i] <= packed[j]
    ensures |Unpack(p, packed)| == |packed|
    ensures Unpack(p, packed)[i] <= Unpack(p, packed)[j]
  {
    if p.numberOfBits == 0 {
      RepeatReferenceAt(p.referenceValue, packed);
    } else {
      ScaleEachAt(p, packed);
      ScaledSampleMonotone(p.referenceValue, p.binaryScaleFactor, p.decimalScaleFactor, packed[i], packed[j]);
    }
  }

  /** Every W-bit sample decodes into [R / 10^D, (R + (2^W - 1) * 2^E) / 10^D]. */
  lemma UnpackBounds(p: GridPointDataSimplePacking, packed: seq<int>)
    requires p.numberOfBits > 0
    requires forall i :: 0 <= i < |packed| ==> 0 <= packed[i] < Pow2(p.numberOfBits)
    ensures |Unpack(p, packed)| == |packed|
    ensures forall i :: 0 <= i < |packed| ==>
      && p.referenceValue / Pow(10.0, p.decimalScaleFactor) <= Unpack(p, packed)[i]
      && Unpack(p, packed)[i] <= ScaledSample(p.referenceValue, p.binaryScaleFactor, p.decimalScaleFactor, Pow2(p.numberOfBits) - 1)
  {
    ScaleEachAt(p, packed);
    forall i | 0 <= i < |packed|
      ensures p.referenceValue / Pow(10.0, p.decimalScaleFactor) <= Unpack(p, packed)[i]
      ensures Unpack(p, packed)[i] <= ScaledSample(p.referenceValue, p.binaryScaleFactor, p.decimalScaleFactor, Pow2(p.numberOfBits) - 1)
    {
      ScaledSampleMonotone(p.referenceValue, p.binaryScaleFactor, p.decimalScaleFactor, 0, packed[i]);
      ScaledSampleMonotone(p.referenceValue, p.binaryScaleFactor, p.decimalScaleFactor, packed[i], Pow2(p.numberOfBits) - 1);
    }
  }

  /** The `count` consecutive `width`-bit samples starting at bit `start`. */
  function PackedSamples(data: seq<Octet>, start: nat, width: nat, count: nat): seq<nat>
    requires start + count * width <= 8 * |data|
  {
    if count == 0 then []
    else
      assert (count - 1) * width + width == count * width;
      PackedSamples(data, start, width, count - 1) + [BitsValue(data, start + (count - 1) * width, width)]
  }

  lemma {:induction false} PackedSampleAt(data: seq<Octet>, start: nat, width: nat, count: nat, k: nat)
    requires start + count * width <= 8 * |data|
    requires k < count && start + k * width + width <= 8 * |data|
    ensures |PackedSamples(data, start, width, count)| == count
    ensures PackedSamples(data, start, width, count)[k] == BitsValue(data, start + k * width, width)
  {
    assert (count - 1) * width + width == count * width;
    if k < count - 1 {
      PackedSampleAt(data, start, width, count - 1, k);
    } else {
      PackedSamplesLength(data, start, width, count - 1);
    }
  }

  lemma {:induction false} PackedSamplesLength(data: seq<Octet>, start: nat, width: nat, count: nat)
    requires start + count * width <= 8 * |data|
    ensures |PackedSamples(data, start, width, count)| == count
  {
    if count > 0 {
      assert (count - 1) * width + width == count * width;
      PackedSamplesLength(data, start, width, count - 1);
    }
  }

  /** Every sample read with width W is below 2^W. */
  lemma {:induction false} PackedSamplesBounded(data: seq<Octet>, start: nat, width: nat, count: nat)
    requires start + count * width <= 8 * |data|
    ensures forall x :: x in PackedSamples(data, start, width, count) ==> x < Pow2(width)
  {
    if count > 0 {
      assert (count - 1) * width + width == count * width;
      PackedSamplesBounded(data, start, width, count - 1);
      BitsValueBound(data, start + (count - 1) * width, width);
    }
  }

  lemma MulMonotone(a: nat, b: nat, w: nat)
    requires a <= b
    ensures a * w <= b * w
  {
  }

  /**
    ReadPackedValues: re-aligns the reader once, then reads `dataPointsNumber`
    samples of W bits each, in order (none when the count is not positive).
   */
  method ReadPackedValues(reader: Reader, p: GridPointDataSimplePacking, dataPointsNumber: int)
    returns (r: Result<seq<nat>, ReadError>)
    requires reader.Valid()
    modifies reader
    ensures reader.Valid()
    ensures var start, count := 8 * old(reader.Position()), if dataPointsNumber < 0 then 0 else dataPointsNumber;
      && (r.Success? <==> start + count * p.numberOfBits <= 8 * |reader.data|)
      && (r.Success? ==>
            && r.value == PackedSamples(reader.data, start, p.numberOfBits, count)
            && reader.bitPos == start + count * p.numberOfBits)
  {
    reader.NextUIntN();
    ghost var start := reader.bitPos;
    ghost var count: nat := if dataPointsNumber < 0 then 0 else dataPointsNumber;
    var values: seq<nat> := [];
    var i := 0;
    while i < dataPointsNumber
      invariant 0 <= i <= count
      invariant reader.Valid()
      invariant reader.bitPos == start + i * p.numberOfBits
      invariant values == PackedSamples(reader.data, start, p.numberOfBits, i)
    {
      MulMonotone(i + 1, count, p.numberOfBits);
      var x :- reader.ReadUIntN(p.numberOfBits);
      values := values + [x];
      i := i + 1;
    }
    return Success(values);
  }

  /** DoEnumerateDataValues: Unpack applied to ReadPackedValues, and nothing else. */
  method EnumerateDataValues(reader: Reader, p: GridPointDataSimplePacking, dataPointsNumber: int)
    returns (r: Result<seq<real>, ReadError>)
    requires reader.Valid()
    modifies reader
    ensures reader.Valid()
    ensures var start, count := 8 * old(reader.Position()), if dataPointsNumber < 0 then 0 else dataPointsNumber;
      && (r.Success? <==> start + count * p.numberOfBits <= 8 * |reader.data|)
      && (r.Success? ==>
            && r.value == Unpack(p, PackedSamples(reader.data, start, p.numberOfBits, count))
            && reader.bitPos == start + count * p.numberOfBits)
  {
    var packed :- ReadPackedValues(reader, p, dataPointsNumber);
    return Success(Unpack(p, packed));
  }

  /**
    Decoding the data section of N points with W > 0 yields N values, each
    within the range the descriptor allows.
   */
  lemma DecodedValuesInRange(p: GridPointDataSimplePacking, data: seq<Octet>, start: nat, count: nat)
    requires p.numberOfBits > 0 && start + count * p.numberOfBits <= 8 * |data|
    ensures var values := Unpack(p, PackedSamples(data, start, p.numberOfBits, count));
      && |values| == count
      && forall i :: 0 <= i < count ==>
           p.referenceValue / Pow(10.0, p.decimalScaleFactor) <= values[i]
           <= ScaledSample(p.referenceValue, p.binaryScaleFactor, p.decimalScaleFactor, Pow2(p.numberOfBits) - 1)
  {
    var packed := PackedSamples(data, start, p.numberOfBits, count);
    PackedSamplesLength(data, start, p.numberOfBits, count);
    PackedSamplesBounded(data, start, p.numberOfBits, count);
    assert forall i :: 0 <= i < |packed| ==> packed[i] in packed;
    UnpackBounds(p, packed);
  }

  /** With W = 0 decoding N points yields N copies of R and reads no sample bits. */
  lemma DecodedConstantField(p: GridPointDataSimplePacking, data: seq<Octet>, start: nat, count: nat)
    requires p.numberOfBits == 0 && start <= 8 * |data|
    ensures var values := Unpack(p, PackedSamples(data, start, 0, count));
      && |values| == count
      && forall i :: 0 <= i < count ==> values[i] == p.referenceValue
  {
    PackedSamplesLength(data, start, 0, count);
    UnpackConstantWithoutBits(p, PackedSamples(data, start, 0, count));
  }

  /**
    Raster example: with R = E = D = 0 and W = 8, the sample octets
    10, 20, 30, 40 decode to 10, 20, 30, 40 in that order.
   */
  lemma RasterExample(data: seq<Octet>)
    requires data == [10, 20, 30, 40]
    ensures Unpack(GridPointDataSimplePacking(0.0, 0, 0, 8, 0), PackedSamples(data, 0, 8, 4))
         == [10.0, 20.0, 30.0, 40.0]
  {
    var p := GridPointDataSimplePacking(0.0, 0, 0, 8, 0);
    var packed := PackedSamples(data, 0, 8, 4);
    PackedSamplesLength(data, 0, 8, 4);
    UnpackFormula(p, packed);
    var values := Unpack(p, packed);
    assert Pow(2.0, 0) == 1.0 && Pow(10.0, 0) == 1.0;
    forall k | 0 <= k < 4
      ensures values[k] == data[k] as real
    {
      PackedSampleAt(data, 0, 8, 4, k);
      AlignedOctetBits(data, k);
      assert values[k] == ScaledSample(0.0, 0, 0, packed[k]);
    }
    assert values == [data[0] as real, data[1] as real, data[2] as real, data[3] as real];
  }
}
