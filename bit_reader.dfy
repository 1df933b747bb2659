/**
  The byte source of the decoder: a cursor over the octets of a GRIB2 message
  that reads whole big-endian octet groups and runs of bits, most significant
  bit first. Reading past the last octet is an error, never a truncated value.
 */
module BitReader {
  import opened Wrappers
  import opened RealPower

  /** One octet of the message. */
  type Octet = x: int | 0 <= x < 256

  /** The one failure of the reader: the data ended before the read did. */
  datatype ReadError = EndOfData

  /** Unsigned big-endian value of a group of octets. */
  function BigEndian(o: seq<Octet>): nat
  {
    if |o| == 0 then 0 else BigEndian(o[..|o| - 1]) * 256 + o[|o| - 1]
  }

  /**
    Signed value of a group of octets in the GRIB convention: the leading bit
    is the sign and the remaining bits are the magnitude.
   */
  function SignMagnitude(o: seq<Octet>): int
    requires |o| >= 1
  {
    if o[0] < 128 then BigEndian(o) else -(BigEndian([o[0] - 128] + o[1..]) as int)
  }

  /** The real value of a finite IEEE 754 single-precision bit pattern. */
  function SingleValue(o: seq<Octet>): real
    requires |o| == 4
  {
    var bits := BigEndian(o);
    var sign := if o[0] >= 128 then -1.0 else 1.0;
    var exponent := (bits / 0x80_0000) % 256;
    var fraction := bits % 0x80_0000;
    if exponent == 255 then 0.0
    else if exponent == 0 then sign * (fraction as real) * Pow(2.0, -149)
    else sign * ((0x80_0000 + fraction) as real) * Pow(2.0, exponent - 150)
  }

  /**
    The 5-octet scaled value: a signed scale factor S and a signed scaled
    integer V giving V / 10^S; absent when V holds the all-ones sentinel.
   */
  function ScaledValue(o: seq<Octet>): Option<real>
    requires |o| == 5
  {
    if o[1..] == [255, 255, 255, 255] then None
    else Some((SignMagnitude(o[1..]) as real) / Pow(10.0, SignMagnitude(o[..1])))
  }

  /** Bit k of the message, counting from the most significant bit of octet 0. */
  function Bit(data: seq<Octet>, k: nat): (b: nat)
    requires k < 8 * |data|
    ensures b <= 1
  {
    (data[k / 8] / Pow2(7 - k % 8)) % 2
  }

  /** The unsigned value of the `width` bits starting at bit `start`, most significant first. */
  function BitsValue(data: seq<Octet>, start: nat, width: nat): nat
    requires start + width <= 8 * |data|
  {
    if width == 0 then 0 else 2 * BitsValue(data, start, width - 1) + Bit(data, start + width - 1)
  }

  /** A run of `width` bits holds a value below 2^width. */
  lemma {:induction false} BitsValueBound(data: seq<Octet>, start: nat, width: nat)
    requires start + width <= 8 * |data|
    ensures BitsValue(data, start, width) < Pow2(width)
  {
    if width > 0 {
      BitsValueBound(data, start, width - 1);
    }
  }

  lemma HalveQuotient(x: nat, m: nat)
    requires m > 0
    ensures x / (2 * m) == (x / m) / 2
  {
    var q, t := x / (2 * m), x % (2 * m);
    assert x == 2 * m * q + t && 0 <= t < 2 * m;
    assert x == m * (2 * q + t / m) + t % m by {
      assert t == m * (t / m) + t % m;
    }
    assert x / m == 2 * q + t / m by {
      LemmaDivUnique(x, m, 2 * q + t / m, t % m);
    }
  }

  lemma LemmaDivUnique(x: int, m: int, q: int, t: int)
    requires m > 0 && 0 <= t < m && x == m * q + t
    ensures x / m == q
  {
    var q', t' := x / m, x % m;
    assert m * (q - q') == t' - t;
    if q > q' {
      MulAtLeast(m, q - q');
    } else if q < q' {
      MulAtLeast(m, q' - q);
    }
  }

  lemma MulAtLeast(m: int, d: int)
    requires m > 0 && d >= 1
    ensures m * d >= m
  {
  }

  /** The first k bits of an octet are the octet shifted right by 8 - k. */
  lemma {:induction false} LeadingBitsOfOctet(data: seq<Octet>, i: nat, k: nat)
    requires i < |data| && k <= 8
    ensures BitsValue(data, 8 * i, k) == data[i] / Pow2(8 - k)
  {
    if k == 0 {
      assert Pow2(8) == 256;
    } else {
      LeadingBitsOfOctet(data, i, k - 1);
      var j := 8 * i + k - 1;
      assert j / 8 == i && j % 8 == k - 1;
      var m := Pow2(8 - k);
      assert Pow2(9 - k) == 2 * m;
      HalveQuotient(data[i], m);
    }
  }

  /** A byte-aligned 8-bit read yields the octet itself: bit reads and octet reads agree. */
  lemma AlignedOctetBits(data: seq<Octet>, i: nat)
    requires i < |data|
    ensures BitsValue(data, 8 * i, 8) == data[i]
  {
    LeadingBitsOfOctet(data, i, 8);
  }

  class Reader {
    /** The octets of the source. */
    const data: seq<Octet>
    /** Index of the next unread bit. */
    var bitPos: nat

    ghost predicate Valid()
      reads this
    {
      bitPos <= 8 * |data|
    }

    /** Octets taken from the source so far; a partly read octet counts as taken. */
    function Position(): nat
      reads this
    {
      (bitPos + 7) / 8
    }

    constructor (data: seq<Octet>)
      ensures this.data == data && bitPos == 0 && Valid()
    {
      this.data := data;
      bitPos := 0;
    }

    /** Re-aligns the cursor to the next octet boundary. */
    method NextUIntN()
      requires Valid()
      modifies this
      ensures Valid() && bitPos == 8 * old(Position()) && Position() == old(Position())
    {
      bitPos := 8 * Position();
    }

    /** Reads an unsigned integer of `n` bits, most significant bit first. */
    method ReadUIntN(n: nat) returns (r: Result<nat, ReadError>)
      requires Valid()
      modifies this
      ensures Valid()
      ensures r.Success? <==> old(bitPos) + n <= 8 * |data|
      ensures r.Success? ==> r.value == BitsValue(data, old(bitPos), n) && bitPos == old(bitPos) + n
      ensures r.Failure? ==> unchanged(this)
    {
      if bitPos + n > 8 * |data| {
        return Failure(EndOfData);
      }
      r := Success(BitsValue(data, bitPos, n));
      bitPos := bitPos + n;
    }

    /** Reads the next `k` whole octets. */
    method ReadOctets(k: nat) returns (r: Result<seq<Octet>, ReadError>)
      requires Valid()
      modifies this
      ensures Valid()
      ensures r.Success? <==> old(Position()) + k <= |data|
      ensures r.Success? ==> r.value == data[old(Position())..old(Position()) + k]
      ensures r.Success? ==> bitPos == 8 * (old(Position()) + k) && Position() == old(Position()) + k
      ensures r.Failure? ==> unchanged(this)
    {
      var p := Position();
      if p + k > |data| {
        return Failure(EndOfData);
      }
      r := Success(data[p..p + k]);
      bitPos := 8 * (p + k);
    }

    method ReadUInt8() returns (r: Result<int, ReadError>)
      requires Valid()
      modifies this
      ensures Valid()
      ensures r.Success? <==> old(Position()) + 1 <= |data|
      ensures r.Success? ==> r.value == data[old(Position())]
      ensures r.Success? ==> bitPos == 8 * (old(Position()) + 1) && Position() == old(Position()) + 1
      ensures r.Failure? ==> unchanged(this)
    {
      var o :- ReadOctets(1);
      return Success(o[0]);
    }

    method ReadInt8() returns (r: Result<int, ReadError>)
      requires Valid()
      modifies this
      ensures Valid()
      ensures r.Success? <==> old(Position()) + 1 <= |data|
      ensures r.Success? ==> r.value == SignMagnitude(data[old(Position())..old(Position()) + 1])
      ensures r.Success? ==> bitPos == 8 * (old(Position()) + 1) && Position() == old(Position()) + 1
      ensures r.Failure? ==> unchanged(this)
    {
      var o :- ReadOctets(1);
      return Success(SignMagnitude(o));
    }

    method ReadUInt16() returns (r: Result<int, ReadError>)
      requires Valid()
      modifies this
      ensures Valid()
      ensures r.Success? <==> old(Position()) + 2 <= |data|
      ensures r.Success? ==> r.value == BigEndian(data[old(Position())..old(Position()) + 2])
      ensures r.Success? ==> bitPos == 8 * (old(Position()) + 2) && Position() == old(Position()) + 2
      ensures r.Failure? ==> unchanged(this)
    {
      var o :- ReadOctets(2);
      return Success(BigEndian(o));
    }

    method ReadInt16() returns (r: Result<int, ReadError>)
      requires Valid()
      modifies this
      ensures Valid()
      ensures r.Success? <==> old(Position()) + 2 <= |data|
      ensures r.Success? ==> r.value == SignMagnitude(data[old(Position())..old(Position()) + 2])
      ensures r.Success? ==> bitPos == 8 * (old(Position()) + 2) && Position() == old(Position()) + 2
      ensures r.Failure? ==> unchanged(this)
    {
      var o :- ReadOctets(2);
      return Success(SignMagnitude(o));
    }

    method ReadInt32() returns (r: Result<int, ReadError>)
      requires Valid()
      modifies this
      ensures Valid()
      ensures r.Success? <==> old(Position()) + 4 <= |data|
      ensures r.Success? ==> r.value == SignMagnitude(data[old(Position())..old(Position()) + 4])
      ensures r.Success? ==> bitPos == 8 * (old(Position()) + 4) && Position() == old(Position()) + 4
      ensures r.Failure? ==> unchanged(this)
    {
      var o :- ReadOctets(4);
      return Success(SignMagnitude(o));
    }

    method ReadSingle() returns (r: Result<real, ReadError>)
      requires Valid()
      modifies this
      ensures Valid()
      ensures r.Success? <==> old(Position()) + 4 <= |data|
      ensures r.Success? ==> r.value == SingleValue(data[old(Position())..old(Position()) + 4])
      ensures r.Success? ==> bitPos == 8 * (old(Position()) + 4) && Position() == old(Position()) + 4
      ensures r.Failure? ==> unchanged(this)
    {
      var o :- ReadOctets(4);
      return Success(SingleValue(o));
    }

    method ReadScaledValue() returns (r: Result<Option<real>, ReadError>)
      requires Valid()
      modifies this
      ensures Valid()
      ensures r.Success? <==> old(Position()) + 5 <= |data|
      ensures r.Success? ==> r.value == ScaledValue(data[old(Position())..old(Position()) + 5])
      ensures r.Success? ==> bitPos == 8 * (old(Position()) + 5) && Position() == old(Position()) + 5
      ensures r.Failure? ==> unchanged(this)
    {
      var o :- ReadOctets(5);
      return Success(ScaledValue(o));
    }
  }
}
