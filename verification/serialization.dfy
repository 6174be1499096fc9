/**
  `serialize`, `getSerializationSize` and the byte-buffer constructor. The
  three fields are written in order as native 32-bit words (little-endian on
  the plugin's targets); reading them back re-runs `init`.
 */
module Serialization {

  import opened Wrappers
  import opened TensorTypes
  import opened QuantMode
  import opened PluginConfig

  /** `sizeof(int)`, and `sizeof(nvinfer1::DataType)` (an enum over int32). */
  const IntBytes: nat := 4
  const DataTypeBytes: nat := 4

  /** `getSerializationSize`: two ints and one data type. */
  function SerializationSize(): nat
  {
    2 * IntBytes + DataTypeBytes
  }

  /** The number of values `n` bytes can hold. */
  function Pow256(n: nat): (r: nat)
    ensures r >= 1
  {
    if n == 0 then 1 else 256 * Pow256(n - 1)
  }

  /** The `width` low-order bytes of `u`, least significant first. */
  function EncodeLE(u: nat, width: nat): (bs: seq<Byte>)
    requires u < Pow256(width)
    ensures |bs| == width
  {
    if width == 0 then [] else [u % 256] + EncodeLE(u / 256, width - 1)
  }

  /** The unsigned value of a little-endian byte string. */
  function DecodeLE(bs: seq<Byte>): (u: nat)
    ensures u < Pow256(|bs|)
  {
    if |bs| == 0 then 0 else bs[0] + 256 * DecodeLE(bs[1..])
  }

  /** Reading back the bytes of a value gives the value. */
  lemma {:induction false} DecodeEncodeLE(u: nat, width: nat)
    requires u < Pow256(width)
    ensures DecodeLE(EncodeLE(u, width)) == u
  {
    if width > 0 {
      var bs := EncodeLE(u, width);
      assert bs[1..] == EncodeLE(u / 256, width - 1);
      DecodeEncodeLE(u / 256, width - 1);
    }
  }

  /** Writing back the value of some bytes gives those bytes. */
  lemma {:induction false} EncodeDecodeLE(bs: seq<Byte>)
    ensures EncodeLE(DecodeLE(bs), |bs|) == bs
  {
    if |bs| > 0 {
      var u := DecodeLE(bs);
      assert u % 256 == bs[0] && u / 256 == DecodeLE(bs[1..]);
      EncodeDecodeLE(bs[1..]);
    }
  }

  /** `write(d, x)` for a 32-bit `x`. */
  function EncodeInt32(x: Int32): (bs: seq<Byte>)
    ensures |bs| == 4
  {
    assert Pow256(4) == 0x1_0000_0000;
    EncodeLE(Unsigned(x), 4)
  }

  /** `read(d, x)` for a 32-bit `x`: the two's-complement reading of four bytes. */
  function DecodeInt32(bs: seq<Byte>): Int32
    requires |bs| == 4
  {
    assert Pow256(4) == 0x1_0000_0000;
    var u := DecodeLE(bs);
    if u < 0x8000_0000 then u else u - 0x1_0000_0000
  }

  /** Reading back the four bytes written for a 32-bit value gives the value. */
  lemma Int32RoundTrip(x: Int32)
    ensures DecodeInt32(EncodeInt32(x)) == x
  {
    assert Pow256(4) == 0x1_0000_0000;
    DecodeEncodeLE(Unsigned(x), 4);
  }

  /** Writing back the 32-bit value read from four bytes gives those bytes. */
  lemma BytesRoundTrip(bs: seq<Byte>)
    requires |bs| == 4
    ensures EncodeInt32(DecodeInt32(bs)) == bs
  {
    assert Pow256(4) == 0x1_0000_0000;
    EncodeDecodeLE(bs);
  }

  /** `serialize`: type, then quant_algo, then group_size. */
  function Serialize(p: Plugin): (bs: seq<Byte>)
    ensures |bs| == SerializationSize()
  {
    EncodeInt32(p.dtype.Code()) + EncodeInt32(p.quantAlgo) + EncodeInt32(p.groupSize)
  }

  /**
    The byte-buffer constructor: read the three fields in order, run `init`,
    then insist that exactly the buffer's length was consumed. A buffer too
    short to hold the fields is refused as a length mismatch.
   */
  function Deserialize(data: seq<Byte>): (r: Result<Plugin, PluginError>)
    ensures r.Ok? <==>
      |data| == SerializationSize() && DecodeInt32(data[..4]) == Half.Code()
    ensures r.Ok? ==>
      && r.value.Wellformed()
      && r.value.quantAlgo == DecodeInt32(data[4..8])
      && r.value.groupSize == DecodeInt32(data[8..12])
    ensures |data| < SerializationSize() ==> r == Err(LengthMismatch(SerializationSize(), |data|))
    ensures (|data| > SerializationSize() && DecodeInt32(data[..4]) == Half.Code())
      ==> r == Err(LengthMismatch(SerializationSize(), |data|))
    ensures (|data| >= SerializationSize() && DecodeInt32(data[..4]) != Half.Code())
      ==> r.Err? && (r.error.UnsupportedType? || r.error.UnknownTypeCode?)
  {
    if |data| < SerializationSize() then
      Err(LengthMismatch(SerializationSize(), |data|))
    else
      var code := DecodeInt32(data[..4]);
      var quantAlgo := DecodeInt32(data[4..8]);
      var groupSize := DecodeInt32(data[8..12]);
      match DataTypeOf(code)
      case None => Err(UnknownTypeCode(code))
      case Some(t) =>
        var p :- Init(t, quantAlgo, groupSize);
        if |data| != SerializationSize() then Err(LengthMismatch(SerializationSize(), |data|))
        else Ok(p)
  }

  /** Deserialising what a plugin serialised rebuilds it, derived indices and runner included. */
  lemma RoundTrip(p: Plugin)
    requires p.Wellformed()
    ensures Deserialize(Serialize(p)) == Ok(p)
  {
    var bs := Serialize(p);
    assert bs[..4] == EncodeInt32(p.dtype.Code());
    assert bs[4..8] == EncodeInt32(p.quantAlgo);
    assert bs[8..12] == EncodeInt32(p.groupSize);
    Int32RoundTrip(p.dtype.Code());
    Int32RoundTrip(p.quantAlgo);
    Int32RoundTrip(p.groupSize);
    DataTypeCodeRoundTrip(p.dtype);
    WellformedIsInitialised(p);
  }

  /** Every buffer that deserialises is exactly what its plugin serialises to. */
  lemma Canonical(data: seq<Byte>)
    requires Deserialize(data).Ok?
    ensures Serialize(Deserialize(data).value) == data
  {
    var p := Deserialize(data).value;
    BytesRoundTrip(data[..4]);
    BytesRoundTrip(data[4..8]);
    BytesRoundTrip(data[8..12]);
    assert data == data[..4] + data[4..8] + data[8..12];
  }
}
