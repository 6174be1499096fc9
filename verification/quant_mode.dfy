/**
  Decoding of the plugin's `quant_algo` word into the three optional-tensor
  capabilities, and the positions those tensors take in the input list.
  The word is `pre_quant_scale * 4 + zero * 2 + bias`.
 */
module QuantMode {

  import opened TensorTypes

  /** The capability set a `quant_algo` word selects. */
  datatype Flags = Flags(preScale: bool, zeros: bool, bias: bool)

  /** Bit `b` (0, 1 or 2) of the two's-complement form of `q`, as C++ `q & (1 << b)` sees it. */
  function BitSet(q: Int32, b: nat): bool
    requires b < 3
  {
    var u := Unsigned(q);
    var w := if b == 0 then 1 else if b == 1 then 2 else 4;
    (u / w) % 2 == 1
  }

  /** `quant_algo & PRE_SCALE_QUANT`, `& ZER0` and `& BIAS`, with the masks 4, 2 and 1. */
  function DecodeFlags(q: Int32): Flags
  {
    Flags(BitSet(q, 2), BitSet(q, 1), BitSet(q, 0))
  }

  /** The `quant_algo` word a capability set is written as. */
  function EncodeFlags(f: Flags): (q: Int32)
    ensures 0 <= q < 8
  {
    (if f.preScale then 4 else 0) + (if f.zeros then 2 else 0) + (if f.bias then 1 else 0)
  }

  /** Decoding the word of a capability set gives that set back. */
  lemma DecodeEncodeFlags(f: Flags)
    ensures DecodeFlags(EncodeFlags(f)) == f
  {
  }

  /** Every word in [0, 8) is the encoding of the set it decodes to. */
  lemma EncodeDecodeFlags(q: Int32)
    requires 0 <= q < 8
    ensures EncodeFlags(DecodeFlags(q)) == q
  {
  }

  /** The low three bits of a natural are those of its remainder modulo 8. */
  lemma LowBitsOfRemainder(u: nat)
    ensures u % 2 == (u % 8) % 2
    ensures (u / 2) % 2 == ((u % 8) / 2) % 2
    ensures (u / 4) % 2 == ((u % 8) / 4) % 2
  {
    var a := u / 8;
    var r := u % 8;
    assert u == 8 * a + r;
    assert u / 2 == 4 * a + r / 2;
    assert u / 4 == 2 * a + r / 4;
  }

  /** Only the low three bits of the word matter; e.g. -1 selects everything. */
  lemma DecodeLowBits(q: Int32)
    ensures DecodeFlags(q) == DecodeFlags(q % 8)
  {
    var u := Unsigned(q);
    assert u % 8 == q % 8 by {
      if q < 0 {
        assert u == q + 8 * 0x2000_0000;
      }
    }
    LowBitsOfRemainder(u);
    assert Unsigned(q % 8) == q % 8;
  }

  /** Number of capabilities switched on. */
  function Count(f: Flags): (c: nat)
    ensures c <= 3
  {
    (if f.preScale then 1 else 0) + (if f.zeros then 1 else 0) + (if f.bias then 1 else 0)
  }

  /** The positions of the logical tensors in the plugin's input list. */
  datatype Indices = Indices(preScale: nat, weight: nat, scales: nat, zeros: nat, bias: nat)

  /** The index derivation `init` performs. */
  function DeriveIndices(f: Flags): Indices
  {
    var pre := if f.preScale then 1 else 0;
    var w := pre + 1;
    var s := w + 1;
    var z := if f.zeros then s + 1 else s;
    var b := if f.bias then z + 1 else z;
    Indices(pre, w, s, z, b)
  }

  /** The number of inputs the plugin expects: one past the last index. */
  function InputCount(f: Flags): nat
  {
    DeriveIndices(f).bias + 1
  }

  /** The expected input count is activations, weights and scales plus one per capability. */
  lemma InputCountIsThreePlusCount(f: Flags)
    ensures InputCount(f) == 3 + Count(f)
    ensures InputCount(DecodeFlags(0)) == 3 && InputCount(DecodeFlags(7)) == 6
  {
  }

  /** The role a slot of the input list plays. */
  datatype Role = Activations | PreQuantScale | Weights | Scales | Zeros | Biases

  /** Reference layout: the present tensors, in the fixed order, with no gaps. */
  function Layout(f: Flags): (l: seq<Role>)
    ensures |l| == 3 + Count(f)
  {
    [Activations]
    + (if f.preScale then [PreQuantScale] else [])
    + [Weights, Scales]
    + (if f.zeros then [Zeros] else [])
    + (if f.bias then [Biases] else [])
  }

  /**
    The derived indices name exactly the slots the reference layout puts each
    present tensor in, the list is exactly `InputCount` long, and an absent
    tensor's index collapses onto the one before it.
   */
  lemma IndicesLocateRoles(f: Flags)
    ensures var ix := DeriveIndices(f); var l := Layout(f);
      && |l| == InputCount(f)
      && l[0] == Activations
      && l[ix.weight] == Weights
      && l[ix.scales] == Scales
      && (f.preScale <==> l[ix.preScale] == PreQuantScale)
      && (f.zeros <==> (ix.zeros < |l| && l[ix.zeros] == Zeros))
      && (f.bias <==> (ix.bias < |l| && l[ix.bias] == Biases))
      && (!f.zeros ==> ix.zeros == ix.scales)
      && (!f.bias ==> ix.bias == ix.zeros)
  {
  }

  /** Indices are ordered, and strictly so across every present tensor. */
  lemma IndicesMonotone(f: Flags)
    ensures var ix := DeriveIndices(f);
      && 0 <= ix.preScale < ix.weight < ix.scales <= ix.zeros <= ix.bias
      && (f.preScale <==> 0 < ix.preScale)
      && (f.zeros <==> ix.scales < ix.zeros)
      && (f.bias <==> ix.zeros < ix.bias)
      && ix.bias < InputCount(f)
  {
  }
}
