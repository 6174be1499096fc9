/**
  The TensorRT vocabulary the plugin speaks: element types, tensor memory
  formats, fixed-width integers and dimension lists.
 */
module TensorTypes {

  import opened Wrappers

  /** A C++ `int` on the targets the plugin is built for. */
  type Int32 = x: int | -0x8000_0000 <= x < 0x8000_0000

  /** The unsigned 32-bit reading of a two's-complement word. */
  function Unsigned(q: Int32): (u: nat)
    ensures u < 0x1_0000_0000 && u % 0x1_0000_0000 == q % 0x1_0000_0000
  {
    if q < 0 then q + 0x1_0000_0000 else q
  }

  /** One byte of a serialised buffer. */
  type Byte = x: int | 0 <= x < 0x100

  /** `nvinfer1::DataType`, with the numeric codes TensorRT assigns. */
  datatype DataType = Float | Half | Int8 | Int32T | Bool | Uint8 | Fp8 | Bf16 | Int64 {

    /** The enumerator's underlying integer value. */
    function Code(): (c: Int32)
      ensures 0 <= c <= 8
    {
      match this
      case Float => 0
      case Half => 1
      case Int8 => 2
      case Int32T => 3
      case Bool => 4
      case Uint8 => 5
      case Fp8 => 6
      case Bf16 => 7
      case Int64 => 8
    }
  }

  /** The enumerator with the given value, if there is one. */
  function DataTypeOf(c: Int32): (r: Option<DataType>)
    ensures r.Some? <==> 0 <= c <= 8
    ensures r.Some? ==> r.value.Code() == c
  {
    if c == 0 then Some(Float)
    else if c == 1 then Some(Half)
    else if c == 2 then Some(Int8)
    else if c == 3 then Some(Int32T)
    else if c == 4 then Some(Bool)
    else if c == 5 then Some(Uint8)
    else if c == 6 then Some(Fp8)
    else if c == 7 then Some(Bf16)
    else if c == 8 then Some(Int64)
    else None
  }

  /** Decoding an enumerator's own code gives the enumerator back. */
  lemma DataTypeCodeRoundTrip(t: DataType)
    ensures DataTypeOf(t.Code()) == Some(t)
  {
  }

  /** `nvinfer1::TensorFormat`; the plugin only ever asks for `Linear`. */
  datatype TensorFormat =
    | Linear | Chw2 | Hwc8 | Chw4 | Chw16 | Chw32 | Dhwc8 | Cdhw32 | Hwc
    | DlaLinear | DlaHwc4 | Hwc16 | Dhwc

  /** The concrete extents of one tensor, outermost first. */
  type Dims = seq<nat>

  /** The number of elements spanned by a list of extents. */
  function Product(s: seq<nat>): nat
  {
    if |s| == 0 then 1 else s[0] * Product(s[1..])
  }

  /** Multiplying in one more extent on the right multiplies the product. */
  lemma {:induction false} ProductSnoc(s: seq<nat>, x: nat)
    ensures Product(s + [x]) == Product(s) * x
  {
    if |s| == 0 {
      assert s + [x] == [x];
    } else {
      assert (s + [x])[1..] == s[1..] + [x];
      ProductSnoc(s[1..], x);
      assert Product(s + [x]) == s[0] * (Product(s[1..]) * x);
    }
  }

  /** Every extent of `a` is at most the matching extent of `b`. */
  predicate Within(a: seq<nat>, b: seq<nat>)
  {
    |a| == |b| && forall i :: 0 <= i < |a| ==> a[i] <= b[i]
  }

  /** Products of naturals grow with both factors. */
  lemma MulMono(a: nat, b: nat, c: nat, d: nat)
    requires a <= c && b <= d
    ensures a * b <= c * d
  {
    assert a * b <= c * b;
    assert c * b <= c * d;
  }

  /** Shrinking extents never enlarges the element count. */
  lemma {:induction false} ProductMono(a: seq<nat>, b: seq<nat>)
    requires Within(a, b)
    ensures Product(a) <= Product(b)
  {
    if |a| > 0 {
      assert Within(a[1..], b[1..]) by {
        forall i | 0 <= i < |a| - 1
          ensures a[1..][i] <= b[1..][i]
        {
          assert a[1..][i] == a[i + 1];
        }
      }
      ProductMono(a[1..], b[1..]);
      MulMono(a[0], Product(a[1..]), b[0], Product(b[1..]));
    }
  }

  /**
    The row count M of an activation tensor: the product of every extent
    but the last, accumulated left to right as the plugin's loop does.
   */
  method LeadingRows(d: Dims) returns (m: nat)
    requires |d| >= 1
    ensures m == Product(d[..|d| - 1])
  {
    m := 1;
    var i := 0;
    while i < |d| - 1
      invariant 0 <= i <= |d| - 1
      invariant m == Product(d[..i])
    {
      ProductSnoc(d[..i], d[i]);
      assert d[..i + 1] == d[..i] + [d[i]];
      m := m * d[i];
      i := i + 1;
    }
  }
}
