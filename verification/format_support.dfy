/**
  `supportsFormatCombination`: which element type and memory format each
  input and output position accepts.
 */
module FormatSupport {

  import opened TensorTypes
  import opened QuantMode
  import opened PluginConfig

  /** The element type and memory format TensorRT proposes for one position. */
  datatype TensorDesc = TensorDesc(dtype: DataType, format: TensorFormat)

  /**
    Whether the proposed descriptor at `pos` is acceptable. Positions run over
    the inputs and then the single output, so `bias + 1` is the output. The
    packed int4 weights travel as a FLOAT-typed tensor; everything else must
    be the plugin's own type. Past the last position the release build
    answers false.
   */
  function SupportsFormat(p: Plugin, pos: nat, inOut: seq<TensorDesc>): (ok: bool)
    requires p.Wellformed()
    requires pos < |inOut|
    ensures ok ==> pos <= p.ix.bias + 1 && inOut[pos].format == Linear
    ensures pos == p.ix.weight ==> (ok <==> inOut[pos] == TensorDesc(Float, Linear))
    ensures pos <= p.ix.bias + 1 && pos != p.ix.weight ==>
      (ok <==> inOut[pos] == TensorDesc(p.dtype, Linear))
  {
    if pos < p.ix.bias + 2 then
      if pos == p.ix.weight then
        inOut[p.ix.weight].dtype == Float && inOut[p.ix.weight].format == Linear
      else
        inOut[pos].dtype == p.dtype && inOut[pos].format == Linear
    else
      false
  }

  /** Every position of a full descriptor list accepts its proposal. */
  predicate AllFormatsAccepted(p: Plugin, inOut: seq<TensorDesc>)
    requires p.Wellformed()
  {
    forall pos :: 0 <= pos < |inOut| ==> SupportsFormat(p, pos, inOut)
  }

  /**
    A descriptor list the plugin accepts throughout is exactly one with
    half-precision linear tensors in every slot of the reference layout
    except the weights, which are FLOAT linear, followed by a half-precision
    linear output.
   */
  lemma AcceptedFormatsFollowLayout(p: Plugin, inOut: seq<TensorDesc>)
    requires p.Wellformed()
    requires |inOut| == p.InputCount() + 1
    ensures AllFormatsAccepted(p, inOut) <==>
      forall pos :: 0 <= pos < |inOut| ==> inOut[pos] == ExpectedDesc(p, pos)
  {
    forall pos | 0 <= pos < |inOut|
      ensures SupportsFormat(p, pos, inOut) <==> inOut[pos] == ExpectedDesc(p, pos)
    {
      if pos < |Layout(p.Caps())| {
        LayoutWeightsOnce(p.Caps(), pos);
      } else {
        IndicesMonotone(p.Caps());
        PluginInputCount(p);
      }
    }
  }

  /** Reference answer: FLOAT for the layout's weight slot, half precision elsewhere. */
  function ExpectedDesc(p: Plugin, pos: nat): TensorDesc
  {
    var l := Layout(p.Caps());
    if pos < |l| && l[pos] == Weights then TensorDesc(Float, Linear) else TensorDesc(Half, Linear)
  }

  /** The reference layout holds the weights in one slot only. */
  lemma LayoutWeightsOnce(f: Flags, pos: nat)
    requires pos < |Layout(f)|
    ensures Layout(f)[pos] == Weights <==> pos == DeriveIndices(f).weight
  {
  }
}
