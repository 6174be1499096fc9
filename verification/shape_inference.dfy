/**
  `getOutputDimensions`: the output has the activations' leading extents and
  a last extent of eight times the packed weight width (eight int4 values per
  32-bit word).
 */
module ShapeInference {

  import opened Wrappers
  import opened TensorTypes
  import opened QuantMode
  import opened PluginConfig

  /** Int4 values packed into one 32-bit weight word. */
  const PackRatio: nat := 8

  /** The structural conditions shape inference asserts on its inputs. */
  predicate ShapesAccepted(p: Plugin, inputs: seq<Dims>)
    requires p.Wellformed()
  {
    && |inputs| == p.InputCount()
    && |inputs[0]| >= 2
    && |inputs[p.ix.weight]| == 2
  }

  /** The output extents for one input list. */
  function InferOutputShape(p: Plugin, outputIndex: int, inputs: seq<Dims>): (r: Result<Dims, PluginError>)
    requires p.Wellformed()
    ensures r.Ok? <==> outputIndex == 0 && ShapesAccepted(p, inputs)
    ensures |inputs| != p.InputCount() ==> r == Err(WrongInputCount(p.InputCount(), |inputs|))
    ensures |inputs| == p.InputCount() && outputIndex != 0 ==> r == Err(WrongOutputIndex(outputIndex))
    ensures |inputs| == p.InputCount() && outputIndex == 0 && |inputs[0]| < 2 ==>
      r == Err(ActivationRankTooSmall(|inputs[0]|))
    ensures (|inputs| == p.InputCount() && outputIndex == 0 && |inputs[0]| >= 2
             && |inputs[p.ix.weight]| != 2) ==> r == Err(WeightRankNotTwo(|inputs[p.ix.weight]|))
    ensures r.Ok? ==>
      && |r.value| == |inputs[0]|
      && (forall i :: 0 <= i < |inputs[0]| - 1 ==> r.value[i] == inputs[0][i])
      && r.value[|inputs[0]| - 1] == inputs[p.ix.weight][1] * PackRatio
  {
    if |inputs| != p.InputCount() then
      Err(WrongInputCount(p.InputCount(), |inputs|))
    else if outputIndex != 0 then
      Err(WrongOutputIndex(outputIndex))
    else
      var a := inputs[0];
      var w := inputs[p.ix.weight];
      if |a| < 2 then
        Err(ActivationRankTooSmall(|a|))
      else if |w| != 2 then
        Err(WeightRankNotTwo(|w|))
      else
        Ok(a[..|a| - 1] + [w[1] * PackRatio])
  }

  /** Activations [8, 16, 64] with packed weights [64, 32] give output [8, 16, 256]. */
  lemma ExampleShape()
    ensures var p := Init(Half, 0, 64).value;
      InferOutputShape(p, 0, [[8, 16, 64], [64, 32], [1, 256]]) == Ok([8, 16, 256])
  {
    var p := Init(Half, 0, 64).value;
    var r := InferOutputShape(p, 0, [[8, 16, 64], [64, 32], [1, 256]]);
    assert r.Ok?;
    assert r.value == [8, 16, 256];
  }

  /**
    The output holds exactly M * N elements, where M is the activations' row
    count and N = 8 * the packed weight width: the product the kernels write.
   */
  lemma OutputElementCount(p: Plugin, inputs: seq<Dims>)
    requires p.Wellformed()
    requires ShapesAccepted(p, inputs)
    ensures var a := inputs[0];
      Product(InferOutputShape(p, 0, inputs).value)
        == Product(a[..|a| - 1]) * (inputs[p.ix.weight][1] * PackRatio)
  {
    var a := inputs[0];
    var out := InferOutputShape(p, 0, inputs).value;
    assert out == a[..|a| - 1] + [inputs[p.ix.weight][1] * PackRatio];
    ProductSnoc(a[..|a| - 1], inputs[p.ix.weight][1] * PackRatio);
  }
}
