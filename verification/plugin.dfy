/**
  The configured plugin: its three persistent fields, the indices `init`
  derives from them, and the cutlass runner variant it instantiates.
 */
module PluginConfig {

  import opened Wrappers
  import opened TensorTypes
  import opened QuantMode

  /** Why the plugin refused a request; each is fatal to the caller. */
  datatype PluginError =
    | UnsupportedType(dtype: DataType)
    | UnknownTypeCode(code: Int32)
    | WrongInputCount(expected: nat, got: nat)
    | WrongOutputIndex(index: int)
    | ActivationRankTooSmall(rank: nat)
    | WeightRankNotTwo(rank: nat)
    | LengthMismatch(expected: nat, got: nat)

  /** The cutlass runner instantiation: with or without fine-grained zero points. */
  datatype RunnerKind = ScaleOnly | ScaleAndZeros

  /** A constructed plugin instance. */
  datatype Plugin = Plugin(
    dtype: DataType,
    quantAlgo: Int32,
    groupSize: Int32,
    ix: Indices,
    runner: RunnerKind)
  {
    /** The capability set the stored `quant_algo` word selects. */
    function Caps(): Flags
    {
      DecodeFlags(quantAlgo)
    }

    /** What every instance built by `Init` satisfies. */
    predicate Wellformed()
    {
      && dtype == Half
      && ix == DeriveIndices(Caps())
      && runner == (if Caps().zeros then ScaleAndZeros else ScaleOnly)
    }

    /** The number of inputs the instance expects. */
    function InputCount(): nat
    {
      ix.bias + 1
    }
  }

  /**
    `init`: store the fields, derive the input indices and pick the runner.
    Only half precision is implemented; every other type aborts construction.
   */
  function Init(dtype: DataType, quantAlgo: Int32, groupSize: Int32): (r: Result<Plugin, PluginError>)
    ensures r.Ok? <==> dtype == Half
    ensures r.Err? ==> r.error == UnsupportedType(dtype)
    ensures r.Ok? ==>
      && r.value.Wellformed()
      && r.value.dtype == dtype && r.value.quantAlgo == quantAlgo && r.value.groupSize == groupSize
  {
    if dtype != Half then
      Err(UnsupportedType(dtype))
    else
      var f := DecodeFlags(quantAlgo);
      Ok(Plugin(dtype, quantAlgo, groupSize, DeriveIndices(f),
                if f.zeros then ScaleAndZeros else ScaleOnly))
  }

  /** A well-formed instance is exactly what `Init` builds from its own fields. */
  lemma WellformedIsInitialised(p: Plugin)
    ensures p.Wellformed() <==> Init(p.dtype, p.quantAlgo, p.groupSize) == Ok(p)
  {
  }

  /** The expected input count of an instance is three plus its optional tensors. */
  lemma PluginInputCount(p: Plugin)
    requires p.Wellformed()
    ensures p.InputCount() == 3 + Count(p.Caps())
    ensures p.InputCount() == |Layout(p.Caps())|
  {
    InputCountIsThreePlusCount(p.Caps());
  }
}
