/**
  `configurePlugin` / `getWorkspaceSize`: the scratch size reserved once for
  the largest shapes. The reservation is a pre-scaled activation buffer
  followed by the cutlass runner's own scratch.
 */
module WorkspaceSizing {

  import opened TensorTypes
  import opened QuantMode
  import opened PluginConfig
  import opened ShapeInference

  /**
    The runner's `getWorkspaceSize(m, n, k)`. It lives in the cutlass library,
    so the model takes it as a parameter.
   */
  type WorkspaceQuery = (RunnerKind, nat, nat, nat) -> nat

  /** A query whose answer never shrinks when a dimension grows. */
  ghost predicate MonotoneQuery(ws: WorkspaceQuery)
  {
    forall r, m1: nat, n1: nat, k1: nat, m2: nat, n2: nat, k2: nat ::
      m1 <= m2 && n1 <= n2 && k1 <= k2 ==> ws(r, m1, n1, k1) <= ws(r, m2, n2, k2)
  }

  /** What TensorRT reports for one input at configuration time. */
  datatype DynamicDesc = DynamicDesc(dtype: DataType, max: Dims)

  /** The largest extents of every input. */
  function MaxDims(inputs: seq<DynamicDesc>): (r: seq<Dims>)
    ensures |r| == |inputs| && forall i :: 0 <= i < |inputs| ==> r[i] == inputs[i].max
  {
    seq(|inputs|, i requires 0 <= i < |inputs| => inputs[i].max)
  }

  /** Bytes per pre-scaled activation element: 4 for FLOAT activations, 2 otherwise. */
  function ActivationBytes(t: DataType): (b: nat)
    ensures b == 2 || b == 4
    ensures b == 4 <==> t == Float
  {
    if t == Float then 4 else 2
  }

  /** The reservation for a given largest M, N and K. */
  function WorkspaceSize(runner: RunnerKind, maxM: nat, maxN: nat, maxK: nat, elem: nat, ws: WorkspaceQuery): nat
  {
    maxM * maxK * elem + ws(runner, maxM, maxN, maxK)
  }

  /** A larger largest-batch never gets a smaller reservation when the runner's query is monotone. */
  lemma WorkspaceMonotoneInRows(runner: RunnerKind, m1: nat, m2: nat, maxN: nat, maxK: nat, elem: nat,
                                ws: WorkspaceQuery)
    requires MonotoneQuery(ws)
    requires m1 <= m2
    ensures WorkspaceSize(runner, m1, maxN, maxK, elem, ws) <= WorkspaceSize(runner, m2, maxN, maxK, elem, ws)
  {
    MulMono(m1, maxK, m2, maxK);
    MulMono(m1 * maxK, elem, m2 * maxK, elem);
    assert ws(runner, m1, maxN, maxK) <= ws(runner, m2, maxN, maxK);
  }

  /**
    `configurePlugin`: M is the product of all but the last activation extent,
    K the last one and N eight times the packed weight width. The reservation
    holds the pre-scaled activations for M x K and the runner's scratch for
    (M, N, K) back to back.
   */
  function ConfigureWorkspace(p: Plugin, inputs: seq<DynamicDesc>, ws: WorkspaceQuery): (size: nat)
    requires p.Wellformed()
    requires ShapesAccepted(p, MaxDims(inputs))
    ensures var a := inputs[0].max; var maxM := Product(a[..|a| - 1]); var maxK := a[|a| - 1];
      && size == WorkspaceSize(p.runner, maxM, inputs[p.ix.weight].max[1] * PackRatio, maxK,
                               ActivationBytes(inputs[0].dtype), ws)
      && size >= maxM * maxK * 2
  {
    var a := inputs[0].max;
    var maxM := Product(a[..|a| - 1]);
    var maxK := a[|a| - 1];
    var maxN := inputs[p.ix.weight].max[1] * PackRatio;
    MulMono(maxM * maxK, 2, maxM * maxK, ActivationBytes(inputs[0].dtype));
    WorkspaceSize(p.runner, maxM, maxN, maxK, ActivationBytes(inputs[0].dtype), ws)
  }
}
