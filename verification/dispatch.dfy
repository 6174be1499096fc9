/**
  `enqueue`: recompute M, N and K from the actual shapes, optionally
  pre-scale the activations into the workspace, and issue exactly one of the
  two matmul kernels with the right tensors. Kernel launches are modelled as
  records of the arguments they receive; their numerics run on the GPU.
 */
module Dispatch {

  import opened Wrappers
  import opened TensorTypes
  import opened QuantMode
  import opened PluginConfig
  import opened ShapeInference
  import opened WorkspaceSizing

  /** `sizeof(half)`: the pre-scaled buffer is always laid out in half precision. */
  const HalfBytes: nat := 2

  /** A device pointer handed to a kernel. */
  datatype Ref = Null | InputBuf(slot: nat) | WorkspaceAt(offset: nat) | OutputBuf(slot: nat)

  /** `apply_per_channel_scale_kernel_launcher`: dst = src * scale, per column, over rows x cols. */
  datatype PreScaleLaunch = PreScaleLaunch(dst: Ref, src: Ref, scale: Ref, rows: nat, cols: nat)

  /** The one matmul kernel issued per call. */
  datatype MatmulLaunch =
    | SmallBatch(weights: Ref, scales: Ref, zeros: Ref, act: Ref, bias: Ref, out: Ref,
                 m: nat, n: nat, k: nat, groupSize: Int32)
    | TiledGemm(act: Ref, weights: Ref, scales: Ref, zeros: Ref, bias: Ref, out: Ref,
                m: nat, n: nat, k: nat, groupSize: Int32, scratch: Ref, scratchBytes: nat)

  /** Everything one `enqueue` submits to the stream, in submission order. */
  datatype Launches = Launches(preScale: Option<PreScaleLaunch>, matmul: MatmulLaunch)

  /**
    The actual row count M: all activation extents but the last, multiplied.
    `TensorTypes.LeadingRows` is the accumulating loop the plugin runs to
    compute it, and is proved to return this product.
   */
  function Rows(a: Dims): nat
    requires |a| >= 1
  {
    Product(a[..|a| - 1])
  }

  /**
    The kernel choice and launch shape of one dispatch, whatever scratch size
    it reports: the small-batch kernel exactly when M is below the threshold,
    the tiled kernel otherwise; both get M, the unpacked width N = 8 * the
    packed width, K and the group size, and write output 0; the tiled kernel's
    scratch starts right after M x K half-precision values.
   */
  predicate SelectsKernel(p: Plugin, inputs: seq<Dims>, smallM: nat, r: Launches)
    requires p.Wellformed()
    requires ShapesAccepted(p, inputs)
  {
    var a := inputs[0];
    var m := Rows(a);
    var k := a[|a| - 1];
    && (r.matmul.SmallBatch? <==> m < smallM)
    && r.matmul.m == m && r.matmul.k == k
    && r.matmul.n == inputs[p.ix.weight][1] * PackRatio
    && r.matmul.groupSize == p.groupSize
    && r.matmul.out == OutputBuf(0)
    && (r.matmul.TiledGemm? ==> r.matmul.scratch == WorkspaceAt(m * k * HalfBytes))
  }

  /** `r` names the input slot that the reference layout gives role `role`. */
  predicate Names(r: Ref, f: Flags, role: Role)
  {
    r.InputBuf? && r.slot < |Layout(f)| && Layout(f)[r.slot] == role
  }

  /**
    The chosen kernel reads the weights and scales from their slots; the zero
    points and bias from their slots when present and as null otherwise; and
    the activations from the workspace exactly when they were pre-scaled
    there, from their own slot otherwise. The pre-scale launch is issued
    exactly when the capability is on, reading activations and the
    per-channel scale from their slots into the start of the workspace.
   */
  predicate OperandsFollowLayout(f: Flags, r: Launches)
  {
    var mm := r.matmul;
    && Names(mm.weights, f, Weights)
    && Names(mm.scales, f, Scales)
    && (f.zeros ==> Names(mm.zeros, f, Zeros)) && (!f.zeros <==> mm.zeros == Null)
    && (f.bias ==> Names(mm.bias, f, Biases)) && (!f.bias <==> mm.bias == Null)
    && (f.preScale ==> mm.act == WorkspaceAt(0))
    && (!f.preScale ==> Names(mm.act, f, Activations))
    && (r.preScale.Some? <==> f.preScale)
    && (r.preScale.Some? ==>
          && r.preScale.value.dst == WorkspaceAt(0)
          && Names(r.preScale.value.src, f, Activations)
          && Names(r.preScale.value.scale, f, PreQuantScale)
          && r.preScale.value.rows == mm.m && r.preScale.value.cols == mm.k)
  }

  /**
    The launches for given actual shapes, once the tiled kernel's scratch
    size is known. Shared by the corrected and the as-written dispatch.
   */
  function Plan(p: Plugin, inputs: seq<Dims>, smallM: nat, scratchBytes: nat): (r: Launches)
    requires p.Wellformed()
    requires ShapesAccepted(p, inputs)
    ensures SelectsKernel(p, inputs, smallM, r)
    ensures r.matmul.TiledGemm? ==> r.matmul.scratchBytes == scratchBytes
  {
    var caps := p.Caps();
    var a := inputs[0];
    var m := Rows(a);
    var n := inputs[p.ix.weight][1];
    var k := a[|a| - 1];
    var pre := if caps.preScale
      then Some(PreScaleLaunch(WorkspaceAt(0), InputBuf(0), InputBuf(p.ix.preScale), m, k))
      else None;
    var zeros := if caps.zeros then InputBuf(p.ix.zeros) else Null;
    var bias := if caps.bias then InputBuf(p.ix.bias) else Null;
    var act := if caps.preScale then WorkspaceAt(0) else InputBuf(0);
    var mm := if m < smallM
      then SmallBatch(InputBuf(p.ix.weight), InputBuf(p.ix.scales), zeros, act, bias, OutputBuf(0),
                      m, n * PackRatio, k, p.groupSize)
      else TiledGemm(act, InputBuf(p.ix.weight), InputBuf(p.ix.scales), zeros, bias, OutputBuf(0),
                     m, n * PackRatio, k, p.groupSize, WorkspaceAt(m * k * HalfBytes), scratchBytes);
    Launches(pre, mm)
  }

  /**
    `enqueue`, corrected: the tiled kernel's scratch is sized for the
    (M, N, K) it is actually launched on, N being the unpacked width.
   */
  function Enqueue(p: Plugin, inputs: seq<Dims>, ws: WorkspaceQuery, smallM: nat): (r: Launches)
    requires p.Wellformed()
    requires ShapesAccepted(p, inputs)
    ensures SelectsKernel(p, inputs, smallM, r)
    ensures r.matmul.TiledGemm? ==>
      r.matmul.scratchBytes == ws(p.runner, r.matmul.m, r.matmul.n, r.matmul.k)
  {
    var a := inputs[0];
    var n := inputs[p.ix.weight][1];
    Plan(p, inputs, smallM, ws(p.runner, Rows(a), n * PackRatio, a[|a| - 1]))
  }

  /**
    `enqueue` as written: the same kernel choice and launch shape, but the
    scratch size handed to the tiled kernel is queried with the packed weight
    width, an eighth of the width the kernel is launched on and of the width
    the reservation was sized with.
   */
  function EnqueueAsWritten(p: Plugin, inputs: seq<Dims>, ws: WorkspaceQuery, smallM: nat): (r: Launches)
    requires p.Wellformed()
    requires ShapesAccepted(p, inputs)
    ensures SelectsKernel(p, inputs, smallM, r)
    ensures r.matmul.TiledGemm? ==>
      r.matmul.scratchBytes == ws(p.runner, r.matmul.m, r.matmul.n / PackRatio, r.matmul.k)
  {
    var a := inputs[0];
    var n := inputs[p.ix.weight][1];
    Plan(p, inputs, smallM, ws(p.runner, Rows(a), n, a[|a| - 1]))
  }

  /** Both dispatches pass every operand from the slot the reference layout gives it. */
  lemma LaunchOperandsFollowLayout(p: Plugin, inputs: seq<Dims>, ws: WorkspaceQuery, smallM: nat)
    requires p.Wellformed()
    requires ShapesAccepted(p, inputs)
    ensures OperandsFollowLayout(p.Caps(), Enqueue(p, inputs, ws, smallM))
    ensures OperandsFollowLayout(p.Caps(), EnqueueAsWritten(p, inputs, ws, smallM))
  {
    IndicesLocateRoles(p.Caps());
  }

  /**
    Actual extents within the configured maxima give M, N and K within the
    maxima, and a pre-scale buffer within the one reserved.
   */
  lemma ActualWithinMaxima(p: Plugin, maxInputs: seq<DynamicDesc>, inputs: seq<Dims>)
    requires p.Wellformed()
    requires ShapesAccepted(p, MaxDims(maxInputs))
    requires ShapesAccepted(p, inputs)
    requires Within(inputs[0], maxInputs[0].max)
    requires Within(inputs[p.ix.weight], maxInputs[p.ix.weight].max)
    ensures var a := inputs[0]; var b := maxInputs[0].max;
      && Rows(a) <= Rows(b)
      && a[|a| - 1] <= b[|b| - 1]
      && inputs[p.ix.weight][1] * PackRatio <= maxInputs[p.ix.weight].max[1] * PackRatio
      && Rows(a) * a[|a| - 1] * HalfBytes
           <= Rows(b) * b[|b| - 1] * ActivationBytes(maxInputs[0].dtype)
  {
    var a := inputs[0];
    var b := maxInputs[0].max;
    var lead, maxLead := a[..|a| - 1], b[..|b| - 1];
    assert Within(lead, maxLead) by {
      forall i | 0 <= i < |lead|
        ensures lead[i] <= maxLead[i]
      {
        assert a[i] <= b[i];
      }
    }
    ProductMono(lead, maxLead);
    assert a[|a| - 1] <= b[|b| - 1];
    assert inputs[p.ix.weight][1] <= maxInputs[p.ix.weight].max[1];
    MulMono(Rows(a), a[|a| - 1], Rows(b), b[|b| - 1]);
    MulMono(Rows(a) * a[|a| - 1], HalfBytes, Rows(b) * b[|b| - 1], ActivationBytes(maxInputs[0].dtype));
  }

  /**
    Every byte range a corrected call touches lies inside the reservation
    made for the largest shapes, and the pre-scale buffer ends where the
    tiled kernel's scratch begins, so the two never overlap.
   */
  lemma LaunchFitsWorkspace(p: Plugin, maxInputs: seq<DynamicDesc>, inputs: seq<Dims>,
                            ws: WorkspaceQuery, smallM: nat)
    requires p.Wellformed()
    requires MonotoneQuery(ws)
    requires ShapesAccepted(p, MaxDims(maxInputs))
    requires ShapesAccepted(p, inputs)
    requires Within(inputs[0], maxInputs[0].max)
    requires Within(inputs[p.ix.weight], maxInputs[p.ix.weight].max)
    ensures var r := Enqueue(p, inputs, ws, smallM); var mm := r.matmul;
      var reserved := ConfigureWorkspace(p, maxInputs, ws);
      && mm.m * mm.k * HalfBytes <= reserved
      && (mm.TiledGemm? ==>
            mm.scratch.offset == mm.m * mm.k * HalfBytes
            && mm.scratch.offset + mm.scratchBytes <= reserved)
  {
    var b := maxInputs[0].max;
    var mm := Enqueue(p, inputs, ws, smallM).matmul;
    ActualWithinMaxima(p, maxInputs, inputs);
    var maxN := maxInputs[p.ix.weight].max[1] * PackRatio;
    assert ws(p.runner, mm.m, mm.n, mm.k) <= ws(p.runner, Rows(b), maxN, b[|b| - 1]);
  }

  /**
    The as-written call stays inside the reservation too: with a monotone
    runner query, the figure for the packed width is no larger than the one
    for the unpacked width the reservation was sized with.
   */
  lemma AsWrittenFits(p: Plugin, maxInputs: seq<DynamicDesc>, inputs: seq<Dims>,
                      ws: WorkspaceQuery, smallM: nat)
    requires p.Wellformed()
    requires MonotoneQuery(ws)
    requires ShapesAccepted(p, MaxDims(maxInputs))
    requires ShapesAccepted(p, inputs)
    requires Within(inputs[0], maxInputs[0].max)
    requires Within(inputs[p.ix.weight], maxInputs[p.ix.weight].max)
    ensures var r := EnqueueAsWritten(p, inputs, ws, smallM); var mm := r.matmul;
      var reserved := ConfigureWorkspace(p, maxInputs, ws);
      && mm.m * mm.k * HalfBytes <= reserved
      && (mm.TiledGemm? ==>
            mm.scratch.offset == mm.m * mm.k * HalfBytes
            && mm.scratch.offset + mm.scratchBytes <= reserved)
  {
    var b := maxInputs[0].max;
    var mm := EnqueueAsWritten(p, inputs, ws, smallM).matmul;
    ActualWithinMaxima(p, maxInputs, inputs);
    var maxN := maxInputs[p.ix.weight].max[1] * PackRatio;
    var n := inputs[p.ix.weight][1];
    assert mm.n / PackRatio == n;
    assert ws(p.runner, mm.m, n, mm.k) <= ws(p.runner, Rows(b), maxN, b[|b| - 1]);
  }

  /**
    The inferred output holds exactly as many elements as the chosen kernel
    writes: M rows of the unpacked width N.
   */
  lemma OutputMatchesLaunch(p: Plugin, inputs: seq<Dims>, ws: WorkspaceQuery, smallM: nat)
    requires p.Wellformed()
    requires ShapesAccepted(p, inputs)
    ensures var mm := Enqueue(p, inputs, ws, smallM).matmul;
      Product(InferOutputShape(p, 0, inputs).value) == mm.m * mm.n
  {
    OutputElementCount(p, inputs);
  }

  /**
    An illustrative runner requirement that grows with the tile count:
    4 bytes per 32 x 128 output tile for each of 7 split-k slices.
   */
  function TileCountQuery(r: RunnerKind, m: nat, n: nat, k: nat): nat
  {
    ((m + 31) / 32) * ((n + 127) / 128) * 7 * 4
  }

  /**
    With 16 rows, K = 4096 and packed width 512 (N = 4096), the as-written
    dispatch reports 112 scratch bytes to the tiled kernel, while the kernel's
    requirement for the shape it is launched on is 896, the figure the
    corrected dispatch reports.
   */
  lemma AsWrittenUnderReportsScratch()
    ensures var p := Init(Half, 0, 128).value;
      var inputs := [[16, 4096], [4096, 512], [32, 4096]];
      var bad := EnqueueAsWritten(p, inputs, TileCountQuery, 5).matmul;
      var good := Enqueue(p, inputs, TileCountQuery, 5).matmul;
      && bad.TiledGemm? && good.TiledGemm?
      && bad.n == 4096 && bad.scratchBytes == 112
      && TileCountQuery(p.runner, bad.m, bad.n, bad.k) == 896
      && good.scratchBytes == 896
  {
    var p := Init(Half, 0, 128).value;
    var inputs: seq<Dims> := [[16, 4096], [4096, 512], [32, 4096]];
    assert ShapesAccepted(p, inputs);
    var a := inputs[0];
    assert a[..|a| - 1] == [16];
    assert Product([16]) == 16 * Product([]) by {
      assert [16][1..] == [];
    }
  }
}
