# Weight-only groupwise int4 matmul plugin: configuration and dispatch model

A Dafny model of the configuration and dispatch arithmetic of TensorRT-LLM's
`WeightOnlyGroupwiseQuantMatmulPlugin`. The plugin multiplies half-precision
activations by int4 weights packed eight to a 32-bit word. The weights carry
per-group scales, optional per-group zero points, an optional per-channel
pre-quantisation scale and an optional bias. The model covers:

- **Quant-mode decoding** (`QuantMode`): the `quant_algo` word
  (pre-scale = 4, zeros = 2, bias = 1) is decoded into a capability set. The
  positions of the optional tensors in the input list are derived from it,
  with no gaps left for absent tensors.
- **Construction** (`PluginConfig`): `init` accepts only half precision
  and picks the cutlass runner variant by the zeros capability.
- **Shape inference** (`ShapeInference`): the output keeps the activations'
  leading extents. Its last extent is eight times the packed weight width.
- **Format acceptance** (`FormatSupport`): FLOAT/linear at the weight
  position and the plugin's type/linear everywhere else.
- **Workspace sizing** (`WorkspaceSizing`): a pre-scaled activation buffer
  for the largest M x K, followed by the runner's scratch for the largest
  (M, N, K).
- **Dispatch** (`Dispatch`): each `enqueue` yields a record of the kernel
  launches it submits. That is an optional pre-scale launch, then exactly one
  of the small-batch kernel or the tiled GEMM. The record holds the tensors,
  null pointers, sizes and workspace offsets each launch receives.
- **Serialisation** (`Serialization`): three little-endian 32-bit words.
  Reading them back re-runs `init` and demands an exact length.

Two things outside the file are taken as parameters:

- the cutlass runner's `getWorkspaceSize(m, n, k)`, as a function value of type `WorkspaceQuery`;
- the small-batch threshold `SMALL_M_FAST_PATH`, as a natural `smallM`.

Two details of the plugin shape the model:

- The weight position accepts a FLOAT-typed linear tensor: the packed int4
  words travel as FLOAT.
- The pre-scale buffer is sized with the activation descriptor's element size
  (4 for FLOAT, else 2), while dispatch always offsets by `sizeof(half)`.
  `LaunchFitsWorkspace` and `AsWrittenFits` show the offsets stay inside the
  reservation.

## Model

| member | source | states |
|---|---|---|
| QuantMode.DecodeEncodeFlags | cpp/tensorrt_llm/plugins/weightOnlyGroupwiseQuantMatmulPlugin/weightOnlyGroupwiseQuantMatmulPlugin.cpp:56-61 | decoding the word of any capability set with the masks 4, 2 and 1 gives that set back |
| QuantMode.EncodeDecodeFlags | cpp/tensorrt_llm/plugins/weightOnlyGroupwiseQuantMatmulPlugin/weightOnlyGroupwiseQuantMatmulPlugin.cpp:56 | every quant_algo word in [0, 8) is pre_scale*4 + zero*2 + bias of the set it decodes to |
| QuantMode.DecodeLowBits | cpp/tensorrt_llm/plugins/weightOnlyGroupwiseQuantMatmulPlugin/weightOnlyGroupwiseQuantMatmulPlugin.cpp:57-61 | the bit tests see only the low three bits of the two's-complement word, so any int32 word behaves as its remainder modulo 8 |
| QuantMode.IndicesLocateRoles | cpp/tensorrt_llm/plugins/weightOnlyGroupwiseQuantMatmulPlugin/weightOnlyGroupwiseQuantMatmulPlugin.cpp:57-61 | each derived index is the slot holding that tensor in the gap-free input order (activations, [pre-scale], weights, scales, [zeros], [bias]); an absent tensor's index collapses onto the previous one; the list is exactly biasIdx + 1 long |
| QuantMode.IndicesMonotone | cpp/tensorrt_llm/plugins/weightOnlyGroupwiseQuantMatmulPlugin/weightOnlyGroupwiseQuantMatmulPlugin.cpp:57-61 | preScaleIdx < weightIdx < scalesIdx <= zerosIdx <= biasIdx, with each optional step strict exactly when its flag is set |
| QuantMode.InputCountIsThreePlusCount | cpp/tensorrt_llm/plugins/weightOnlyGroupwiseQuantMatmulPlugin/weightOnlyGroupwiseQuantMatmulPlugin.cpp:108 | the required input count biasIdx + 1 is 3 plus the number of set flags: 3 for flags 0, 6 for flags 7 |
| PluginConfig.Init | cpp/tensorrt_llm/plugins/weightOnlyGroupwiseQuantMatmulPlugin/weightOnlyGroupwiseQuantMatmulPlugin.cpp:50-84 | construction succeeds exactly for half precision (anything else aborts); the result keeps the three fields, derives the indices and picks the zero-point runner exactly when the zeros flag is set |
| PluginConfig.WellformedIsInitialised | cpp/tensorrt_llm/plugins/weightOnlyGroupwiseQuantMatmulPlugin/weightOnlyGroupwiseQuantMatmulPlugin.cpp:30-34 | an instance is well formed exactly when init rebuilds it from its own three fields |
| PluginConfig.PluginInputCount | cpp/tensorrt_llm/plugins/weightOnlyGroupwiseQuantMatmulPlugin/weightOnlyGroupwiseQuantMatmulPlugin.cpp:108 | a constructed plugin expects 3 + (number of capabilities) inputs, the length of the reference layout |
| ShapeInference.InferOutputShape | cpp/tensorrt_llm/plugins/weightOnlyGroupwiseQuantMatmulPlugin/weightOnlyGroupwiseQuantMatmulPlugin.cpp:94-131 | refuses unless nbInputs == biasIdx + 1, outputIndex == 0, activation rank >= 2 and weight rank == 2, reporting the first failing check; otherwise the output has the activations' rank, copies every leading extent and has last extent weight.d[1] * 8 |
| ShapeInference.ExampleShape | cpp/tensorrt_llm/plugins/weightOnlyGroupwiseQuantMatmulPlugin/weightOnlyGroupwiseQuantMatmulPlugin.cpp:115-122 | activations [8, 16, 64] with weights [64, 32] give output [8, 16, 256] |
| ShapeInference.OutputElementCount | cpp/tensorrt_llm/plugins/weightOnlyGroupwiseQuantMatmulPlugin/weightOnlyGroupwiseQuantMatmulPlugin.cpp:115-122 | the output holds M * N elements, M the product of the activations' leading extents and N = 8 * packed width, the count `OutputMatchesLaunch` ties to the launched kernel |
| FormatSupport.SupportsFormat | cpp/tensorrt_llm/plugins/weightOnlyGroupwiseQuantMatmulPlugin/weightOnlyGroupwiseQuantMatmulPlugin.cpp:133-155 | the weight position accepts exactly FLOAT/linear; every other position up to biasIdx + 1 accepts exactly the plugin type/linear; positions beyond are refused |
| FormatSupport.AcceptedFormatsFollowLayout | cpp/tensorrt_llm/plugins/weightOnlyGroupwiseQuantMatmulPlugin/weightOnlyGroupwiseQuantMatmulPlugin.cpp:136-147 | a full descriptor list is accepted exactly when the reference layout's weight slot is FLOAT/linear and every other input and the output are half/linear |
| TensorTypes.LeadingRows | cpp/tensorrt_llm/plugins/weightOnlyGroupwiseQuantMatmulPlugin/weightOnlyGroupwiseQuantMatmulPlugin.cpp:192-196 | the row-count loop yields the product of all activation extents but the last |
| WorkspaceSizing.ActivationBytes | cpp/tensorrt_llm/plugins/weightOnlyGroupwiseQuantMatmulPlugin/weightOnlyGroupwiseQuantMatmulPlugin.cpp:168 | the pre-scaled element is 4 bytes exactly for FLOAT activations, otherwise 2 |
| WorkspaceSizing.ConfigureWorkspace | cpp/tensorrt_llm/plugins/weightOnlyGroupwiseQuantMatmulPlugin/weightOnlyGroupwiseQuantMatmulPlugin.cpp:157-169 | the reservation is maxM*maxK*elemSize plus the runner scratch for (maxM, weight.d[1]*8, maxK), with maxM the product of the leading maximum extents and maxK the last; it always covers maxM*maxK half values |
| WorkspaceSizing.WorkspaceMonotoneInRows | cpp/tensorrt_llm/plugins/weightOnlyGroupwiseQuantMatmulPlugin/weightOnlyGroupwiseQuantMatmulPlugin.cpp:160-169 | with a monotone runner query, a larger maxM never yields a smaller reservation |
| Dispatch.Enqueue | cpp/tensorrt_llm/plugins/weightOnlyGroupwiseQuantMatmulPlugin/weightOnlyGroupwiseQuantMatmulPlugin.cpp:192-233 | the corrected dispatch named under "## Findings": exactly one matmul kernel, small-batch iff m < SMALL_M_FAST_PATH and tiled otherwise; both get m, n*8, k, the group size and output 0; the tiled kernel's scratch starts at byte m*k*sizeof(half) and, unlike line 226, is sized for the (m, n*8, k) it runs on |
| Dispatch.LaunchOperandsFollowLayout | cpp/tensorrt_llm/plugins/weightOnlyGroupwiseQuantMatmulPlugin/weightOnlyGroupwiseQuantMatmulPlugin.cpp:201-233 | in both the corrected and the as-written dispatch, weights and scales come from their layout slots; zeros and bias come from their slots when flagged and are null exactly when not; activations are read from the workspace exactly when pre-scaled; the pre-scale launch is issued exactly when flagged, writing m x k values to the start of the workspace |
| Dispatch.LaunchFitsWorkspace | cpp/tensorrt_llm/plugins/weightOnlyGroupwiseQuantMatmulPlugin/weightOnlyGroupwiseQuantMatmulPlugin.cpp:226-233 | for the corrected dispatch and actual shapes within the configured maxima, the pre-scale buffer and the tiled kernel's scratch both lie inside the configured reservation, and the scratch starts where the pre-scale buffer ends |
| Dispatch.EnqueueAsWritten | cpp/tensorrt_llm/plugins/weightOnlyGroupwiseQuantMatmulPlugin/weightOnlyGroupwiseQuantMatmulPlugin.cpp:192-233 | enqueue as written: the same kernel choice, m, n*8, k, group size, output and scratch offset as the corrected dispatch, but the tiled kernel's reported scratch is the runner requirement for the packed width n (line 226), not n*8 |
| Dispatch.AsWrittenFits | cpp/tensorrt_llm/plugins/weightOnlyGroupwiseQuantMatmulPlugin/weightOnlyGroupwiseQuantMatmulPlugin.cpp:226-233 | with a monotone runner query and actual shapes within the configured maxima, the as-written pre-scale buffer and scratch still lie inside the configured reservation, the scratch starting where the pre-scale buffer ends |
| Dispatch.OutputMatchesLaunch | cpp/tensorrt_llm/plugins/weightOnlyGroupwiseQuantMatmulPlugin/weightOnlyGroupwiseQuantMatmulPlugin.cpp:115-122 | the inferred output holds exactly m * (n*8) elements, the rows times width the dispatched kernel is launched with |
| Dispatch.AsWrittenUnderReportsScratch | cpp/tensorrt_llm/plugins/weightOnlyGroupwiseQuantMatmulPlugin/weightOnlyGroupwiseQuantMatmulPlugin.cpp:226-233 | for m = 16, k = 4096, packed width 512 and a tile-count requirement, the as-written dispatch reports 112 scratch bytes where the launched shape needs 896 |
| Serialization.Serialize | cpp/tensorrt_llm/plugins/weightOnlyGroupwiseQuantMatmulPlugin/weightOnlyGroupwiseQuantMatmulPlugin.cpp:276-288 | the serialised form is exactly getSerializationSize() = 2*sizeof(int) + sizeof(DataType) = 12 bytes |
| Serialization.Deserialize | cpp/tensorrt_llm/plugins/weightOnlyGroupwiseQuantMatmulPlugin/weightOnlyGroupwiseQuantMatmulPlugin.cpp:37-48 | reconstruction succeeds exactly when the buffer is 12 bytes and its type word is half; it re-runs init on the fields read in order type, quant_algo, group_size; a buffer of any other length is a length mismatch, a wrong type word an init failure |
| Serialization.RoundTrip | cpp/tensorrt_llm/plugins/weightOnlyGroupwiseQuantMatmulPlugin/weightOnlyGroupwiseQuantMatmulPlugin.cpp:37-48 | deserialising a plugin's serialisation rebuilds the identical plugin, derived indices and runner included |
| Serialization.Canonical | cpp/tensorrt_llm/plugins/weightOnlyGroupwiseQuantMatmulPlugin/weightOnlyGroupwiseQuantMatmulPlugin.cpp:281-288 | every buffer that deserialises is byte for byte what its plugin serialises to |
| Serialization.DecodeEncodeLE | cpp/tensorrt_llm/plugins/weightOnlyGroupwiseQuantMatmulPlugin/weightOnlyGroupwiseQuantMatmulPlugin.cpp:43-45 | reading back the little-endian bytes of a value gives the value |
| Serialization.EncodeDecodeLE | cpp/tensorrt_llm/plugins/weightOnlyGroupwiseQuantMatmulPlugin/weightOnlyGroupwiseQuantMatmulPlugin.cpp:284-286 | writing back the value of a little-endian byte string gives those bytes |

## Findings

| source | as written | input that shows it | evidently intended | confidence | as-written member | corrected member |
|---|---|---|---|---|---|---|
| cpp/tensorrt_llm/plugins/weightOnlyGroupwiseQuantMatmulPlugin/weightOnlyGroupwiseQuantMatmulPlugin.cpp:226 | the tiled kernel's scratch size is queried with the packed weight width n | m = 16, k = 4096, weights [4096, 512] (N = 4096): with a tile-count requirement 112 bytes are reported but 896 are needed | query with n * 8, the width the kernel is launched with (line 232) and the width the reservation was sized with (line 167) | medium, not executed | Dispatch.AsWrittenUnderReportsScratch | Dispatch.Enqueue |

If the runner's requirement never shrinks as a dimension grows, the
reservation made at configuration time is still large enough, because it was
sized with N (`AsWrittenFits`). Only the scratch size reported to the kernel is too small.

## Left out

- The GPU kernels (per-channel scale, small-batch int4 matmul, cutlass tiled GEMM): half-precision numerics on the device, modelled only as launch records with their arguments.
- The cutlass runner's workspace formula: a foreign library, taken as the `WorkspaceQuery` parameter; monotonicity is assumed where a lemma needs it.
- `SMALL_M_FAST_PATH`: defined outside this file, taken as the `smallM` parameter.
- Runner template instantiation: only the chosen variant (`RunnerKind`) is recorded.
- Registration glue: `clone`, `destroy`, `getOutputDataType`, `getNbOutputs`, `initialize`, `terminate`, the name, version and namespace accessors, and the creator's field metadata. None of them carries arithmetic worth stating.
- The creator's `createPlugin` field parsing: it is registration glue. It also leaves locals uninitialised when a field is missing, so it has no defined behaviour to model.
- Symbolic dimension expressions: extents are concrete naturals and `getConstantValue` is plain access; the eight-dimension cap of a TensorRT shape is not modelled.
- CUDA stream ordering and the status code (always 0).
- Dispatch.Enqueue: the non-half branch is not modelled, because a constructed plugin is always half precision.
- WorkspaceSizing.ConfigureWorkspace: computes in unbounded integers. The source computes maxM and the pre-scale size in 32-bit `int`, which overflows once maxM*maxK*elemSize reaches 2^31.
- Dispatch.Enqueue: m and m*k*sizeof(half) are unbounded here, but 32-bit `int` in the source. The scratch size is also truncated to `int` there.
- FormatSupport.SupportsFormat: a position past the output is answered false, as in a release build; a debug build aborts instead.
- Serialization.Deserialize: a buffer shorter than 12 bytes is refused as a length mismatch, whereas the source reads past its end before its length check fails. An unknown type code and a known non-half type are reported as different errors, while the source fails `init` for both.
