# Simple custom operators for ONNX Runtime — a Dafny model

ONNX Runtime lets a program add its own operators through a C table of
callbacks, `OrtCustomOp`. Filling that table by hand means writing every slot.
This layer offers two helpers instead:

- `OrtInitializeCustomOpDefaults` stamps the ABI version. It also installs
  eight constant default callbacks: execution provider, input and output
  characteristic, input memory type, and variadic arity and homogeneity.
- `OrtInitializeSimpleCustomOp` records a flat configuration in an
  `OrtSimpleCustomOp`. The configuration is the API table, a name, the input
  and output counts, the type arrays and one compute callback. The helper
  then installs the defaults and overrides the eight operator-specific
  slots. Those slots are the getters that read the configuration back, and
  the kernel lifecycle, where the kernel is the operator itself.

The model is functional. The table is an immutable record (`Vtable.CustomOp`)
whose slots hold `Callback` tags. Each tag names one of the sixteen callbacks
this layer defines, or `Foreign(address)` for anything else a slot may hold.
The initialisers are pure functions from the old contents to the new ones.
`Dispatch` describes what a caller gets when it calls through a slot.
`Engine` is a hypothetical engine client that makes sequences of such calls:
reading an operator's signature, and one kernel lifetime. A compute call is
recorded as a `ComputeCall` entry in a trace.

Modules: `Abi` (ABI tags and opaque handles), `Vtable` (the two records),
`Defaults`, `SimpleOp`, `Dispatch`, `Engine`, `Properties` (lemmas).

`new-custom-op-api.c` has no homogeneous-type fallback: `GetInputType` and
`GetOutputType` always index the array (lines 70 and 80), and the model does
the same.

## Model

| member | source | states |
|---|---|---|
| Defaults.InitializeCustomOpDefaults | new-custom-op-api.c:45-56 | the version becomes the ABI version; all eight default slots hold their defaults; the eight operator-specific slots keep what they held |
| Dispatch.ExecutionProviderType | new-custom-op-api.c:5-8 | a call through the slot answers exactly when it holds the default, and then answers the null pointer (no provider affinity) |
| Dispatch.InputCharacteristic | new-custom-op-api.c:10-13 | the default slot answers "required" for every index; other slot contents answer nothing the model defines |
| Dispatch.OutputCharacteristic | new-custom-op-api.c:15-18 | the default slot answers "required" for every index |
| Dispatch.InputMemoryType | new-custom-op-api.c:20-23 | the default slot answers default-device memory for every index |
| Dispatch.VariadicInputMinArity | new-custom-op-api.c:25-28 | the default slot answers a minimum arity of 1 |
| Dispatch.VariadicInputHomogeneity | new-custom-op-api.c:30-33 | the default slot answers 1 (C `true`) |
| Dispatch.VariadicOutputMinArity | new-custom-op-api.c:35-38 | the default slot answers a minimum arity of 1 |
| Dispatch.VariadicOutputHomogeneity | new-custom-op-api.c:40-43 | the default slot answers 1 (C `true`) |
| Dispatch.Name | new-custom-op-api.c:58-61 | the simple slot answers the stored name pointer, null included |
| Dispatch.InputTypeCount | new-custom-op-api.c:63-66 | the simple slot answers the stored input count |
| Dispatch.InputType | new-custom-op-api.c:68-71 | the simple slot answers entry `index` of the stored input type array; an index past the array is undefined and excluded |
| Dispatch.OutputTypeCount | new-custom-op-api.c:73-76 | the simple slot answers the stored output count |
| Dispatch.OutputType | new-custom-op-api.c:78-81 | the simple slot answers entry `index` of the stored output type array; an index past the array is undefined and excluded |
| Dispatch.CreateKernel | new-custom-op-api.c:83-86 | the simple slot returns the operator itself as the kernel, whatever API table and kernel info the engine passes |
| Dispatch.KernelCompute | new-custom-op-api.c:88-92 | the simple slot with a non-null stored callback appends exactly one call to the trace: that callback with the kernel's stored API table and the given context; earlier entries are kept; a null callback (undefined in C) answers nothing |
| Dispatch.KernelDestroy | new-custom-op-api.c:94-96 | the simple slot leaves the trace unchanged |
| SimpleOp.InstallOperatorSlots | new-custom-op-api.c:119-126 | the eight overrides set exactly the operator-specific slots; the version and the eight default slots are kept |
| SimpleOp.InitializeSimpleCustomOp | new-custom-op-api.c:98-127 | every configuration field holds the value passed in; the operator-specific slots hold the simple callbacks; the default slots hold the defaults; the version is the ABI version |
| Engine.InputSignature | new-custom-op-api.c:10-71 | a hypothetical client reading the count and then every index below it yields, per input, the configured type with "required" and default memory; the read answers iff the slots it uses are the ones this layer installs |
| Engine.OutputSignature | new-custom-op-api.c:15-81 | a hypothetical client reading the count and then every index below it yields, per output, the configured type with "required"; the read answers iff the slots it uses are the ones this layer installs |
| Engine.RunKernel | new-custom-op-api.c:83-96 | a hypothetical client creating a kernel, computing on n contexts and destroying it gets exactly n callback invocations, in order, each with the operator's stored callback and API table; it answers iff the lifecycle slots are this layer's and, when n > 0, the callback is non-null |
| Properties.DefaultTableAnswers | new-custom-op-api.c:5-56 | after the defaults are installed, all eight default queries answer their constants for every index |
| Properties.DefaultsIdempotent | new-custom-op-api.c:45-56 | installing the defaults twice gives the same table as once |
| Properties.ConfigurationReadsBack | new-custom-op-api.c:110-122 | after simple initialisation, the name, input count and output count read back are those passed in |
| Properties.InputTypeReadsBack | new-custom-op-api.c:68-71 | after simple initialisation, the input type at index i below the count is entry i of the array passed in |
| Properties.OutputTypeReadsBack | new-custom-op-api.c:78-81 | after simple initialisation, the output type at index i below the count is entry i of the array passed in |
| Properties.KernelIsOperator | new-custom-op-api.c:83-96 | after simple initialisation, the kernel is the operator; one compute appends exactly the configured callback with the configured API table, or answers nothing when that callback is null; destroy has no effect |
| Properties.DefaultsSurviveSimpleInitialization | new-custom-op-api.c:118-126 | every slot the simple operator does not override holds and answers the same as after installing the defaults alone |
| Properties.InitializationIgnoresPriorContents | new-custom-op-api.c:110-126 | simple initialisation writes every modelled field, so the modelled fields do not depend on what the output record held before |
| Properties.InstallOrderIrrelevant | new-custom-op-api.c:118-126 | the defaulted and the overridden slots are disjoint, so installing the defaults before or after the overrides builds the same table |

## Left out

- `custom-op-demo.c` is not part of this model. Its environment, session, tensor and `Run` calls go to an engine library that is not part of this model. It also contains random data fill, printing, abort paths, float arithmetic in its kernels, and `kernel_prepare_buffers`, a chain of opaque engine calls.
- `ORT_API_VERSION` is a compile-time constant from the engine's header, which is not part of this model. The initialisers take it as the parameter `abiVersion`.
- Table slots that later ABI versions add after the variadic ones are not in the record. This file never assigns them, so with such a header they keep the caller's prior contents (uninitialised memory for a freshly declared record), even though the version stamp tells the engine they are filled.
- The user compute callback's body is opaque. A call to it is recorded as a `ComputeCall`.
- Dispatch: a slot holding `Foreign` code, or a callback this file wrote for a different slot, answers `None`. The model does not define what such code does.
- The cast from `OrtCustomOp*` to `OrtSimpleCustomOp*` relies on the table being the first field. The model holds both in one record instead.
- The type arrays are borrowed pointers. If the caller changed them after initialisation, the getters would see the change. The model captures them as immutable sequences.
- Engine.InputSignature, Engine.OutputSignature, Engine.RunKernel: these model a hypothetical client, not the real engine. The engine's own call order, and any gating of slot use on the version field, are not modelled.
- Allocator-owned operator instances, bulk registration into a domain, and tensor IO handles are not in `new-custom-op-api.c` and are not modelled.
