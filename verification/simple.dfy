/**
  The simple operator: callbacks that read back the flat configuration, a
  kernel that is the operator itself, and the initialiser that records the
  configuration and builds the table (defaults first, then these eight).
 */
module SimpleOp {
  import opened Abi
  import opened Vtable
  import Defaults

  function GetName(op: SimpleCustomOp): CString
  {
    op.name
  }

  function GetInputTypeCount(op: SimpleCustomOp): Size
  {
    op.inputCount
  }

  /** Indexes the borrowed array with no bounds check: reading past its end is undefined. */
  function GetInputType(op: SimpleCustomOp, index: Size): ElementType
    requires index < |op.inputTypes|
  {
    op.inputTypes[index]
  }

  function GetOutputTypeCount(op: SimpleCustomOp): Size
  {
    op.outputCount
  }

  /** Indexes the borrowed array with no bounds check: reading past its end is undefined. */
  function GetOutputType(op: SimpleCustomOp, index: Size): ElementType
    requires index < |op.outputTypes|
  {
    op.outputTypes[index]
  }

  /** The kernel handle is the operator itself; the API table and kernel info are ignored. */
  function CreateKernel(op: SimpleCustomOp, api: ApiRef, info: KernelInfoRef): SimpleCustomOp
  {
    op
  }

  /**
    Reinterprets the kernel as the operator and calls its stored callback with
    its stored API table. The pointer is not checked: calling it when null is undefined.
   */
  function KernelCompute(kernel: SimpleCustomOp, context: ContextRef): ComputeCall
    requires kernel.compute.ComputeAt?
  {
    ComputeCall(kernel.compute, kernel.api, context)
  }

  /** Releases nothing: the kernel is not separately owned, so the calls observed so far are unchanged. */
  function KernelDestroy(kernel: SimpleCustomOp, trace: seq<ComputeCall>): seq<ComputeCall>
  {
    trace
  }

  /** Every operator-specific slot holds the simple operator's callback. */
  predicate HasOperatorSlots(op: CustomOp)
  {
    && op.getName == SimpleGetName
    && op.getInputTypeCount == SimpleGetInputTypeCount
    && op.getInputType == SimpleGetInputType
    && op.getOutputTypeCount == SimpleGetOutputTypeCount
    && op.getOutputType == SimpleGetOutputType
    && op.createKernel == SimpleCreateKernel
    && op.kernelCompute == SimpleKernelCompute
    && op.kernelDestroy == SimpleKernelDestroy
  }

  /** The eight overriding assignments, applied to a table. */
  function InstallOperatorSlots(base: CustomOp): (r: CustomOp)
    ensures HasOperatorSlots(r)
    ensures r.version == base.version && SameDefaultSlots(r, base)
  {
    base.(
      getName := SimpleGetName,
      getInputTypeCount := SimpleGetInputTypeCount,
      getInputType := SimpleGetInputType,
      getOutputTypeCount := SimpleGetOutputTypeCount,
      getOutputType := SimpleGetOutputType,
      createKernel := SimpleCreateKernel,
      kernelCompute := SimpleKernelCompute,
      kernelDestroy := SimpleKernelDestroy)
  }

  /**
    Records the configuration in `op` (whatever it held before), installs the
    defaults into its table, then overrides the eight operator-specific slots.
   */
  function InitializeSimpleCustomOp(
    api: ApiRef,
    name: CString,
    inputCount: Size,
    inputTypes: seq<ElementType>,
    outputCount: Size,
    outputTypes: seq<ElementType>,
    compute: ComputeFn,
    op: SimpleCustomOp,
    abiVersion: ApiVersion): (r: SimpleCustomOp)
    ensures r.api == api && r.name == name && r.compute == compute
    ensures r.inputCount == inputCount && r.inputTypes == inputTypes
    ensures r.outputCount == outputCount && r.outputTypes == outputTypes
    ensures HasOperatorSlots(r.base)
    ensures r.base.version == abiVersion && Defaults.HasDefaultSlots(r.base)
  {
    var configured := op.(
      api := api,
      name := name,
      inputCount := inputCount,
      inputTypes := inputTypes,
      outputCount := outputCount,
      outputTypes := outputTypes,
      compute := compute);
    configured.(base := InstallOperatorSlots(Defaults.InitializeCustomOpDefaults(configured.base, abiVersion)))
  }
}
