/**
  How the engine calls through a slot of an operator table: it invokes
  whatever function the slot holds. A slot holding one of this layer's
  callbacks answers as that callback does; a slot holding anything else
  (`Foreign`, or a callback written for a different slot) runs code whose
  behaviour lies outside this model, and the call answers `None`.

  Callbacks of the default slots receive only the table. Callbacks of the
  operator-specific slots receive the table too, but reinterpret it as the
  simple operator that embeds it, so those calls take the `SimpleCustomOp`.
 */
module Dispatch {
  import opened Abi
  import opened Vtable
  import Defaults
  import SimpleOp

  function ExecutionProviderType(op: CustomOp): (r: Option<CString>)
    ensures r.Some? <==> op.getExecutionProviderType == DefaultExecutionProviderType
    ensures r.Some? ==> r.value == Null
  {
    if op.getExecutionProviderType == DefaultExecutionProviderType
    then Some(Defaults.ExecutionProviderType(op))
    else None
  }

  function InputCharacteristic(op: CustomOp, index: Size): (r: Option<Characteristic>)
    ensures r.Some? <==> op.getInputCharacteristic == DefaultInputCharacteristic
    ensures r.Some? ==> r.value == InputOutputRequired
  {
    if op.getInputCharacteristic == DefaultInputCharacteristic
    then Some(Defaults.InputCharacteristic(op, index))
    else None
  }

  function OutputCharacteristic(op: CustomOp, index: Size): (r: Option<Characteristic>)
    ensures r.Some? <==> op.getOutputCharacteristic == DefaultOutputCharacteristic
    ensures r.Some? ==> r.value == InputOutputRequired
  {
    if op.getOutputCharacteristic == DefaultOutputCharacteristic
    then Some(Defaults.OutputCharacteristic(op, index))
    else None
  }

  function InputMemoryType(op: CustomOp, index: Size): (r: Option<MemType>)
    ensures r.Some? <==> op.getInputMemoryType == DefaultInputMemoryType
    ensures r.Some? ==> r.value == MemTypeDefault
  {
    if op.getInputMemoryType == DefaultInputMemoryType
    then Some(Defaults.InputMemoryType(op, index))
    else None
  }

  function VariadicInputMinArity(op: CustomOp): (r: Option<CInt>)
    ensures r.Some? <==> op.getVariadicInputMinArity == DefaultVariadicInputMinArity
    ensures r.Some? ==> r.value == 1
  {
    if op.getVariadicInputMinArity == DefaultVariadicInputMinArity
    then Some(Defaults.VariadicInputMinArity(op))
    else None
  }

  /** 1 (C `true`): the variadic inputs must share one element type. */
  function VariadicInputHomogeneity(op: CustomOp): (r: Option<CInt>)
    ensures r.Some? <==> op.getVariadicInputHomogeneity == DefaultVariadicInputHomogeneity
    ensures r.Some? ==> r.value == 1
  {
    if op.getVariadicInputHomogeneity == DefaultVariadicInputHomogeneity
    then Some(Defaults.VariadicInputHomogeneity(op))
    else None
  }

  function VariadicOutputMinArity(op: CustomOp): (r: Option<CInt>)
    ensures r.Some? <==> op.getVariadicOutputMinArity == DefaultVariadicOutputMinArity
    ensures r.Some? ==> r.value == 1
  {
    if op.getVariadicOutputMinArity == DefaultVariadicOutputMinArity
    then Some(Defaults.VariadicOutputMinArity(op))
    else None
  }

  /** 1 (C `true`): the variadic outputs must share one element type. */
  function VariadicOutputHomogeneity(op: CustomOp): (r: Option<CInt>)
    ensures r.Some? <==> op.getVariadicOutputHomogeneity == DefaultVariadicOutputHomogeneity
    ensures r.Some? ==> r.value == 1
  {
    if op.getVariadicOutputHomogeneity == DefaultVariadicOutputHomogeneity
    then Some(Defaults.VariadicOutputHomogeneity(op))
    else None
  }

  function Name(op: SimpleCustomOp): (r: Option<CString>)
    ensures r.Some? <==> op.base.getName == SimpleGetName
    ensures r.Some? ==> r.value == op.name
  {
    if op.base.getName == SimpleGetName then Some(SimpleOp.GetName(op)) else None
  }

  function InputTypeCount(op: SimpleCustomOp): (r: Option<Size>)
    ensures r.Some? <==> op.base.getInputTypeCount == SimpleGetInputTypeCount
    ensures r.Some? ==> r.value == op.inputCount
  {
    if op.base.getInputTypeCount == SimpleGetInputTypeCount then Some(SimpleOp.GetInputTypeCount(op)) else None
  }

  /** The engine only asks for indexes the caller's array covers; beyond it the C read is undefined. */
  function InputType(op: SimpleCustomOp, index: Size): (r: Option<ElementType>)
    requires op.base.getInputType == SimpleGetInputType ==> index < |op.inputTypes|
    ensures r.Some? <==> op.base.getInputType == SimpleGetInputType
    ensures r.Some? ==> r.value == op.inputTypes[index]
  {
    if op.base.getInputType == SimpleGetInputType then Some(SimpleOp.GetInputType(op, index)) else None
  }

  function OutputTypeCount(op: SimpleCustomOp): (r: Option<Size>)
    ensures r.Some? <==> op.base.getOutputTypeCount == SimpleGetOutputTypeCount
    ensures r.Some? ==> r.value == op.outputCount
  {
    if op.base.getOutputTypeCount == SimpleGetOutputTypeCount then Some(SimpleOp.GetOutputTypeCount(op)) else None
  }

  /** The engine only asks for indexes the caller's array covers; beyond it the C read is undefined. */
  function OutputType(op: SimpleCustomOp, index: Size): (r: Option<ElementType>)
    requires op.base.getOutputType == SimpleGetOutputType ==> index < |op.outputTypes|
    ensures r.Some? <==> op.base.getOutputType == SimpleGetOutputType
    ensures r.Some? ==> r.value == op.outputTypes[index]
  {
    if op.base.getOutputType == SimpleGetOutputType then Some(SimpleOp.GetOutputType(op, index)) else None
  }

  /** The kernel handle the engine receives; `api` and `info` are the engine's, not the operator's. */
  function CreateKernel(op: SimpleCustomOp, api: ApiRef, info: KernelInfoRef): (k: Option<SimpleCustomOp>)
    ensures k.Some? <==> op.base.createKernel == SimpleCreateKernel
    ensures k.Some? ==> k.value == op
  {
    if op.base.createKernel == SimpleCreateKernel then Some(SimpleOp.CreateKernel(op, api, info)) else None
  }

  /**
    One compute call: the slot is looked up in the registered table `op`, the
    callback it holds receives the kernel handle. `trace` lists the user
    callback invocations observed so far. A null stored callback makes the
    call undefined, and it answers `None`.
   */
  function KernelCompute(op: CustomOp, kernel: SimpleCustomOp, context: ContextRef, trace: seq<ComputeCall>)
    : (r: Option<seq<ComputeCall>>)
    ensures r.Some? <==> op.kernelCompute == SimpleKernelCompute && kernel.compute.ComputeAt?
    ensures r.Some? ==> |r.value| == |trace| + 1 && r.value[..|trace|] == trace
    ensures r.Some? ==> r.value[|trace|] == ComputeCall(kernel.compute, kernel.api, context)
  {
    if op.kernelCompute == SimpleKernelCompute && kernel.compute.ComputeAt? then Some(trace + [SimpleOp.KernelCompute(kernel, context)]) else None
  }

  function KernelDestroy(op: CustomOp, kernel: SimpleCustomOp, trace: seq<ComputeCall>): (r: Option<seq<ComputeCall>>)
    ensures r.Some? <==> op.kernelDestroy == SimpleKernelDestroy
    ensures r.Some? ==> r.value == trace
  {
    if op.kernelDestroy == SimpleKernelDestroy then Some(SimpleOp.KernelDestroy(kernel, trace)) else None
  }
}
