/**
  The operator table of the custom-operator ABI (`OrtCustomOp`) and the
  simple operator that embeds it (`OrtSimpleCustomOp`).

  Each callback slot of the table holds a `Callback`: one of the sixteen
  functions this layer defines, or `Foreign(address)` for anything else the
  slot may hold (the caller's own function, or the uninitialised contents of
  a freshly declared table).
 */
module Vtable {
  import opened Abi

  datatype Callback =
    | Foreign(address: nat)
    // the default callbacks
    | DefaultExecutionProviderType
    | DefaultInputCharacteristic
    | DefaultOutputCharacteristic
    | DefaultInputMemoryType
    | DefaultVariadicInputMinArity
    | DefaultVariadicInputHomogeneity
    | DefaultVariadicOutputMinArity
    | DefaultVariadicOutputHomogeneity
    // the simple operator's callbacks
    | SimpleGetName
    | SimpleGetInputTypeCount
    | SimpleGetInputType
    | SimpleGetOutputTypeCount
    | SimpleGetOutputType
    | SimpleCreateKernel
    | SimpleKernelCompute
    | SimpleKernelDestroy

  /** The ABI version stamp and the sixteen callback slots this layer assigns. */
  datatype CustomOp = CustomOp(
    version: ApiVersion,
    createKernel: Callback,
    getName: Callback,
    getExecutionProviderType: Callback,
    getInputType: Callback,
    getInputTypeCount: Callback,
    getOutputType: Callback,
    getOutputTypeCount: Callback,
    kernelCompute: Callback,
    kernelDestroy: Callback,
    getInputCharacteristic: Callback,
    getOutputCharacteristic: Callback,
    getInputMemoryType: Callback,
    getVariadicInputMinArity: Callback,
    getVariadicInputHomogeneity: Callback,
    getVariadicOutputMinArity: Callback,
    getVariadicOutputHomogeneity: Callback)

  /** The eight slots that have a default callback agree in `a` and `b`. */
  predicate SameDefaultSlots(a: CustomOp, b: CustomOp)
  {
    && a.getExecutionProviderType == b.getExecutionProviderType
    && a.getInputCharacteristic == b.getInputCharacteristic
    && a.getOutputCharacteristic == b.getOutputCharacteristic
    && a.getInputMemoryType == b.getInputMemoryType
    && a.getVariadicInputMinArity == b.getVariadicInputMinArity
    && a.getVariadicInputHomogeneity == b.getVariadicInputHomogeneity
    && a.getVariadicOutputMinArity == b.getVariadicOutputMinArity
    && a.getVariadicOutputHomogeneity == b.getVariadicOutputHomogeneity
  }

  /** The eight operator-specific slots (name, types, kernel lifecycle) agree in `a` and `b`. */
  predicate SameOperatorSlots(a: CustomOp, b: CustomOp)
  {
    && a.getName == b.getName
    && a.getInputTypeCount == b.getInputTypeCount
    && a.getInputType == b.getInputType
    && a.getOutputTypeCount == b.getOutputTypeCount
    && a.getOutputType == b.getOutputType
    && a.createKernel == b.createKernel
    && a.kernelCompute == b.kernelCompute
    && a.kernelDestroy == b.kernelDestroy
  }

  /**
    A simple operator: the table followed by its flat configuration. The type
    arrays are borrowed by the C code; here they are the values captured when
    the operator was initialised.
   */
  datatype SimpleCustomOp = SimpleCustomOp(
    base: CustomOp,
    api: ApiRef,
    name: CString,
    inputCount: Size,
    inputTypes: seq<ElementType>,
    outputCount: Size,
    outputTypes: seq<ElementType>,
    compute: ComputeFn)
}
