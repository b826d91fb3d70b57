/**
  The default callbacks and the initialiser that installs them. Each default
  ignores the operator (and the index, where it takes one) and answers a
  constant, so a table built on these defaults declares every input and output
  required, places inputs in default memory, and leaves the execution
  provider to the engine.
 */
module Defaults {
  import opened Abi
  import opened Vtable

  /** No execution-provider affinity: the null pointer. */
  function ExecutionProviderType(op: CustomOp): CString
  {
    Null
  }

  function InputCharacteristic(op: CustomOp, index: Size): Characteristic
  {
    InputOutputRequired
  }

  function OutputCharacteristic(op: CustomOp, index: Size): Characteristic
  {
    InputOutputRequired
  }

  function InputMemoryType(op: CustomOp, index: Size): MemType
  {
    MemTypeDefault
  }

  function VariadicInputMinArity(op: CustomOp): CInt
  {
    1
  }

  /** C `true` converted to `int`. */
  function VariadicInputHomogeneity(op: CustomOp): CInt
  {
    1
  }

  function VariadicOutputMinArity(op: CustomOp): CInt
  {
    1
  }

  /** C `true` converted to `int`. */
  function VariadicOutputHomogeneity(op: CustomOp): CInt
  {
    1
  }

  /** Every slot that has a default holds that default. */
  predicate HasDefaultSlots(op: CustomOp)
  {
    && op.getExecutionProviderType == DefaultExecutionProviderType
    && op.getInputCharacteristic == DefaultInputCharacteristic
    && op.getOutputCharacteristic == DefaultOutputCharacteristic
    && op.getInputMemoryType == DefaultInputMemoryType
    && op.getVariadicInputMinArity == DefaultVariadicInputMinArity
    && op.getVariadicInputHomogeneity == DefaultVariadicInputHomogeneity
    && op.getVariadicOutputMinArity == DefaultVariadicOutputMinArity
    && op.getVariadicOutputHomogeneity == DefaultVariadicOutputHomogeneity
  }

  /**
    Stamps the ABI version (the engine header's `ORT_API_VERSION`, passed in
    as `abiVersion`) and installs the eight defaults; the operator-specific
    slots keep whatever `op` held.
   */
  function InitializeCustomOpDefaults(op: CustomOp, abiVersion: ApiVersion): (r: CustomOp)
    ensures r.version == abiVersion
    ensures HasDefaultSlots(r)
    ensures SameOperatorSlots(r, op)
  {
    op.(
      version := abiVersion,
      getExecutionProviderType := DefaultExecutionProviderType,
      getInputCharacteristic := DefaultInputCharacteristic,
      getOutputCharacteristic := DefaultOutputCharacteristic,
      getInputMemoryType := DefaultInputMemoryType,
      getVariadicInputMinArity := DefaultVariadicInputMinArity,
      getVariadicInputHomogeneity := DefaultVariadicInputHomogeneity,
      getVariadicOutputMinArity := DefaultVariadicOutputMinArity,
      getVariadicOutputHomogeneity := DefaultVariadicOutputHomogeneity)
  }
}
