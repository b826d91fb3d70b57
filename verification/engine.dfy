/**
  A hypothetical engine client of the table: sequences of slot calls through
  which it learns an operator's signature and runs its kernel. The real
  engine is not part of this model; these clients show the getters, defaults
  and kernel lifecycle working together. Each call goes through `Dispatch`,
  so a slot holding foreign code makes the whole sequence answer `None`.
 */
module Engine {
  import opened Abi
  import opened Vtable
  import Dispatch

  /** What the engine learns about one input position. */
  datatype InputSpec = InputSpec(elementType: ElementType, characteristic: Characteristic, memType: MemType)

  /** What the engine learns about one output position. */
  datatype OutputSpec = OutputSpec(elementType: ElementType, characteristic: Characteristic)

  /**
    Asks for the input count, then for each index below it the element type,
    the characteristic and the memory placement.
   */
  method InputSignature(op: SimpleCustomOp) returns (sig: Option<seq<InputSpec>>)
    requires op.inputCount <= |op.inputTypes|
    ensures sig.Some? <==>
      && op.base.getInputTypeCount == SimpleGetInputTypeCount
      && (op.inputCount > 0 ==>
            && op.base.getInputType == SimpleGetInputType
            && op.base.getInputCharacteristic == DefaultInputCharacteristic
            && op.base.getInputMemoryType == DefaultInputMemoryType)
    ensures sig.Some? ==> |sig.value| == op.inputCount
    ensures sig.Some? ==> forall i :: 0 <= i < |sig.value| ==>
      sig.value[i] == InputSpec(op.inputTypes[i], InputOutputRequired, MemTypeDefault)
  {
    var count := Dispatch.InputTypeCount(op);
    if count.None? {
      return None;
    }
    var specs: seq<InputSpec> := [];
    var i: Size := 0;
    while i < count.value
      invariant i <= count.value == op.inputCount
      invariant |specs| == i
      invariant forall j :: 0 <= j < i ==> specs[j] == InputSpec(op.inputTypes[j], InputOutputRequired, MemTypeDefault)
      invariant i > 0 ==> op.base.getInputType == SimpleGetInputType
      invariant i > 0 ==> op.base.getInputCharacteristic == DefaultInputCharacteristic
      invariant i > 0 ==> op.base.getInputMemoryType == DefaultInputMemoryType
    {
      var elementType := Dispatch.InputType(op, i);
      var characteristic := Dispatch.InputCharacteristic(op.base, i);
      var memType := Dispatch.InputMemoryType(op.base, i);
      if elementType.None? || characteristic.None? || memType.None? {
        return None;
      }
      specs := specs + [InputSpec(elementType.value, characteristic.value, memType.value)];
      i := i + 1;
    }
    return Some(specs);
  }

  /** Asks for the output count, then for each index below it the element type and the characteristic. */
  method OutputSignature(op: SimpleCustomOp) returns (sig: Option<seq<OutputSpec>>)
    requires op.outputCount <= |op.outputTypes|
    ensures sig.Some? <==>
      && op.base.getOutputTypeCount == SimpleGetOutputTypeCount
      && (op.outputCount > 0 ==>
            && op.base.getOutputType == SimpleGetOutputType
            && op.base.getOutputCharacteristic == DefaultOutputCharacteristic)
    ensures sig.Some? ==> |sig.value| == op.outputCount
    ensures sig.Some? ==> forall i :: 0 <= i < |sig.value| ==>
      sig.value[i] == OutputSpec(op.outputTypes[i], InputOutputRequired)
  {
    var count := Dispatch.OutputTypeCount(op);
    if count.None? {
      return None;
    }
    var specs: seq<OutputSpec> := [];
    var i: Size := 0;
    while i < count.value
      invariant i <= count.value == op.outputCount
      invariant |specs| == i
      invariant forall j :: 0 <= j < i ==> specs[j] == OutputSpec(op.outputTypes[j], InputOutputRequired)
      invariant i > 0 ==> op.base.getOutputType == SimpleGetOutputType
      invariant i > 0 ==> op.base.getOutputCharacteristic == DefaultOutputCharacteristic
    {
      var elementType := Dispatch.OutputType(op, i);
      var characteristic := Dispatch.OutputCharacteristic(op.base, i);
      if elementType.None? || characteristic.None? {
        return None;
      }
      specs := specs + [OutputSpec(elementType.value, characteristic.value)];
      i := i + 1;
    }
    return Some(specs);
  }

  /**
    One kernel lifetime: create the kernel with the engine's `api` and `info`,
    run it once on each execution context in order, destroy it. The result
    lists the user callback invocations, one per context.
   */
  method RunKernel(op: SimpleCustomOp, api: ApiRef, info: KernelInfoRef, contexts: seq<ContextRef>)
    returns (trace: Option<seq<ComputeCall>>)
    ensures trace.Some? <==>
      && op.base.createKernel == SimpleCreateKernel
      && op.base.kernelDestroy == SimpleKernelDestroy
      && (|contexts| > 0 ==> op.base.kernelCompute == SimpleKernelCompute && op.compute.ComputeAt?)
    ensures trace.Some? ==> |trace.value| == |contexts|
    ensures trace.Some? ==> forall i :: 0 <= i < |contexts| ==>
      trace.value[i] == ComputeCall(op.compute, op.api, contexts[i])
  {
    var kernel := Dispatch.CreateKernel(op, api, info);
    if kernel.None? {
      return None;
    }
    var calls: seq<ComputeCall> := [];
    var i := 0;
    while i < |contexts|
      invariant i <= |contexts|
      invariant |calls| == i
      invariant forall j :: 0 <= j < i ==> calls[j] == ComputeCall(op.compute, op.api, contexts[j])
      invariant i > 0 ==> op.base.kernelCompute == SimpleKernelCompute && op.compute.ComputeAt?
    {
      var next := Dispatch.KernelCompute(op.base, kernel.value, contexts[i], calls);
      if next.None? {
        return None;
      }
      calls := next.value;
      i := i + 1;
    }
    var released := Dispatch.KernelDestroy(op.base, kernel.value, calls);
    if released.None? {
      return None;
    }
    return Some(released.value);
  }
}
