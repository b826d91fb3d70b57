/**
  What the two initialisers guarantee to the engine, stated through the
  engine's view of the table (`Dispatch`): constant defaults, configuration
  read back verbatim, a kernel that is the operator itself, and defaults that
  survive the simple operator's overrides.
 */
module Properties {
  import opened Abi
  import opened Vtable
  import Defaults
  import SimpleOp
  import Dispatch

  /** After the defaults are installed, every default query answers its constant, whatever the index. */
  lemma DefaultTableAnswers(op: CustomOp, abiVersion: ApiVersion, index: Size)
    ensures var r := Defaults.InitializeCustomOpDefaults(op, abiVersion);
      && r.version == abiVersion
      && Dispatch.ExecutionProviderType(r) == Some(Null)
      && Dispatch.InputCharacteristic(r, index) == Some(InputOutputRequired)
      && Dispatch.OutputCharacteristic(r, index) == Some(InputOutputRequired)
      && Dispatch.InputMemoryType(r, index) == Some(MemTypeDefault)
      && Dispatch.VariadicInputMinArity(r) == Some(1)
      && Dispatch.VariadicInputHomogeneity(r) == Some(1)
      && Dispatch.VariadicOutputMinArity(r) == Some(1)
      && Dispatch.VariadicOutputHomogeneity(r) == Some(1)
  {
  }

  /** Installing the defaults twice is the same as installing them once. */
  lemma DefaultsIdempotent(op: CustomOp, abiVersion: ApiVersion)
    ensures var once := Defaults.InitializeCustomOpDefaults(op, abiVersion);
      Defaults.InitializeCustomOpDefaults(once, abiVersion) == once
  {
  }

  /** The name and the two counts the engine reads back are exactly those passed in. */
  lemma ConfigurationReadsBack(
    api: ApiRef, name: CString,
    inputCount: Size, inputTypes: seq<ElementType>,
    outputCount: Size, outputTypes: seq<ElementType>,
    compute: ComputeFn, op: SimpleCustomOp, abiVersion: ApiVersion)
    ensures var r := SimpleOp.InitializeSimpleCustomOp(
        api, name, inputCount, inputTypes, outputCount, outputTypes, compute, op, abiVersion);
      && Dispatch.Name(r) == Some(name)
      && Dispatch.InputTypeCount(r) == Some(inputCount)
      && Dispatch.OutputTypeCount(r) == Some(outputCount)
  {
  }

  /** The input type at index `i` is the `i`-th entry of the array passed in. */
  lemma InputTypeReadsBack(
    api: ApiRef, name: CString,
    inputCount: Size, inputTypes: seq<ElementType>,
    outputCount: Size, outputTypes: seq<ElementType>,
    compute: ComputeFn, op: SimpleCustomOp, abiVersion: ApiVersion, i: Size)
    requires i < inputCount <= |inputTypes|
    ensures var r := SimpleOp.InitializeSimpleCustomOp(
        api, name, inputCount, inputTypes, outputCount, outputTypes, compute, op, abiVersion);
      Dispatch.InputType(r, i) == Some(inputTypes[i])
  {
  }

  /** The output type at index `i` is the `i`-th entry of the array passed in. */
  lemma OutputTypeReadsBack(
    api: ApiRef, name: CString,
    inputCount: Size, inputTypes: seq<ElementType>,
    outputCount: Size, outputTypes: seq<ElementType>,
    compute: ComputeFn, op: SimpleCustomOp, abiVersion: ApiVersion, i: Size)
    requires i < outputCount <= |outputTypes|
    ensures var r := SimpleOp.InitializeSimpleCustomOp(
        api, name, inputCount, inputTypes, outputCount, outputTypes, compute, op, abiVersion);
      Dispatch.OutputType(r, i) == Some(outputTypes[i])
  {
  }

  /**
    The kernel is the operator; computing on it calls the configured callback
    once, with the configured API table (not the one given to kernel creation)
    and the given context, unless that callback is null, which is undefined;
    destroying it changes nothing.
   */
  lemma KernelIsOperator(
    api: ApiRef, name: CString,
    inputCount: Size, inputTypes: seq<ElementType>,
    outputCount: Size, outputTypes: seq<ElementType>,
    compute: ComputeFn, op: SimpleCustomOp, abiVersion: ApiVersion,
    engineApi: ApiRef, info: KernelInfoRef, context: ContextRef, trace: seq<ComputeCall>)
    ensures var r := SimpleOp.InitializeSimpleCustomOp(
        api, name, inputCount, inputTypes, outputCount, outputTypes, compute, op, abiVersion);
      && Dispatch.CreateKernel(r, engineApi, info) == Some(r)
      && (compute.ComputeAt? ==>
            Dispatch.KernelCompute(r.base, r, context, trace) == Some(trace + [ComputeCall(compute, api, context)]))
      && (compute.NullCompute? ==> Dispatch.KernelCompute(r.base, r, context, trace) == None)
      && Dispatch.KernelDestroy(r.base, r, trace) == Some(trace)
  {
  }

  /** Every slot the simple operator does not override still holds, and answers as, the default. */
  lemma DefaultsSurviveSimpleInitialization(
    api: ApiRef, name: CString,
    inputCount: Size, inputTypes: seq<ElementType>,
    outputCount: Size, outputTypes: seq<ElementType>,
    compute: ComputeFn, op: SimpleCustomOp, abiVersion: ApiVersion, index: Size)
    ensures var r := SimpleOp.InitializeSimpleCustomOp(
        api, name, inputCount, inputTypes, outputCount, outputTypes, compute, op, abiVersion);
      var d := Defaults.InitializeCustomOpDefaults(op.base, abiVersion);
      && r.base.version == d.version
      && SameDefaultSlots(r.base, d)
      && Dispatch.ExecutionProviderType(r.base) == Dispatch.ExecutionProviderType(d)
      && Dispatch.InputCharacteristic(r.base, index) == Dispatch.InputCharacteristic(d, index)
      && Dispatch.OutputCharacteristic(r.base, index) == Dispatch.OutputCharacteristic(d, index)
      && Dispatch.InputMemoryType(r.base, index) == Dispatch.InputMemoryType(d, index)
      && Dispatch.VariadicInputMinArity(r.base) == Dispatch.VariadicInputMinArity(d)
      && Dispatch.VariadicInputHomogeneity(r.base) == Dispatch.VariadicInputHomogeneity(d)
      && Dispatch.VariadicOutputMinArity(r.base) == Dispatch.VariadicOutputMinArity(d)
      && Dispatch.VariadicOutputHomogeneity(r.base) == Dispatch.VariadicOutputHomogeneity(d)
  {
  }

  /**
    Initialisation overwrites every modelled field, so the modelled fields do
    not depend on what the output record held before. Slots of later ABI
    versions, which are not in the record, are not written at all.
   */
  lemma InitializationIgnoresPriorContents(
    api: ApiRef, name: CString,
    inputCount: Size, inputTypes: seq<ElementType>,
    outputCount: Size, outputTypes: seq<ElementType>,
    compute: ComputeFn, op1: SimpleCustomOp, op2: SimpleCustomOp, abiVersion: ApiVersion)
    ensures SimpleOp.InitializeSimpleCustomOp(
        api, name, inputCount, inputTypes, outputCount, outputTypes, compute, op1, abiVersion)
      == SimpleOp.InitializeSimpleCustomOp(
        api, name, inputCount, inputTypes, outputCount, outputTypes, compute, op2, abiVersion)
  {
  }

  /**
    The overridden slots and the defaulted slots are disjoint, so installing
    the defaults before or after the overrides builds the same table.
   */
  lemma InstallOrderIrrelevant(base: CustomOp, abiVersion: ApiVersion)
    ensures SimpleOp.InstallOperatorSlots(Defaults.InitializeCustomOpDefaults(base, abiVersion))
      == Defaults.InitializeCustomOpDefaults(SimpleOp.InstallOperatorSlots(base), abiVersion)
  {
  }
}
