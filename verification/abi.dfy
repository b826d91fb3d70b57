/**
  The parts of the ONNX Runtime custom-operator ABI that the simple custom-op
  layer touches, kept abstract: machine integer ranges, the enumeration tags
  the callbacks return, and opaque handles for the engine objects that are
  only passed through.
 */
module Abi {

  /** `size_t` on a 64-bit target: counts and indexes of inputs and outputs. */
  type Size = n: nat | n < 0x1_0000_0000_0000_0000

  /** The `uint32_t` version field of an operator table. */
  type ApiVersion = n: nat | n < 0x1_0000_0000

  /** A C `int`, as returned by the variadic-arity and homogeneity callbacks. */
  type CInt = i: int | -0x8000_0000 <= i < 0x8000_0000

  /** A `const char*`: either the null pointer or a pointer to a string. */
  datatype CString = Null | Chars(text: string)

  /** The tensor element type tags an operator declares for its inputs and outputs. */
  datatype ElementType =
    | Undefined | Float | Uint8 | Int8 | Uint16 | Int16 | Int32 | Int64
    | Str | Bool | Float16 | Double | Uint32 | Uint64
    | Complex64 | Complex128 | BFloat16

  /** Whether an input or output must be present, may be absent, or repeats. */
  datatype Characteristic = InputOutputRequired | InputOutputOptional | InputOutputVariadic

  /** Where the engine places an input tensor's memory. */
  datatype MemType = MemTypeCpuInput | MemTypeCpuOutput | MemTypeDefault

  /** Opaque engine objects: the API function table, kernel creation info, an execution context. */
  datatype ApiRef = ApiRef(id: nat)
  datatype KernelInfoRef = KernelInfoRef(id: nat)
  datatype ContextRef = ContextRef(id: nat)

  /**
    The user's compute callback pointer: null, or the address of a function
    whose body is outside the model. Calling the null pointer is undefined.
   */
  datatype ComputeFn = NullCompute | ComputeAt(address: nat)

  /** One invocation of a user compute callback: which callback, with which API table, on which context. */
  datatype ComputeCall = ComputeCall(callback: ComputeFn, api: ApiRef, context: ContextRef)

  datatype Option<+T> = None | Some(value: T)
}
