/** The exceptions the core throws, as values, and the result type that carries them. */
module Errors {

  /** One case per way the core fails.  The Java exception class is named on each. */
  datatype Error =
    /** IllegalArgumentException: the source rank differs from the arrangement's rank. */
    | DimensionalityMismatch(expected: nat, got: nat)
    /** IllegalArgumentException: the source pixel type is not a native type. */
    | NonNativeType
    /** IllegalArgumentException: a native pixel type or data type the projector cannot convert to. */
    | UnsupportedType
    /** UnsupportedOperationException: the layout heuristic meets more than five dimensions. */
    | TooManyDimensions(n: nat)
    /** RuntimeException: a sequence data type the planar wrappers cannot wrap (LONG, ULONG, ...). */
    | UnsupportedDataType
    /** ArrayIndexOutOfBoundsException: a dimension index beyond the source's rank is read. */
    | IndexOutOfBounds

  datatype Result<+T> = Success(value: T) | Failure(error: Error)
}
