/** Option and Result, the failure-carrying values used throughout the model. */
module Wrappers {

  /** Ruby's `nil` versus a present value. */
  datatype Option<+T> = None | Some(value: T)

  /** A value, or the exception a Ruby call would have raised instead. */
  datatype Result<+R, +E> = Success(value: R) | Failure(error: E)
}

/** The exceptions the extension's link resolution can raise. */
module Errors {

  datatype Error =
    /** `raise NotFound`: in build mode, the staged image file is missing. */
    | NotFound
    /** `Object.const_get` failed: no provider class has this name. */
    | UnknownProvider(className: string)
}
