/** Option and result wrappers shared by the shape model and the layers. */
module Wrappers {

  /** A value that may be absent; `None` is also the unknown dimension of a shape. */
  datatype Option<+T> = None | Some(value: T)

  /**
   * The exceptions a layer can raise, grouped by when they surface:
   * - ConfigurationError: a constructor rejects its arguments;
   * - ShapeError: `infer_output_shape` rejects the shapes it is given;
   * - IndexError: a list index goes past the end of a shape or of the list of inputs.
   */
  datatype Error = ConfigurationError | ShapeError | IndexError

  /** Either a value or the error that was raised instead. */
  datatype Result<+T> = Ok(value: T) | Err(error: Error)
}
