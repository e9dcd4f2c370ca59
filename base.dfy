/** Option, the error taxonomy of the sample-construction and loss-composition
    code, and a Result type carrying one of those errors. */
module Base {

  datatype Option<+T> = None | Some(value: T)

  /** The exceptions the modelled code raises, one constructor per raise site kind. */
  datatype Error =
    // ValueError: a string discriminator outside its closed set
    | UnknownDataset(name: string)
    | UnknownPurpose(name: string)
    | UnknownMethod(name: string)
    | UnknownTransforms(name: string)
    // AssertionError: `assert sure_alternative in [None, "r2r"]`
    | SureAlternativeRejected(alternative: Option<string>)
    // AssertionError: `assert physics.task == "deblurring"`
    | PhysicsTaskMismatch(task: string)
    // AssertionError: `assert args.sure_margin is None`
    | MarginWithoutPartialSure(margin: int)
    // AttributeError: an attribute read unconditionally that the physics lacks
    | MissingAttribute(name: string)
    // UnboundLocalError: `sure_margin` is read although no branch assigned it
    | UnboundSureMargin(task: string)

  datatype Result<+T> = Ok(value: T) | Err(error: Error)
}
