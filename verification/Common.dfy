// Small datatypes shared by every module of the model.
module Common {
  datatype Option<+T> = None | Some(value: T)

  // A call that answers either with a value or with the error the source returns.
  datatype Result<+T> = Success(value: T) | Failure
}
