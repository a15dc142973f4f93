/** Error codes as the service layer passes them around: a value and a category. */
module ErrorCodes {

  datatype Option<+T> = None | Some(value: T)

  datatype Category = SystemCategory | ClientCategory | MiscCategory

  /** A code counts as an error exactly when its value is not zero, whatever its category. */
  datatype ErrorCode = ErrorCode(value: int, category: Category) {
    predicate Failed() {
      value != 0
    }
  }

  const SUCCESS := ErrorCode(0, SystemCategory)
  const OPERATION_ABORTED := ErrorCode(125, SystemCategory)
  const INITIALIZATION_ERROR := ErrorCode(1, MiscCategory)
  const NOT_INITIALIZED := ErrorCode(2, MiscCategory)
  const NO_MORE_RESULTS := ErrorCode(3, MiscCategory)
  const UNKNOWN := ErrorCode(8, MiscCategory)
}
