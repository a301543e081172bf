/** The error taxonomy of the `Did` trait that the pallet implements. */
module Did {

  /** Errors a `Did` operation may report. Only `NotFound` is ever produced by the
      pallet's implementation; the others are declared for a boundary check
      (`NameExceedMaxChar`), a strict create (`AlreadyExist`) and a fallible
      backing store (`FailedCreate`, `FailedUpdate`). */
  datatype DidError = NotFound | NameExceedMaxChar | AlreadyExist | FailedCreate | FailedUpdate
}
