/** The outcome of one upload, and the record used for batches of uploads. */
module LogUploadResults {
  import opened Wrappers
  import opened LogUploadErrors

  /** LogUploadResult: success, or failure with an error. */
  datatype LogUploadResult<E> = Success | Failure(failure: E) {

    /** True exactly for a success. */
    predicate IsSuccess()
      ensures IsSuccess() <==> this == Success
    {
      match this
      case Success => true
      case Failure(_) => false
    }

    /** Always the negation of IsSuccess. */
    predicate IsFailure()
      ensures IsFailure() <==> !IsSuccess()
    {
      !IsSuccess()
    }

    /** The error of a failure; none for a success. */
    function Error(): (r: Option<E>)
      ensures this == Success ==> r == None
      ensures Failure? ==> r == Some(failure)
    {
      match this
      case Success => None
      case Failure(e) => Some(e)
    }
  }

  /** Reading back the error of a failure built from `e` gives `e`, and a result is rebuilt from its error. */
  lemma ErrorRoundTrip<E>(r: LogUploadResult<E>, e: E)
    ensures Failure(e).Error() == Some(e)
    ensures r == (if r.Error().Some? then Failure(r.Error().value) else Success)
  {
  }

  /** A result is a success exactly when it carries no error. */
  lemma SuccessIffNoError<E>(r: LogUploadResult<E>)
    ensures r.IsSuccess() <==> r.Error() == None
    ensures r.IsFailure() <==> r.Error().Some?
  {
  }

  /** LUResult: one entry of a batch of uploads. */
  datatype LUResult = LUResult(destinationId: string, logFileName: Option<string>, result: LogUploadResult<LogUploadError>)
}
