/** The exceptions the modelled code throws, as tags, and the two shapes a
    call can end in: a value or an exception (Result), or normal completion
    or an exception (Outcome). */
module Outcomes {

  datatype JavaException =
    | IllegalArgument          // java.lang.IllegalArgumentException
    | IllegalState             // java.lang.IllegalStateException
    | NullPointer              // java.lang.NullPointerException
    | InvalidString            // whatever StringUtil.assertIsValidString throws
    | CoordinateConversion     // CoordinateConversionException
    | CoordinateComputation    // CoordinateComputationException
    | FootballPhotoCreation    // FootballPhotoCreationException

  datatype Result<+T> = Ok(value: T) | Err(error: JavaException)

  datatype Outcome = Pass | Fail(error: JavaException)

  datatype Option<+T> = None | Some(value: T)
}
