/** The one kind of failure the render host reports. */
module Failures {

  /** An IllegalArgumentException, carrying the message key the host logs with it. */
  datatype Error = IllegalArgument(messageKey: string)

  /** How a void mutator completes: normally, or by throwing. */
  datatype Outcome = Pass | Fail(error: Error)
}
