/** Values shared by every layer of the backend. The services signal failure
    by throwing NotFoundException or BadRequestException; here those two
    exceptions are the two variants of Error, carried by Result. */
module Outcomes {

  datatype Option<+T> = None | Some(value: T)

  /** The business error kinds, with the message the service attaches. */
  datatype Error = NotFound(message: string) | BadRequest(message: string)

  datatype Result<+T> = Ok(value: T) | Err(error: Error)
}
