/** Types shared by the extractor, the service and the controller. */
module Common {

  /** JavaScript's `undefined` is `None`. */
  datatype Option<+T> = None | Some(value: T)

  /** A value the source throws: its own plain objects `{ statusCode, message }`
      and the library errors (file system, XML parser, database) that carry
      only a message. */
  datatype Failure = Failure(statusCode: Option<nat>, message: string)

  /** A returned value, or a thrown `Failure`. */
  datatype Result<+T> = Ok(value: T) | Err(error: Failure)
}
