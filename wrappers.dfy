/** Failure-carrying values shared by every module of the model. */
module Wrappers {

  datatype Option<+T> = None | Some(value: T)

  /** The outcome of a call into an external collaborator (download, codec, upload):
      either a value or the message of the exception it raised. */
  datatype Result<+T> = Ok(value: T) | Err(msg: string)
}
