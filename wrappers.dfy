/** Result shapes shared by every component. */
module Wrappers {
  datatype Option<T> = None | Some(value: T)

  /** A Python call that either returns a value or raises; the failure
      carries the exception's message. */
  datatype Result<T> = Ok(value: T) | Failure(error: string)

  /** What an abstracted collaborator (a transcription, an image analysis,
      a summariser call, a file read) gives back: its text, or an exception
      the caller catches, with the exception's `str()`. */
  datatype Outcome = Done(text: string) | Raised(message: string)
}
