/** Result types shared by every module, and the ways a remote call can end. */
module Wrappers {

  datatype Option<+T> = None | Some(value: T)

  datatype Result<+R, +E> = Ok(value: R) | Err(error: E)

  /** What the caller of a remote write observes: the reply, or an error although the write
      took effect, or an error for a write that never took effect. */
  datatype Fault = Replied | LostReply | LostRequest
}
