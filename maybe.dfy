/** Failure-compatible wrappers shared by every module of the model.
    `Option` stands for JavaScript's `null`/`undefined` versus a present value;
    `Result` stands for a value versus a thrown `Error` with its message. */
module Maybe {

  datatype Option<+T> = None | Some(value: T) {
    function GetOr(default: T): T {
      match this
      case Some(v) => v
      case None => default
    }
  }

  datatype Result<+T> = Ok(value: T) | Err(message: string)
}
