/** The exceptions the core raises, and the value types that carry them. */
module Exceptions {

  /** Python exception classes raised by project.py.
      ValueError: a rejected argument, a falsy or unusable response, a failed decode.
      RuntimeError: the provider raised an OpenAIError.
      OSError: a lyrics file that cannot be opened, or an image PIL cannot write. */
  datatype Error = ValueError | RuntimeError | OSError

  datatype Option<+T> = None | Some(value: T)

  /** A call that returns a value or raises. `Result<()>` is a call that returns None. */
  datatype Result<+T> = Ok(value: T) | Err(error: Error) {
    /** The same outcome with the returned value dropped. */
    function Void(): (r: Result<()>)
      ensures r.Ok? <==> Ok?
      ensures r.Err? ==> r.error == error
    {
      match this
      case Ok(_) => Ok(())
      case Err(e) => Err(e)
    }
  }
}
