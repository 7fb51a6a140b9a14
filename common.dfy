/** Vocabulary shared by every part of the appliance model: the two timing
    constants, optional values, and what a call into the outside world did. */
module Common {

  /** Seconds an armed update selection waits before cancelling itself
      (src/utils/constants.py:13). */
  const CONFIRMATION_TIMEOUT: nat := 30

  /** Seconds a feedback message stays up before the PADD window is shown
      again (src/utils/constants.py:14). */
  const FEEDBACK_DELAY: nat := 3

  /** Python's `Optional[...]`: `None` or a value. */
  datatype Option<T> = None | Some(value: T)

  /** The exception classes that can escape the modelled operations. */
  datatype Error =
    | ServiceError                 // a command failed to run (src/utils/exceptions.py)
    | BacklightError               // the PWM device is missing or the value is out of range
    | DeviceError                  // the PWM device's own exception, escaping unconverted
    | AttributeError(name: string) // a call to a method the object does not define

  /** How a Python call ended: it returned normally, or it raised. */
  datatype Status = Ok | Raised(error: Error)

  /** A call that returns a value when it does not raise. */
  datatype Result<T> = Success(value: T) | Failure(error: Error)

  /** What an external command did: it exited with a return code, or starting
      or waiting for it raised `subprocess.SubprocessError`. */
  datatype CommandOutcome = Exited(code: int) | SubprocessFailure
}
