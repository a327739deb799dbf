/** Failure-compatible wrappers shared by every module of the model. */
module Wrappers {

  /** A value that may be absent: Python's `None` or a given object. */
  datatype Option<T> = None | Some(value: T) {
    function GetOr(default: T): T {
      match this
      case Some(v) => v
      case None => default
    }
  }

  /** The outcome of an operation that returns a value or raises. */
  datatype Result<T, E> = Ok(value: T) | Err(error: E) {
    predicate IsFailure() { Err? }

    function PropagateFailure<U>(): Result<U, E>
      requires Err?
    {
      Err(error)
    }

    function Extract(): T
      requires Ok?
    {
      value
    }
  }

  /** The outcome of an operation that returns nothing or raises. */
  datatype Outcome<E> = Pass | Fail(error: E) {
    predicate IsFailure() { Fail? }

    function PropagateFailure<U>(): Result<U, E>
      requires Fail?
    {
      Err(error)
    }
  }
}

/** The exceptions raised by the modelled code, one constructor per raise site kind. */
module Errors {

  datatype Error =
    /** PulseError: 'Child schedules ... overlap.' (a per-channel collision). */
    | ScheduleOverlap
    /** BackendNotSet: a backend-requiring builder call without a backend. */
    | BackendNotSet
    /** NoActiveBuilder: a builder function called outside of a builder context. */
    | NoActiveBuilder
    /** PulseError: 'Alignment "..." is not supported.' */
    | UnsupportedAlignment(alignment: string)
    /** PulseError: 'Register of type ... is not supported'. */
    | UnsupportedRegister
    /** PulseError: 'Target of type ... is not supported.' */
    | UnsupportedTarget
    /** PulseError: 'Command ... for qubits ... is not present in CmdDef'. */
    | CommandNotPresent(cmdName: string, qubits: seq<int>)
    /** PulseError: 'Command ... does not exist in CmdDef.' */
    | CommandDoesNotExist(cmdName: string)
    /** IndexError raised while formatting the error message of `CmdDef.pop`. */
    | FormatIndexError
    /** QiskitError: 'All qubits must be integers.' */
    | QubitsNotIntegers
    /** PulseError: 'Pulse duration should be integer.' */
    | DurationNotInteger
    /** CommandsError: 'Invalid discriminator object is specified.' */
    | InvalidDiscriminator
    /** CommandsError: 'Invalid kernel object is specified.' */
    | InvalidKernel
    /** QiskitError: 'Invalid discriminator object is specified.' (legacy Acquire). */
    | LegacyInvalidDiscriminator
    /** QiskitError: 'Invalid kernel object is specified.' (legacy Acquire). */
    | LegacyInvalidKernel
    /** CommandsError: '#reg_slots must be equals to #qubits'. */
    | RegSlotCountMismatch
    /** Exception('Not implemented'): align_center given other than two inputs. */
    | NotImplemented
    /** ValueError: `max()` of an empty sequence. */
    | EmptyMax
    /** ValueError: `list.index` of an element that is not in the list. */
    | NotInList
    /** KeyError: a dictionary lookup of a missing key. */
    | KeyNotFound
    /** IndexError: a sequence subscript out of range. */
    | IndexOutOfRange
    /** TypeError: `'delay' in name` when the name is None. */
    | NameNotString
}
