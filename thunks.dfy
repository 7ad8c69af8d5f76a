/**
 * The async thunks of both slices (fetch, add, update, remove). The API call
 * itself is not modelled: its outcome is an input value, either the resolved
 * value or what was thrown. A thunk turns that outcome into the action phase
 * that the reducer then handles.
 */
module Thunks {

  /** What a failed API call threw: an `Error` instance (with its message) or any other value. */
  datatype Thrown = ErrorInstance(message: string) | NonError

  /** The settled promise of an API wrapper call. */
  datatype ApiResult<T> = Resolved(value: T) | Threw(thrown: Thrown)

  /** The three lifecycle actions of a thunk: `pending`, `fulfilled`, `rejected`. */
  datatype Phase<T> = Pending | Fulfilled(payload: T) | Rejected(message: string)

  const UnknownErrorMessage := "An unknown error occurred"

  /** The `catch` block: the Error's message, or the fixed fallback text for non-Error throws. */
  function RejectMessage(thrown: Thrown): (message: string)
    ensures thrown.ErrorInstance? ==> message == thrown.message
    ensures thrown.NonError? ==> message == UnknownErrorMessage
  {
    match thrown
    case ErrorInstance(m) => m
    case NonError => UnknownErrorMessage
  }

  /**
   * How the fetch, add and update thunks settle: the resolved value becomes the
   * fulfilled payload; anything thrown becomes a rejection carrying its message.
   */
  function Settle<T>(result: ApiResult<T>): (phase: Phase<T>)
    ensures !phase.Pending?
    ensures phase.Fulfilled? <==> result.Resolved?
    ensures result.Resolved? ==> phase.payload == result.value
    ensures result.Threw? ==> phase.message == RejectMessage(result.thrown)
  {
    match result
    case Resolved(v) => Fulfilled(v)
    case Threw(t) => Rejected(RejectMessage(t))
  }

  /**
   * How the remove thunks settle: the delete call resolves to nothing, and the
   * fulfilled payload is the id that was asked for.
   */
  function SettleRemoval(id: string, result: ApiResult<()>): (phase: Phase<string>)
    ensures !phase.Pending?
    ensures result.Resolved? ==> phase == Fulfilled(id)
    ensures result.Threw? ==> phase == Rejected(RejectMessage(result.thrown))
  {
    match result
    case Resolved(_) => Fulfilled(id)
    case Threw(t) => Rejected(RejectMessage(t))
  }
}
