/** The `{ type, text }` message both admin cards show after an action, and how
    an action's service call decides it: success when the envelope's `success`
    is truthy, otherwise the `message` of the Error that ends in the catch block. */
module Feedback {
  import opened JsCore
  import MusicService

  /** `message.type`: '', 'success' or 'error'. */
  datatype Kind = Plain | Success | Failure

  datatype Message = Message(kind: Kind, text: string)

  /** `{ type: '', text: '' }`, the state before and during an action. */
  const NoMessage := Message(Plain, "")

  /** The awaited call resolved to an envelope with a truthy success flag. */
  predicate Succeeded<D>(outcome: MusicService.Outcome<MusicService.Envelope<D>>) {
    outcome.Returned? && outcome.data.success
  }

  /** `error.message` in the catch block: the service's own message, or that of
      `new Error(response.message)` for a refused envelope. */
  function FailureText<D>(outcome: MusicService.Outcome<MusicService.Envelope<D>>): (t: string)
    requires !Succeeded(outcome)
    ensures outcome.Raised? ==> t == outcome.message
    ensures outcome.Returned? && outcome.data.message.Some? ==> t == outcome.data.message.value
    ensures outcome.Returned? && outcome.data.message.None? ==> t == ""
  {
    match outcome
    case Raised(message) => message
    case Returned(envelope) => ErrorText(envelope.message)
  }
}
