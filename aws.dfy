/** What the core sees of the AWS SDK: each call either fails at one of its steps or
    returns a serialised output together with the one field the core reads from it. */
module Aws {

  /** The outcome of one SDK round trip: session creation, the call itself, and the
      `json.Marshal` of its output, in that order. */
  datatype CallOutcome<T> =
    | SessionFailed(err: string)
    | CallFailed(err: string)
    | PackFailed(err: string)
    | Returned(serialized: string, value: T)

  /** A `*string` as the SDK hands it out (`aws.String` allocates a fresh one). */
  class StringPointer {
    const value: string

    constructor (value: string)
      ensures this.value == value
    {
      this.value := value;
    }
  }

  /** The message prefix every session failure carries. */
  const SessionFailureText := "failed to create aws session: "

  /** The requeue interval the poll-based services ask for, in seconds. */
  const PollRequeueSeconds := 60

  /** The error message of a failed round trip: the session text, or the text of the step
      that failed, followed by the SDK's own message. */
  function FailureText<T>(out: CallOutcome<T>, callText: string, packText: string): string
    requires !out.Returned?
  {
    match out
    case SessionFailed(e) => SessionFailureText + e
    case CallFailed(e) => callText + e
    case PackFailed(e) => packText + e
  }

  /** A start call that returned a non-empty execution id. */
  predicate Started(out: CallOutcome<string>) {
    out.Returned? && out.value != ""
  }
}
