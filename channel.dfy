/** The reply side of a platform method call and the outcomes of the
    asynchronous SDK tasks whose results are forwarded through it. */
module Channel {
  import opened Values

  /** An exception raised by the SDK; only its localized message (possibly
      null) is ever read. */
  datatype Exception = Exception(localizedMessage: Option<string>)

  /** How an SDK task ends when success and failure listeners are attached:
      exactly one of them runs. */
  datatype Outcome<+T> = Done(result: T) | Failed(exception: Exception)

  /** One reply to a method call: `success`, `error` (its details are always
      null and are not modelled) or `notImplemented`. */
  datatype Reply =
    | SuccessReply(value: Value)
    | ErrorReply(code: string, message: Option<string>)
    | NotImplementedReply

  /** The result handle of one method call. It records every reply given
      through it, so that a handler can be shown to reply exactly once. */
  class MethodResult {
    var replies: seq<Reply>

    constructor ()
      ensures replies == []
    {
      replies := [];
    }

    method Success(value: Value)
      modifies this
      ensures replies == old(replies) + [SuccessReply(value)]
    {
      replies := replies + [SuccessReply(value)];
    }

    method Error(code: string, message: Option<string>)
      modifies this
      ensures replies == old(replies) + [ErrorReply(code, message)]
    {
      replies := replies + [ErrorReply(code, message)];
    }

    method NotImplemented()
      modifies this
      ensures replies == old(replies) + [NotImplementedReply]
    {
      replies := replies + [NotImplementedReply];
    }
  }
}
