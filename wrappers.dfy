/** Optional values, and the outcome of a call into a backend collaborator. */
module Wrappers {

  /** A value that may be absent (`undefined` / `null` in the source). */
  datatype Option<+T> = None | Some(value: T) {
    function GetOr(default: T): T {
      match this
      case Some(v) => v
      case None => default
    }
  }

  /** What a thrown value carries: an `Error` has a message, any other thrown value has none. */
  datatype Exception = Exception(message: Option<string>)

  /** The result of awaiting a collaborator: the value it resolved to, or the exception it threw. */
  datatype Outcome<+T> = Returned(value: T) | Threw(error: Exception)

  /** `error instanceof Error ? error.message : fallback` */
  function MessageOr(e: Exception, fallback: string): string {
    e.message.GetOr(fallback)
  }

  /** A toast notification, kept as an event in a log. */
  datatype Title = SuccessTitle | ErrorTitle
  datatype Toast = Toast(title: Title, description: Option<string>)

  function ErrorToast(description: string): Toast {
    Toast(ErrorTitle, Some(description))
  }

  function SuccessToast(description: string): Toast {
    Toast(SuccessTitle, Some(description))
  }
}
