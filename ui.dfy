/** Values shared by every page: an optional value, and what a form handler ends in. */
module Ui {

  /** A value that may be absent (an unset date, an unparsable number). */
  datatype Option<+T> = None | Some(value: T)

  /**
   * The visible result of a submit handler: a destructive toast carrying a
   * title, or a client-side navigation to a route. The success toasts that
   * precede a navigation are not part of the outcome.
   */
  datatype Outcome = Error(message: string) | Navigate(path: string)

  /** The detail route of a challenge, `/challenge/<id>`. */
  function ChallengePath(id: string): string
  {
    "/challenge/" + id
  }
}
