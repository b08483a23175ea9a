/** Values shared by the three panels: optional values, the outcome of a
    remote (Apex) call, the error values such a call can throw, the one
    rule that turns an error into display text, and toast notifications. */
module Common {

  datatype Option<+T> = None | Some(value: T)

  /** JavaScript's `s || ''` on a possibly missing string. */
  function OrEmpty(s: Option<string>): string
  {
    match s
    case Some(v) => v
    case None => ""
  }

  /** JavaScript's `list || []` on a possibly null list. */
  function ListOrEmpty<T>(xs: Option<seq<T>>): seq<T>
  {
    match xs
    case Some(v) => v
    case None => []
  }

  /** The `body` of an Apex exception (an AuraHandledException, say).
      A missing `message` and an empty one behave alike, both being
      falsy, so a missing one is written "". */
  datatype ErrorBody = ErrorBody(message: string)

  /** What a rejected remote call hands to `catch`: nothing at all, or an
      error object with an optional `body` and a flat `message` ("" when
      missing). */
  datatype ErrorValue = Absent | Thrown(body: Option<ErrorBody>, message: string)

  /** The result of one awaited remote call, supplied by the caller of the
      model: the resolved payload or the rejection. */
  datatype Response<+T> = Success(payload: T) | Failure(err: ErrorValue)

  const UnknownError := "不明なエラー"

  /** The panels' `errorMessage`: a non-empty `body.message` wins, then a
      non-empty flat `message`, then the generic text; never empty. */
  function ErrorMessage(err: ErrorValue): (r: string)
    ensures r != ""
    ensures r == UnknownError
            || (err.Thrown? && (r == err.message || (err.body.Some? && r == err.body.value.message)))
    ensures err.Thrown? && err.body.Some? && err.body.value.message != "" ==> r == err.body.value.message
    ensures err.Thrown? && (err.body.None? || err.body.value.message == "") && err.message != ""
            ==> r == err.message
    ensures err.Absent? ==> r == UnknownError
  {
    match err
    case Absent => UnknownError
    case Thrown(body, message) =>
      if body.Some? && body.value.message != "" then body.value.message
      else if message != "" then message
      else UnknownError
  }

  datatype Variant = Info | Warning | Error

  /** A `ShowToastEvent`: only its title, message and variant matter. */
  datatype Toast = Toast(title: string, message: string, variant: Variant)
}
