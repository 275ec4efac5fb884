/**
  The Express error middleware: an error a handler passes to `next` ends
  here and is turned into a status and a JSON `{message}` body.
 */
module ErrorHandler {
  import opened Wrappers

  const EXCEED_MESSAGE := "Please choose no more than 3 files at once."
  const INVALID_TOKEN := "Invalid Token"
  const VALIDATION_ERROR := "ValidationError"
  /** The name the handler tests for, spelled as in the source. */
  const UNAUTHORIZED_AS_SPELLED := "UnautorizedError"
  const UNEXPECTED_FIELD := "Unexpected field"

  /** A value thrown or passed to `next`. An object's `name` and `message`
      are `undefined` (None) when absent; `false`, which `sendMail` rejects
      with, has neither. */
  datatype ErrorValue =
    | StringError(text: string)
    | ObjectError(name: Option<string>, message: Option<string>)
    | FalseError

  /** The response: its status and the `message` property of its JSON body
      (None: the property is `undefined`, so the body is `{}`). */
  datatype Reply = Reply(status: int, message: Option<string>)

  function Name(err: ErrorValue): Option<string> {
    if err.ObjectError? then err.name else None
  }

  function Message(err: ErrorValue): Option<string> {
    if err.ObjectError? then err.message else None
  }

  function Handle(err: ErrorValue): (r: Reply)
    ensures r.status == 400    // every branch, including the one meant for 500
    ensures err.StringError? ==> r.message == Some(err.text)
    ensures !err.StringError? && Name(err) == Some(VALIDATION_ERROR) ==> r.message == Message(err)
    ensures !err.StringError? && Name(err) == Some(UNAUTHORIZED_AS_SPELLED) ==> r.message == Some(INVALID_TOKEN)
    // the default branch: the message passes through, except `Unexpected field`
    ensures (!err.StringError? && Name(err) != Some(VALIDATION_ERROR) && Name(err) != Some(UNAUTHORIZED_AS_SPELLED) ==>
      r.message == if Message(err) == Some(UNEXPECTED_FIELD) then Some(EXCEED_MESSAGE) else Message(err))
  {
    if err.StringError? then Reply(400, Some(err.text))
    else if Name(err) == Some(VALIDATION_ERROR) then Reply(400, Message(err))
    else if Name(err) == Some(UNAUTHORIZED_AS_SPELLED) then Reply(400, Some(INVALID_TOKEN))
    else Reply(400, if Message(err) == Some(UNEXPECTED_FIELD) then Some(EXCEED_MESSAGE) else Message(err))
  }

  /** The reply's message is the string itself, the error's own message,
      the token message or the file-count message; nothing else. */
  lemma MessageOrigin(err: ErrorValue)
    ensures var m := Handle(err).message;
      || (err.StringError? && m == Some(err.text))
      || m == Message(err)
      || m == Some(INVALID_TOKEN)
      || m == Some(EXCEED_MESSAGE)
  {
  }

  /** The file-count message replaces `Unexpected field` only in the default
      branch: a validation error keeps that message. */
  lemma UnexpectedFieldOnlyByDefault(name: Option<string>)
    ensures name != Some(VALIDATION_ERROR) && name != Some(UNAUTHORIZED_AS_SPELLED) ==>
      Handle(ObjectError(name, Some(UNEXPECTED_FIELD))).message == Some(EXCEED_MESSAGE)
    ensures Handle(ObjectError(Some(VALIDATION_ERROR), Some(UNEXPECTED_FIELD))).message == Some(UNEXPECTED_FIELD)
  {
  }

  /** Only the misspelled name yields the token message; the correctly spelled
      `UnauthorizedError` falls through to the default branch. */
  lemma TokenMessageNeedsMisspelling(message: Option<string>)
    ensures Handle(ObjectError(Some(UNAUTHORIZED_AS_SPELLED), message)) == Reply(400, Some(INVALID_TOKEN))
    ensures Handle(ObjectError(Some("UnauthorizedError"), message))
         == Reply(400, if message == Some(UNEXPECTED_FIELD) then Some(EXCEED_MESSAGE) else message)
  {
  }

  /** A string is reported verbatim even when it spells a handled error name
      or `Unexpected field`. */
  lemma StringCheckedFirst(s: string)
    ensures Handle(StringError(s)) == Reply(400, Some(s))
  {
  }

  /** `false` has no `name` and no `message`: the reply would be 400 with `{}`. */
  lemma FalseHasNoMessage()
    ensures Handle(FalseError) == Reply(400, None)
  {
  }
}
