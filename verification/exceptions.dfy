/** The exceptions the modelled code raises or lets escape.  The project's
    own exception classes live in notflixbot/errors.py, which is not part of
    this model: only their names and messages are used here. */
module Exceptions {

  datatype Exc =
    | ConfigError(msg: string)
    | ImdbError(msg: string)
    | TvdbError(msg: string)
    | NotImplementedError(msg: string)
    | NotflixbotError(cause: Exc)
    | ValueError(msg: string)
    | KeyError
    | TypeError
    | IndexError
    | AttributeError
    | JsonDecodeError
    | RequestError

  /** The three lookup errors `add_from_imdb_url` and `_handle_add` catch. */
  predicate IsLookupError(e: Exc) {
    e.ImdbError? || e.TvdbError? || e.NotImplementedError?
  }

  /** Python's `str(e)` for the exceptions that carry a message. */
  function Message(e: Exc): string
    requires IsLookupError(e)
  {
    e.msg
  }
}
