/**
  The request filter: every REST call must carry an `AUTH_CODE` header equal
  to the code stored in the data directory, or it is aborted with 403.
 */
module Security {
  import opened Model
  import Text

  const Forbidden: int := 403
  const NoCodeMessage: string := "No AUTH_CODE provided."
  const WrongCodeMessage: string := "Wrong AUTH_CODE."

  /** What the filter does with a request: let it through, or abort it once with a status and message. */
  datatype Decision = Proceed | Abort(status: int, message: string)

  /**
    The stored code, read once: the file's text, or the empty string when it
    cannot be read.
   */
  function StoredCode(read: Option<string>): (code: string)
    ensures read.Some? ==> code == read.value
    ensures read.None? ==> code == ""
  {
    match read
    case Some(text) => text
    case None => ""
  }

  /**
    `filter`: an absent or blank header is refused as missing, a header that
    differs from the stored code as wrong, and only an exact, non-blank match
    goes through.
   */
  function Filter(header: Option<string>, stored: string): (d: Decision)
    ensures d.Proceed? <==> header.Some? && !Text.IsBlank(header.value) && header.value == stored
    ensures d.Abort? ==> d.status == Forbidden
    ensures d == Abort(Forbidden, NoCodeMessage) <==> header.None? || Text.IsBlank(header.value)
    ensures d == Abort(Forbidden, WrongCodeMessage) <==>
      header.Some? && !Text.IsBlank(header.value) && header.value != stored
  {
    if header.None? || Text.IsBlank(header.value) then Abort(Forbidden, NoCodeMessage)
    else if header.value != stored then Abort(Forbidden, WrongCodeMessage)
    else Proceed
  }

  /** A blank stored code (in particular the fallback of an unreadable file) refuses every request. */
  lemma {:induction false} BlankStoredCodeRejectsAll(header: Option<string>, stored: string)
    requires Text.IsBlank(stored)
    ensures Filter(header, stored).Abort?
  {
  }

  /** If the code file cannot be read, no request is ever let through. */
  lemma {:induction false} UnreadableCodeRejectsAll(header: Option<string>)
    ensures Filter(header, StoredCode(None)) == Abort(Forbidden, NoCodeMessage) ||
            Filter(header, StoredCode(None)) == Abort(Forbidden, WrongCodeMessage)
  {
    BlankStoredCodeRejectsAll(header, "");
  }
}
