/** The error values the library hands back to its callers. Go returns them through the `error`
    interface; here they form one closed datatype. */
module Errors {
  import opened Wrappers
  import Strings

  /** common.ResponseError: the `{"error": {"message": ..., "type": ...}}` object the service
      puts in a failing response body. */
  datatype ResponseError = ResponseError(message: string, errType: string)

  /** ResponseError.Error(): "%s -> %s" of the type and the message. */
  function Render(e: ResponseError): (s: string)
    ensures |s| == |e.errType| + 4 + |e.message|
    ensures s[..|e.errType|] == e.errType && s[|e.errType| + 4..] == e.message
    ensures s[|e.errType|..|e.errType| + 4] == " -> "
  {
    e.errType + " -> " + e.message
  }

  /** Reads a rendered ResponseError back: the type ends two characters before the first '>'. */
  function ParseRendered(s: string): Option<ResponseError> {
    var k := Strings.IndexOf(s, '>');
    if 2 <= k && k + 2 <= |s| && s[k - 2..k + 2] == " -> " then
      Some(ResponseError(s[k + 2..], s[..k - 2]))
    else
      None
  }

  /** The rendering loses nothing: an error type without '>' (the service's types are
      identifiers such as "invalid_request_error") is recovered together with the message,
      whatever the message contains. */
  lemma {:induction false} RenderParses(e: ResponseError)
    requires '>' !in e.errType
    ensures ParseRendered(Render(e)) == Some(e)
  {
    var s := Render(e);
    Strings.IndexOfConcat(e.errType + " -", '>', " " + e.message);
    assert s == (e.errType + " -") + ['>'] + (" " + e.message);
  }

  const ModerationFlagText := "one or more request inputs were flagged by the moderations endpoint"
  const FileExistsText := "file already exists"

  datatype Error =
    | Api(cause: ResponseError)   // a *common.ResponseError decoded from a response body
    | Plain(text: string)         // errors.New / fmt.Errorf inside the library
    | ModerationFlag              // a *moderations.ModerationFlagError
    | FileExists                  // os.ErrExist
    | External(text: string)      // an error reported by net/http, encoding/json, io or os

  /** The Error() text of each kind of error. */
  function Text(e: Error): (s: string)
    ensures e.ModerationFlag? ==> s == ModerationFlagText
    ensures e.Api? && '>' !in e.cause.errType ==> ParseRendered(s) == Some(e.cause)
    ensures (e.Plain? || e.External?) ==> s == e.text
  {
    match e
    case Api(cause) =>
      assert '>' !in cause.errType ==> ParseRendered(Render(cause)) == Some(cause) by {
        if '>' !in cause.errType { RenderParses(cause); }
      }
      Render(cause)
    case Plain(text) => text
    case ModerationFlag => ModerationFlagText
    case FileExists => FileExistsText
    case External(text) => text
  }
}
