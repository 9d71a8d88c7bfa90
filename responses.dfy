/**
 * The choice WaniKani#get_api (wk_status.15m.rb) makes on a response that is
 * not a success: which message line follows the red banner. The request
 * itself, TLS and JSON decoding are not part of this model.
 */
module Responses {
  import opened Wrappers

  /** How Net::HTTP classifies a status code, as far as get_api distinguishes it. */
  datatype ResponseKind = Ok | Unauthorized | ServerError | OtherFailure

  const Banner: string := "!WK! | color=red"
  const Separator: string := "---"
  const TokenAdvice: string := "please check your API token"
  const TokenHint: string := ", " + TokenAdvice + " | color=red"
  const RetryHint: string := ", please try again later? | color=red"

  /** 2xx is success, 401 unauthorized, 5xx a server error; everything else is another failure. */
  function KindOf(code: int): ResponseKind
  {
    if 200 <= code <= 299 then Ok
    else if code == 401 then Unauthorized
    else if 500 <= code <= 599 then ServerError
    else OtherFailure
  }

  /** The lines printed before exit(0) for a failed response, or None when the response succeeded. */
  function FailureLines(code: int, message: string): (r: Option<seq<string>>)
    ensures r.None? <==> 200 <= code <= 299
    ensures r.Some? ==> |r.value| == 3 && r.value[0] == Banner && r.value[1] == Separator
  {
    match KindOf(code)
    case Ok => None
    case Unauthorized => Some([Banner, Separator, message + TokenHint])
    case ServerError => Some([Banner, Separator, message + RetryHint])
    case OtherFailure => Some([Banner, Separator, message])
  }

  /** `part` occurs in `s` starting at position i. */
  predicate OccursAt(s: string, part: string, i: int)
  {
    0 <= i <= |s| - |part| && s[i..i + |part|] == part
  }

  predicate Contains(s: string, part: string)
  {
    exists i :: 0 <= i <= |s| && OccursAt(s, part, i)
  }

  /** An unauthorized response tells the user to check the API token. */
  lemma UnauthorizedMentionsToken(code: int, message: string)
    requires code == 401
    ensures FailureLines(code, message).Some?
    ensures Contains(FailureLines(code, message).value[2], TokenAdvice)
  {
    var line := message + TokenHint;
    var part := TokenAdvice;
    assert line == message + ", " + part + " | color=red";
    assert line[|message| + 2..|message| + 2 + |part|] == part;
    assert OccursAt(line, part, |message| + 2);
  }

  /** A server error suggests trying later, and keeps the server's status message first. */
  lemma ServerErrorSuggestsRetry(code: int, message: string)
    requires 500 <= code <= 599
    ensures FailureLines(code, message).Some?
    ensures FailureLines(code, message).value[2] == message + RetryHint
    ensures FailureLines(code, message).value[2][..|message|] == message
  {
  }
}
