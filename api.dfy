/** What the client sees of its REST API: the records it receives, the errors a
    request can reject with, and how the pages turn such an error into a
    message. The HTTP client itself is not modelled; every request's result is
    an input to the operation that awaits it. */
module Api {
  import opened Js

  type Id = int

  datatype Service = Service(id: Id, name: string)

  datatype Status = Pending | Confirmed | Cancelled

  /** The JSON body of an error response, as far as the pages read it. */
  datatype ErrorBody = ErrorBody(
    detail: Option<string>,
    nonFieldErrors: Option<seq<string>>,
    username: Option<seq<string>>,
    email: Option<seq<string>>,
    password: Option<seq<string>>)

  /** What a rejected request (or a failing `await`) throws: an axios error with
      its message, the HTTP status if a response arrived and the response body
      if it had one; another `Error` with its message; or any other value. */
  datatype ApiError =
    | AxiosError(message: string, status: Option<int>, body: Option<ErrorBody>)
    | PlainError(message: string)
    | OtherThrown

  /** `list?.[0]` used as an operand of `||`: `undefined` (no list, or an empty
      one) is as falsy as the empty string. */
  function FirstOf(list: Option<seq<string>>): string
  {
    if list.Some? && |list.value| > 0 then list.value[0] else ""
  }

  function Detail(body: Option<ErrorBody>): string
  {
    if body.Some? && body.value.detail.Some? then body.value.detail.value else ""
  }

  function NonFieldError(body: Option<ErrorBody>): string
  {
    if body.Some? then FirstOf(body.value.nonFieldErrors) else ""
  }

  predicate AllEmpty(strings: seq<string>)
  {
    forall j :: 0 <= j < |strings| ==> strings[j] == ""
  }

  /** A reference for a chain `c0 || c1 || ... || fallback` of strings: the first
      non-empty candidate, or the fallback when every candidate is empty. */
  function FirstTruthy(candidates: seq<string>, fallback: string): (r: string)
    ensures forall i :: (0 <= i < |candidates| && candidates[i] != "" && AllEmpty(candidates[..i])) ==> r == candidates[i]
    ensures AllEmpty(candidates) ==> r == fallback
    ensures r in candidates || r == fallback
  {
    if candidates == [] then fallback
    else if candidates[0] != "" then candidates[0]
    else
      var r := FirstTruthy(candidates[1..], fallback);
      forall i | 0 < i < |candidates| && candidates[i] != "" && AllEmpty(candidates[..i])
        ensures r == candidates[i]
      {
        assert candidates[1..][..i - 1] == candidates[1..i];
        assert candidates[1..][i - 1] == candidates[i];
      }
      r
  }

  /** Unfolding the chain by one operand: `c || rest` where `rest` is the
      remaining chain. */
  lemma {:induction false} FirstTruthyCons(c: string, rest: seq<string>, fallback: string)
    ensures FirstTruthy([c] + rest, fallback) == Or(c, FirstTruthy(rest, fallback))
  {
    assert ([c] + rest)[0] == c;
    assert ([c] + rest)[1..] == rest;
  }

  /** The error message rule of the login and admin pages: for an axios error
      `detail || non_field_errors[0] || message || fallback`, for another `Error`
      its message, otherwise the fallback. */
  function DetailFirstMessage(err: ApiError, fallback: string): string
  {
    match err
    case AxiosError(message, _, body) =>
      Or(Detail(body), Or(NonFieldError(body), Or(message, fallback)))
    case PlainError(message) => message
    case OtherThrown => fallback
  }

  /** The chain is the first non-empty of detail, the first non-field error and
      the transport message, else the fallback; so an axios error never yields
      an empty message when the fallback is not empty. */
  lemma {:induction false} DetailFirstPrecedence(err: ApiError, fallback: string)
    ensures err.AxiosError? ==>
      DetailFirstMessage(err, fallback)
        == FirstTruthy([Detail(err.body), NonFieldError(err.body), err.message], fallback)
    ensures err.AxiosError? && fallback != "" ==> DetailFirstMessage(err, fallback) != ""
    ensures err.PlainError? ==> DetailFirstMessage(err, fallback) == err.message
    ensures err.OtherThrown? ==> DetailFirstMessage(err, fallback) == fallback
  {
    if err.AxiosError? {
      var c := [Detail(err.body), NonFieldError(err.body), err.message];
      assert c[1..] == [c[1], c[2]];
      assert c[1..][1..] == [c[2]];
      assert [c[2]][1..] == [];
    }
  }
}
