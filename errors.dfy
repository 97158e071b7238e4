/**
 * The error taxonomy of the API client and RaiseForError, which turns an
 * HTTP status and the decoded response envelope into at most one error.
 *
 * Go's MudrexError and the seven types that embed it become one record with
 * a kind tag; Go strings (byte sequences) are modelled as `string`.
 */
module Errors {
  import opened Wrappers

  /** Which of the eight Go error types a value has. */
  datatype ErrorKind =
    | Base                  // *MudrexError itself
    | Authentication        // *AuthenticationError
    | RateLimit             // *RateLimitError
    | Validation            // *ValidationError
    | NotFound              // *NotFoundError
    | Conflict              // *ConflictError
    | Server                // *ServerError
    | InsufficientBalance   // *InsufficientBalanceError

  /** An API error: its Go type, the venue's code, a message and the HTTP status. */
  datatype MudrexError = MudrexError(kind: ErrorKind, code: int, message: string, status: int)

  /** The structured `error` object of a response envelope. */
  datatype ErrorObject = ErrorObject(code: int, message: string)

  /** The part of the response envelope that RaiseForError reads. */
  datatype APIResponse = APIResponse(message: string, error: Option<ErrorObject>)

  /** Code given to an error whose body could not be decoded. */
  const UnknownCode: int := -1
  /** The venue's code for an order the balance cannot cover. */
  const InsufficientBalanceCode: int := 1002
  const InsufficientBalanceText: string := "insufficient balance"

  /** `sub` occurs in `s` starting at index `i`. */
  predicate MatchAt(s: string, sub: string, i: int) {
    0 <= i && i + |sub| <= |s| && s[i..i + |sub|] == sub
  }

  /** `sub` occurs somewhere in `s`: the meaning of contains. */
  ghost predicate Occurs(s: string, sub: string) {
    exists i :: MatchAt(s, sub, i)
  }

  /** The search of contains from start index `i` on, one index per step. */
  function ContainsFrom(s: string, sub: string, i: nat): (b: bool)
    ensures b <==> exists j :: i <= j && MatchAt(s, sub, j)
    decreases |s| - |sub| - i
  {
    if i > |s| - |sub| then
      false
    else if s[i..i + |sub|] == sub then
      assert MatchAt(s, sub, i);
      true
    else
      ContainsFrom(s, sub, i + 1)
  }

  /** contains(s, substr): naive substring search. */
  function Contains(s: string, sub: string): (b: bool)
    ensures b <==> Occurs(s, sub)
    ensures |sub| == 0 ==> b
    ensures |sub| > |s| ==> !b
  {
    var b := ContainsFrom(s, sub, 0);
    assert |sub| == 0 ==> MatchAt(s, sub, 0);
    b
  }

  /** contains as the Go code runs it: an index loop with an early return. */
  method ContainsScan(s: string, sub: string) returns (found: bool)
    ensures found <==> Occurs(s, sub)
  {
    var i := 0;
    while i <= |s| - |sub|
      invariant 0 <= i
      invariant forall j :: 0 <= j < i ==> !MatchAt(s, sub, j)
      decreases |s| - |sub| - i
    {
      if s[i..i + |sub|] == sub {
        assert MatchAt(s, sub, i);
        return true;
      }
      i := i + 1;
    }
    return false;
  }

  /** The Code and Message of the base error built from a decoded envelope. */
  function EnvelopeFields(status: int, resp: APIResponse): (int, string)
  {
    match resp.error
    case None => (status, resp.message)
    case Some(e) => (e.code, e.message)
  }

  /** The switch on the status that picks the error type. */
  function KindFor(status: int, code: int, message: string): ErrorKind
  {
    match status
    case 401 => Authentication
    case 429 => RateLimit
    case 400 => Validation
    case 404 => NotFound
    case 409 => Conflict
    case 500 | 502 | 503 | 504 => Server
    case _ =>
      if 400 <= status < 500 then
        if code == InsufficientBalanceCode || Contains(message, InsufficientBalanceText) then
          InsufficientBalance
        else
          Validation
      else
        Server
  }

  /**
   * RaiseForError(status, body). `parsed` is what decoding `body` as the
   * envelope gives: None when json.Unmarshal fails.
   */
  function RaiseForError(status: int, body: string, parsed: Option<APIResponse>): (r: Option<MudrexError>)
    ensures r.None? <==> status < 400
    ensures r.Some? ==> r.value.status == status
    ensures r.Some? ==> (r.value.kind == Base <==> parsed.None?)
  {
    if status < 400 then
      None
    else if parsed.None? then
      Some(MudrexError(Base, UnknownCode, body, status))
    else
      var (code, message) := EnvelopeFields(status, parsed.value);
      Some(MudrexError(KindFor(status, code, message), code, message, status))
  }

  // ---------------------------------------------------------------------
  // Properties of the classification

  lemma NoErrorBelow400(status: int, body: string, parsed: Option<APIResponse>)
    requires status < 400
    ensures RaiseForError(status, body, parsed) == None
  {
  }

  /** An undecodable body gives the plain base error for every failing status, 5xx included. */
  lemma UndecodableIsBaseError(status: int, body: string)
    requires status >= 400
    ensures RaiseForError(status, body, None) == Some(MudrexError(Base, UnknownCode, body, status))
  {
  }

  /** With a decoded envelope, Code and Message default to the status and the envelope message,
      and the envelope's error object replaces both when present. */
  lemma DecodedFields(status: int, body: string, resp: APIResponse)
    requires status >= 400
    ensures var r := RaiseForError(status, body, Some(resp));
      r.Some? && r.value.status == status && r.value.kind != Base &&
      (resp.error.None? ==> r.value.code == status && r.value.message == resp.message) &&
      (resp.error.Some? ==> r.value.code == resp.error.value.code && r.value.message == resp.error.value.message)
  {
  }

  /** The statuses matched by a case of the switch. */
  lemma ExactStatusKinds(status: int, body: string, resp: APIResponse)
    ensures var r := RaiseForError(status, body, Some(resp));
      (status == 401 ==> r.Some? && r.value.kind == Authentication) &&
      (status == 429 ==> r.Some? && r.value.kind == RateLimit) &&
      (status == 400 ==> r.Some? && r.value.kind == Validation) &&
      (status == 404 ==> r.Some? && r.value.kind == NotFound) &&
      (status == 409 ==> r.Some? && r.value.kind == Conflict) &&
      (status in {500, 502, 503, 504} ==> r.Some? && r.value.kind == Server)
  {
  }

  /** Status 400 is a validation error even when the code or message signals insufficient balance. */
  lemma Status400NeverInsufficientBalance(body: string, resp: APIResponse)
    ensures var r := RaiseForError(400, body, Some(resp));
      r.Some? && r.value.kind == Validation && r.value.kind != InsufficientBalance
  {
  }

  /** Any other 4xx status: insufficient balance exactly when the code is 1002 or the
      message contains "insufficient balance", a validation error otherwise. */
  lemma OtherClientErrorKind(status: int, body: string, resp: APIResponse)
    requires 400 < status < 500 && status !in {401, 404, 409, 429}
    ensures var r := RaiseForError(status, body, Some(resp));
      r.Some? &&
      (r.value.kind == InsufficientBalance <==>
        r.value.code == InsufficientBalanceCode || Occurs(r.value.message, InsufficientBalanceText)) &&
      (r.value.kind != InsufficientBalance ==> r.value.kind == Validation)
  {
  }

  /** Every other status from 500 on is a server error. */
  lemma OtherServerErrorKind(status: int, body: string, resp: APIResponse)
    requires status >= 500 && status !in {500, 502, 503, 504}
    ensures var r := RaiseForError(status, body, Some(resp));
      r.Some? && r.value.kind == Server
  {
  }
}
