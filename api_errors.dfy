/**
 * Structured API errors of the Go back end (internal/api/errors.go) and the Go
 * `error` values they wrap.
 */
module ApiErrors {
  import opened Wrappers

  /** `APIError`; `wrapped` is `WrappedError`, None standing for nil. */
  datatype APIError = APIError(message: string, code: string, httpStatus: int, wrapped: Option<GoError>)

  /**
   * A Go `error`: a plain error, a `fmt.Errorf("<prefix>%w", inner)` wrapper, or an
   * `*APIError`.
   */
  datatype GoError = Plain(text: string) | Prefixed(prefix: string, inner: GoError) | Api(err: APIError)

  // ---------------------------------------------------------------------------
  // Formatting
  // ---------------------------------------------------------------------------

  function DigitChar(d: nat): (c: char)
    requires d < 10
    ensures '0' <= c <= '9'
  {
    "0123456789"[d]
  }

  /** `%d` of a natural number: decimal digits, no leading zero. */
  function NatString(n: nat): (s: string)
    ensures |s| > 0
    ensures forall k :: 0 <= k < |s| ==> '0' <= s[k] <= '9'
    ensures s[0] == '0' <==> n == 0
    ensures n < 10 <==> |s| == 1
  {
    if n < 10 then [DigitChar(n)] else NatString(n / 10) + [DigitChar(n % 10)]
  }

  /** Reads decimal digits back. */
  function DigitsValue(s: string): nat
    requires forall k :: 0 <= k < |s| ==> '0' <= s[k] <= '9'
  {
    if s == [] then 0 else 10 * DigitsValue(s[..|s| - 1]) + (s[|s| - 1] as int - '0' as int)
  }

  /** The digits `%d` prints denote the number printed. */
  lemma {:induction false} NatStringValue(n: nat)
    ensures DigitsValue(NatString(n)) == n
  {
    if n >= 10 {
      NatStringValue(n / 10);
      var s := NatString(n);
      assert s[..|s| - 1] == NatString(n / 10);
      DigitCharValue(n % 10);
      assert s[|s| - 1] == DigitChar(n % 10);
    } else {
      DigitCharValue(n);
      assert NatString(n)[..0] == [];
    }
  }

  /** A digit character reads back as its digit. */
  lemma DigitCharValue(d: nat)
    requires d < 10
    ensures DigitChar(d) as int - '0' as int == d
  {
  }

  /** `%d` of a Go `int`. */
  function DecimalString(i: int): string {
    if i < 0 then "-" + NatString(-i) else NatString(i)
  }

  /** Everything `Error()` prints before the optional wrapped segment. */
  function Head(e: APIError): string {
    "API Error: " + e.message + " (Code: " + e.code + ", Status: " + DecimalString(e.httpStatus)
  }

  /** `(*APIError).Error()`; the wrapped error is printed with `%v`, that is, by its own `Error()`. */
  function Error(e: APIError): string
    decreases e
  {
    if e.wrapped.Some? then Head(e) + ", Wrapped: " + ErrorText(e.wrapped.value) + ")"
    else Head(e) + ")"
  }

  /** `err.Error()` of any Go error. */
  function ErrorText(g: GoError): string
    decreases g
  {
    match g
    case Plain(t) => t
    case Prefixed(p, inner) => p + ErrorText(inner)
    case Api(e) => Error(e)
  }

  /**
   * `Error()` always starts with the head and ends with ")"; the `Wrapped:` segment
   * appears exactly when there is a wrapped error, and then it prints that error.
   */
  lemma ErrorShowsWrapped(e: APIError)
    ensures |Error(e)| > |Head(e)| && Error(e)[..|Head(e)|] == Head(e) && Error(e)[|Error(e)| - 1] == ')'
    ensures e.wrapped.None? <==> Error(e) == Head(e) + ")"
    ensures e.wrapped.Some? ==> Error(e)[|Head(e)|..] == ", Wrapped: " + ErrorText(e.wrapped.value) + ")"
  {
    var s := Error(e);
    if e.wrapped.Some? {
      assert s == Head(e) + (", Wrapped: " + ErrorText(e.wrapped.value) + ")");
      assert |s| > |Head(e)| + 1;
    } else {
      assert s == Head(e) + ")";
    }
  }

  // ---------------------------------------------------------------------------
  // Wrapping
  // ---------------------------------------------------------------------------

  /** `e.Wrap(err)`: a copy of `e` with `err` as its wrapped error; `e` itself, a value, is untouched. */
  function Wrap(e: APIError, err: GoError): (r: APIError)
    ensures r.message == e.message && r.code == e.code && r.httpStatus == e.httpStatus
    ensures r.wrapped == Some(err)
  {
    e.(wrapped := Some(err))
  }

  /** `e.Unwrap()`: the wrapped error, None for nil. */
  function Unwrap(e: APIError): (r: Option<GoError>)
    ensures r.Some? <==> e.wrapped.Some?
  {
    e.wrapped
  }

  /** Wrapping and then unwrapping gives back the wrapped error; wrapping again replaces it. */
  lemma UnwrapWrap(e: APIError, err: GoError, other: GoError)
    ensures Unwrap(Wrap(e, err)) == Some(err)
    ensures Wrap(Wrap(e, other), err) == Wrap(e, err)
  {
  }

  /**
   * The message of a wrapped error is the unwrapped error's message with the
   * wrapped error's text inserted before the closing parenthesis.
   */
  lemma ErrorOfWrap(e: APIError, err: GoError)
    ensures var base := Error(e.(wrapped := None));
            Error(Wrap(e, err)) == base[..|base| - 1] + ", Wrapped: " + ErrorText(err) + ")"
  {
    var base := Error(e.(wrapped := None));
    assert Head(e.(wrapped := None)) == Head(e);
    assert base[..|base| - 1] == Head(e);
  }

  // ---------------------------------------------------------------------------
  // The predefined errors
  // ---------------------------------------------------------------------------

  const ErrClientNotFound := APIError("Client not found", "CLIENT_NOT_FOUND", 404, None)
  const ErrInvalidRequest := APIError("Invalid request", "INVALID_REQUEST", 400, None)
  const ErrInvalidJID := APIError("Invalid JID format", "INVALID_JID", 400, None)
  const ErrClientAlreadyExists := APIError("Client with this ID already exists", "CLIENT_ALREADY_EXISTS", 409, None)
  const ErrStreamingUnsupported := APIError("Streaming unsupported", "STREAMING_UNSUPPORTED", 500, None)
  const ErrInternalServerError := APIError("Internal server error", "INTERNAL_SERVER_ERROR", 500, None)
  const ErrMessageNotFound := APIError("Message not found", "MESSAGE_NOT_FOUND", 404, None)

  /** The table of predefined errors, in declaration order. */
  function Predefined(): seq<APIError> {
    [ErrClientNotFound, ErrInvalidRequest, ErrInvalidJID, ErrClientAlreadyExists,
     ErrStreamingUnsupported, ErrInternalServerError, ErrMessageNotFound]
  }

  /**
   * The predefined errors wrap nothing and have pairwise distinct codes; a code
   * ending in NOT_FOUND means 404, INVALID means 400, ALREADY_EXISTS 409, and the
   * streaming and internal errors 500.
   */
  lemma PredefinedTable()
    ensures forall i, j :: 0 <= i < j < |Predefined()| ==> Predefined()[i].code != Predefined()[j].code
    ensures forall i :: 0 <= i < |Predefined()| ==> Predefined()[i].wrapped.None?
    ensures ErrClientNotFound.httpStatus == 404 && ErrMessageNotFound.httpStatus == 404
    ensures ErrInvalidRequest.httpStatus == 400 && ErrInvalidJID.httpStatus == 400
    ensures ErrClientAlreadyExists.httpStatus == 409
    ensures ErrStreamingUnsupported.httpStatus == 500 && ErrInternalServerError.httpStatus == 500
  {
  }
}
