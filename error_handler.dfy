// The REST error handler of internal/api/rest/error_handler.go: the
// mapping from errors and HTTP statuses to application error codes, the
// messages for those codes, the environment switch for stack traces, and
// the text of a list of validation errors.
module ErrorHandling {
  import opened Wrappers
  import opened StrUtil

  const ErrorBadRequest := "BAD_REQUEST"
  const ErrorUnauthorized := "UNAUTHORIZED"
  const ErrorForbidden := "FORBIDDEN"
  const ErrorNotFound := "NOT_FOUND"
  const ErrorMethodNotAllowed := "METHOD_NOT_ALLOWED"
  const ErrorConflict := "CONFLICT"
  const ErrorTooManyRequests := "TOO_MANY_REQUESTS"
  const ErrorInternalServer := "INTERNAL_SERVER_ERROR"
  const ErrorServiceUnavailable := "SERVICE_UNAVAILABLE"
  const ErrorValidation := "VALIDATION_ERROR"
  const ErrorResourceExists := "RESOURCE_EXISTS"
  const ErrorResourceNotFound := "RESOURCE_NOT_FOUND"
  const ErrorInvalidToken := "INVALID_TOKEN"
  const ErrorExpiredToken := "EXPIRED_TOKEN"
  const ErrorInsufficientScope := "INSUFFICIENT_SCOPE"
  const ErrorDatabaseError := "DATABASE_ERROR"
  const ErrorExternalService := "EXTERNAL_SERVICE_ERROR"
  const ErrorRateLimit := "RATE_LIMIT_EXCEEDED"
  const ErrorMalformedData := "MALFORMED_DATA"
  const ErrorInvalidParameters := "INVALID_PARAMETERS"

  const Development := "development"
  const Staging := "staging"
  const Production := "production"

  /** Whether a lower-cased environment name gets stack traces. */
  predicate TracesIn(environment: string)
  {
    environment == Development || environment == Staging
  }

  /** The environment name is compared without regard to letter case. */
  lemma TracesInFold(env: string)
    ensures TracesIn(Lower(env)) <==> EqualFold(env, Development) || EqualFold(env, Staging)
  {
    assert NoUpper(Development) && NoUpper(Staging);
    EqualFoldLower(env, Development);
    EqualFoldLower(env, Staging);
  }

  /** The twenty application error codes. */
  const AllCodes: set<string> := {
    ErrorBadRequest, ErrorUnauthorized, ErrorForbidden, ErrorNotFound, ErrorMethodNotAllowed,
    ErrorConflict, ErrorTooManyRequests, ErrorInternalServer, ErrorServiceUnavailable, ErrorValidation,
    ErrorResourceExists, ErrorResourceNotFound, ErrorInvalidToken, ErrorExpiredToken, ErrorInsufficientScope,
    ErrorDatabaseError, ErrorExternalService, ErrorRateLimit, ErrorMalformedData, ErrorInvalidParameters }

  /** The codes a 4xx status can map to. */
  const ClientCodes: set<string> := {
    ErrorBadRequest, ErrorUnauthorized, ErrorForbidden, ErrorNotFound, ErrorMethodNotAllowed,
    ErrorConflict, ErrorTooManyRequests }

  /** The default message of each code. */
  const MsgBadRequest := "The request contains invalid parameters or payload"
  const MsgUnauthorized := "Authentication is required to access this resource"
  const MsgForbidden := "You don't have permission to access this resource"
  const MsgNotFound := "The requested resource was not found"
  const MsgMethodNotAllowed := "The HTTP method is not supported for this resource"
  const MsgConflict := "The request conflicts with the current state of the resource"
  const MsgTooManyRequests := "Rate limit exceeded, please try again later"
  const MsgInternalServer := "An unexpected error occurred while processing your request"
  const MsgServiceUnavailable := "The service is temporarily unavailable, please try again later"
  const MsgValidation := "The request contains validation errors"
  const MsgResourceExists := "The resource already exists"
  const MsgResourceNotFound := "The requested resource was not found"
  const MsgInvalidToken := "The provided authentication token is invalid"
  const MsgExpiredToken := "The authentication token has expired"
  const MsgInsufficientScope := "The token does not have the required permissions"
  const MsgDatabaseError := "A database error occurred while processing your request"
  const MsgExternalService := "An error occurred with an external service"
  const MsgRateLimit := "Rate limit exceeded, please try again later"
  const MsgMalformedData := "The request contains malformed data"
  const MsgInvalidParameters := "One or more request parameters are invalid"

  function DefaultMessages(): map<string, string>
  {
    map[
      ErrorBadRequest := MsgBadRequest,
      ErrorUnauthorized := MsgUnauthorized,
      ErrorForbidden := MsgForbidden,
      ErrorNotFound := MsgNotFound,
      ErrorMethodNotAllowed := MsgMethodNotAllowed,
      ErrorConflict := MsgConflict,
      ErrorTooManyRequests := MsgTooManyRequests,
      ErrorInternalServer := MsgInternalServer,
      ErrorServiceUnavailable := MsgServiceUnavailable,
      ErrorValidation := MsgValidation,
      ErrorResourceExists := MsgResourceExists,
      ErrorResourceNotFound := MsgResourceNotFound,
      ErrorInvalidToken := MsgInvalidToken,
      ErrorExpiredToken := MsgExpiredToken,
      ErrorInsufficientScope := MsgInsufficientScope,
      ErrorDatabaseError := MsgDatabaseError,
      ErrorExternalService := MsgExternalService,
      ErrorRateLimit := MsgRateLimit,
      ErrorMalformedData := MsgMalformedData,
      ErrorInvalidParameters := MsgInvalidParameters
    ]
  }

  /** The default table names exactly the twenty codes. */
  lemma DefaultsCoverAllCodes()
    ensures DefaultMessages().Keys == AllCodes
  {
  }

  datatype ValidationError = ValidationError(field: string, message: string, code: string, value: string)

  /** NewValidationError: a nil value is the empty string; other values arrive already formatted. */
  function NewValidationError(field: string, message: string, code: string, value: Option<string>): (v: ValidationError)
    ensures v.field == field && v.message == message && v.code == code
    ensures v.value == (if value.Some? then value.value else "")
  {
    ValidationError(field, message, code, if value.Some? then value.value else "")
  }

  function Entry(e: ValidationError): string
  {
    e.field + ": " + e.message
  }

  function Entries(errs: seq<ValidationError>): (r: seq<string>)
    ensures |r| == |errs|
    ensures forall i :: 0 <= i < |errs| ==> r[i] == Entry(errs[i])
  {
    if errs == [] then [] else [Entry(errs[0])] + Entries(errs[1..])
  }

  /** ValidationErrors.Error. */
  function ValidationMessage(errs: seq<ValidationError>): string
  {
    if errs == [] then "validation failed" else "validation errors: " + Join(Entries(errs), "; ")
  }

  lemma {:induction false} JoinSnoc(parts: seq<string>, p: string, sep: string)
    requires parts != []
    ensures Join(parts + [p], sep) == Join(parts, sep) + sep + p
    decreases |parts|
  {
    if |parts| == 1 {
      assert (parts + [p])[1..] == [p];
    } else {
      assert (parts + [p])[1..] == parts[1..] + [p];
      JoinSnoc(parts[1..], p, sep);
    }
  }

  /** A list of one error reads "validation errors: field: message", and each
    * further error adds "; field: message" at the end. */
  lemma ValidationMessageGrows(errs: seq<ValidationError>, e: ValidationError)
    ensures ValidationMessage([e]) == "validation errors: " + e.field + ": " + e.message
    ensures errs != [] ==> ValidationMessage(errs + [e]) == ValidationMessage(errs) + "; " + Entry(e)
  {
    if errs != [] {
      assert Entries(errs + [e]) == Entries(errs) + [Entry(e)];
      JoinSnoc(Entries(errs), Entry(e), "; ");
    }
  }

  /** An error value: its text, the identities `errors.Is` finds in its
    * chain, and the list it carries when it is a ValidationErrors. */
  datatype Failure = Failure(text: string, chain: set<string>, validation: Option<seq<ValidationError>>)

  function NewValidationFailure(errs: seq<ValidationError>): (f: Failure)
    ensures f.text == ValidationMessage(errs) && f.validation == Some(errs)
  {
    Failure(ValidationMessage(errs), {}, Some(errs))
  }

  /** The status half of getErrorCode. */
  function StatusCode(status: int): (r: string)
    ensures r in AllCodes
    ensures 400 <= status < 500 <==> r in ClientCodes
    ensures r == ErrorServiceUnavailable <==> status == 503
    ensures r == ErrorBadRequest <==> 400 <= status < 500 && status !in {401, 403, 404, 405, 409, 429}
    ensures r == ErrorInternalServer <==> !(400 <= status < 500) && status != 503
  {
    match status
    case 400 => ErrorBadRequest
    case 401 => ErrorUnauthorized
    case 403 => ErrorForbidden
    case 404 => ErrorNotFound
    case 405 => ErrorMethodNotAllowed
    case 409 => ErrorConflict
    case 429 => ErrorTooManyRequests
    case 500 => ErrorInternalServer
    case 503 => ErrorServiceUnavailable
    case _ => if 400 <= status < 500 then ErrorBadRequest else ErrorInternalServer
  }

  datatype ErrorResponse = ErrorResponse(status: int, code: string, message: string, requestID: string,
                                         timestamp: string, path: string, validation: seq<ValidationError>,
                                         traceID: string)

  class StandardErrorHandler {
    var environment: string
    var includeStackTrace: bool
    var sensitiveFields: seq<string>
    var errorMessages: map<string, string>
    var errorMapping: map<string, string>

    /** NewStandardErrorHandler: development mode, the default redaction list and the default messages. */
    constructor()
      ensures environment == Development && includeStackTrace
      ensures sensitiveFields == ["password", "token", "secret", "key", "auth"]
      ensures errorMessages == DefaultMessages() && errorMapping == map[]
    {
      environment := Development;
      includeStackTrace := true;
      sensitiveFields := ["password", "token", "secret", "key", "auth"];
      errorMessages := map[];
      errorMapping := map[];
      new;
      SetDefaultErrorMessages();
    }

    /** SetEnvironment: stack traces only for development or staging, in any letter case. */
    method SetEnvironment(env: string)
      modifies this
      ensures environment == Lower(env)
      ensures includeStackTrace == TracesIn(environment)
      ensures sensitiveFields == old(sensitiveFields) && errorMessages == old(errorMessages) && errorMapping == old(errorMapping)
    {
      environment := Lower(env);
      includeStackTrace := TracesIn(environment);
    }

    method SetSensitiveFields(fields: seq<string>)
      modifies this
      ensures sensitiveFields == fields
      ensures environment == old(environment) && includeStackTrace == old(includeStackTrace)
      ensures errorMessages == old(errorMessages) && errorMapping == old(errorMapping)
    {
      sensitiveFields := fields;
    }

    method SetErrorMessage(code: string, message: string)
      modifies this
      ensures errorMessages == old(errorMessages)[code := message]
      ensures environment == old(environment) && includeStackTrace == old(includeStackTrace)
      ensures sensitiveFields == old(sensitiveFields) && errorMapping == old(errorMapping)
    {
      errorMessages := errorMessages[code := message];
    }

    method MapError(err: string, code: string)
      modifies this
      ensures errorMapping == old(errorMapping)[err := code]
      ensures environment == old(environment) && includeStackTrace == old(includeStackTrace)
      ensures sensitiveFields == old(sensitiveFields) && errorMessages == old(errorMessages)
    {
      errorMapping := errorMapping[err := code];
    }

    /** SetDefaultErrorMessages: the defaults overwrite their codes, custom messages for other codes stay. */
    method SetDefaultErrorMessages()
      modifies this
      ensures errorMessages == old(errorMessages) + DefaultMessages()
      ensures environment == old(environment) && includeStackTrace == old(includeStackTrace)
      ensures sensitiveFields == old(sensitiveFields) && errorMapping == old(errorMapping)
    {
      MergeMessages(DefaultMessages());
    }

    method MergeMessages(messages: map<string, string>)
      modifies this
      ensures errorMessages == old(errorMessages) + messages
      ensures environment == old(environment) && includeStackTrace == old(includeStackTrace)
      ensures sensitiveFields == old(sensitiveFields) && errorMapping == old(errorMapping)
    {
      var merged := MergeInto(errorMessages, messages);
      errorMessages := merged;
    }

    /** getErrorCode: a mapped error in the chain wins, whichever the map
      * order reaches first; otherwise the status decides. */
    method GetErrorCode(err: Option<Failure>, status: int) returns (code: string)
      ensures (exists k :: k in errorMapping && err.Some? && k in err.value.chain) ==>
        exists k :: k in errorMapping && err.Some? && k in err.value.chain && code == errorMapping[k]
      ensures !(exists k :: k in errorMapping && err.Some? && k in err.value.chain) ==> code == StatusCode(status)
    {
      var left := errorMapping.Keys;
      while left != {}
        invariant left <= errorMapping.Keys
        invariant forall k :: k in errorMapping.Keys - left ==> !(err.Some? && k in err.value.chain)
        decreases |left|
      {
        var k :| k in left;
        if err.Some? && k in err.value.chain {
          return errorMapping[k];
        }
        left := left - {k};
      }
      code := StatusCode(status);
    }

    /** getErrorMessage: the code's message, else the error's text, else a fixed text. */
    function GetErrorMessage(code: string, err: Option<Failure>): (r: string)
      reads this
      ensures code in errorMessages ==> r == errorMessages[code]
      ensures code !in errorMessages && err.Some? ==> r == err.value.text
      ensures code !in errorMessages && err.None? ==> r == "An unexpected error occurred"
    {
      if code in errorMessages then errorMessages[code]
      else if err.Some? then err.value.text
      else "An unexpected error occurred"
    }

    /** The response HandleError writes; the trace id is left out in production. */
    method HandleError(err: Failure, status: int, requestID: string, timestamp: string, path: string, traceID: string)
      returns (resp: ErrorResponse)
      ensures resp.status == status && resp.requestID == requestID && resp.path == path && resp.timestamp == timestamp
      ensures (exists k :: k in errorMapping && k in err.chain) ==> exists k :: k in errorMapping && k in err.chain && resp.code == errorMapping[k]
      ensures !(exists k :: k in errorMapping && k in err.chain) ==> resp.code == StatusCode(status)
      ensures resp.message == GetErrorMessage(resp.code, Some(err))
      ensures resp.traceID == (if environment != Production then traceID else "")
      ensures resp.validation == (if err.validation.Some? then err.validation.value else [])
    {
      var code := GetErrorCode(Some(err), status);
      resp := ErrorResponse(status, code, GetErrorMessage(code, Some(err)), requestID, timestamp, path,
                            if err.validation.Some? then err.validation.value else [],
                            if environment != Production then traceID else "");
    }
  }

  /** The loop of setDefaultErrorMessages: each entry of `extra` is written into `base`. */
  method MergeInto(base: map<string, string>, extra: map<string, string>) returns (merged: map<string, string>)
    ensures merged == base + extra
  {
    merged := base;
    var left := extra.Keys;
    while left != {}
      invariant left <= extra.Keys
      invariant merged.Keys == base.Keys + (extra.Keys - left)
      invariant forall c :: c in merged ==> merged[c] == if c in extra && c !in left then extra[c] else base[c]
      decreases |left|
    {
      var c :| c in left;
      merged := merged[c := extra[c]];
      left := left - {c};
    }
  }

  /** With the default messages in place, every code has its own message and
    * the error's text is never shown for one of them. */
  lemma DefaultMessagesShadowText(h: StandardErrorHandler, code: string, err: Option<Failure>)
    requires DefaultMessages().Keys <= h.errorMessages.Keys
    requires code in AllCodes
    ensures h.GetErrorMessage(code, err) == h.errorMessages[code]
  {
    DefaultsCoverAllCodes();
  }
}
