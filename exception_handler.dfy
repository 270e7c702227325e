/** `GlobalExceptionHandler`: which HTTP status and body each exception the services throw
    turns into. The services' failures are values of `ApiException`. The text of a
    `ResourceNotFoundException(resource, field, value)` is formatted by the exception class, which
    is not part of this model: it is the parameter `missingMessage`. */
module ExceptionHandler {
  import opened Wrappers

  datatype FieldError = FieldError(field: string, message: string)

  datatype ApiException =
    | ResourceMissing(resource: string, field: string, value: int)
    | ResourceNotFound(message: string)
    | UnauthorizedAccess(message: string)
    | InvalidRequest(message: string)
    | Conflict(message: string)
    | BadCredentials(message: string)
    | ValidationFailed(fieldErrors: seq<FieldError>)
    | Unexpected(message: string)

  /** The status code and the `ApiResponse.error(...)` body. */
  datatype ErrorResponse = ErrorResponse(status: int, message: string, errors: Option<map<string, string>>)

  /** The field → message map of a validation failure: each `put` overwrites. */
  function ErrorMap(errors: seq<FieldError>): map<string, string>
  {
    if errors == [] then map[]
    else ErrorMap(errors[..|errors| - 1])[errors[|errors| - 1].field := errors[|errors| - 1].message]
  }

  /** Every field with an error is a key, and nothing else is. */
  lemma {:induction false} ErrorMapKeys(errors: seq<FieldError>, f: string)
    ensures f in ErrorMap(errors) <==> exists i :: 0 <= i < |errors| && errors[i].field == f
  {
    if errors != [] {
      var init := errors[..|errors| - 1];
      ErrorMapKeys(init, f);
      if f in ErrorMap(init) {
        var i :| 0 <= i < |init| && init[i].field == f;
        assert errors[i].field == f;
      }
      if i :| 0 <= i < |errors| && errors[i].field == f {
        if i < |init| {
          assert init[i].field == f;
        }
      }
    }
  }

  /** A field's message is the one of its last error. */
  lemma {:induction false} ErrorMapLastWins(errors: seq<FieldError>, i: int)
    requires 0 <= i < |errors|
    requires forall j :: i < j < |errors| ==> errors[j].field != errors[i].field
    ensures errors[i].field in ErrorMap(errors) && ErrorMap(errors)[errors[i].field] == errors[i].message
  {
    var init := errors[..|errors| - 1];
    if i < |errors| - 1 {
      assert init[i] == errors[i];
      ErrorMapLastWins(init, i);
    }
  }

  /** The `forEach` of `handleValidationExceptions`. */
  method CollectErrors(errors: seq<FieldError>) returns (m: map<string, string>)
    ensures m == ErrorMap(errors)
  {
    m := map[];
    var i := 0;
    while i < |errors|
      invariant 0 <= i <= |errors|
      invariant m == ErrorMap(errors[..i])
    {
      assert errors[..i + 1][..i] == errors[..i];
      m := m[errors[i].field := errors[i].message];
      i := i + 1;
    }
    assert errors[..i] == errors;
  }

  /** The handler that catches `ex`. */
  function Handle(ex: ApiException, missingMessage: (string, string, int) -> string): (r: ErrorResponse)
    ensures ex.ResourceMissing? ==> r == ErrorResponse(404, missingMessage(ex.resource, ex.field, ex.value), None)
    ensures ex.ResourceNotFound? ==> r == ErrorResponse(404, ex.message, None)
    ensures ex.UnauthorizedAccess? ==> r == ErrorResponse(403, ex.message, None)
    ensures ex.InvalidRequest? ==> r == ErrorResponse(400, ex.message, None)
    ensures ex.Conflict? ==> r == ErrorResponse(409, ex.message, None)
    ensures ex.BadCredentials? ==> r == ErrorResponse(401, "Invalid username or password", None)
    ensures ex.ValidationFailed? ==> r == ErrorResponse(400, "Validation failed", Some(ErrorMap(ex.fieldErrors)))
    ensures ex.Unexpected? ==> r == ErrorResponse(500, "An unexpected error occurred", None)
  {
    match ex
    case ResourceMissing(resource, field, value) => ErrorResponse(404, missingMessage(resource, field, value), None)
    case ResourceNotFound(message) => ErrorResponse(404, message, None)
    case UnauthorizedAccess(message) => ErrorResponse(403, message, None)
    case InvalidRequest(message) => ErrorResponse(400, message, None)
    case Conflict(message) => ErrorResponse(409, message, None)
    case BadCredentials(_) => ErrorResponse(401, "Invalid username or password", None)
    case ValidationFailed(fieldErrors) => ErrorResponse(400, "Validation failed", Some(ErrorMap(fieldErrors)))
    case Unexpected(_) => ErrorResponse(500, "An unexpected error occurred", None)
  }

  /** Only the four exceptions that carry a caller-facing message pass it on; bad credentials,
      validation failures and everything unexpected get a fixed text. Every status is an error
      status. */
  lemma HandledStatuses(ex: ApiException, missingMessage: (string, string, int) -> string)
    ensures 400 <= Handle(ex, missingMessage).status <= 500
    ensures Handle(ex, missingMessage).status == 403 <==> ex.UnauthorizedAccess?
    ensures Handle(ex, missingMessage).status == 401 <==> ex.BadCredentials?
    ensures Handle(ex, missingMessage).errors.Some? <==> ex.ValidationFailed?
  {
  }
}
