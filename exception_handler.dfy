/**
 * The mapping from a thrown exception to an HTTP status and error body
 * (infrastructure/web/exception/GlobalExceptionHandler.java).
 */
module ExceptionHandling {
  import opened Wrappers
  import opened JavaValues
  import opened Failures

  type Timestamp = int

  const BAD_REQUEST := 400
  const NOT_FOUND := 404
  const INTERNAL_SERVER_ERROR := 500

  const VALIDATION_FAILED := "Validation failed"
  const UNEXPECTED_ERROR := "An unexpected error occurred"

  /** `request.getDescription(false)`: the request URI behind "uri=". */
  function Description(path: string): (d: string)
    ensures |d| == |path| + 4 && d[..4] == "uri=" && d[4..] == path
  {
    "uri=" + path
  }

  /** `ErrorResponse` and `ValidationErrorResponse`. */
  datatype ErrorBody =
    | ErrorResponse(status: int, message: string, path: string, timestamp: Timestamp)
    | ValidationErrorResponse(status: int, message: string, path: string, timestamp: Timestamp,
                              errors: map<string, string>)

  /** A `ResponseEntity` carrying an error body. */
  datatype ErrorReply = ErrorReply(status: int, body: ErrorBody)

  /** The status each exception kind is answered with. */
  function StatusFor(f: Failure): (s: int)
    ensures s == NOT_FOUND <==> f.NotFound?
    ensures s == BAD_REQUEST <==> f.Validation? || f.ArgumentNotValid?
    ensures s == INTERNAL_SERVER_ERROR <==> f.Operation? || f.Unexpected?
  {
    match f
    case NotFound(_) => NOT_FOUND
    case Validation(_) => BAD_REQUEST
    case Operation(_, _) => INTERNAL_SERVER_ERROR
    case ArgumentNotValid(_) => BAD_REQUEST
    case Unexpected(_) => INTERNAL_SERVER_ERROR
  }

  // ----- the binding-error map -----

  /**
   * The map the `forEach`/`put` loop builds, element by element: each error is cast to a
   * field error (a global error fails the cast) and its message put under its field.
   */
  function PutAll(errors: seq<ObjectError>): Result<map<string, string>, JavaException> {
    if errors == [] then Ok(map[])
    else
      var m :- PutAll(errors[..|errors| - 1]);
      match errors[|errors| - 1]
      case FieldError(field, message) => Ok(m[field := message])
      case GlobalError(_) => Err(ClassCastException)
  }

  /** The handler fails, with a cast failure, exactly when some binding error is not tied to a field. */
  lemma {:induction false} PutAllFailsIffGlobal(errors: seq<ObjectError>)
    ensures PutAll(errors).Err? <==> exists i :: 0 <= i < |errors| && errors[i].GlobalError?
    ensures PutAll(errors).Err? ==> PutAll(errors).error == ClassCastException
  {
    if errors != [] {
      var prefix := errors[..|errors| - 1];
      PutAllFailsIffGlobal(prefix);
      if exists i :: 0 <= i < |prefix| && prefix[i].GlobalError? {
        var i :| 0 <= i < |prefix| && prefix[i].GlobalError?;
        assert errors[i] == prefix[i];
      }
      if exists i :: 0 <= i < |errors| && errors[i].GlobalError? {
        var i :| 0 <= i < |errors| && errors[i].GlobalError?;
        if i < |prefix| {
          assert prefix[i] == errors[i];
        }
      }
    }
  }

  /** `i` is the last position holding a field error for `field`. */
  predicate LastFor(errors: seq<ObjectError>, field: string, i: int) {
    0 <= i < |errors| && errors[i].FieldError? && errors[i].field == field
    && forall j :: i < j < |errors| ==> !(errors[j].FieldError? && errors[j].field == field)
  }

  /**
   * When no error is global, the map holds exactly the reported fields, and each field's
   * message is that of its last error: a later error for the same field wins.
   */
  lemma {:induction false} PutAllLastWins(errors: seq<ObjectError>)
    requires PutAll(errors).Ok?
    ensures forall f :: f in PutAll(errors).value <==>
      exists i :: 0 <= i < |errors| && errors[i].FieldError? && errors[i].field == f
    ensures forall f, i :: LastFor(errors, f, i) ==> PutAll(errors).value[f] == errors[i].defaultMessage
  {
    if errors != [] {
      var prefix := errors[..|errors| - 1];
      var last := errors[|errors| - 1];
      PutAllLastWins(prefix);
      var m := PutAll(prefix).value;
      assert PutAll(errors).value == m[last.field := last.defaultMessage];
      forall f ensures f in PutAll(errors).value <==>
        exists i :: 0 <= i < |errors| && errors[i].FieldError? && errors[i].field == f
      {
        if f in m {
          var i :| 0 <= i < |prefix| && prefix[i].FieldError? && prefix[i].field == f;
          assert errors[i] == prefix[i];
        }
        if exists i :: 0 <= i < |errors| && errors[i].FieldError? && errors[i].field == f {
          var i :| 0 <= i < |errors| && errors[i].FieldError? && errors[i].field == f;
          if i < |prefix| {
            assert prefix[i] == errors[i];
          }
        }
      }
      forall f, i | LastFor(errors, f, i) ensures PutAll(errors).value[f] == errors[i].defaultMessage {
        if i < |prefix| {
          assert LastFor(prefix, f, i);
        }
      }
    }
  }

  // ----- the handlers -----

  /** `handleMethodArgumentNotValidException`: the `forEach`/`put` loop, then the 400 body. */
  method HandleArgumentNotValid(errors: seq<ObjectError>, path: string, now: Timestamp)
    returns (r: Result<ErrorReply, JavaException>)
    ensures r.Err? <==> PutAll(errors).Err?
    ensures r.Err? ==> r.error == ClassCastException
    ensures r.Ok? ==> r.value == ErrorReply(BAD_REQUEST,
      ValidationErrorResponse(BAD_REQUEST, VALIDATION_FAILED, Description(path), now, PutAll(errors).value))
  {
    var collected: map<string, string> := map[];
    var i := 0;
    while i < |errors|
      invariant 0 <= i <= |errors|
      invariant PutAll(errors[..i]) == Ok(collected)
    {
      assert errors[..i + 1][..i] == errors[..i];
      match errors[i]
      case GlobalError(_) =>
        PutAllFailsIffGlobal(errors);
        return Err(ClassCastException);
      case FieldError(field, message) =>
        collected := collected[field := message];
      i := i + 1;
    }
    assert errors[..i] == errors;
    return Ok(ErrorReply(BAD_REQUEST,
      ValidationErrorResponse(BAD_REQUEST, VALIDATION_FAILED, Description(path), now, collected)));
  }

  /**
   * The handler chosen for the exception's kind.  Only the binding-error handler can
   * itself fail, when a binding error is not a field error.
   */
  method Handle(f: Failure, path: string, now: Timestamp) returns (r: Result<ErrorReply, JavaException>)
    ensures r.Ok? ==> r.value.status == StatusFor(f) && r.value.body.status == StatusFor(f)
    ensures r.Ok? ==> r.value.body.path == Description(path) && r.value.body.timestamp == now
    ensures r.Err? <==> f.ArgumentNotValid? && exists i :: 0 <= i < |f.bindingErrors| && f.bindingErrors[i].GlobalError?
    ensures f.NotFound? ==> r.Ok? && r.value.body == ErrorResponse(NOT_FOUND, f.message, Description(path), now)
    ensures f.Validation? ==> (r.Ok? && r.value.body ==
      ValidationErrorResponse(BAD_REQUEST, f.exception.message, Description(path), now, f.exception.errors))
    ensures f.Operation? ==> r.Ok? && r.value.body == ErrorResponse(INTERNAL_SERVER_ERROR, f.message, Description(path), now)
    ensures f.ArgumentNotValid? && r.Ok? ==> (PutAll(f.bindingErrors).Ok? && r.value.body.ValidationErrorResponse? &&
      r.value.body.message == VALIDATION_FAILED && r.value.body.errors == PutAll(f.bindingErrors).value)
    ensures f.Unexpected? ==> r.Ok? && r.value.body == ErrorResponse(INTERNAL_SERVER_ERROR, UNEXPECTED_ERROR, Description(path), now)
  {
    match f
    case NotFound(message) =>
      r := Ok(ErrorReply(NOT_FOUND, ErrorResponse(NOT_FOUND, message, Description(path), now)));
    case Validation(ex) =>
      r := Ok(ErrorReply(BAD_REQUEST,
        ValidationErrorResponse(BAD_REQUEST, ex.message, Description(path), now, ex.errors)));
    case Operation(_, message) =>
      r := Ok(ErrorReply(INTERNAL_SERVER_ERROR, ErrorResponse(INTERNAL_SERVER_ERROR, message, Description(path), now)));
    case ArgumentNotValid(errors) =>
      PutAllFailsIffGlobal(errors);
      r := HandleArgumentNotValid(errors, path, now);
    case Unexpected(_) =>
      r := Ok(ErrorReply(INTERNAL_SERVER_ERROR,
        ErrorResponse(INTERNAL_SERVER_ERROR, UNEXPECTED_ERROR, Description(path), now)));
  }
}
