/** Every error the client itself composes: its class, its code and its message. */
module Complaints {
  import opened Protocol

  /** Why a Work context is refused. */
  datatype ContextFault =
    | LinkNotReady | StaleRevision | NoContract | WrongMode | NoDeadline
    | DeadlineExpired | NoIdempotencyKey | BadRequestDigest | BadSubject

  datatype Complaint =
    // Work that is turned away.
    | NotReadyForWork
    | DispatchFull
    | DispatchOverBudget
    | BadContext(fault: ContextFault)
    | UnaryBadInput
    | OperationBadInput
    | CancelledEarly
    // Handler results that are replaced.
    | UnaryThrew(standard: bool)
    | UnaryBadSuccess
    | UnaryBadFailure
    | UnaryOutputTooLarge
    | UnaryCancelled
    | UnaryFrameTooLarge
    | OperationThrew(standard: bool)
    | OperationBadResult
    | OperationOutputTooLarge
    | OperationFrameTooLarge
    // Source opens that are refused.
    | OpenThrew(standard: bool)
    | OpenCancelledEarly
    | OpenCancelled
    | OpenAcceptedWithError
    | OpenBadRefusal
    | OpenBadPayload
    | OpenBadIdentity
    | OpenNoCredit
    | OpenBadContext(fault: ContextFault)
    | OpenNoHandler
    | OpenStreamLimit
    | OpenEndpointLimit
    | OpenDispatchFull
    | OpenDispatchOverBudget

  // The error codes on the wire.
  const NOT_READY := "not-ready"
  const DISPATCH_QUEUE_FULL := "dispatch-queue-full"
  const DISPATCH_BYTE_BUDGET := "dispatch-byte-budget"
  const INVALID_WORK_CONTEXT := "invalid-work-context"
  const INPUT_SCHEMA_MISMATCH := "input-schema-mismatch"
  const CANCELLED := "cancelled"
  const HANDLER_EXCEPTION := "handler-exception"
  const INVALID_HANDLER_RESULT := "invalid-handler-result"
  const RESPONSE_TOO_LARGE := "response-too-large"
  const INITIAL_PAYLOAD_INVALID := "initial-payload-invalid"
  const INVALID_SOURCE_OPEN := "invalid-source-open"
  const INVALID_INITIAL_CREDIT := "invalid-initial-credit"
  const HANDLER_NOT_BOUND := "handler-not-bound"
  const SOURCE_STREAM_LIMIT := "source-stream-limit"
  const ENDPOINT_STREAM_LIMIT := "endpoint-stream-limit"
  const PEER_CANCELLED := "peer-cancelled"

  /** The message of a cancellation whose reason is not canonical text. */
  const HOST_CANCELLED := "Host cancelled Work"

  function Explain(c: Complaint): AdapterError {
    MakeError(ClassOf(c), CodeOf(c), MessageOf(c))
  }

  function ClassOf(c: Complaint): ErrorClass {
    match c
    case NotReadyForWork | DispatchFull | DispatchOverBudget | BadContext(_) | UnaryBadInput |
      OperationBadInput | OpenBadPayload | OpenBadIdentity | OpenNoCredit | OpenBadContext(_) | OpenNoHandler =>
      ErrorClass.Rejected
    case CancelledEarly | UnaryCancelled | OpenCancelledEarly | OpenCancelled => ErrorClass.Cancelled
    case UnaryThrew(_) | UnaryBadSuccess | UnaryBadFailure | OperationThrew(_) | OperationBadResult |
      OpenThrew(_) | OpenAcceptedWithError | OpenBadRefusal => ErrorClass.Permanent
    case UnaryOutputTooLarge | UnaryFrameTooLarge | OperationOutputTooLarge | OperationFrameTooLarge |
      OpenStreamLimit | OpenEndpointLimit | OpenDispatchFull | OpenDispatchOverBudget => ErrorClass.ResourceExhausted
  }

  function CodeOf(c: Complaint): string {
    match c
    case NotReadyForWork => NOT_READY
    case DispatchFull | OpenDispatchFull => DISPATCH_QUEUE_FULL
    case DispatchOverBudget | OpenDispatchOverBudget => DISPATCH_BYTE_BUDGET
    case BadContext(_) | OpenBadContext(_) => INVALID_WORK_CONTEXT
    case UnaryBadInput | OperationBadInput => INPUT_SCHEMA_MISMATCH
    case CancelledEarly | UnaryCancelled | OpenCancelledEarly | OpenCancelled => CANCELLED
    case UnaryThrew(_) | OperationThrew(_) | OpenThrew(_) => HANDLER_EXCEPTION
    case UnaryBadSuccess | UnaryBadFailure | OperationBadResult | OpenAcceptedWithError | OpenBadRefusal =>
      INVALID_HANDLER_RESULT
    case UnaryOutputTooLarge | UnaryFrameTooLarge | OperationOutputTooLarge | OperationFrameTooLarge =>
      RESPONSE_TOO_LARGE
    case OpenBadPayload => INITIAL_PAYLOAD_INVALID
    case OpenBadIdentity => INVALID_SOURCE_OPEN
    case OpenNoCredit => INVALID_INITIAL_CREDIT
    case OpenNoHandler => HANDLER_NOT_BOUND
    case OpenStreamLimit => SOURCE_STREAM_LIMIT
    case OpenEndpointLimit => ENDPOINT_STREAM_LIMIT
  }

  function FaultText(fault: ContextFault): string {
    match fault
    case LinkNotReady => "Runtime Link is not ready"
    case StaleRevision => "Work references a" + " stale spec revision"
    case NoContract => "Work does not match an" + " active capability contract"
    case WrongMode => "Work interaction mode does" + " not match the endpoint"
    case NoDeadline => "endpoint requires a deadline"
    case DeadlineExpired => "Work deadline has expired"
    case NoIdempotencyKey => "endpoint requires" + " an idempotency key"
    case BadRequestDigest => "Work request_digest must" + " use sha256:<lowercase-hex>"
    case BadSubject => "Work subject is missing" + " or non-canonical"
  }

  function MessageOf(c: Complaint): string {
    match c
    case NotReadyForWork => "capabilities are" + " not ready for Work"
    case DispatchFull => "bounded dispatch queue is full"
    case DispatchOverBudget => "dispatch byte" + " budget is exhausted"
    case BadContext(fault) => FaultText(fault)
    case UnaryBadInput => "unary input does not" + " match its contract"
    case OperationBadInput => "operation input does" + " not match its contract"
    case CancelledEarly => "Work was cancelled" + " before dispatch"
    case UnaryThrew(standard) =>
      if standard then "unary handler" + " threw an exception" else "unary handler threw" + " an unknown exception"
    case UnaryBadSuccess => "unary handler returned a" + " malformed success result"
    case UnaryBadFailure => "unary handler returned a" + " malformed failure result"
    case UnaryOutputTooLarge => "unary output exceeds" + " its contract limit"
    case UnaryCancelled => "unary work was cancelled"
    case UnaryFrameTooLarge => "unary result exceeds" + " the Work frame limit"
    case OperationThrew(standard) =>
      if standard then "operation handler" + " threw an exception"
      else "operation handler threw" + " an unknown exception"
    case OperationBadResult => "operation handler returned" + " a malformed terminal result"
    case OperationOutputTooLarge => "operation output exceeds" + " its contract limit"
    case OperationFrameTooLarge => "operation result exceeds" + " the Work frame limit"
    case OpenThrew(standard) =>
      if standard then "source open handler" + " threw an exception"
      else "source open handler threw" + " an unknown exception"
    case OpenCancelledEarly => "source open was" + " cancelled before dispatch"
    case OpenCancelled => "source open was cancelled"
    case OpenAcceptedWithError => "accepted source open" + " also returned an error"
    case OpenBadRefusal => "rejected source open must return" + " one typed error and no payload"
    case OpenBadPayload => "source initial payload" + " violates its output contract"
    case OpenBadIdentity => "source stream and WorkContext" + " identity must not be empty"
    case OpenNoCredit => "source open requires positive" + " message and byte credit"
    case OpenBadContext(fault) => FaultText(fault)
    case OpenNoHandler => "source endpoint has" + " no bound open handler"
    case OpenStreamLimit => "global source stream" + " limit is exhausted"
    case OpenEndpointLimit => "endpoint source stream" + " limit is exhausted"
    case OpenDispatchFull => "bounded dispatch queue is full"
    case OpenDispatchOverBudget => "dispatch byte" + " budget is exhausted"
  }

  predicate IsTypedError(error: AdapterError) {
    && !error.class_.Unspecified? && !error.class_.UnknownClass?
    && IdentifierShape(error.code) && CanonicalText(error.message)
    && (error.details.Some? ==> error.details.value.wellFormed)
  }

  lemma Joins(a: string, b: string)
    requires |a| > 0 && |b| > 0 && OneLine(a) && OneLine(b)
    requires !IsAsciiWhitespace(a[0]) && !IsAsciiWhitespace(b[|b| - 1])
    ensures CanonicalText(a + b)
  {
  }

  predicate Letters(word: string) {
    |word| > 0 && forall i :: 0 <= i < |word| ==> 'a' <= word[i] <= 'z'
  }

  lemma Words1(a: string)
    requires Letters(a)
    ensures IdentifierShape(a)
  {
  }

  lemma Words2(a: string, b: string)
    requires IdentifierShape(a) || Letters(a)
    requires Letters(b)
    ensures IdentifierShape(a + "-" + b)
  {
  }

  lemma Words3(a: string, b: string, c: string)
    requires Letters(a) && Letters(b) && Letters(c)
    ensures IdentifierShape(a + "-" + b + "-" + c)
  {
    Words2(a, b);
    Words2(a + "-" + b, c);
  }

  // The literals are checked a few at a time.

  lemma Codes1()
    ensures IdentifierShape(NOT_READY) && IdentifierShape(DISPATCH_QUEUE_FULL)
  {
    hide IdentifierShape;
    Words2("not", "ready");
    assert NOT_READY == "not" + "-" + "ready";
    Words3("dispatch", "queue", "full");
    assert DISPATCH_QUEUE_FULL == "dispatch" + "-" + "queue" + "-" + "full";
  }

  lemma Codes2()
    ensures IdentifierShape(DISPATCH_BYTE_BUDGET) && IdentifierShape(INVALID_WORK_CONTEXT)
  {
    hide IdentifierShape;
    Words3("dispatch", "byte", "budget");
    assert DISPATCH_BYTE_BUDGET == "dispatch" + "-" + "byte" + "-" + "budget";
    Words3("invalid", "work", "context");
    assert INVALID_WORK_CONTEXT == "invalid" + "-" + "work" + "-" + "context";
  }

  lemma Codes3()
    ensures IdentifierShape(INPUT_SCHEMA_MISMATCH) && IdentifierShape(CANCELLED)
  {
    hide IdentifierShape;
    Words3("input", "schema", "mismatch");
    assert INPUT_SCHEMA_MISMATCH == "input" + "-" + "schema" + "-" + "mismatch";
    Words1("cancelled");
  }

  lemma Codes4()
    ensures IdentifierShape(HANDLER_EXCEPTION) && IdentifierShape(INVALID_HANDLER_RESULT)
  {
    hide IdentifierShape;
    Words2("handler", "exception");
    assert HANDLER_EXCEPTION == "handler" + "-" + "exception";
    Words3("invalid", "handler", "result");
    assert INVALID_HANDLER_RESULT == "invalid" + "-" + "handler" + "-" + "result";
  }

  lemma Codes5()
    ensures IdentifierShape(RESPONSE_TOO_LARGE) && IdentifierShape(INITIAL_PAYLOAD_INVALID)
  {
    hide IdentifierShape;
    Words3("response", "too", "large");
    assert RESPONSE_TOO_LARGE == "response" + "-" + "too" + "-" + "large";
    Words3("initial", "payload", "invalid");
    assert INITIAL_PAYLOAD_INVALID == "initial" + "-" + "payload" + "-" + "invalid";
  }

  lemma Codes6()
    ensures IdentifierShape(INVALID_SOURCE_OPEN) && IdentifierShape(INVALID_INITIAL_CREDIT)
  {
    hide IdentifierShape;
    Words3("invalid", "source", "open");
    assert INVALID_SOURCE_OPEN == "invalid" + "-" + "source" + "-" + "open";
    Words3("invalid", "initial", "credit");
    assert INVALID_INITIAL_CREDIT == "invalid" + "-" + "initial" + "-" + "credit";
  }

  lemma Codes7()
    ensures IdentifierShape(HANDLER_NOT_BOUND) && IdentifierShape(SOURCE_STREAM_LIMIT)
  {
    hide IdentifierShape;
    Words3("handler", "not", "bound");
    assert HANDLER_NOT_BOUND == "handler" + "-" + "not" + "-" + "bound";
    Words3("source", "stream", "limit");
    assert SOURCE_STREAM_LIMIT == "source" + "-" + "stream" + "-" + "limit";
  }

  lemma Codes8()
    ensures IdentifierShape(ENDPOINT_STREAM_LIMIT)
  {
    hide IdentifierShape;
    Words3("endpoint", "stream", "limit");
    assert ENDPOINT_STREAM_LIMIT == "endpoint" + "-" + "stream" + "-" + "limit";
  }

  lemma CodeCanonical(c: Complaint)
    ensures IdentifierShape(CodeOf(c))
  {
    hide IdentifierShape;
    Codes1();
    Codes2();
    Codes3();
    Codes4();
    Codes5();
    Codes6();
    Codes7();
    Codes8();
  }

  lemma Faults1()
    ensures CanonicalText("Runtime Link is not ready")
    ensures CanonicalText("Work references a" + " stale spec revision")
    ensures CanonicalText("Work does not match an" + " active capability contract")
  {
    Joins("Work references a", " stale spec revision");
    Joins("Work does not match an", " active capability contract");
  }

  lemma Faults2()
    ensures CanonicalText("Work interaction mode does" + " not match the endpoint")
    ensures CanonicalText("endpoint requires a deadline")
    ensures CanonicalText("Work deadline has expired")
  {
    Joins("Work interaction mode does", " not match the endpoint");
  }

  lemma Faults3()
    ensures CanonicalText("endpoint requires" + " an idempotency key")
    ensures CanonicalText("Work request_digest must" + " use sha256:<lowercase-hex>")
    ensures CanonicalText("Work subject is missing" + " or non-canonical")
  {
    Joins("endpoint requires", " an idempotency key");
    Joins("Work request_digest must", " use sha256:<lowercase-hex>");
    Joins("Work subject is missing", " or non-canonical");
  }

  lemma Texts1()
    ensures CanonicalText("capabilities are" + " not ready for Work")
    ensures CanonicalText("bounded dispatch queue is full")
    ensures CanonicalText("dispatch byte" + " budget is exhausted")
  {
    Joins("capabilities are", " not ready for Work");
    Joins("dispatch byte", " budget is exhausted");
  }

  lemma Texts2()
    ensures CanonicalText("unary input does not" + " match its contract")
    ensures CanonicalText("operation input does" + " not match its contract")
    ensures CanonicalText("Work was cancelled" + " before dispatch")
  {
    Joins("unary input does not", " match its contract");
    Joins("operation input does", " not match its contract");
    Joins("Work was cancelled", " before dispatch");
  }

  lemma Texts3()
    ensures CanonicalText("unary handler" + " threw an exception")
    ensures CanonicalText("unary handler threw" + " an unknown exception")
    ensures CanonicalText("unary handler returned a" + " malformed success result")
  {
    Joins("unary handler", " threw an exception");
    Joins("unary handler threw", " an unknown exception");
    Joins("unary handler returned a", " malformed success result");
  }

  lemma Texts4()
    ensures CanonicalText("unary handler returned a" + " malformed failure result")
    ensures CanonicalText("unary output exceeds" + " its contract limit")
    ensures CanonicalText("unary work was cancelled")
  {
    Joins("unary handler returned a", " malformed failure result");
    Joins("unary output exceeds", " its contract limit");
  }

  lemma Texts5()
    ensures CanonicalText("unary result exceeds" + " the Work frame limit")
    ensures CanonicalText("operation handler" + " threw an exception")
    ensures CanonicalText("operation handler threw" + " an unknown exception")
  {
    Joins("unary result exceeds", " the Work frame limit");
    Joins("operation handler", " threw an exception");
    Joins("operation handler threw", " an unknown exception");
  }

  lemma Texts6()
    ensures CanonicalText("operation handler returned" + " a malformed terminal result")
    ensures CanonicalText("operation output exceeds" + " its contract limit")
    ensures CanonicalText("operation result exceeds" + " the Work frame limit")
  {
    Joins("operation handler returned", " a malformed terminal result");
    Joins("operation output exceeds", " its contract limit");
    Joins("operation result exceeds", " the Work frame limit");
  }

  lemma Texts7()
    ensures CanonicalText("source open handler" + " threw an exception")
    ensures CanonicalText("source open handler threw" + " an unknown exception")
    ensures CanonicalText("source open was" + " cancelled before dispatch")
  {
    Joins("source open handler", " threw an exception");
    Joins("source open handler threw", " an unknown exception");
    Joins("source open was", " cancelled before dispatch");
  }

  lemma Texts8()
    ensures CanonicalText("source open was cancelled")
    ensures CanonicalText("accepted source open" + " also returned an error")
    ensures CanonicalText("rejected source open must return" + " one typed error and no payload")
  {
    Joins("accepted source open", " also returned an error");
    Joins("rejected source open must return", " one typed error and no payload");
  }

  lemma Texts9()
    ensures CanonicalText("source initial payload" + " violates its output contract")
    ensures CanonicalText("source stream and WorkContext" + " identity must not be empty")
    ensures CanonicalText("source open requires positive" + " message and byte credit")
  {
    Joins("source initial payload", " violates its output contract");
    Joins("source stream and WorkContext", " identity must not be empty");
    Joins("source open requires positive", " message and byte credit");
  }

  lemma Texts10()
    ensures CanonicalText("source endpoint has" + " no bound open handler")
    ensures CanonicalText("global source stream" + " limit is exhausted")
    ensures CanonicalText("endpoint source stream" + " limit is exhausted")
  {
    Joins("source endpoint has", " no bound open handler");
    Joins("global source stream", " limit is exhausted");
    Joins("endpoint source stream", " limit is exhausted");
  }

  lemma MessageCanonical(c: Complaint)
    ensures CanonicalText(MessageOf(c))
  {
    hide CanonicalText;
    Faults1();
    Faults2();
    Faults3();
    Texts1();
    Texts2();
    Texts3();
    Texts4();
    Texts5();
    Texts6();
    Texts7();
    Texts8();
    Texts9();
    Texts10();
  }

  lemma PeerCancellationTyped()
    ensures IdentifierShape(PEER_CANCELLED) && CanonicalText(HOST_CANCELLED)
  {
    Words2("peer", "cancelled");
    assert PEER_CANCELLED == "peer" + "-" + "cancelled";
  }

  /** Every error of the client's own is one a Host accepts as typed. */
  lemma ComplaintTyped(c: Complaint)
    ensures IsTypedError(Explain(c)) && Explain(c).class_ == ClassOf(c) && Explain(c).code != ""
  {
    hide CodeOf, MessageOf, CanonicalText;
    CodeCanonical(c);
    MessageCanonical(c);
  }
}
