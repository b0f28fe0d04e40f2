/** What the client makes of handler results before it retains them. */
module Results {
  import opened Base
  import opened Protocol
  import opened Complaints

  datatype UnaryResult = UnaryResult(succeeded: bool, output: Payload, error: AdapterError)
  datatype OperationResult =
    OperationResult(phase: OperationPhase, hasOutput: bool, output: Payload, error: AdapterError)
  datatype OpenDecision = OpenDecision(accepted: bool, hasInitial: bool, initial: Payload, error: AdapterError)

  predicate HasError(error: AdapterError) {
    error.class_ != Unspecified || error.code != "" || error.message != "" || error.retryAfterMs != 0
    || error.details.Some?
  }

  predicate HasPayload(payload: Payload) { payload.encodedBytes != 0 }

  predicate IsTerminal(phase: OperationPhase) {
    phase.PhaseSucceeded? || phase.PhaseRejected? || phase.PhaseFailed? || phase.PhaseExpired?
    || phase.PhaseCancelled? || phase.PhaseUncertain?
  }

  predicate ErrorMatchesPhase(phase: OperationPhase, class_: ErrorClass) {
    match phase
    case PhaseRejected => class_.Rejected?
    case PhaseFailed => class_.Permanent? || class_.Transient? || class_.ResourceExhausted?
    case PhaseExpired => class_.Deadline?
    case PhaseCancelled => class_.Cancelled?
    case PhaseUncertain => class_.Uncertain?
    case _ => false
  }

  predicate OutputMatches(endpoint: Endpoint, output: Payload) {
    output.wellFormed && output.schema == endpoint.outputSchema
  }

  function FailedUnary(complaint: Complaint): UnaryResult {
    UnaryResult(false, NO_PAYLOAD, Explain(complaint))
  }

  function FailedOperation(complaint: Complaint): OperationResult {
    OperationResult(PhaseFor(ClassOf(complaint)), false, NO_PAYLOAD, Explain(complaint))
  }

  function PhaseFor(class_: ErrorClass): OperationPhase {
    match class_
    case Uncertain => PhaseUncertain
    case Cancelled => PhaseCancelled
    case Rejected => PhaseRejected
    case Deadline => PhaseExpired
    case _ => PhaseFailed
  }

  /** A handler returns or throws, a standard exception or something else. */
  datatype Handler<R> = Returned(result: R) | Threw(standard: bool)

  function UnaryReply(handler: Handler<UnaryResult>, endpoint: Endpoint, cancelled: bool): Reply {
    var result := if handler.Threw? then FailedUnary(UnaryThrew(handler.standard)) else handler.result;
    var checked :=
      if result.succeeded && (HasError(result.error) || !OutputMatches(endpoint, result.output)) then
        FailedUnary(UnaryBadSuccess)
      else if !result.succeeded && (HasPayload(result.output) || !IsTypedError(result.error)) then
        FailedUnary(UnaryBadFailure)
      else if result.succeeded && result.output.valueBytes > endpoint.maxResponseBytes then
        FailedUnary(UnaryOutputTooLarge)
      else if cancelled && result.succeeded then
        FailedUnary(UnaryCancelled)
      else result;
    if checked.succeeded then Output(checked.output) else Failure(checked.error)
  }

  function OperationTerminal(workId: string, handler: Handler<OperationResult>, endpoint: Endpoint): Body {
    var result := if handler.Threw? then FailedOperation(OperationThrew(handler.standard)) else handler.result;
    var malformed :=
      || !IsTerminal(result.phase)
      || (result.phase.PhaseSucceeded? &&
          (|| HasError(result.error)
           || (result.hasOutput && !OutputMatches(endpoint, result.output))
           || (!result.hasOutput && HasPayload(result.output))))
      || (!result.phase.PhaseSucceeded? &&
          (|| result.hasOutput || HasPayload(result.output) || !IsTypedError(result.error)
           || !ErrorMatchesPhase(result.phase, result.error.class_)));
    var checked :=
      if malformed then FailedOperation(OperationBadResult)
      else if result.hasOutput && result.output.valueBytes > endpoint.maxResponseBytes then
        FailedOperation(OperationOutputTooLarge)
      else result;
    OperationEvent(workId, checked.phase,
                   if checked.hasOutput then Some(checked.output) else None,
                   if checked.error.code != "" || checked.error.class_ != Unspecified
                   then Some(checked.error) else None)
  }

  /** The terminal of Work that never reached its handler. */
  function RejectedDispatch(kind: Kind, workId: string, error: AdapterError): Body {
    if kind.Unary? then UnaryResponse(workId, Failure(error))
    else
      var phase := match error.class_
        case Cancelled => PhaseCancelled
        case Deadline => PhaseExpired
        case Rejected => PhaseRejected
        case _ => PhaseFailed;
      OperationEvent(workId, phase, None, Some(error))
  }

  /** The compact terminal that replaces one too large for the negotiated frame. */
  function TooLargeFallback(kind: Kind, workId: string): Body {
    if kind.Unary? then UnaryResponse(workId, Failure(Explain(UnaryFrameTooLarge)))
    else OperationEvent(workId, PhaseFailed, None, Some(Explain(OperationFrameTooLarge)))
  }

  function OpenOutcome(handler: Handler<OpenDecision>, endpoint: Endpoint, cancelled: bool): OpenDecision {
    var decision := if handler.Threw? then RefusedOpen(OpenThrew(handler.standard)) else handler.result;
    if cancelled then RefusedOpen(OpenCancelled)
    else if decision.accepted &&
            (HasError(decision.error) || (!decision.hasInitial && HasPayload(decision.initial))) then
      RefusedOpen(OpenAcceptedWithError)
    else if !decision.accepted &&
            (decision.hasInitial || HasPayload(decision.initial) || !IsTypedError(decision.error)) then
      RefusedOpen(OpenBadRefusal)
    else if decision.accepted && decision.hasInitial &&
            (!OutputMatches(endpoint, decision.initial)
             || (endpoint.maxResponseBytes > 0 && decision.initial.valueBytes > endpoint.maxResponseBytes)) then
      RefusedOpen(OpenBadPayload)
    else decision
  }

  function RefusedOpen(complaint: Complaint): OpenDecision {
    OpenDecision(false, false, NO_PAYLOAD, Explain(complaint))
  }

  /** A retained terminal of `workId`: success carries output that meets the contract of the endpoint
      that ran and no error; failure carries a typed error that agrees with the phase and no output. */
  predicate WellFormedTerminal(workId: string, body: Body, endpoint: Option<Endpoint>) {
    match body
    case UnaryResponse(id, Output(payload)) => id == workId && Meets(payload, endpoint)
    case UnaryResponse(id, Failure(error)) => id == workId && IsTypedError(error)
    case OperationEvent(id, phase, output, error) =>
      && id == workId && IsTerminal(phase)
      && (phase.PhaseSucceeded? ==> error.None? && (output.Some? ==> Meets(output.value, endpoint)))
      && (!phase.PhaseSucceeded? ==>
            && output.None? && error.Some? && IsTypedError(error.value)
            && ErrorMatchesPhase(phase, error.value.class_))
    case _ => false
  }

  predicate Meets(payload: Payload, endpoint: Option<Endpoint>) {
    endpoint.Some? && OutputMatches(endpoint.value, payload) && payload.valueBytes <= endpoint.value.maxResponseBytes
  }

  /** Whatever a unary handler returns or throws, its terminal is well formed. */
  lemma UnaryReplyWellFormed(workId: string, handler: Handler<UnaryResult>, endpoint: Endpoint, cancelled: bool)
    ensures WellFormedTerminal(workId, UnaryResponse(workId, UnaryReply(handler, endpoint, cancelled)), Some(endpoint))
  {
    hide IsTypedError, Explain;
    ComplaintTyped(UnaryThrew(handler.Threw? && handler.standard));
    ComplaintTyped(UnaryBadSuccess);
    ComplaintTyped(UnaryBadFailure);
    ComplaintTyped(UnaryOutputTooLarge);
    ComplaintTyped(UnaryCancelled);
  }

  /** Whatever an operation handler returns or throws, its terminal is well formed. */
  lemma OperationTerminalWellFormed(workId: string, handler: Handler<OperationResult>, endpoint: Endpoint)
    ensures WellFormedTerminal(workId, OperationTerminal(workId, handler, endpoint), Some(endpoint))
  {
    hide IsTypedError, Explain;
    ComplaintTyped(OperationThrew(handler.Threw? && handler.standard));
    ComplaintTyped(OperationBadResult);
    ComplaintTyped(OperationOutputTooLarge);
  }

  /** So is the terminal of Work that was turned away, and the compact replacement of one too large. */
  lemma RejectedDispatchWellFormed(kind: Kind, workId: string, complaint: Complaint)
    ensures WellFormedTerminal(workId, RejectedDispatch(kind, workId, Explain(complaint)), None)
    ensures WellFormedTerminal(workId, TooLargeFallback(kind, workId), None)
  {
    hide IsTypedError, Explain;
    ComplaintTyped(complaint);
    ComplaintTyped(UnaryFrameTooLarge);
    ComplaintTyped(OperationFrameTooLarge);
  }

  /** An initial payload matches the output schema and stays below the response limit, if there is one. */
  predicate Initiates(endpoint: Endpoint, payload: Payload) {
    && OutputMatches(endpoint, payload)
    && (endpoint.maxResponseBytes > 0 ==> payload.valueBytes <= endpoint.maxResponseBytes)
  }

  /** The outcome of a source open either accepts, with no error and at most an initial payload that
      meets the contract, or carries a typed error alone. */
  predicate WellFormedDecision(d: OpenDecision, endpoint: Endpoint) {
    if d.accepted then
      && !HasError(d.error)
      && (if d.hasInitial then Initiates(endpoint, d.initial) else !HasPayload(d.initial))
    else IsTypedError(d.error) && !d.hasInitial && !HasPayload(d.initial)
  }

  lemma OpenOutcomeWellFormed(handler: Handler<OpenDecision>, endpoint: Endpoint, cancelled: bool)
    ensures var d := OpenOutcome(handler, endpoint, cancelled);
            WellFormedDecision(d, endpoint) && (cancelled ==> !d.accepted && d.error.class_.Cancelled?)
  {
    hide IsTypedError, Explain;
    ComplaintTyped(OpenThrew(handler.Threw? && handler.standard));
    ComplaintTyped(OpenCancelled);
    ComplaintTyped(OpenAcceptedWithError);
    ComplaintTyped(OpenBadRefusal);
    ComplaintTyped(OpenBadPayload);
  }
}
