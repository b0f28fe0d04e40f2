/** The messages of the Work stream, as far as the client looks into them. A message's
    deterministic protobuf encoding is carried beside it as `wire`. */
module Protocol {
  import opened Base
  import opened Fips180
  import Digest

  datatype Kind = Unary | Operation | SourceOpen

  datatype ErrorClass =
    | Unspecified | Permanent | Transient | Rejected | Deadline | Cancelled | Uncertain
    | ResourceExhausted | UnknownClass(code: int)

  datatype OperationPhase =
    | NoPhase | PhaseAccepted | PhaseStarted | PhaseSucceeded | PhaseRejected | PhaseFailed
    | PhaseExpired | PhaseCancelled | PhaseUncertain | UnknownPhase(code: int)

  datatype Payload = Payload(schema: int, wellFormed: bool, valueBytes: nat, encodedBytes: nat)

  const NO_PAYLOAD := Payload(0, false, 0, 0)

  datatype AdapterError =
    AdapterError(class_: ErrorClass, code: string, message: string, retryAfterMs: nat, details: Option<Payload>)

  function MakeError(class_: ErrorClass, code: string, message: string): AdapterError {
    AdapterError(class_, code, message, 0, None)
  }

  /** One endpoint of a capability contract: its mode, what it demands of a Work context, its
      output schema and its limits. */
  datatype Endpoint = Endpoint(
    mode: Kind, deadlineRequired: bool, keyRequired: bool, outputSchema: int, maxResponseBytes: nat,
    maxStreams: nat, maxChunkBytes: nat, maxChunkMessages: nat)

  datatype Reply = Output(payload: Payload) | Failure(error: AdapterError)

  datatype Body =
    | UnaryResponse(workId: string, reply: Reply)
    | OperationEvent(workId: string, phase: OperationPhase, output: Option<Payload>, error: Option<AdapterError>)
    | SourceOpenResult(streamId: string, accepted: bool, initial: Option<Payload>, problem: Option<AdapterError>)
    | SourceData(streamId: string, sequence: nat, items: seq<seq<Byte>>)
    | SourceClose(streamId: string, finalSequence: nat, problem: Option<AdapterError>)
    | ProtocolError(rejectedSequence: nat)

  datatype WorkFrame = WorkFrame(body: Body, wire: seq<Byte>)

  function TypeName(body: Body): string {
    match body
    case UnaryResponse(_, _) => "xgc.adapter.v1.UnaryResponse"
    case OperationEvent(_, _, _, _) => "xgc.adapter.v1.OperationEvent"
    case SourceOpenResult(_, _, _, _) => "xgc.adapter.v1.SourceOpenResult"
    case SourceData(_, _, _) => "xgc.adapter.v1.SourceData"
    case SourceClose(_, _, _) => "xgc.adapter.v1.SourceClose"
    case ProtocolError(_) => "xgc.adapter.v1.ProtocolError"
  }

  function DigestOf(frame: WorkFrame): (digest: string)
    ensures |digest| == Digest.CANONICAL_SHA256_TEXT_BYTES
  {
    Digest.TerminalDigest(TypeName(frame.body), frame.wire)
  }

  /** Protobuf refuses to serialize a message of more than INT_MAX bytes. */
  predicate Encodable(frame: WorkFrame) {
    |frame.wire| <= 0x7FFF_FFFF
  }

  // Encoded sizes ("Base 128 Varints", Protocol Buffers encoding specification).

  function VarintLen(n: nat): (length: nat)
    ensures length >= 1
  {
    if n < 128 then 1 else 1 + VarintLen(n / 128)
  }

  lemma {:induction false} VarintMonotone(a: nat, b: nat)
    requires a <= b
    ensures VarintLen(a) <= VarintLen(b)
  {
    if b >= 128 && a >= 128 {
      VarintMonotone(a / 128, b / 128);
    }
  }

  /** An unsigned field; proto3 leaves a zero out. */
  function U64Field(n: nat): nat { if n == 0 then 0 else 1 + VarintLen(n) }

  /** A length-delimited field: tag, length prefix, contents. */
  function Embedded(n: nat): nat { 1 + VarintLen(n) + n }

  /** A frame whose header has `fixed` bytes besides the epoch and the sequence number. */
  function FramedBytes(fixed: nat, epoch: nat, sequence: nat, frame: WorkFrame): nat {
    Embedded(fixed + U64Field(epoch) + U64Field(sequence)) + Embedded(|frame.wire|)
  }

  /** Measuring a frame with the largest sequence number bounds it for every real one. */
  lemma PreflightIsUpperBound(fixed: nat, epoch: nat, sequence: nat, frame: WorkFrame)
    requires sequence <= U64_MAX
    ensures FramedBytes(fixed, epoch, sequence, frame) <= FramedBytes(fixed, epoch, U64_MAX, frame)
  {
    VarintMonotone(sequence, U64_MAX);
    VarintMonotone(fixed + U64Field(epoch) + U64Field(sequence), fixed + U64Field(epoch) + U64Field(U64_MAX));
  }

  // Text rules.

  predicate IsSeparator(c: char) { c == '.' || c == '_' || c == '-' }
  predicate IsAlphanumeric(c: char) { 'a' <= c <= 'z' || '0' <= c <= '9' }
  predicate IsAsciiWhitespace(c: char) { c == ' ' || '\t' <= c <= '\r' }

  /** Starts with a letter, single separators only inside. */
  predicate IdentifierShape(value: string) {
    && |value| > 0 && 'a' <= value[0] <= 'z'
    && (forall i :: 0 <= i < |value| ==> IsAlphanumeric(value[i]) || IsSeparator(value[i]))
    && (forall i :: 1 <= i < |value| ==> !(IsSeparator(value[i - 1]) && IsSeparator(value[i])))
    && !IsSeparator(value[|value| - 1])
  }

  /** The scanning loop with its `separator` flag decides exactly that shape. */
  method IsCanonicalIdentifier(value: string) returns (ok: bool)
    ensures ok == IdentifierShape(value)
  {
    if |value| == 0 || value[0] < 'a' || value[0] > 'z' {
      return false;
    }
    var separator := false;
    for i := 0 to |value|
      invariant forall j :: 0 <= j < i ==> IsAlphanumeric(value[j]) || IsSeparator(value[j])
      invariant forall j :: 1 <= j < i ==> !(IsSeparator(value[j - 1]) && IsSeparator(value[j]))
      invariant separator == (i > 0 && IsSeparator(value[i - 1]))
    {
      var character := value[i];
      if IsAlphanumeric(character) {
        separator := false;
      } else if IsSeparator(character) && !separator {
        separator := true;
      } else {
        return false;
      }
    }
    return !separator;
  }

  /** No NUL and no line break anywhere. */
  predicate OneLine(value: string) {
    forall i :: 0 <= i < |value| ==> value[i] != '\0' && value[i] != '\r' && value[i] != '\n'
  }

  predicate CanonicalText(value: string) {
    |value| > 0 && !IsAsciiWhitespace(value[0]) && !IsAsciiWhitespace(value[|value| - 1]) && OneLine(value)
  }
}
