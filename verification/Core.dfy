/** The client's shared state and what each mutex-held section does to it. Every function is
    one critical section: it takes the state before the lock and gives the state after it. */
module Core {
  import opened Base
  import opened Fips180
  import opened Protocol
  import opened Complaints
  import opened Results
  import Digest

  /** The configuration, the limits the Host negotiated at registration, and the digest of a terminal
      message. Only the digest's length matters to most of what follows. */
  datatype Limits = Limits(
    maxWorkQueue: nat, maxWorkQueueBytes: nat, maxDispatch: nat, maxDispatchBytes: nat,
    maxReplay: nat, maxReplayBytes: nat, maxStreams: nat, maxTombstones: nat, maxSourceBytes: nat,
    maxFrame: nat, headerBytes: nat, digest: WorkFrame -> string,
    bootstrap: Spec, maxReconnects: nat, initialDelay: nat, maxDelay: nat)

  /** The digest is the SHA-256 text of the message. */
  ghost predicate UsesSha256(lim: Limits) {
    forall frame :: lim.digest(frame) == DigestOf(frame)
  }

  datatype Phase =
    | Stopped | Connecting | Registered | ApplyingSpec | Ready | Draining | Reconnecting | SessionLost | Stopping

  datatype Link = Link(
    session: bool, failed: bool, stopping: bool, terminal: bool, accepting: bool, phase: Phase,
    epoch: nat, attachAllowed: bool, attachEpoch: nat, pairReady: bool)

  // A ticket stands for the identity of one shared cancellation state; 0 stands for none.

  datatype Token = Token(ticket: nat, reservation: nat)
  datatype Entry = Entry(kind: Kind, fingerprint: string, frame: WorkFrame, digest: string, bytes: nat)
  datatype Ledger = Ledger(tokens: map<string, Token>, replay: map<string, Entry>, bytes: nat)

  datatype Queued = Queued(frame: WorkFrame, bytes: nat)
  /** The Work queue. `taken` remembers what the writer has popped from it on this pair, and `log`
      every frame the queue ever admitted, on any pair. */
  datatype Outbox = Outbox(queue: seq<Queued>, bytes: nat, taken: seq<Queued>, log: seq<WorkFrame>)

  datatype Context = Context(
    capability: string, endpoint: string, contract: string, revision: nat,
    hasDeadline: bool, hasKey: bool, subjectOk: bool)
  datatype Credit = Credit(messages: nat, bytes: nat)

  datatype Job = Job(
    kind: Kind, workId: string, fingerprint: string, context: Context, bytes: nat, credit: Credit,
    ticket: nat, epoch: nat, reservation: nat)

  datatype Source = Source(
    ticket: nat, fingerprint: string, context: Context, endpoint: Endpoint, binding: nat, open: bool,
    epoch: nat, credit: Credit, sequence: nat, acknowledged: nat, bytes: nat)
  datatype Tombstone = Tombstone(
    ticket: nat, epoch: nat, finalSequence: nat, acknowledged: nat, fingerprint: string,
    digest: string, frame: WorkFrame, bytes: nat)
  datatype Sources = Sources(live: map<string, Source>, closed: map<string, Tombstone>, bytes: nat)

  /** A granted capability: its binding, the endpoints enabled on it, and the handlers bound to it. */
  datatype Grant = Grant(
    capability: string, binding: nat, contract: string, endpoints: map<string, Endpoint>, handlers: set<Kind>)
  /** An instance spec; `rest` stands for the parts the client only compares. */
  datatype Spec = Spec(revision: nat, digest: string, grants: seq<Grant>, rest: int)

  /** A cleared spec message. */
  const NO_SPEC := Spec(0, "", [], 0)

  datatype State = State(
    link: Link, ledger: Ledger, outbox: Outbox, dispatch: seq<Job>, dispatchBytes: nat, sources: Sources,
    current: Option<Spec>, desired: Spec, active: map<string, Grant>,
    cancelled: set<nat>, nextTicket: nat)

  /** The committed spec, the desired one and the capability map are untouched. */
  predicate SameSpec(s: State, t: State) {
    t.current == s.current && t.desired == s.desired && t.active == s.active
  }

  /** The session, its epoch, the Work gate and the frames already taken for writing are untouched;
      a failure or a stop is not withdrawn, and Work is not newly accepted. */
  predicate SamePair(s: State, t: State) {
    && t.link.session == s.link.session && t.link.epoch == s.link.epoch
    && t.link.attachAllowed == s.link.attachAllowed && t.link.attachEpoch == s.link.attachEpoch
    && t.outbox.taken == s.outbox.taken
    && (s.link.failed ==> t.link.failed) && (s.link.stopping ==> t.link.stopping)
    && (t.link.accepting ==> s.link.accepting && t.link.failed == s.link.failed && t.link.stopping == s.link.stopping)
  }

  /** No source is new, and those that stay are the same admissions on the same bindings. */
  predicate LiveKept(s: State, t: State) {
    forall id :: id in t.sources.live ==>
      && id in s.sources.live && t.sources.live[id].binding == s.sources.live[id].binding
      && t.sources.live[id].ticket == s.sources.live[id].ticket
  }

  /** The byte budgets hold one worst-case frame and its digests; otherwise registration fails. */
  predicate Negotiated(lim: Limits) {
    var digests := 2 * Digest.CANONICAL_SHA256_TEXT_BYTES;
    && 0 < lim.maxFrame <= (SIZE_MAX - digests) / 2
    && lim.maxFrame <= lim.maxWorkQueueBytes && lim.maxFrame <= lim.maxDispatchBytes
    && lim.maxFrame + digests <= lim.maxReplayBytes && 2 * lim.maxFrame + digests <= lim.maxSourceBytes
  }

  // Flags.

  function Tickets(s: State): set<nat> {
    (set id | id in s.ledger.tokens :: s.ledger.tokens[id].ticket)
    + (set id | id in s.sources.live :: s.sources.live[id].ticket)
  }

  function CancelAll(s: State): State {
    s.(cancelled := s.cancelled + Tickets(s))
  }

  function SignalFailure(s: State): State {
    if !s.link.session || s.link.stopping || s.link.failed then s
    else CancelAll(s.(link := s.link.(failed := true, accepting := false, phase := Reconnecting)))
  }

  function SignalTerminalFailure(s: State): State {
    if !s.link.session || s.link.stopping then s
    else CancelAll(s.(link := s.link.(terminal := true, failed := true, accepting := false)))
  }

  /** The Control queue could not take the drain report. */
  function DrainReportFailure(s: State): State {
    CancelAll(s.(link := s.link.(failed := true, accepting := false, phase := Reconnecting)))
  }

  function BeginDrain(s: State): State {
    s.(link := s.link.(
         phase := if s.link.phase.Ready? || s.link.phase.ApplyingSpec? then Draining else s.link.phase,
         accepting := false))
  }

  function RequestStop(s: State): State {
    CancelAll(s.(link := s.link.(stopping := true, accepting := false, phase := Stopping)))
  }

  // The outbound Work queue.

  /** The queue is emptied; what it once admitted is history. */
  function ClearOutbox(outbox: Outbox): Outbox {
    Outbox([], 0, [], outbox.log)
  }

  predicate Sendable(s: State) { s.link.session && !s.link.failed && !s.link.stopping }

  /** A frame is measured with its whole header and the largest sequence number. */
  function FrameBytes(lim: Limits, s: State, frame: WorkFrame): nat {
    FramedBytes(lim.headerBytes, s.link.epoch, U64_MAX, frame)
  }

  predicate RoomFor(lim: Limits, s: State, bytes: nat) {
    |s.outbox.queue| < lim.maxWorkQueue && FitsByteBudget(s.outbox.bytes, bytes, lim.maxWorkQueueBytes)
  }

  function Push(s: State, frame: WorkFrame, bytes: nat): State {
    s.(outbox := s.outbox.(queue := s.outbox.queue + [Queued(frame, bytes)], bytes := s.outbox.bytes + bytes,
                           log := s.outbox.log + [frame]))
  }

  function QueueWork(lim: Limits, s: State, frame: WorkFrame): (r: Option<State>)
    ensures r.Some? ==> Sendable(s) && r.value == s.(outbox := r.value.outbox) && r.value.outbox.taken == s.outbox.taken
  {
    var bytes := FrameBytes(lim, s, frame);
    if Sendable(s) && RoomFor(lim, s, bytes) && bytes <= lim.maxFrame then Some(Push(s, frame, bytes)) else None
  }

  function PopWork(s: State): State
    requires |s.outbox.queue| > 0
  {
    var first := s.outbox.queue[0];
    s.(outbox := s.outbox.(queue := s.outbox.queue[1..], bytes := Minus(s.outbox.bytes, first.bytes),
                           taken := s.outbox.taken + [first]))
  }

  // Work tokens and retained terminals.

  /** The worst case a terminal can occupy: a full frame, the request fingerprint, a digest text. */
  function Reservation(lim: Limits, fingerprint: string): nat {
    lim.maxFrame + |fingerprint| + Digest.CANONICAL_SHA256_TEXT_BYTES
  }

  function ReserveTerminalReplay(lim: Limits, ledger: Ledger, workId: string, fingerprint: string): Option<nat> {
    var metadata := |fingerprint| + Digest.CANONICAL_SHA256_TEXT_BYTES;
    if workId == "" || |ledger.replay| + |ledger.tokens| >= lim.maxReplay then None
    else if lim.maxFrame > SIZE_MAX - metadata then None
    else if !FitsByteBudget(ledger.bytes, lim.maxFrame + metadata, lim.maxReplayBytes) then None
    else Some(lim.maxFrame + metadata)
  }

  function AddToken(ledger: Ledger, workId: string, token: Token): Ledger {
    ledger.(tokens := ledger.tokens[workId := token], bytes := ledger.bytes + token.reservation)
  }

  function ReleaseWorkToken(ledger: Ledger, workId: string): Ledger {
    if workId !in ledger.tokens then ledger
    else
      var held := ledger.tokens[workId].reservation;
      ledger.(tokens := ledger.tokens - {workId}, bytes := if held <= ledger.bytes then ledger.bytes - held else 0)
  }

  function RememberReplay(ledger: Ledger, workId: string, entry: Entry): Ledger {
    var without := if workId in ledger.replay then Minus(ledger.bytes, ledger.replay[workId].bytes) else ledger.bytes;
    ledger.(replay := ledger.replay[workId := entry], bytes := without + entry.bytes)
  }

  /** Turns the job's own reservation into the retained entry, or takes a free identity slot. */
  function Retain(lim: Limits, ledger: Ledger, workId: string, ticket: nat, entry: Entry): (r: Option<Ledger>)
    ensures r.Some? ==> workId !in ledger.replay && r.value.replay == ledger.replay[workId := entry]
  {
    var converts := workId in ledger.tokens && ledger.tokens[workId].ticket == ticket
                    && ledger.tokens[workId].reservation != 0;
    var reservation := if converts then ledger.tokens[workId].reservation else 0;
    if workId in ledger.replay || reservation > ledger.bytes then None
    else if (!converts && |ledger.replay| + |ledger.tokens| >= lim.maxReplay)
         || !FitsByteBudget(ledger.bytes - reservation, entry.bytes, lim.maxReplayBytes) then None
    else
      var freed := if converts then Ledger(ledger.tokens - {workId}, ledger.replay, ledger.bytes - reservation)
                   else ledger;
      Some(RememberReplay(freed, workId, entry))
  }

  datatype CommitResult = Committed | TooLarge | Unavailable

  predicate KindMatches(kind: Kind, body: Body) {
    (kind.Unary? && body.UnaryResponse?) || (kind.Operation? && body.OperationEvent?)
  }

  function EntryFor(lim: Limits, s: State, job: Job, frame: WorkFrame): Entry {
    var digest := lim.digest(frame);
    Entry(job.kind, job.fingerprint, frame, digest, FrameBytes(lim, s, frame) + |job.fingerprint| + |digest|)
  }

  function CommitTerminal(lim: Limits, s: State, job: Job, frame: WorkFrame): (r: (State, CommitResult))
    ensures r.0 == s.(outbox := r.0.outbox, ledger := r.0.ledger) && r.0.outbox.taken == s.outbox.taken
    ensures r.1.Committed? ==> job.workId !in s.ledger.replay && job.workId in r.0.ledger.replay && Sendable(s)
    ensures !r.1.Committed? ==> r.0 == s
  {
    hide Retain, EntryFor, FrameBytes;
    var bytes := FrameBytes(lim, s, frame);
    if bytes > lim.maxFrame then (s, TooLarge)
    else if !Sendable(s) || !RoomFor(lim, s, bytes) then (s, Unavailable)
    else if !KindMatches(job.kind, frame.body) || !Encodable(frame) then (s, Unavailable)
    else
      var ledger := Retain(lim, s.ledger, job.workId, job.ticket, EntryFor(lim, s, job, frame));
      if ledger.None? then (s, Unavailable) else (Push(s.(ledger := ledger.value), frame, bytes), Committed)
  }

  function EraseWorkToken(s: State, workId: string): State {
    s.(ledger := ReleaseWorkToken(s.ledger, workId))
  }

  function ReservedBytes(token: Token): nat { token.reservation }
  function EntryBytes(entry: Entry): nat { entry.bytes }

  /** What releasing the tokens one by one amounts to, whatever the order. */
  ghost function ReleaseAllTokens(ledger: Ledger): Ledger {
    var held := Total(ledger.tokens, ReservedBytes);
    ledger.(tokens := map[], bytes := if held <= ledger.bytes then ledger.bytes - held else 0)
  }

  // Admission.

  datatype ContextCheck = Valid(binding: nat, endpoint: Endpoint) | Faulty(fault: ContextFault)

  /** `expired` tells whether the clock has passed the deadline, if there is one. */
  function ValidateWorkContext(s: State, context: Context, fingerprint: string, kind: Kind,
                               expired: bool): (r: ContextCheck)
    ensures r.Valid? ==>
              && s.link.accepting && context.capability in s.active && r.binding == s.active[context.capability].binding
              && context.endpoint in s.active[context.capability].endpoints
              && r.endpoint == s.active[context.capability].endpoints[context.endpoint] && r.endpoint.mode == kind
  {
    if !s.link.accepting || s.link.phase != Ready || s.link.failed then Faulty(LinkNotReady)
    else if context.revision != (if s.current.Some? then s.current.value.revision else 0) then Faulty(StaleRevision)
    else if context.capability !in s.active then Faulty(NoContract)
    else
      var grant := s.active[context.capability];
      if context.endpoint !in grant.endpoints || context.contract != grant.contract then Faulty(NoContract)
      else
        var endpoint := grant.endpoints[context.endpoint];
        if endpoint.mode != kind then Faulty(WrongMode)
        else if endpoint.deadlineRequired && !context.hasDeadline then Faulty(NoDeadline)
        else if context.hasDeadline && expired then Faulty(DeadlineExpired)
        else if endpoint.keyRequired && !context.hasKey then Faulty(NoIdempotencyKey)
        else if !Digest.IsCanonicalSha256(fingerprint) then Faulty(BadRequestDigest)
        else if !context.subjectOk then Faulty(BadSubject)
        else Valid(grant.binding, endpoint)
  }

  datatype Verdict = Admitted | Replay(frame: WorkFrame) | Reject(complaint: Complaint) | IdentityViolation | RetirePair

  /** The job was queued under a ticket never used before. */
  predicate Queues(s: State, t: State, job: Job) {
    && t.nextTicket == s.nextTicket + 1 && |t.dispatch| == |s.dispatch| + 1
    && var admitted := t.dispatch[|s.dispatch|];
    && t.dispatch == s.dispatch + [admitted] && admitted.ticket == s.nextTicket
    && admitted.kind == job.kind && admitted.workId == job.workId && admitted.fingerprint == job.fingerprint
  }

  function EnqueueDispatch(lim: Limits, s: State, job: Job): (r: (State, Verdict))
    ensures r.0 == s.(ledger := r.0.ledger, dispatch := r.0.dispatch, dispatchBytes := r.0.dispatchBytes,
                      nextTicket := r.0.nextTicket)
    ensures if r.1.Admitted? then Queues(s, r.0, job) else r.0 == s
  {
    var id := job.workId;
    if id != "" && id in s.ledger.replay then
      var entry := s.ledger.replay[id];
      if entry.kind == job.kind && entry.fingerprint == job.fingerprint then (s, Replay(entry.frame))
      else (s, IdentityViolation)
    else if id == "" then (s, IdentityViolation)
    else if !s.link.accepting || s.link.phase != Ready then (s, Reject(NotReadyForWork))
    else if id in s.ledger.tokens || id in s.sources.live then (s, IdentityViolation)
    else if |s.dispatch| >= lim.maxDispatch then (s, Reject(DispatchFull))
    else if !FitsByteBudget(s.dispatchBytes, job.bytes, lim.maxDispatchBytes) then (s, Reject(DispatchOverBudget))
    else
      var reservation := ReserveTerminalReplay(lim, s.ledger, id, job.fingerprint);
      if reservation.None? then (s, RetirePair)
      else
        var admitted := job.(ticket := s.nextTicket, reservation := reservation.value);
        (s.(ledger := AddToken(s.ledger, id, Token(s.nextTicket, reservation.value)),
            dispatch := s.dispatch + [admitted], dispatchBytes := s.dispatchBytes + job.bytes,
            nextTicket := s.nextTicket + 1), Admitted)
  }

  function SourceBytes(lim: Limits, job: Job): nat {
    job.bytes + Reservation(lim, job.fingerprint)
  }

  predicate SourceFits(lim: Limits, s: State, job: Job) {
    && |s.sources.live| + |s.sources.closed| < lim.maxTombstones
    && SourceBytes(lim, job) <= SIZE_MAX
    && FitsByteBudget(s.sources.bytes, SourceBytes(lim, job), lim.maxSourceBytes)
  }

  predicate SameEndpoint(source: Source, job: Job) {
    source.context.capability == job.context.capability && source.context.endpoint == job.context.endpoint
  }

  function StreamsAt(s: State, job: Job): nat {
    |set id | id in s.sources.live && SameEndpoint(s.sources.live[id], job)|
  }

  /** The checks of a source open after its identity was found unused. */
  function JudgeSourceOpen(lim: Limits, s: State, job: Job, expired: bool): (v: Verdict)
    ensures v.Admitted? || v.Reject? || v.RetirePair?
    ensures v.Admitted? ==>
              && ValidateWorkContext(s, job.context, job.fingerprint, SourceOpen, expired).Valid?
                  && SourceFits(lim, s, job)
              && |s.sources.live| < lim.maxStreams && |s.dispatch| < lim.maxDispatch
              && FitsByteBudget(s.dispatchBytes, job.bytes, lim.maxDispatchBytes)
  {
    hide ValidateWorkContext;
    if job.context.capability == "" || job.context.endpoint == "" then Reject(OpenBadIdentity)
    else if job.credit.messages == 0 || job.credit.bytes == 0 then Reject(OpenNoCredit)
    else
      var valid := ValidateWorkContext(s, job.context, job.fingerprint, SourceOpen, expired);
      if valid.Faulty? then Reject(OpenBadContext(valid.fault))
      else if SourceOpen !in s.active[job.context.capability].handlers then Reject(OpenNoHandler)
      else if |s.sources.live| + |s.sources.closed| >= lim.maxTombstones then RetirePair
      else if |s.sources.live| >= lim.maxStreams then Reject(OpenStreamLimit)
      else if valid.endpoint.maxStreams > 0
          && StreamsAt(s, job) >= valid.endpoint.maxStreams then Reject(OpenEndpointLimit)
      else if |s.dispatch| >= lim.maxDispatch then Reject(OpenDispatchFull)
      else if !FitsByteBudget(s.dispatchBytes, job.bytes, lim.maxDispatchBytes) then Reject(OpenDispatchOverBudget)
      else if !SourceFits(lim, s, job) then RetirePair
      else Admitted
  }

  function NewSource(s: State, lim: Limits, job: Job, endpoint: Endpoint, binding: nat): Source {
    Source(s.nextTicket, job.fingerprint, job.context, endpoint, binding, false, s.link.epoch,
           Credit(0, 0), 0, 0, SourceBytes(lim, job))
  }

  const NO_ENDPOINT := Endpoint(SourceOpen, false, false, 0, 0, 0, 0, 0)

  function AdmitSource(lim: Limits, s: State, job: Job, endpoint: Endpoint, binding: nat): (t: State)
    ensures t == s.(sources := t.sources, dispatch := t.dispatch, dispatchBytes := t.dispatchBytes,
            nextTicket := t.nextTicket)
    ensures Queues(s, t, job) && job.workId in t.sources.live
  {
    var source := NewSource(s, lim, job, endpoint, binding);
    s.(sources := s.sources.(live := s.sources.live[job.workId := source], bytes := s.sources.bytes + source.bytes),
       dispatch := s.dispatch + [job.(ticket := s.nextTicket, epoch := s.link.epoch)],
       dispatchBytes := s.dispatchBytes + job.bytes, nextTicket := s.nextTicket + 1)
  }

  /** A refused open is accounted for like any other and kept as a tombstone. */
  function RefuseSource(lim: Limits, s: State, job: Job, complaint: Complaint, wire: seq<Byte>): (r: Option<State>)
    ensures r.Some? ==>
              && r.value == s.(sources := r.value.sources, outbox := r.value.outbox, nextTicket := s.nextTicket + 1)
              && r.value.outbox.taken == s.outbox.taken && job.workId in r.value.sources.closed
  {
    hide CommitSourceTerminal, Entomb, Explain;
    if !SourceFits(lim, s, job) then None
    else
      var source := NewSource(s, lim, job, NO_ENDPOINT, 0);
      var held := s.(sources := s.sources.(bytes := s.sources.bytes + source.bytes), nextTicket := s.nextTicket + 1);
      CommitSourceTerminal(lim, held, job.workId, source, RefusalFrame(job.workId, complaint, wire))
  }

  /** `wire` encodes the rejecting result, should there be one. */
  function EnqueueSourceOpen(lim: Limits, s: State, job: Job, expired: bool, wire: seq<Byte>): (r: (State, Verdict))
    ensures r.0 == s.(sources := r.0.sources, outbox := r.0.outbox, dispatch := r.0.dispatch,
                      dispatchBytes := r.0.dispatchBytes, nextTicket := r.0.nextTicket)
    ensures r.0.outbox.taken == s.outbox.taken
    ensures r.1.Admitted? ==> Queues(s, r.0, job) && job.workId in r.0.sources.live
    ensures r.1.Reject? ==> r.0.nextTicket == s.nextTicket + 1 && r.0.dispatch == s.dispatch
    ensures !r.1.Admitted? && !r.1.Reject? ==> r.0 == s
    ensures r.1.Replay? ==> job.workId in s.sources.closed && r.1.frame == s.sources.closed[job.workId].frame
    ensures r.1.Reject? ==> job.workId in r.0.sources.closed
  {
    hide ValidateWorkContext, JudgeSourceOpen, AdmitSource, RefuseSource, Queues;
    var id := job.workId;
    if id != "" && id in s.sources.closed then
      if s.sources.closed[id].fingerprint == job.fingerprint then (s, Replay(s.sources.closed[id].frame))
      else (s, IdentityViolation)
    else if id == "" || id in s.sources.live || id in s.ledger.tokens || id in s.ledger.replay then
      (s, IdentityViolation)
    else
      var verdict := JudgeSourceOpen(lim, s, job, expired);
      if verdict.Admitted? then
        var valid := ValidateWorkContext(s, job.context, job.fingerprint, SourceOpen, expired);
        (AdmitSource(lim, s, job, valid.endpoint, valid.binding), Admitted)
      else if verdict.RetirePair? then (s, RetirePair)
      else
        var refused := RefuseSource(lim, s, job, verdict.complaint, wire);
        if refused.None? then (s, RetirePair) else (refused.value, verdict)
  }

  function RefusalFrame(id: string, complaint: Complaint, wire: seq<Byte>): WorkFrame {
    WorkFrame(SourceOpenResult(id, false, None, Some(Explain(complaint))), wire)
  }

  // Source streams.

  function Entomb(lim: Limits, source: Source, frame: WorkFrame): Tombstone {
    Tombstone(source.ticket, source.epoch, source.sequence, source.acknowledged, source.fingerprint,
              lim.digest(frame), frame, source.bytes)
  }

  function RememberClosedSource(lim: Limits, s: State, id: string, source: Source, frame: WorkFrame): State {
    s.(sources := s.sources.(closed := s.sources.closed[id := Entomb(lim, source, frame)]))
  }

  /** Queues a terminal frame of a source and keeps it as a tombstone. */
  function CommitSourceTerminal(lim: Limits, s: State, id: string, source: Source, frame: WorkFrame): (r: Option<State>)
    ensures r.Some? ==>
              && Sendable(s) && (frame.body.SourceOpenResult? || frame.body.SourceClose?) && frame.body.streamId == id
              && r.value == RememberClosedSource(lim, s, id, source, frame).(outbox := r.value.outbox)
              && r.value.outbox.taken == s.outbox.taken
  {
    if id == "" || !(frame.body.SourceOpenResult? || frame.body.SourceClose?) || frame.body.streamId != id
       || !Encodable(frame) || lim.maxFrame == 0 || FrameBytes(lim, s, frame) > lim.maxFrame then None
    else
      var queued := QueueWork(lim, s, frame);
      if queued.None? then None else Some(RememberClosedSource(lim, queued.value, id, source, frame))
  }

  function SetLive(s: State, id: string, source: Source): State {
    s.(sources := s.sources.(live := s.sources.live[id := source]))
  }

  function DropLive(s: State, id: string): State {
    s.(sources := s.sources.(live := s.sources.live - {id}))
  }

  function SaturatedBytes(items: seq<seq<Byte>>): nat {
    if |items| == 0 then 0 else SaturatingAdd(SaturatedBytes(items[..|items| - 1]), |items[|items| - 1]|)
  }

  datatype WriteResult = Accepted | NotReady | UnknownStream | NoCredit | QueueFull | ChunkTooLarge

  predicate ChunkTooBig(endpoint: Endpoint, messages: nat, bytes: nat) {
    || (endpoint.maxChunkMessages > 0 && messages > endpoint.maxChunkMessages)
    || (endpoint.maxChunkBytes > 0 && bytes > endpoint.maxChunkBytes)
  }

  /** What an accepted publish leaves of a source's credit. */
  function Spend(source: Source, items: seq<seq<Byte>>): Source
    requires |items| <= source.credit.messages && SaturatedBytes(items) <= source.credit.bytes
  {
    source.(credit := Credit(source.credit.messages - |items|, source.credit.bytes - SaturatedBytes(items)),
            sequence := source.sequence + 1)
  }

  function PublishSource(lim: Limits, s: State, id: string, items: seq<seq<Byte>>, wire: seq<Byte>)
    : (r: (State, WriteResult))
    ensures r.0 == s.(sources := r.0.sources, outbox := r.0.outbox) && r.0.outbox.taken == s.outbox.taken
    ensures r.1.Accepted? ==> id in s.sources.live && s.sources.live[id].open
    ensures LiveKept(s, r.0)
    ensures !r.1.Accepted? ==> r.0 == s
  {
    if s.link.phase != Ready || !s.link.accepting || s.link.failed then (s, NotReady)
    else if id !in s.sources.live || s.sources.live[id].epoch != s.link.epoch then (s, UnknownStream)
    else if !s.sources.live[id].open then (s, NotReady)
    else
      var source, bytes := s.sources.live[id], SaturatedBytes(items);
      if bytes == 0 || ChunkTooBig(source.endpoint, |items|, bytes) then (s, ChunkTooLarge)
      else if source.credit.messages < |items| || source.credit.bytes < bytes then (s, NoCredit)
      else if |s.outbox.queue| >= lim.maxWorkQueue then (s, QueueFull)
      else
        var frame := WorkFrame(SourceData(id, source.sequence + 1, items), wire);
        if lim.maxFrame == 0 || FrameBytes(lim, s, frame) > lim.maxFrame then (s, ChunkTooLarge)
        else
          var queued := QueueWork(lim, s, frame);
          if queued.None? then (s, QueueFull)
          else
            (SetLive(queued.value, id, Spend(source, items)), Accepted)
  }

  predicate Closable(lim: Limits, s: State, id: string) {
    && id in s.sources.live && s.sources.live[id].open && s.sources.live[id].epoch == s.link.epoch
    && |s.outbox.queue| < lim.maxWorkQueue
  }

  function CloseFrame(s: State, id: string, problem: Option<AdapterError>, wire: seq<Byte>): WorkFrame
    requires id in s.sources.live
  {
    WorkFrame(SourceClose(id, s.sources.live[id].sequence, problem), wire)
  }

  lemma DropKeeps(s: State, t: State, id: string)
    requires t.sources.live == s.sources.live
    ensures LiveKept(s, DropLive(t, id))
  {
  }

  /** The terminal is queued, and the source moves from the live to the closed table. */
  function EndLive(lim: Limits, s: State, id: string, frame: WorkFrame): (r: Option<State>)
    requires id in s.sources.live
    ensures r.Some? ==> Sendable(s) && r.value == s.(sources := r.value.sources, outbox := r.value.outbox)
    ensures r.Some? ==> LiveKept(s, r.value) && r.value.outbox.taken == s.outbox.taken
  {
    hide CommitSourceTerminal, Entomb;
    var closed := CommitSourceTerminal(lim, s, id, s.sources.live[id], frame);
    if closed.None? then None
    else
      DropKeeps(s, closed.value, id);
      Some(DropLive(closed.value, id))
  }

  function CloseSource(lim: Limits, s: State, id: string, problem: Option<AdapterError>, wire: seq<Byte>)
    : (r: (State, bool))
    ensures r.0 == s.(sources := r.0.sources, outbox := r.0.outbox) && r.0.outbox.taken == s.outbox.taken
    ensures r.1 ==> id in s.sources.live && s.sources.live[id].open
    ensures LiveKept(s, r.0)
    ensures !r.1 ==> r.0 == s
  {
    hide EndLive, IsTypedError;
    if !Closable(lim, s, id) || s.link.failed || s.link.stopping || (problem.Some? && !IsTypedError(problem.value)) then
      (s, false)
    else
      var closed := EndLive(lim, s, id, CloseFrame(s, id, problem, wire));
      if closed.None? then (s, false) else (closed.value, true)
  }

  /** The second result is false when the frame is answered with a protocol error. */
  function GrantSourceCredit(s: State, id: string, acknowledged: nat, grant: Credit): (r: (State, bool))
    ensures r.0 == s.(sources := r.0.sources)
    ensures !r.1 ==> r.0 == s
    ensures r.1 ==> id in s.sources.live || id in s.sources.closed
  {
    if id == "" || grant.messages == 0 || grant.bytes == 0 then (s, false)
    else if id !in s.sources.live then
      if id !in s.sources.closed || s.sources.closed[id].epoch != s.link.epoch then (s, false)
      else
        var tombstone := s.sources.closed[id];
        if acknowledged < tombstone.acknowledged || acknowledged > tombstone.finalSequence then (s, false)
        else (s.(sources := s.sources.(closed := s.sources.closed[id := tombstone.(acknowledged := acknowledged)])),
            true)
    else
      var source := s.sources.live[id];
      if !source.open || source.epoch != s.link.epoch then (s, false)
      else if acknowledged < source.acknowledged || acknowledged > source.sequence then (s, false)
      else if grant.messages > U64_MAX - source.credit.messages
          || grant.bytes > U64_MAX - source.credit.bytes then (s, false)
      else
        var credit := Credit(source.credit.messages + grant.messages, source.credit.bytes + grant.bytes);
        (SetLive(s, id, source.(acknowledged := acknowledged, credit := credit)), true)
  }

  datatype Identity = WorkId(id: string) | StreamId(id: string) | NoIdentity

  function AcknowledgeTerminal(s: State, identity: Identity, digest: string): (r: (State, bool))
    ensures r.0 == s.(ledger := r.0.ledger, sources := r.0.sources)
    ensures r.0.ledger.tokens == s.ledger.tokens && r.0.sources.live == s.sources.live
    ensures !r.1 ==> r.0 == s
  {
    if !Digest.IsCanonicalSha256(digest) || identity.NoIdentity? || identity.id == "" then (s, false)
    else if identity.id in s.ledger.tokens || identity.id in s.sources.live then (s, false)
    else if identity.WorkId? then AcknowledgeWork(s, identity.id, digest)
    else AcknowledgeStream(s, identity.id, digest)
  }

  function AcknowledgeWork(s: State, id: string, digest: string): (State, bool) {
    if id in s.sources.closed then (s, false)
    else if id !in s.ledger.replay then (s, true)
    else if s.ledger.replay[id].digest != digest then (s, false)
    else (s.(ledger := s.ledger.(replay := s.ledger.replay - {id},
                                 bytes := Minus(s.ledger.bytes, s.ledger.replay[id].bytes))), true)
  }

  function AcknowledgeStream(s: State, id: string, digest: string): (State, bool) {
    if id in s.ledger.replay then (s, false)
    else if id !in s.sources.closed then (s, true)
    else if s.sources.closed[id].digest != digest then (s, false)
    else
      var held := s.sources.closed[id].bytes;
      (s.(sources := s.sources.(closed := s.sources.closed - {id},
                                bytes := if held <= s.sources.bytes then s.sources.bytes - held else 0)), true)
  }

  datatype CancelResult = CancelDone | CancelViolation | CancelFailsPair | CancelNotifies(ticket: nat)

  /** The Host's reason is passed on if it is canonical text. */
  function PeerCancelled(reason: string): AdapterError {
    MakeError(ErrorClass.Cancelled, PEER_CANCELLED, if CanonicalText(reason) then reason else HOST_CANCELLED)
  }

  function HandleCancellation(lim: Limits, s: State, identity: Identity, reason: string, wire: seq<Byte>)
    : (r: (State, CancelResult))
    ensures r.0 == s.(sources := r.0.sources, outbox := r.0.outbox, cancelled := r.0.cancelled)
    ensures r.0.outbox.taken == s.outbox.taken && s.cancelled <= r.0.cancelled
    ensures r.1.CancelNotifies? ==>
              && identity.StreamId? && identity.id in s.sources.live && identity.id in r.0.sources.closed
              && r.1.ticket == s.sources.live[identity.id].ticket && s.sources.live[identity.id].open
    ensures !r.1.CancelNotifies? ==> r.0 == s.(cancelled := r.0.cancelled)
  {
    hide CommitSourceTerminal, PeerCancelled, Entomb;
    match identity
    case NoIdentity => (s, CancelViolation)
    case WorkId(id) =>
      if id == "" then (s, CancelViolation)
      else if id in s.ledger.tokens then (s.(cancelled := s.cancelled + {s.ledger.tokens[id].ticket}), CancelDone)
      else (s, CancelDone)
    case StreamId(id) =>
      if id == "" then (s, CancelViolation)
      else if id !in s.sources.live then
        var known := id in s.sources.closed && s.sources.closed[id].epoch == s.link.epoch;
        (s, if known then CancelDone else CancelViolation)
      else if s.sources.live[id].epoch != s.link.epoch then (s, CancelViolation)
      else
        var source := s.sources.live[id];
        var flagged := s.(cancelled := s.cancelled + {source.ticket});
        if !source.open then (flagged, CancelDone)
        else if |s.outbox.queue| >= lim.maxWorkQueue then (flagged, CancelFailsPair)
        else
          var closed := EndLive(lim, flagged, id, CloseFrame(flagged, id, Some(PeerCancelled(reason)), wire));
          if closed.None? then (flagged, CancelFailsPair) else (closed.value, CancelNotifies(source.ticket))
  }

  datatype OpenResult = OpenGone | OpenFailsPair | Opened | OpenRefused(notify: bool)

  function OpenFrame(id: string, decision: OpenDecision, wire: seq<Byte>): WorkFrame {
    WorkFrame(SourceOpenResult(id, decision.accepted,
                               if decision.accepted && decision.hasInitial then Some(decision.initial) else None,
                               if decision.accepted then None else Some(decision.error)), wire)
  }

  /** The section after the open handler: the source must still be the one the job was queued for. */
  function SettleSourceOpen(lim: Limits, s: State, job: Job, decision: OpenDecision, wire: seq<Byte>)
    : (r: (State, OpenResult))
    ensures r.0 == s.(sources := r.0.sources, outbox := r.0.outbox) && r.0.outbox.taken == s.outbox.taken
    ensures LiveKept(s, r.0)
    ensures r.1.Opened? || r.1.OpenRefused? ==>
              job.workId in s.sources.live && s.sources.live[job.workId].ticket == job.ticket
    ensures !r.1.Opened? && !r.1.OpenRefused? ==> r.0 == s
  {
    hide EndLive, QueueWork, FrameBytes;
    var id := job.workId;
    if id !in s.sources.live || s.sources.live[id].epoch != job.epoch || s.sources.live[id].ticket != job.ticket then
      (s, OpenGone)
    else if s.link.failed || s.link.stopping || s.link.epoch != job.epoch then (s, OpenGone)
    else if |s.outbox.queue| >= lim.maxWorkQueue then (s, OpenFailsPair)
    else
      var source, frame := s.sources.live[id], OpenFrame(id, decision, wire);
      if decision.accepted then
        var queued := QueueWork(lim, s, frame);
        if lim.maxFrame == 0 || FrameBytes(lim, s, frame) > lim.maxFrame || queued.None? then (s, OpenFailsPair)
        else (SetLive(queued.value, id, source.(open := true, credit := job.credit)), Opened)
      else
        var closed := EndLive(lim, s, id, frame);
        if closed.None? then (s, OpenFailsPair) else (closed.value, OpenRefused(decision.error.class_.Cancelled?))
  }

  // Deactivation and pair replacement.

  function Deactivate(s: State): State {
    CancelAll(s.(link := s.link.(accepting := false))).(sources := Sources(map[], map[], 0), current := None,
        active := map[])
  }

  function RetirePairTables(s: State): State {
    CancelAll(s.(link := s.link.(accepting := false))).(
      sources := s.sources.(live := map[]), dispatch := [], dispatchBytes := 0)
  }

  ghost function ClearConnection(s: State): State {
    s.(link := s.link.(failed := false, accepting := false, attachAllowed := false, attachEpoch := 0,
        pairReady := false),
       ledger := ReleaseAllTokens(s.ledger), outbox := ClearOutbox(s.outbox), dispatch := [], dispatchBytes := 0)
  }

  ghost function PreparePair(s: State): State {
    var cleared := ClearConnection(s);
    cleared.(sources := cleared.sources.(closed := map[], bytes := 0),
             link := cleared.link.(phase := if s.link.epoch == 1 then Registered else Reconnecting))
  }

  function NextEpoch(s: State): State {
    if s.link.epoch == U64_MAX then s.(link := s.link.(terminal := true))
    else s.(link := s.link.(epoch := s.link.epoch + 1, phase := Reconnecting))
  }

  function ResetSession(s: State): State {
    s.(link := Link(false, false, s.link.stopping, false, false, Stopped, 0, false, 0, false),
       ledger := Ledger(map[], map[], 0), outbox := ClearOutbox(s.outbox), dispatch := [], dispatchBytes := 0,
       sources := Sources(map[], map[], 0), current := None, desired := NO_SPEC, active := map[])
  }

  /** Registration succeeded: the session starts with its bootstrap spec as the desired one. */
  function InstallSession(lim: Limits, s: State): State {
    s.(link := s.link.(session := true, failed := false, accepting := false, phase := Registered, epoch := 1),
       outbox := ClearOutbox(s.outbox), dispatch := [], dispatchBytes := 0, sources := Sources(map[], map[], 0),
       desired := lim.bootstrap)
  }
}
