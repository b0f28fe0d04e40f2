/** The client as an interleaving of its threads. A run is a list of actions; each action lets
    one thread execute its next critical section or callback, with every outcome the environment
    can choose carried by the action. An action that is not enabled changes nothing. */
module Machine {
  import opened Base
  import opened Fips180
  import opened Protocol
  import opened Complaints
  import opened Results
  import opened Core

  // Histories: what the client did, in order. Nothing in the client reads them.

  datatype Callback =
    | ApplySpec | ClearSpec | CommitSpec
    | Start(binding: nat) | Stop(binding: nat) | ReadyCall(binding: nat)
    | Enter(binding: nat) | Leave(binding: nat)

  /** One source admission: its queued frames, where among them its terminal is, all credit granted
      to it and every sequence number the Host acknowledged. */
  datatype Story = Story(
    id: string, endpoint: Endpoint, frames: seq<WorkFrame>, end: Option<nat>, granted: Credit, acks: seq<nat>)

  /** A pause before a retry: how many retries preceded it since the last ready pair, and its length. */
  datatype Pause = Pause(retries: nat, delay: nat)

  /** The terminal of the job of this ticket was retained. */
  datatype Settlement = Settlement(ticket: nat, workId: string)

  /** `released` lists the digests that freed a retained terminal, by work id; `answeredBy` gives the
      endpoint that ran for a retained terminal, if any did, and `answered` the jobs whose terminal was
      retained. `epochs` are those of the pairs opened, `ready` counts the pairs the supervisor found ready,
      and `entered` lists the tickets of the jobs whose handler was entered. */
  datatype History = History(
    trace: seq<Callback>, committed: seq<Spec>, stories: map<nat, Story>,
    pending: multiset<nat>, notices: seq<nat>, closedLocally: set<nat>,
    released: map<string, seq<string>>, answeredBy: map<string, Option<Endpoint>>, answered: set<Settlement>,
    epochs: seq<nat>, ready: nat, pauses: seq<Pause>, lost: nat, registrations: nat, resets: nat, entered: seq<nat>)

  // Program counters.

  datatype Worker =
    | Idle
    | Taken(job: Job)
    | Validating(job: Job)
    | Announcing(job: Job, binding: nat, endpoint: Endpoint, left: nat)
    | Calling(job: Job, binding: nat, endpoint: Endpoint)
    | Committing(job: Job, frame: WorkFrame, fallback: Option<WorkFrame>, counted: bool, ranOn: Option<Endpoint>)
    | Failing(job: Job, counted: bool)
    | Erasing(job: Job)
    | Leaving
    | Finishing(job: Job)
    | OpenReading(job: Job)
    | OpenEntering(job: Job, binding: nat, endpoint: Endpoint)
    | OpenCalling(job: Job, binding: nat, endpoint: Endpoint)
    | OpenSettling(job: Job, decision: OpenDecision, wire: seq<Byte>, endpoint: Endpoint)
    | OpenFailing(job: Job)
    | OpenFinishing(job: Job, counted: bool)

  datatype Reader =
    | Listening
    | Sending(frame: WorkFrame, ticket: nat)
    | Retaining(job: Job, frame: WorkFrame)
    | Signalling
    | ReaderClosed

  datatype Next = ThenApply(spec: Spec) | ThenFail | ThenLost | ThenReset

  datatype Lifecycle =
    | Resting
    | Quiescing(spec: Spec)
    | Checking(spec: Spec)
    | Clearing(next: Next)
    | Awaiting(bindings: seq<nat>, hadSpec: bool, next: Next)
    | Halting(bindings: seq<nat>, hadSpec: bool, next: Next)
    | Applying(spec: Spec)
    | Starting(spec: Spec, started: nat)
    | Unwinding(spec: Spec, started: nat, stale: bool)
    | Settling(spec: Spec)
    | Readying(spec: Spec, called: nat)
    | Publishing(spec: Spec)
    | Abandoning
    | Reporting(outcome: Outcome)

  /** The result of a spec transaction; a refusal carries its error code. */
  datatype Outcome = Applied(spec: Spec) | Refused(code: string)

  const INVALID_SPEC := "invalid-instance-spec"
  const STALE_SESSION := "stale-session"
  const CONTENT_MISMATCH := "spec-content-mismatch"
  const STALE_REVISION := "stale-spec-revision"
  const INITIAL_MISMATCH := "initial-spec-mismatch"
  const APPLY_FAILED := "spec-apply-failed"
  const READY_FAILED := "ready-callback-failed"

  predicate IsTerminalSpecFailure(code: string) {
    code == INVALID_SPEC || code == CONTENT_MISMATCH || code == INITIAL_MISMATCH || code == READY_FAILED
  }

  /** Where the supervisor stands. */
  datatype Pair =
    | Unregistered | Registering | Armed | Preparing | Open | Retiring | Quiesced | Released | Closed
    | Judging | Losing | Breaking | Over

  /** The supervisor's own variables and the two flags only it uses. */
  datatype Supervisor = Supervisor(
    registered: bool, used: nat, delay: nat, wasReady: bool, lostReported: bool)

  datatype ControlFrame = SpecResult(outcome: Outcome) | OtherControl
  datatype ControlWriter = CtlWaiting | CtlWriting(frame: ControlFrame) | CtlGate | CtlStopped
  datatype Writer =
    | Absent | Opening | Attaching | Greeting | Pumping | Writing(entry: Queued) | WriterStopped
  /** A frame on the Work stream; the attach frame has no queued contents. */
  datatype Stamped = Stamped(epoch: nat, sequence: nat, frame: Option<WorkFrame>)

  datatype Transport = Transport(
    control: seq<ControlFrame>, ctl: ControlWriter, controlOut: nat, reported: Option<Spec>,
    workOpen: bool, writer: Writer, workOut: nat, written: seq<Stamped>, workIn: nat, heard: seq<nat>)

  datatype System = System(
    core: State, inFlight: nat, busy: nat, workers: seq<Worker>, reader: Reader, life: Lifecycle,
    pair: Pair, sup: Supervisor, wire: Transport, history: History)

  const NEW_TRANSPORT := Transport([], CtlWaiting, 0, None, false, Absent, 0, [], 0, [])

  // Actions.

  datatype HostFrame =
    | WorkRequest(job: Job)
    | OpenRequest(job: Job)
    | CreditFrame(id: string, acknowledged: nat, grant: Credit)
    | CancelFrame(identity: Identity, reason: string)
    | AckFrame(identity: Identity, digest: string)
    | EmptyFrame
    | HostError

  /** What the environment decides at a worker's step: clock and schema checks, handler results,
      and the encodings of the frames the step builds. */
  datatype WorkerInput = WorkerInput(
    expired: bool, inputOk: bool, unary: Handler<UnaryResult>, operation: Handler<OperationResult>,
    open: Handler<OpenDecision>, wire: seq<Byte>, spare: seq<Byte>)

  datatype Action =
    | Inbound(sequence: nat, authentic: bool, frame: HostFrame, expired: bool, wire: seq<Byte>)
    | ReaderMove
    | WorkerMove(worker: nat, input: WorkerInput)
    | Publish(id: string, items: seq<seq<Byte>>, wire: seq<Byte>)
    | Close(id: string, problem: Option<AdapterError>, wire: seq<Byte>)
    | Notify(ticket: nat)
    | BeginApply(spec: Spec)
    | LifeMove(ok: bool, order: seq<string>)
    | Fail | FailTerminally | FailDrain | Drain | StopClient
    | Register | FinishRegister(ok: bool)
    | CheckStop | Prepare | Retire | Quiesce | Release | Clear | Judge | Teardown | JoinAll
    | CtlTake | CtlBeat | CtlWrite(ok: bool) | CtlOpenGate | OpenWork | WriterMove(ok: bool)

  // Whose step it is: the Work reader's, a call of the application, the supervisor's, a writer's, or a request
  // that any thread may make.

  predicate OfReader(a: Action) { a.Inbound? || a.ReaderMove? }
  predicate OfApp(a: Action) { a.Publish? || a.Close? }
  predicate OfRegistration(a: Action) { a.Register? || a.FinishRegister? }

  predicate OfPair(a: Action) {
    a.CheckStop? || a.Prepare? || a.Retire? || a.Quiesce? || a.Release? || a.Clear? || a.Judge? || a.JoinAll?
  }

  predicate OfWire(a: Action) {
    a.CtlTake? || a.CtlBeat? || a.CtlWrite? || a.CtlOpenGate? || a.OpenWork? || a.WriterMove?
  }

  predicate OfRequest(a: Action) {
    a.Notify? || a.BeginApply? || a.Teardown? || a.Fail? || a.FailTerminally? || a.FailDrain? || a.Drain?
    || a.StopClient?
  }

  // Small helpers.

  function Dec(n: nat): nat { Minus(n, 1) }

  function Log(sys: System, event: Callback): System {
    sys.(history := sys.history.(trace := sys.history.trace + [event]))
  }

  /** The handler of `binding` is entered for the job of this ticket. */
  function LogEntry(sys: System, binding: nat, ticket: nat): System {
    var logged := Log(sys, Enter(binding));
    logged.(history := logged.history.(entered := logged.history.entered + [ticket]))
  }

  function SetWorker(sys: System, w: nat, pc: Worker): System
    requires w < |sys.workers|
  {
    sys.(workers := sys.workers[w := pc])
  }

  function Tell(history: History, ticket: nat, frame: WorkFrame): History {
    if ticket !in history.stories then history
    else
      var story := history.stories[ticket];
      history.(stories := history.stories[ticket := story.(frames := story.frames + [frame])])
  }

  /** Records a source's terminal frame. */
  function Conclude(history: History, ticket: nat, frame: WorkFrame): History {
    if ticket !in history.stories then history
    else
      var story := history.stories[ticket];
      var ended := story.(frames := story.frames + [frame], end := Some(|story.frames|));
      history.(stories := history.stories[ticket := ended])
  }

  function Credited(history: History, ticket: nat, credit: Credit, acks: seq<nat>): History {
    if ticket !in history.stories then history
    else
      var story := history.stories[ticket];
      var granted := Credit(story.granted.messages + credit.messages, story.granted.bytes + credit.bytes);
      history.(stories := history.stories[ticket := story.(granted := granted, acks := story.acks + acks)])
  }

  function Begin(history: History, ticket: nat, story: Story): History {
    history.(stories := history.stories[ticket := story])
  }

  /** The sources with these tickets are owed one `source_closed` notice each. */
  function Owe(history: History, tickets: set<nat>): History {
    history.(pending := history.pending + multiset(tickets))
  }

  /** A terminal of `workId` was retained; a job turned away by the reader has no ticket. */
  function Answer(history: History, workId: string, ranOn: Option<Endpoint>, ticket: nat): History {
    history.(answeredBy := history.answeredBy[workId := ranOn],
             answered := if ticket == 0 then history.answered else history.answered + {Settlement(ticket, workId)})
  }

  function Releases(history: History, workId: string): seq<string> {
    if workId in history.released then history.released[workId] else []
  }

  /** An acknowledgement freed the retained terminal of `workId`. */
  function Freed(history: History, workId: string, digest: string): History {
    history.(released := history.released[workId := Releases(history, workId) + [digest]])
  }

  function LiveTickets(core: State): set<nat> {
    set id | id in core.sources.live :: core.sources.live[id].ticket
  }

  // The Work reader.

  /** The reader touches the tables, its own program counter and the records of sources. */
  predicate ReaderFrame(sys: System, r: System) {
    && r == sys.(core := r.core, reader := r.reader, wire := r.wire, history := r.history)
    && r.history == sys.history.(stories := r.history.stories, pending := r.history.pending,
                                 released := r.history.released, answeredBy := r.history.answeredBy)
    && r.wire == sys.wire.(workIn := r.wire.workIn, heard := r.wire.heard)
    && SameSpec(sys.core, r.core) && SamePair(sys.core, r.core)
  }

  function Receive(lim: Limits, sys: System, sequence: nat, authentic: bool, frame: HostFrame, expired: bool,
                   wire: seq<Byte>): (r: System)
    ensures ReaderFrame(sys, r)
    ensures sys.pair != Open ==> r == sys
  {
    if sys.pair != Open || !sys.wire.workOpen || sys.reader != Listening then sys
    else if !authentic || sequence == 0 || sequence <= sys.wire.workIn then
      sys.(core := SignalTerminalFailure(sys.core), reader := ReaderClosed)
    else
      Handle(lim, sys.(wire := sys.wire.(workIn := sequence, heard := sys.wire.heard + [sequence])), frame, expired,
          wire)
  }

  function Violation(sys: System, wire: seq<Byte>): System {
    sys.(reader := Sending(WorkFrame(ProtocolError(sys.wire.workIn), wire), 0))
  }

  function Handle(lim: Limits, sys: System, frame: HostFrame, expired: bool, wire: seq<Byte>): (r: System)
    ensures ReaderFrame(sys, r) && r.wire == sys.wire
  {
    match frame
    case WorkRequest(job) => HandleWork(lim, sys, job, wire)
    case OpenRequest(job) => HandleOpen(lim, sys, job, expired, wire)
    case CreditFrame(id, acknowledged, grant) => HandleCredit(sys, id, acknowledged, grant, wire)
    case CancelFrame(identity, reason) => HandleCancel(lim, sys, identity, reason, wire)
    case AckFrame(identity, digest) => HandleAck(sys, identity, digest, wire)
    case EmptyFrame => Violation(sys, wire)
    case HostError => sys.(core := SignalTerminalFailure(sys.core), reader := ReaderClosed)
  }

  function HandleWork(lim: Limits, sys: System, job: Job, wire: seq<Byte>): (r: System)
    ensures ReaderFrame(sys, r) && r.wire == sys.wire
  {
    if job.kind.SourceOpen? then sys else
    var arrived := job.(ticket := 0, reservation := 0);
    var result := EnqueueDispatch(lim, sys.core, arrived);
    match result.1
    case Admitted => sys.(core := result.0)
    case Replay(frame) => sys.(reader := Sending(frame, 0))
    case Reject(complaint) =>
      sys.(reader := Retaining(arrived, WorkFrame(RejectedDispatch(job.kind, job.workId, Explain(complaint)), wire)))
    case IdentityViolation => Violation(sys, wire)
    case RetirePair => sys.(reader := Signalling)
  }

  function HandleOpen(lim: Limits, sys: System, job: Job, expired: bool, wire: seq<Byte>): (r: System)
    ensures ReaderFrame(sys, r) && r.wire == sys.wire
  {
    hide EnqueueSourceOpen;
    var id, ticket := job.workId, sys.core.nextTicket;
    var result := EnqueueSourceOpen(lim, sys.core, job.(kind := SourceOpen), expired, wire);
    match result.1
    case Admitted =>
      var endpoint := result.0.sources.live[id].endpoint;
      sys.(core := result.0, history := Begin(sys.history, ticket, Story(id, endpoint, [], None, Credit(0, 0), [])))
    case Replay(frame) => sys.(reader := Sending(frame, sys.core.sources.closed[id].ticket))
    case Reject(_) =>
      var frame := result.0.sources.closed[id].frame;
      var story := Story(id, NO_ENDPOINT, [frame], Some(0), Credit(0, 0), []);
      sys.(core := result.0, history := Begin(sys.history, ticket, story))
    case IdentityViolation => Violation(sys, wire)
    case RetirePair => sys.(reader := Signalling)
  }

  function HandleCredit(sys: System, id: string, acknowledged: nat, grant: Credit, wire: seq<Byte>): (r: System)
    ensures ReaderFrame(sys, r) && r.wire == sys.wire
  {
    hide GrantSourceCredit;
    var result := GrantSourceCredit(sys.core, id, acknowledged, grant);
    if !result.1 then Violation(sys, wire)
    else if id in sys.core.sources.live then
      sys.(core := result.0, history := Credited(sys.history, sys.core.sources.live[id].ticket, grant, [acknowledged]))
    else
      sys.(core := result.0,
           history := Credited(sys.history, sys.core.sources.closed[id].ticket, Credit(0, 0), [acknowledged]))
  }

  function HandleCancel(lim: Limits, sys: System, identity: Identity, reason: string, wire: seq<Byte>): (r: System)
    ensures ReaderFrame(sys, r) && r.wire == sys.wire
  {
    hide HandleCancellation;
    var result := HandleCancellation(lim, sys.core, identity, reason, wire);
    match result.1
    case CancelViolation => Violation(sys, wire)
    case CancelDone => sys.(core := result.0)
    case CancelFailsPair => sys.(core := result.0, reader := Signalling)
    case CancelNotifies(ticket) =>
      var frame := result.0.sources.closed[identity.id].frame;
      sys.(core := result.0, history := Owe(Conclude(sys.history, ticket, frame), {ticket}))
  }

  function HandleAck(sys: System, identity: Identity, digest: string, wire: seq<Byte>): (r: System)
    ensures ReaderFrame(sys, r) && r.wire == sys.wire
  {
    hide AcknowledgeTerminal;
    var result := AcknowledgeTerminal(sys.core, identity, digest);
    if !result.1 then Violation(sys, wire)
    else if identity.WorkId? && identity.id in sys.core.ledger.replay then
      sys.(core := result.0, history := Freed(sys.history, identity.id, digest))
    else sys.(core := result.0)
  }

  function MoveReader(lim: Limits, sys: System): (r: System)
    ensures ReaderFrame(sys, r) && r.wire == sys.wire
    ensures sys.reader.Listening? ==> r == sys
  {
    hide QueueWork, CommitTerminal;
    match sys.reader
    case Sending(frame, ticket) =>
      var queued := QueueWork(lim, sys.core, frame);
      if queued.None? then sys.(reader := Signalling)
      else sys.(core := queued.value, reader := Listening, history := Tell(sys.history, ticket, frame))
    case Retaining(job, frame) =>
      var result := CommitTerminal(lim, sys.core, job, frame);
      if result.1.Committed? then
        sys.(core := result.0, reader := Listening, history := Answer(sys.history, job.workId, None, 0))
      else sys.(reader := Signalling)
    case Signalling => sys.(core := SignalFailure(sys.core), reader := Listening)
    case _ => sys
  }

  // Dispatch workers.

  /** The worker is inside an application handler of `binding`. */
  predicate Inside(pc: Worker) { pc.Calling? || pc.OpenCalling? }

  /** The worker is inside such a handler or bound to enter it. */
  predicate Holding(pc: Worker) { pc.Announcing? || pc.Calling? || pc.OpenEntering? || pc.OpenCalling? }

  predicate IsBusy(pc: Worker) { !pc.Idle? }

  /** The worker is counted in `in_flight_work_`. */
  predicate IsCounted(pc: Worker) {
    || pc.Announcing? || pc.Calling? || pc.Finishing? || (pc.Committing? && pc.counted) || (pc.Failing? && pc.counted)
    || pc.OpenReading? || pc.OpenEntering? || pc.OpenCalling? || pc.OpenSettling? || pc.OpenFailing?
    || (pc.OpenFinishing? && pc.counted)
  }

  function Adjusted(n: nat, before: bool, after: bool): nat {
    if after && !before then n + 1 else if before && !after then Dec(n) else n
  }

  /** An active capability or a live source names the binding. */
  predicate Granted(core: State, binding: nat) {
    || (exists c :: c in core.active && core.active[c].binding == binding)
    || (exists id :: id in core.sources.live && core.sources.live[id].binding == binding)
  }

  /** What one step of a worker may do: its handler calls show in the trace, it comes to hold only
      a granted binding, and the counters follow its program counter. */
  predicate WorkerFrame(sys: System, r: System, w: nat) {
    && w < |sys.workers| == |r.workers| && r.workers == sys.workers[w := r.workers[w]]
    && r == sys.(core := r.core, inFlight := r.inFlight, busy := r.busy, workers := r.workers, history := r.history)
    && r.history == sys.history.(trace := r.history.trace, stories := r.history.stories,
                                 pending := r.history.pending, answeredBy := r.history.answeredBy,
                                 answered := r.history.answered, entered := r.history.entered)
    && SameSpec(sys.core, r.core) && SamePair(sys.core, r.core) && r.core.link.terminal == sys.core.link.terminal
    && WorkerMoves(sys, r, sys.workers[w], r.workers[w])
  }

  predicate WorkerMoves(sys: System, r: System, pc: Worker, next: Worker) {
    && r.inFlight == Adjusted(sys.inFlight, IsCounted(pc), IsCounted(next))
    && r.busy == Adjusted(sys.busy, IsBusy(pc), IsBusy(next))
    && LiveKept(sys.core, r.core)
    && (sys.core.dispatch == [] ==> r.core.dispatch == [] && (pc.Idle? ==> next.Idle? && r.core == sys.core))
    && (Holding(next) ==> (Holding(pc) && pc.binding == next.binding) || Granted(sys.core, next.binding))
    && (Inside(next) ==> Holding(pc) && pc.binding == next.binding) && (Inside(pc) ==> !Holding(next))
    && r.history.trace == sys.history.trace
         + (if Inside(pc) then [Leave(pc.binding)] else if Inside(next) then [Enter(next.binding)] else [])
    && r.history.entered == sys.history.entered + (if Inside(next) then [next.job.ticket] else [])
  }

  function AfterCommit(job: Job, counted: bool): Worker {
    if counted then Finishing(job) else Erasing(job)
  }

  function MoveWorker(lim: Limits, sys: System, w: nat, x: WorkerInput): (r: System)
    ensures w < |sys.workers| ==> WorkerFrame(sys, r, w)
    ensures w >= |sys.workers| ==> r == sys
  {
    hide TakeJob, Triage, Validate, Announce, EndCall, Commit, Depart, ReadOpen, EnterOpen, EndOpen, SettleOpen,
      WorkerMoves;
    if w >= |sys.workers| then sys
    else
      match sys.workers[w]
      case Idle => TakeJob(sys, w)
      case Taken(_) => Triage(sys, w, x)
      case Validating(_) => Validate(sys, w, x)
      case Announcing(_, _, _, _) => Announce(lim, sys, w, x)
      case Calling(_, _, _) => EndCall(sys, w, x)
      case Committing(_, _, _, _, _) => Commit(lim, sys, w)
      case OpenReading(_) => ReadOpen(sys, w)
      case OpenEntering(_, _, _) => EnterOpen(sys, w, x)
      case OpenCalling(_, _, _) => EndOpen(sys, w, x)
      case OpenSettling(_, _, _, _) => SettleOpen(lim, sys, w)
      case Failing(job, counted) => Depart(sys, w, AfterCommit(job, counted), SignalFailure(sys.core))
      case OpenFailing(job) => Depart(sys, w, OpenFinishing(job, true), SignalFailure(sys.core))
      case Erasing(job) => Depart(sys, w, Leaving, EraseWorkToken(sys.core, job.workId))
      case Leaving => Depart(sys, w, Idle, sys.core)
      case Finishing(job) => Depart(sys, w, Idle, EraseWorkToken(sys.core, job.workId))
      case OpenFinishing(_, _) => Depart(sys, w, Idle, sys.core)
  }

  /** The steps after a job is settled. A worker that goes idle leaves the counters it was in. */
  function Depart(sys: System, w: nat, next: Worker, core: State): (r: System)
    requires w < |sys.workers|
    requires sys.workers[w].Failing? || sys.workers[w].OpenFailing? || sys.workers[w].Erasing?
             || sys.workers[w].Leaving?
             || sys.workers[w].Finishing? || sys.workers[w].OpenFinishing?
    requires next.Idle? || (IsCounted(next) == IsCounted(sys.workers[w]) && !Holding(next))
    requires SameSpec(sys.core, core) && SamePair(sys.core, core) && core.link.terminal == sys.core.link.terminal
    requires core.sources == sys.core.sources && core.dispatch == sys.core.dispatch
    ensures WorkerFrame(sys, r, w) && r.workers[w] == next && r.core == core && r.history == sys.history
  {
    hide Granted;
    var counted := IsCounted(sys.workers[w]);
    var moved := SetWorker(sys, w, next).(core := core);
    if next.Idle? then
      moved.(busy := Dec(sys.busy), inFlight := if counted then Dec(sys.inFlight) else sys.inFlight)
    else moved
  }

  function TakeJob(sys: System, w: nat): (r: System)
    requires w < |sys.workers| && sys.workers[w].Idle?
    ensures WorkerFrame(sys, r, w)
  {
    if |sys.core.dispatch| == 0 then assert sys.workers == sys.workers[w := sys.workers[w]]; sys
    else
      var job := sys.core.dispatch[0];
      SetWorker(sys, w, Taken(job)).(
        busy := sys.busy + 1,
        core := sys.core.(dispatch := sys.core.dispatch[1..],
                          dispatchBytes := Minus(sys.core.dispatchBytes, job.bytes)))
  }

  function Triage(sys: System, w: nat, x: WorkerInput): (r: System)
    requires w < |sys.workers| && sys.workers[w].Taken?
    ensures WorkerFrame(sys, r, w)
  {
    if sys.workers[w].job.kind.SourceOpen? then TriageOpen(sys, w) else TriageWork(sys, w, x)
  }

  /** A source that is gone was cancelled, closed or retired meanwhile. */
  function TriageOpen(sys: System, w: nat): (r: System)
    requires w < |sys.workers| && sys.workers[w].Taken?
    ensures WorkerFrame(sys, r, w)
  {
    var job, live := sys.workers[w].job, sys.core.sources.live;
    if job.workId in live && live[job.workId].epoch == job.epoch && live[job.workId].ticket == job.ticket
    then SetWorker(sys, w, OpenReading(job)).(inFlight := sys.inFlight + 1)
    else SetWorker(sys, w, OpenFinishing(job, false))
  }

  function TriageWork(sys: System, w: nat, x: WorkerInput): (r: System)
    requires w < |sys.workers| && sys.workers[w].Taken?
    ensures WorkerFrame(sys, r, w)
  {
    var job := sys.workers[w].job;
    if job.ticket in sys.core.cancelled then
      SetWorker(sys, w, Committing(job, Rejection(job, CancelledEarly, x.wire), None, false, None))
    else SetWorker(sys, w, Validating(job))
  }

  function Rejection(job: Job, complaint: Complaint, wire: seq<Byte>): WorkFrame {
    WorkFrame(RejectedDispatch(job.kind, job.workId, Explain(complaint)), wire)
  }

  /** Context validation and the in-flight increment share one critical section. */
  function Validate(sys: System, w: nat, x: WorkerInput): (r: System)
    requires w < |sys.workers| && sys.workers[w].Validating?
    ensures WorkerFrame(sys, r, w)
  {
    var job := sys.workers[w].job;
    Validated(sys, w, x, ValidateWorkContext(sys.core, job.context, job.fingerprint, job.kind, x.expired))
  }

  function Validated(sys: System, w: nat, x: WorkerInput, valid: ContextCheck): (r: System)
    requires w < |sys.workers| && sys.workers[w].Validating?
    requires var (core, c) := (sys.core, sys.workers[w].job.context.capability);
             valid.Valid? ==> c in core.active && valid.binding == core.active[c].binding
    ensures WorkerFrame(sys, r, w)
  {
    hide RejectedDispatch;
    var job := sys.workers[w].job;
    if valid.Faulty? then
      SetWorker(sys, w, Committing(job, Rejection(job, BadContext(valid.fault), x.wire), None, false, None))
    else
      var counted := sys.(inFlight := sys.inFlight + 1);
      if !x.inputOk then
        var complaint := if job.kind.Unary? then UnaryBadInput else OperationBadInput;
        SetWorker(counted, w, Committing(job, Rejection(job, complaint, x.wire), None, true, None))
      else SetWorker(counted, w, Announcing(job, valid.binding, valid.endpoint, if job.kind.Unary? then 0 else 2))
  }

  /** An operation is announced as accepted and started before its handler is called. */
  function Announce(lim: Limits, sys: System, w: nat, x: WorkerInput): (r: System)
    requires w < |sys.workers| && sys.workers[w].Announcing?
    ensures WorkerFrame(sys, r, w)
  {
    hide QueueWork, Granted;
    var pc := sys.workers[w];
    if pc.left == 0 then
      LogEntry(SetWorker(sys, w, Calling(pc.job, pc.binding, pc.endpoint)), pc.binding, pc.job.ticket)
    else
      var phase := if pc.left == 1 then PhaseStarted else PhaseAccepted;
      var queued := QueueWork(lim, sys.core, WorkFrame(OperationEvent(pc.job.workId, phase, None, None), x.wire));
      if queued.None? then SetWorker(sys, w, Failing(pc.job, true))
      else SetWorker(sys, w, pc.(left := pc.left - 1)).(core := queued.value)
  }

  function EndCall(sys: System, w: nat, x: WorkerInput): (r: System)
    requires w < |sys.workers| && sys.workers[w].Calling?
    ensures WorkerFrame(sys, r, w)
  {
    hide UnaryReply, OperationTerminal, RejectedDispatch, Granted;
    var pc := sys.workers[w];
    var job := pc.job;
    var body := if job.kind.Unary?
      then UnaryResponse(job.workId, UnaryReply(x.unary, pc.endpoint, job.ticket in sys.core.cancelled))
      else OperationTerminal(job.workId, x.operation, pc.endpoint);
    var fallback := WorkFrame(TooLargeFallback(job.kind, job.workId), x.spare);
    Log(SetWorker(sys, w, Committing(job, WorkFrame(body, x.wire), Some(fallback), true, Some(pc.endpoint))),
        Leave(pc.binding))
  }

  function Commit(lim: Limits, sys: System, w: nat): (r: System)
    requires w < |sys.workers| && sys.workers[w].Committing?
    ensures WorkerFrame(sys, r, w)
  {
    var result := CommitTerminal(lim, sys.core, sys.workers[w].job, sys.workers[w].frame);
    Concluding(sys, w, result.0, result.1)
  }

  function Concluding(sys: System, w: nat, core: State, result: CommitResult): (r: System)
    requires w < |sys.workers| && sys.workers[w].Committing?
    requires core == sys.core.(outbox := core.outbox, ledger := core.ledger)
             && core.outbox.taken == sys.core.outbox.taken
    ensures WorkerFrame(sys, r, w)
  {
    var pc := sys.workers[w];
    if result.Committed? then
      SetWorker(sys, w, AfterCommit(pc.job, pc.counted)).(
        core := core, history := Answer(sys.history, pc.job.workId, pc.ranOn, pc.job.ticket))
    else if result.TooLarge? && pc.fallback.Some? then
      SetWorker(sys, w, pc.(frame := pc.fallback.value, fallback := None, ranOn := None))
    else SetWorker(sys, w, Failing(pc.job, pc.counted))
  }

  function ReadOpen(sys: System, w: nat): (r: System)
    requires w < |sys.workers| && sys.workers[w].OpenReading?
    ensures WorkerFrame(sys, r, w)
  {
    var job, live := sys.workers[w].job, sys.core.sources.live;
    if job.workId in live && live[job.workId].epoch == job.epoch
    then SetWorker(sys, w, OpenEntering(job, live[job.workId].binding, live[job.workId].endpoint))
    else SetWorker(sys, w, OpenFinishing(job, true))
  }

  function EnterOpen(sys: System, w: nat, x: WorkerInput): (r: System)
    requires w < |sys.workers| && sys.workers[w].OpenEntering?
    ensures WorkerFrame(sys, r, w)
  {
    hide Granted;
    var pc := sys.workers[w];
    if pc.job.ticket in sys.core.cancelled
    then SetWorker(sys, w, OpenSettling(pc.job, RefusedOpen(OpenCancelledEarly), x.wire, pc.endpoint))
    else LogEntry(SetWorker(sys, w, OpenCalling(pc.job, pc.binding, pc.endpoint)), pc.binding, pc.job.ticket)
  }

  function EndOpen(sys: System, w: nat, x: WorkerInput): (r: System)
    requires w < |sys.workers| && sys.workers[w].OpenCalling?
    ensures WorkerFrame(sys, r, w)
  {
    hide Granted, OpenOutcome;
    var pc := sys.workers[w];
    var decision := OpenOutcome(x.open, pc.endpoint, pc.job.ticket in sys.core.cancelled);
    Log(SetWorker(sys, w, OpenSettling(pc.job, decision, x.wire, pc.endpoint)), Leave(pc.binding))
  }

  function SettleOpen(lim: Limits, sys: System, w: nat): (r: System)
    requires w < |sys.workers| && sys.workers[w].OpenSettling?
    ensures WorkerFrame(sys, r, w)
  {
    var pc := sys.workers[w];
    var result := SettleSourceOpen(lim, sys.core, pc.job, pc.decision, pc.wire);
    OpenSettled(sys, w, result.0, result.1)
  }

  function OpenSettled(sys: System, w: nat, core: State, result: OpenResult): (r: System)
    requires w < |sys.workers| && sys.workers[w].OpenSettling?
    requires core == sys.core.(sources := core.sources, outbox := core.outbox)
             && core.outbox.taken == sys.core.outbox.taken
    requires LiveKept(sys.core, core)
    ensures WorkerFrame(sys, r, w)
  {
    var pc := sys.workers[w];
    var job := pc.job;
    var frame, done := OpenFrame(job.workId, pc.decision, pc.wire), SetWorker(sys, w, OpenFinishing(job, true));
    match result
    case OpenGone => done
    case OpenFailsPair => SetWorker(sys, w, OpenFailing(job))
    case Opened =>
      done.(core := core, history := Credited(Tell(sys.history, job.ticket, frame), job.ticket, job.credit, []))
    case OpenRefused(notify) =>
      done.(core := core, history := Owe(Conclude(sys.history, job.ticket, frame), if notify then {job.ticket} else {}))
  }

  // Calls from the application.

  /** What calls of the application on its sources may change. */
  predicate AppFrame(sys: System, r: System) {
    && r == sys.(core := r.core, history := r.history)
    && r.core == sys.core.(sources := r.core.sources, outbox := r.core.outbox)
    && r.history == sys.history.(stories := r.history.stories, closedLocally := r.history.closedLocally)
    && LiveKept(sys.core, r.core) && SameSpec(sys.core, r.core) && SamePair(sys.core, r.core)
  }

  function AppPublish(lim: Limits, sys: System, id: string, items: seq<seq<Byte>>, wire: seq<Byte>): (r: System)
    ensures AppFrame(sys, r) && (id !in sys.core.sources.live ==> r == sys)
  {
    hide PublishSource;
    var result := PublishSource(lim, sys.core, id, items, wire);
    if !result.1.Accepted? then sys
    else
      var source := sys.core.sources.live[id];
      sys.(core := result.0,
           history := Tell(sys.history, source.ticket, WorkFrame(SourceData(id, source.sequence + 1, items), wire)))
  }

  function AppClose(lim: Limits, sys: System, id: string, problem: Option<AdapterError>, wire: seq<Byte>): (r: System)
    ensures AppFrame(sys, r) && (id !in sys.core.sources.live ==> r == sys)
  {
    hide CloseSource;
    var result := CloseSource(lim, sys.core, id, problem, wire);
    if !result.1 then sys
    else
      var ticket := sys.core.sources.live[id].ticket;
      sys.(core := result.0,
           history := Conclude(sys.history, ticket, CloseFrame(sys.core, id, problem, wire)).(
                        closedLocally := sys.history.closedLocally + {ticket}))
  }

  function Deliver(sys: System, ticket: nat): System {
    if ticket !in sys.history.pending then sys
    else sys.(history := sys.history.(pending := sys.history.pending - multiset{ticket},
                                      notices := sys.history.notices + [ticket]))
  }

  // Spec transactions and deactivation.

  predicate ValidSpec(spec: Spec) {
    && spec.revision != 0
    && (forall i, j :: 0 <= i < j < |spec.grants| ==>
          spec.grants[i].capability != spec.grants[j].capability && spec.grants[i].binding != spec.grants[j].binding)
    && (forall i :: 0 <= i < |spec.grants| ==> ValidGrant(spec.grants[i]))
  }

  /** Every enabled endpoint has its handler, and source endpoints have positive 32-bit limits. */
  predicate ValidGrant(grant: Grant) {
    forall e :: e in grant.endpoints ==>
      && grant.endpoints[e].mode in grant.handlers
      && (grant.endpoints[e].mode == SourceOpen ==> 0 < grant.endpoints[e].maxChunkBytes < 0x1_0000_0000)
  }

  function BeginSpec(sys: System, spec: Spec): (r: System)
    ensures r == sys.(core := r.core, life := r.life)
  {
    var core := sys.core;
    if sys.pair != Open || sys.life != Resting then sys
    else if !ValidSpec(spec) then sys.(life := Reporting(Refused(INVALID_SPEC)))
    else if !Sendable(core) then sys.(life := Reporting(Refused(STALE_SESSION)))
    else if core.current.Some? && spec.revision == core.current.value.revision
        && spec.digest == core.current.value.digest then
      sys.(life := Reporting(if spec == core.current.value then Applied(spec) else Refused(CONTENT_MISMATCH)))
    else if core.current.Some?
        && spec.revision <= core.current.value.revision then sys.(life := Reporting(Refused(STALE_REVISION)))
    else if core.current.None? && spec != core.desired then sys.(life := Reporting(Refused(INITIAL_MISMATCH)))
    else
      sys.(life := Quiescing(spec),
           core := CancelAll(core.(desired := spec, link := core.link.(phase := ApplyingSpec, accepting := false))))
  }

  predicate Enumerates(order: seq<string>, active: map<string, Grant>) {
    && (forall i :: 0 <= i < |order| ==> order[i] in active)
    && (forall i, j :: 0 <= i < j < |order| ==> order[i] != order[j])
    && (forall id :: id in active ==> id in order)
  }

  function Bindings(order: seq<string>, active: map<string, Grant>): seq<nat>
    requires forall i :: 0 <= i < |order| ==> order[i] in active
  {
    seq(|order|, i requires 0 <= i < |order| => active[order[i]].binding)
  }

  function Quiet(sys: System): bool { sys.inFlight == 0 && sys.busy == 0 }

  function Plan(spec: Spec): seq<nat> {
    seq(|spec.grants|, i requires 0 <= i < |spec.grants| => spec.grants[i].binding)
  }

  /** The capability map of a spec; the first grant of a capability wins. */
  function Grants(grants: seq<Grant>): map<string, Grant> {
    if |grants| == 0 then map[]
    else
      var earlier, last := Grants(grants[..|grants| - 1]), grants[|grants| - 1];
      if last.capability in earlier then earlier else earlier[last.capability := last]
  }

  /** Lifecycle steps write the trace, the committed specs and what sources are owed. */
  predicate LifeFrame(sys: System, r: System) {
    && r == sys.(core := r.core, life := r.life, pair := r.pair, sup := r.sup, wire := r.wire, history := r.history)
    && r.history == sys.history.(trace := r.history.trace, committed := r.history.committed,
        pending := r.history.pending,
                                 lost := r.history.lost, resets := r.history.resets)
    && r.wire == sys.wire.(control := r.wire.control)
    && r.sup == sys.sup.(lostReported := r.sup.lostReported)
  }

  /** `ok` is the outcome of the callback the step makes, or of the Control queue's bounds; `order`
      enumerates the active capabilities. */
  function MoveLife(sys: System, ok: bool, order: seq<string>): (r: System)
    ensures LifeFrame(sys, r)
  {
    hide MoveDeactivation, MoveStartup, MoveCommit;
    match sys.life
    case Resting => sys
    case Quiescing(spec) => if Quiet(sys) then sys.(life := Checking(spec)) else sys
    case Checking(spec) =>
      sys.(life := if Sendable(sys.core) then Clearing(ThenApply(spec)) else Reporting(Refused(STALE_SESSION)))
    case Clearing(_) => MoveDeactivation(sys, order)
    case Awaiting(_, _, _) => MoveDeactivation(sys, order)
    case Halting(_, _, _) => MoveDeactivation(sys, order)
    case Applying(_) => MoveStartup(sys, ok)
    case Starting(_, _) => MoveStartup(sys, ok)
    case Unwinding(_, _, _) => MoveStartup(sys, ok)
    case Abandoning => MoveStartup(sys, ok)
    case Settling(_) => MoveCommit(sys, ok)
    case Readying(_, _) => MoveCommit(sys, ok)
    case Publishing(_) => MoveCommit(sys, ok)
    case Reporting(outcome) =>
      if ok && Sendable(sys.core)
      then sys.(life := Resting, wire := sys.wire.(control := sys.wire.control + [SpecResult(outcome)]))
      else sys.(life := Resting, core := SignalFailure(sys.core))
  }

  function MoveDeactivation(sys: System, order: seq<string>): (r: System)
    ensures LifeFrame(sys, r)
  {
    hide StopTaking, Deactivated;
    match sys.life
    case Clearing(next) => StopTaking(sys, next, order)
    case Awaiting(bindings, hadSpec, next) =>
      if Quiet(sys) then sys.(life := Halting(bindings, hadSpec, next)) else sys
    case Halting(bindings, hadSpec, next) =>
      if |bindings| > 0 then
        Log(sys.(life := Halting(bindings[..|bindings| - 1], hadSpec, next)), Stop(bindings[|bindings| - 1]))
      else Deactivated(if hadSpec then Log(sys, ClearSpec) else sys, next)
    case _ => sys
  }

  /** Before the commit only the trace and the phase change. */
  predicate StartupFrame(sys: System, r: System) {
    && r == sys.(core := r.core, life := r.life, history := r.history)
    && r.core == sys.core.(link := sys.core.link.(phase := r.core.link.phase))
    && r.history == sys.history.(trace := r.history.trace)
  }

  function MoveStartup(sys: System, ok: bool): (r: System)
    ensures StartupFrame(sys, r)
  {
    match sys.life
    case Applying(spec) => ApplyNext(sys, spec, ok)
    case Starting(spec, started) => StartNext(sys, spec, started, ok)
    case Unwinding(spec, started, stale) => UnwindNext(sys, spec, started, stale)
    case Abandoning =>
      sys.(life := Reporting(Refused(APPLY_FAILED)), core := sys.core.(link := sys.core.link.(phase := Registered)))
    case _ => sys
  }

  function ApplyNext(sys: System, spec: Spec, ok: bool): (r: System)
    ensures StartupFrame(sys, r)
  {
    var called := Log(sys, ApplySpec);
    if ok then called.(life := Starting(spec, 0)) else Log(called, ClearSpec).(life := Abandoning)
  }

  function StartNext(sys: System, spec: Spec, started: nat, ok: bool): (r: System)
    ensures StartupFrame(sys, r)
  {
    if started >= |spec.grants| then sys.(life := Settling(spec))
    else if ok then Log(sys.(life := Starting(spec, started + 1)), Start(spec.grants[started].binding))
    else sys.(life := Unwinding(spec, started, false))
  }

  function UnwindNext(sys: System, spec: Spec, started: nat, stale: bool): (r: System)
    ensures StartupFrame(sys, r)
  {
    if 0 < started <= |spec.grants| then
      Log(sys.(life := Unwinding(spec, started - 1, stale)), Stop(spec.grants[started - 1].binding))
    else Log(sys, ClearSpec).(life := if stale then Reporting(Refused(STALE_SESSION)) else Abandoning)
  }

  function MoveCommit(sys: System, ok: bool): (r: System)
    ensures LifeFrame(sys, r) && r.history.pending == sys.history.pending
    ensures r.core == sys.core.(link := r.core.link, active := r.core.active, current := r.core.current)
  {
    match sys.life
    case Settling(spec) => CommitSection(sys, spec)
    case Readying(spec, called) =>
      if called >= |spec.grants| then sys.(life := Publishing(spec))
      else
        var ready := Log(sys, ReadyCall(spec.grants[called].binding));
        ready.(life := if ok then Readying(spec, called + 1) else Clearing(ThenFail))
    case Publishing(spec) =>
      var core := sys.core;
      sys.(life := Reporting(Applied(spec)),
           core := if Sendable(core) then core.(link := core.link.(accepting := true, phase := Ready)) else core)
    case _ => sys
  }

  /** The deactivation section: the tables empty, and every live source is owed one notice. */
  function StopTaking(sys: System, next: Next, order: seq<string>): (r: System)
    ensures LifeFrame(sys, r) && r.wire == sys.wire
  {
    var core := sys.core;
    if !Enumerates(order, core.active) then sys
    else
      sys.(life := Awaiting(Bindings(order, core.active), core.current.Some?, next), core := Deactivate(core),
           history := Owe(sys.history, LiveTickets(core)))
  }

  function Deactivated(sys: System, next: Next): (r: System)
    ensures LifeFrame(sys, r) && r.wire == sys.wire
    ensures r.history == sys.history.(lost := r.history.lost, resets := r.history.resets)
  {
    match next
    case ThenApply(spec) => sys.(life := Applying(spec))
    case ThenFail =>
      sys.(life := Reporting(Refused(READY_FAILED)),
           core := sys.core.(link := sys.core.link.(phase := Registered, accepting := false)))
    case ThenLost =>
      if sys.core.link.stopping then sys.(life := Resting, pair := Over) else LoseSession(sys)
    case ThenReset =>
      sys.(life := Resting, pair := Over, core := ResetSession(sys.core),
           history := sys.history.(resets := sys.history.resets + 1))
  }

  /** The loss is reported to the application unless it already was. */
  function LoseSession(sys: System): System {
    var core := sys.core;
    sys.(life := Resting, pair := Over, sup := sys.sup.(lostReported := true),
         core := core.(link := core.link.(terminal := true, failed := true, accepting := false, phase := SessionLost)),
         history := sys.history.(lost := sys.history.lost + (if sys.sup.lostReported then 0 else 1)))
  }

  function CommitSection(sys: System, spec: Spec): System {
    var core := sys.core;
    if !Sendable(core) then sys.(life := Unwinding(spec, |spec.grants|, true))
    else
      Log(sys.(life := Readying(spec, 0),
               core := core.(active := Grants(spec.grants), current := Some(spec),
                             link := core.link.(accepting := false, phase := ApplyingSpec)),
               history := sys.history.(committed := sys.history.committed + [spec])),
          CommitSpec)
  }

  // Pair replacement by the supervisor.

  predicate Joined(sys: System) {
    && (sys.reader.Listening? || sys.reader.ReaderClosed?) && sys.life == Resting
    && (sys.wire.writer.Absent? || sys.wire.writer.WriterStopped?) && sys.wire.ctl.CtlStopped?
  }

  /** NextBackoff doubles in 32 bits: a large delay wraps around. */
  function NextBackoff(lim: Limits, current: nat): nat {
    if current >= lim.maxDelay then lim.maxDelay
    else
      var doubled := current * 2 % 0x1_0000_0000;
      if doubled < lim.maxDelay then doubled else lim.maxDelay
  }

  /** What pair supervision may change. */
  predicate PairFrame(sys: System, r: System) {
    && r == sys.(core := r.core, pair := r.pair, sup := r.sup, reader := r.reader, wire := r.wire, history := r.history)
    && r.history == sys.history.(pending := r.history.pending, epochs := r.history.epochs, ready := r.history.ready,
                                 pauses := r.history.pauses, registrations := r.history.registrations)
  }

  /** Register is attempted once; without a session there is nothing to supervise. */
  function MoveRegistration(lim: Limits, sys: System, a: Action): (r: System)
    ensures PairFrame(sys, r) && r.history.pending == sys.history.pending
  {
    match a
    case Register =>
      if sys.pair != Unregistered then sys
      else if sys.core.link.stopping then sys.(pair := Over)
      else if sys.sup.registered then sys.(pair := Losing)
      else
        sys.(pair := Registering, sup := sys.sup.(registered := true),
             history := sys.history.(registrations := sys.history.registrations + 1))
    case FinishRegister(ok) =>
      if sys.pair != Registering then sys
      else if ok && Negotiated(lim) then
        sys.(pair := Armed, core := InstallSession(lim, sys.core),
             sup := sys.sup.(used := 0, delay := lim.initialDelay))
      else sys.(pair := if sys.core.link.stopping then Over else Losing)
    case _ => sys
  }

  ghost function MovePair(lim: Limits, sys: System, a: Action): (r: System)
    ensures PairFrame(sys, r) && SameSpec(sys.core, r.core)
  {
    hide JudgePair;
    var core := sys.core;
    match a
    case CheckStop =>
      if sys.pair == Armed then sys.(pair := if core.link.stopping then Breaking else Preparing)
      else if sys.pair == Closed then sys.(pair := if core.link.stopping then Breaking else Judging)
      else sys
    case Prepare =>
      if sys.pair == Preparing then
        sys.(pair := Open, core := PreparePair(core), wire := NEW_TRANSPORT,
             history := sys.history.(epochs := sys.history.epochs + [core.link.epoch]))
      else sys
    case Retire =>
      if sys.pair == Open && Joined(sys) && (core.link.failed || core.link.stopping || core.link.terminal) then
        sys.(pair := Retiring, reader := Listening, core := RetirePairTables(core),
             history := Owe(sys.history, LiveTickets(core)))
      else sys
    case Quiesce => if sys.pair == Retiring && Quiet(sys) then sys.(pair := Quiesced) else sys
    case Release =>
      if sys.pair == Quiesced then
        sys.(pair := Released, core := core.(ledger := ReleaseAllTokens(core.ledger)))
      else sys
    case Clear =>
      if sys.pair == Released then
        sys.(pair := Closed, sup := sys.sup.(wasReady := core.link.pairReady), core := ClearConnection(core))
      else sys
    case Judge => if sys.pair == Judging then JudgePair(lim, sys) else sys
    case JoinAll =>
      if sys.pair == Over && sys.life == Resting && core.link.stopping then sys.(pair := Breaking) else sys
    case _ => sys
  }

  /** A terminal failure or a spent budget loses the session; otherwise the next epoch begins after a pause. */
  function JudgePair(lim: Limits, sys: System): (r: System)
    ensures PairFrame(sys, r) && SameSpec(sys.core, r.core)
    ensures r.core == sys.core.(link := r.core.link) && r.history.pending == sys.history.pending
            && r.reader == sys.reader
  {
    var core, sup, history := sys.core, sys.sup, sys.history;
    if core.link.terminal then sys.(pair := Losing)
    else
      var ready := sup.wasReady;
      var used, delay := if ready then 0 else sup.used, if ready then lim.initialDelay else sup.delay;
      var found := history.(ready := history.ready + (if ready then 1 else 0));
      if used >= lim.maxReconnects then sys.(pair := Losing, sup := sup.(used := used, delay := delay),
          history := found)
      else if core.link.epoch == U64_MAX then
        sys.(pair := Losing, core := NextEpoch(core), sup := sup.(used := used + 1, delay := delay), history := found)
      else
        sys.(pair := Armed, core := NextEpoch(core), sup := sup.(used := used + 1, delay := NextBackoff(lim, delay)),
             history := found.(pauses := history.pauses + [Pause(used, delay)]))
  }

  /** A lost or stopped session is torn down by the supervisor. */
  function BeginTeardown(sys: System): System {
    if sys.life != Resting then sys
    else if sys.pair == Losing then sys.(life := Clearing(ThenLost))
    else if sys.pair == Breaking then sys.(life := Clearing(ThenReset))
    else sys
  }

  // The Control and Work writers.

  predicate GateOpen(core: State) {
    core.link.attachAllowed && core.link.attachEpoch == core.link.epoch && Sendable(core)
  }

  /** The writers set flags and take frames off the Work queue. */
  predicate WriterTouches(s: State, t: State) {
    || (t == s.(link := t.link, cancelled := t.cancelled) && t.link.epoch == s.link.epoch
        && t.link.session == s.link.session)
    || (|s.outbox.queue| > 0 && t == PopWork(s))
  }

  predicate WireFrame(sys: System, r: System) {
    r == sys.(core := r.core, wire := r.wire) && WriterTouches(sys.core, r.core)
  }

  function MoveWire(lim: Limits, sys: System, a: Action): (r: System)
    ensures WireFrame(sys, r)
  {
    var core, wire := sys.core, sys.wire;
    if sys.pair != Open then sys
    else
      match a
      case CtlTake =>
        if wire.ctl != CtlWaiting then sys
        else if !Sendable(core) then sys.(wire := wire.(ctl := CtlStopped))
        else if |wire.control| == 0 then sys
        else sys.(wire := wire.(control := wire.control[1..], ctl := CtlWriting(wire.control[0]),
            controlOut := wire.controlOut + 1))
      case CtlBeat =>
        if wire.ctl == CtlWaiting && Sendable(core)
        then sys.(wire := wire.(ctl := CtlWriting(OtherControl), controlOut := wire.controlOut + 1)) else sys
      case CtlWrite(ok) =>
        if !wire.ctl.CtlWriting? then sys
        else if !ok then sys.(core := SignalFailure(core), wire := wire.(ctl := CtlStopped))
        else
          (match wire.ctl.frame
           case SpecResult(Applied(spec)) => sys.(wire := wire.(ctl := CtlGate, reported := Some(spec)))
           case SpecResult(Refused(code)) =>
             sys.(core := if IsTerminalSpecFailure(code) then SignalTerminalFailure(core) else SignalFailure(core),
                  wire := wire.(ctl := CtlStopped))
           case OtherControl => sys.(wire := wire.(ctl := CtlWaiting)))
      case CtlOpenGate =>
        if wire.ctl != CtlGate then sys
        else
          sys.(wire := wire.(ctl := CtlWaiting),
               core := if Sendable(core) && core.current.Some?
                       then core.(link := core.link.(attachAllowed := true, attachEpoch := core.link.epoch)) else core)
      case OpenWork =>
        if !wire.workOpen && GateOpen(core) && !core.link.terminal
        then sys.(wire := wire.(workOpen := true, writer := Opening)) else sys
      case WriterMove(ok) => MoveWriter(lim, sys, ok)
      case _ => sys
  }

  function MoveWriter(lim: Limits, sys: System, ok: bool): (r: System)
    ensures WireFrame(sys, r)
  {
    var core, wire := sys.core, sys.wire;
    match wire.writer
    case Opening =>
      if GateOpen(core) then sys.(wire := wire.(writer := Attaching, workOut := wire.workOut + 1))
      else sys.(core := SignalFailure(core), wire := wire.(writer := WriterStopped))
    case Attaching =>
      if ok then
        sys.(wire := wire.(writer := Greeting,
                           written := wire.written + [Stamped(core.link.epoch, wire.workOut, None)]))
      else sys.(core := SignalFailure(core), wire := wire.(writer := WriterStopped))
    case Greeting =>
      sys.(wire := wire.(writer := Pumping),
           core := if GateOpen(core)
                   then core.(link := core.link.(accepting := true, phase := Ready, pairReady := true)) else core)
    case Pumping =>
      if !Sendable(core) then sys.(wire := wire.(writer := WriterStopped))
      else if |core.outbox.queue| == 0 then sys
      else
        sys.(core := PopWork(core),
             wire := wire.(writer := Writing(core.outbox.queue[0]), workOut := wire.workOut + 1))
    case Writing(entry) =>
      if !ok || FramedBytes(lim.headerBytes, core.link.epoch, wire.workOut, entry.frame) > lim.maxFrame then
        sys.(core := SignalFailure(core), wire := wire.(writer := WriterStopped))
      else
        sys.(wire := wire.(writer := Pumping,
                           written := wire.written + [Stamped(core.link.epoch, wire.workOut, Some(entry.frame))]))
    case _ => sys
  }

  // Failures, drain and stop, requested by whichever thread notices them. The stream threads live
  // only while the pair is open; a worker may still report a drain while it is retired.

  function SetFlags(core: State, pair: Pair, a: Action): (r: State)
    ensures r == core.(link := r.link, cancelled := r.cancelled) && SamePair(core, r)
  {
    match a
    case Fail => if pair == Open then SignalFailure(core) else core
    case FailTerminally => if pair == Open then SignalTerminalFailure(core) else core
    case FailDrain => if pair == Open || pair == Retiring then DrainReportFailure(core) else core
    case Drain => if pair == Open then BeginDrain(core) else core
    case StopClient => RequestStop(core)
    case _ => core
  }

  // Steps and runs.

  /** The steps of the Work reader. */
  function MoveInbound(lim: Limits, sys: System, a: Action): (r: System)
    ensures ReaderFrame(sys, r)
  {
    match a
    case Inbound(sequence, authentic, frame, expired, wire) =>
      Receive(lim, sys, sequence, authentic, frame, expired, wire)
    case ReaderMove => MoveReader(lim, sys)
    case _ => sys
  }

  function MoveApp(lim: Limits, sys: System, a: Action): (r: System)
    ensures AppFrame(sys, r)
  {
    match a
    case Publish(id, items, wire) => AppPublish(lim, sys, id, items, wire)
    case Close(id, problem, wire) => AppClose(lim, sys, id, problem, wire)
    case _ => sys
  }

  /** What notices, transactions and teardowns begun, and flags set may change. */
  predicate RequestFrame(sys: System, r: System) {
    && r == sys.(core := r.core, life := r.life, history := r.history)
    && r.core == sys.core.(link := r.core.link, desired := r.core.desired, cancelled := r.core.cancelled)
    && r.history == sys.history.(pending := r.history.pending, notices := r.history.notices)
  }

  function MoveRequest(sys: System, a: Action): (r: System)
    ensures RequestFrame(sys, r) && (a.Notify? || r.history == sys.history)
  {
    match a
    case Notify(ticket) => Deliver(sys, ticket)
    case BeginApply(spec) => BeginSpec(sys, spec)
    case Teardown => BeginTeardown(sys)
    case _ => sys.(core := SetFlags(sys.core, sys.pair, a))
  }

  ghost function Step(lim: Limits, sys: System, a: Action): System {
    if OfReader(a) then MoveInbound(lim, sys, a)
    else if a.WorkerMove? then MoveWorker(lim, sys, a.worker, a.input)
    else if OfApp(a) then MoveApp(lim, sys, a)
    else if a.LifeMove? then MoveLife(sys, a.ok, a.order)
    else if OfRegistration(a) then MoveRegistration(lim, sys, a)
    else if OfPair(a) then MovePair(lim, sys, a)
    else if OfWire(a) then MoveWire(lim, sys, a)
    else MoveRequest(sys, a)
  }

  const NO_HISTORY := History([], [], map[], multiset{}, [], {}, map[], map[], {}, [], 0, [], 0, 0, 0, [])

  /** The client just after `Start` created its threads, `workers` of them for dispatch. */
  function Initial(workers: nat): System {
    System(
      State(Link(false, false, false, false, false, Connecting, 0, false, 0, false),
            Ledger(map[], map[], 0), Outbox([], 0, [], []), [], 0, Sources(map[], map[], 0),
            None, NO_SPEC, map[], {}, 1),
      0, 0, seq(workers, _ => Idle), Listening, Resting, Unregistered, Supervisor(false, 0, 0, false, false),
      NEW_TRANSPORT, NO_HISTORY)
  }

  /** The state a list of actions leads to. */
  ghost function Exec(lim: Limits, workers: nat, actions: seq<Action>): System {
    hide Step;
    if |actions| == 0 then Initial(workers)
    else Step(lim, Exec(lim, workers, actions[..|actions| - 1]), actions[|actions| - 1])
  }

  /** A run: the states the client goes through and the actions between them. */
  datatype Run = Run(states: seq<System>, actions: seq<Action>) {
    /** The state at position `k` of a run that is this long. */
    function At(k: nat): System { if k < |states| then states[k] else Initial(0) }
  }

  ghost predicate IsRun(lim: Limits, workers: nat, run: Run) {
    && |run.states| == |run.actions| + 1 && run.states[0] == Initial(workers)
    && forall k {:trigger run.actions[k]} :: 0 <= k < |run.actions| ==>
         run.states[k + 1] == Step(lim, run.states[k], run.actions[k])
  }

  /** The run reaches position `k`. */
  ghost predicate Reaches(lim: Limits, workers: nat, run: Run, k: nat) {
    IsRun(lim, workers, run) && k < |run.states|
  }

  lemma FirstState(lim: Limits, workers: nat, run: Run)
    requires IsRun(lim, workers, run)
    ensures |run.states| == |run.actions| + 1 && run.At(0) == Initial(workers)
  {
  }

  lemma NextState(lim: Limits, workers: nat, run: Run, k: nat)
    requires Reaches(lim, workers, run, k + 1)
    ensures k < |run.actions| && run.At(k + 1) == Step(lim, run.At(k), run.actions[k])
  {
    hide Step;
    assert run.actions[k] == run.actions[k];
  }

  /** The states of a run are the ones its actions lead to. */
  lemma {:induction false} RunIsExec(lim: Limits, workers: nat, run: Run, k: nat)
    requires Reaches(lim, workers, run, k)
    ensures run.At(k) == Exec(lim, workers, run.actions[..k])
  {
    hide Step;
    if k > 0 {
      RunIsExec(lim, workers, run, k - 1);
      NextState(lim, workers, run, k - 1);
      assert run.actions[..k][..k - 1] == run.actions[..k - 1];
    }
  }

  /** Every list of actions is a run's. */
  lemma {:induction false} EveryListRuns(lim: Limits, workers: nat, actions: seq<Action>) returns (run: Run)
    ensures IsRun(lim, workers, run) && run.actions == actions
  {
    hide Step;
    if |actions| == 0 {
      run := Run([Initial(workers)], []);
    } else {
      var last := |actions| - 1;
      var front := EveryListRuns(lim, workers, actions[..last]);
      run := Run(front.states + [Step(lim, front.states[last], actions[last])], actions);
      forall k | 0 <= k < |actions| ensures run.At(k + 1) == Step(lim, run.At(k), run.actions[k]) {
        if k < last {
          NextState(lim, workers, front, k);
        }
      }
    }
  }
}
