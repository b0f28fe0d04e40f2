/** Unary and operation Work in every reachable state: what a job's reservation is good for and what
    a retained terminal looks like. */
module Works {
  import opened Base
  import opened Fips180
  import opened Protocol
  import opened Complaints
  import opened Results
  import opened Core
  import opened Tables
  import opened Machine
  import opened Threads
  import opened Accounts
  import opened Transactions
  import opened Streams
  import opened Jobs
  import opened Admissions
  import opened Ledgers
  import opened Runs

  // The invariant.

  /** A job that holds its own token holds its own reservation. */
  predicate ReservedOk(lim: Limits, core: State, job: Job) {
    var tokens := core.ledger.tokens;
    !job.kind.SourceOpen? && job.workId in tokens && tokens[job.workId].ticket == job.ticket ==>
      tokens[job.workId].reservation == Reservation(lim, job.fingerprint)
  }

  predicate TokenNumbered(core: State, id: string) {
    id in core.ledger.tokens ==> 0 < core.ledger.tokens[id].ticket < core.nextTicket
  }

  predicate WellFormedFor(job: Job, frame: WorkFrame, ranOn: Option<Endpoint>) {
    !job.kind.SourceOpen? && KindMatches(job.kind, frame.body) && WellFormedTerminal(job.workId, frame.body, ranOn)
  }

  predicate RunsWork(pc: Worker) {
    pc.Validating? || pc.Announcing? || pc.Calling? || pc.Committing? || pc.Failing? || pc.Erasing? || pc.Finishing?
  }

  /** What a worker is about to commit is well formed. */
  predicate PcOk(pc: Worker) {
    && (RunsWork(pc) ==> !pc.job.kind.SourceOpen?)
    && (pc.Committing? ==>
          && WellFormedFor(pc.job, pc.frame, pc.ranOn)
          && (pc.fallback.Some? ==> WellFormedFor(pc.job, pc.fallback.value, None)))
  }

  /** The terminal of Work a body stands for, if it is one. */
  function TerminalOf(body: Body): Option<string> {
    match body
    case UnaryResponse(id, _) => Some(id)
    case OperationEvent(id, phase, _, _) => if IsTerminal(phase) then Some(id) else None
    case _ => None
  }

  /** The reader retains only well-formed refusals and repeats only what is retained. */
  predicate ReaderFaithful(reader: Reader, replay: map<string, Entry>) {
    && (reader.Retaining? ==> WellFormedFor(reader.job, reader.frame, None) && reader.job.ticket == 0)
    && (reader.Sending? && TerminalOf(reader.frame.body).Some? ==>
          var id := TerminalOf(reader.frame.body).value; id in replay && replay[id].frame == reader.frame)
  }

  predicate EntryOk(lim: Limits, history: History, id: string, entry: Entry) {
    && id in history.answeredBy && WellFormedTerminal(id, entry.frame.body, history.answeredBy[id])
    && KindMatches(entry.kind, entry.frame.body) && entry.digest == lim.digest(entry.frame) && Encodable(entry.frame)
  }

  predicate HeldReserved(lim: Limits, sys: System) {
    forall w :: 0 <= w < |sys.workers| && HasJob(sys.workers[w]) ==> ReservedOk(lim, sys.core, sys.workers[w].job)
  }

  predicate PcsOk(workers: seq<Worker>) {
    forall w :: 0 <= w < |workers| ==> PcOk(workers[w])
  }

  ghost predicate WorksOk(lim: Limits, sys: System) {
    && (forall id :: id in sys.core.ledger.tokens ==> TokenNumbered(sys.core, id))
    && (forall i :: 0 <= i < |sys.core.dispatch| ==> ReservedOk(lim, sys.core, sys.core.dispatch[i]))
    && HeldReserved(lim, sys) && PcsOk(sys.workers)
    && ReaderFaithful(sys.reader, sys.core.ledger.replay)
    && (forall id :: id in sys.core.ledger.replay ==> EntryOk(lim, sys.history, id, sys.core.ledger.replay[id]))
  }

  // Workers: whatever the handlers do, what reaches the commit is well formed.

  lemma TriagePc(sys: System, w: nat, x: WorkerInput)
    requires w < |sys.workers| && sys.workers[w].Taken?
    ensures PcOk(Triage(sys, w, x).workers[w])
  {
    hide RejectedDispatch, TooLargeFallback, WellFormedTerminal, Explain, WorkerFrame;
    var job := sys.workers[w].job;
    if !job.kind.SourceOpen? {
      RejectedDispatchWellFormed(job.kind, job.workId, CancelledEarly);
      RejectionMatches(job, CancelledEarly, x.wire);
    }
  }

  lemma RejectionMatches(job: Job, complaint: Complaint, wire: seq<Byte>)
    requires !job.kind.SourceOpen?
    ensures KindMatches(job.kind, Rejection(job, complaint, wire).body)
    ensures KindMatches(job.kind, TooLargeFallback(job.kind, job.workId))
  {
  }

  lemma ValidatePc(sys: System, w: nat, x: WorkerInput)
    requires w < |sys.workers| && sys.workers[w].Validating? && PcOk(sys.workers[w])
    ensures PcOk(Validate(sys, w, x).workers[w])
  {
    hide RejectedDispatch, TooLargeFallback, WellFormedTerminal, Explain, WorkerFrame, ValidateWorkContext, FaultText,
      MessageOf;
    var job := sys.workers[w].job;
    var valid := ValidateWorkContext(sys.core, job.context, job.fingerprint, job.kind, x.expired);
    var input := if job.kind.Unary? then UnaryBadInput else OperationBadInput;
    var complaint := if valid.Faulty? then BadContext(valid.fault) else input;
    RejectedDispatchWellFormed(job.kind, job.workId, complaint);
    RejectionMatches(job, complaint, x.wire);
  }

  lemma EndCallPc(sys: System, w: nat, x: WorkerInput)
    requires w < |sys.workers| && sys.workers[w].Calling? && PcOk(sys.workers[w])
    ensures PcOk(EndCall(sys, w, x).workers[w])
  {
    hide UnaryReply, OperationTerminal, RejectedDispatch, TooLargeFallback, WellFormedTerminal, Explain, WorkerFrame;
    var pc := sys.workers[w];
    var job := pc.job;
    UnaryReplyWellFormed(job.workId, x.unary, pc.endpoint, job.ticket in sys.core.cancelled);
    OperationTerminalWellFormed(job.workId, x.operation, pc.endpoint);
    OperationTerminalShape(job.workId, x.operation, pc.endpoint);
    RejectedDispatchWellFormed(job.kind, job.workId, CancelledEarly);
    RejectionMatches(job, CancelledEarly, x.wire);
  }

  lemma OperationTerminalShape(workId: string, handler: Handler<OperationResult>, endpoint: Endpoint)
    ensures OperationTerminal(workId, handler, endpoint).OperationEvent?
  {
  }

  lemma OtherPc(lim: Limits, sys: System, w: nat, x: WorkerInput)
    requires w < |sys.workers|
    ensures sys.workers[w].Idle? ==> PcOk(TakeJob(sys, w).workers[w])
    ensures sys.workers[w].Announcing? && PcOk(sys.workers[w]) ==> PcOk(Announce(lim, sys, w, x).workers[w])
    ensures sys.workers[w].Committing? && PcOk(sys.workers[w]) ==> PcOk(Commit(lim, sys, w).workers[w])
  {
    hide WellFormedTerminal, WorkerFrame, QueueWork, CommitTerminal, Minus;
  }

  lemma OpenPc(lim: Limits, sys: System, w: nat, x: WorkerInput)
    requires w < |sys.workers|
    ensures sys.workers[w].OpenReading? ==> PcOk(ReadOpen(sys, w).workers[w])
    ensures sys.workers[w].OpenEntering? ==> PcOk(EnterOpen(sys, w, x).workers[w])
    ensures sys.workers[w].OpenCalling? ==> PcOk(EndOpen(sys, w, x).workers[w])
    ensures sys.workers[w].OpenSettling? ==> PcOk(SettleOpen(lim, sys, w).workers[w])
  {
    hide WellFormedTerminal, WorkerFrame, SettleSourceOpen, OpenOutcome, Tell, Conclude, Credited;
  }

  lemma WorkerPc(lim: Limits, sys: System, w: nat, x: WorkerInput)
    requires w < |sys.workers| && PcOk(sys.workers[w])
    ensures PcOk(MoveWorker(lim, sys, w, x).workers[w])
  {
    hide WellFormedTerminal, WorkerFrame, TakeJob, Triage, Validate, Announce, EndCall, Commit, ReadOpen, EnterOpen,
      EndOpen, SettleOpen, Tickets, ReleaseWorkToken;
    OtherPc(lim, sys, w, x);
    OpenPc(lim, sys, w, x);
    match sys.workers[w]
    case Taken(_) => TriagePc(sys, w, x);
    case Validating(_) => ValidatePc(sys, w, x);
    case Calling(_, _, _) => EndCallPc(sys, w, x);
    case _ =>
  }

  // The reader.

  lemma ReaderRetains(lim: Limits, sys: System, job: Job, wire: seq<Byte>)
    requires WorksOk(lim, sys)
    requires sys.reader == Listening
    ensures var r := HandleWork(lim, sys, job, wire); ReaderFaithful(r.reader, r.core.ledger.replay)
  {
    hide RejectedDispatch, TooLargeFallback, WellFormedTerminal, Explain, ReaderFrame, EnqueueDispatch, PcOk,
      ReservedOk, TokenNumbered;
    var arrived := job.(ticket := 0, reservation := 0);
    var result := EnqueueDispatch(lim, sys.core, arrived);
    DispatchVerdicts(lim, sys.core, arrived);
    match result.1
    case Replay(frame) => RepeatsEntry(lim, sys, job.workId);
    case Reject(complaint) =>
      RejectedDispatchWellFormed(job.kind, job.workId, complaint);
      if !job.kind.SourceOpen? { RejectionMatches(job, complaint, wire); }
    case _ =>
  }

  lemma DispatchVerdicts(lim: Limits, s: State, job: Job)
    ensures var v := EnqueueDispatch(lim, s, job).1;
            && (v.Reject? ==> ClassOf(v.complaint).Rejected?)
            && (v.Replay? ==> job.workId in s.ledger.replay && v.frame == s.ledger.replay[job.workId].frame)
  {
  }

  lemma RepeatsEntry(lim: Limits, sys: System, id: string)
    requires WorksOk(lim, sys) && id in sys.core.ledger.replay
    ensures TerminalOf(sys.core.ledger.replay[id].frame.body) == Some(id)
  {
    hide ReservedOk, PcOk, ReaderFaithful, IsTypedError, Meets, ErrorMatchesPhase;
    assert EntryOk(lim, sys.history, id, sys.core.ledger.replay[id]);
  }

  /** A retained source terminal is no terminal of Work. */
  lemma SourceFrames(sys: System, id: string)
    requires AdmissionsOk(sys) && id in sys.core.sources.closed
    ensures TerminalOf(sys.core.sources.closed[id].frame.body).None?
  {
    hide JobsOk, LiveTold, AcksOk, ReplayTold;
    var story := sys.history.stories[sys.core.sources.closed[id].ticket];
    assert StoryOk(story);
  }

  lemma ReaderHandles(lim: Limits, sys: System, frame: HostFrame, expired: bool, wire: seq<Byte>)
    requires WorksOk(lim, sys) && AdmissionsOk(sys) && sys.reader == Listening
    ensures var r := Handle(lim, sys, frame, expired, wire); ReaderFaithful(r.reader, r.core.ledger.replay)
  {
    hide WorksOk, AdmissionsOk, ReaderFrame, HandleWork, EnqueueSourceOpen, GrantSourceCredit, HandleCancellation,
      AcknowledgeTerminal, Tickets, Begin, Conclude, Credited, Owe, Freed, WellFormedTerminal;
    match frame
    case WorkRequest(job) => ReaderRetains(lim, sys, job, wire);
    case OpenRequest(job) => if job.workId in sys.core.sources.closed { SourceFrames(sys, job.workId); }
    case _ =>
  }

  lemma ReaderReads(lim: Limits, sys: System, a: Action)
    requires WorksOk(lim, sys) && AdmissionsOk(sys)
    ensures var r := MoveInbound(lim, sys, a); ReaderFaithful(r.reader, r.core.ledger.replay)
  {
    hide WorksOk, AdmissionsOk, Handle, ReaderFrame, QueueWork, CommitTerminal, Tickets, Tell, Answer,
      WellFormedTerminal;
    ReaderWas(lim, sys);
    if a.Inbound? && sys.reader.Listening? {
      var heard := sys.(wire := sys.wire.(workIn := a.sequence, heard := sys.wire.heard + [a.sequence]));
      WorksHeard(lim, sys, heard);
      ReaderHandles(lim, heard, a.frame, a.expired, a.wire);
    }
  }

  lemma ReaderWas(lim: Limits, sys: System)
    requires WorksOk(lim, sys)
    ensures ReaderFaithful(sys.reader, sys.core.ledger.replay)
  {
  }

  lemma WorksHeard(lim: Limits, sys: System, heard: System)
    requires heard == sys.(wire := heard.wire)
    ensures WorksOk(lim, sys) ==> WorksOk(lim, heard)
    ensures AdmissionsOk(sys) ==> AdmissionsOk(heard)
  {
    hide ReservedOk, PcOk, ReaderFaithful, EntryOk, Told, ReplayTold;
  }

  /** What waits in the reader is not touched by the other threads. */
  lemma ReaderWaits(lim: Limits, sys: System, r: System, e: Event)
    requires Effect(lim, sys, r, e) && ReaderFaithful(sys.reader, sys.core.ledger.replay) && PairOk(sys)
    requires r.reader == sys.reader || r.reader == Listening
    ensures ReaderFaithful(r.reader, r.core.ledger.replay)
  {
    hide WellFormedFor, Presents, Finishes, NoNewWork, AllIdle;
  }

  // Jobs and tokens.

  lemma StillReserved(lim: Limits, sys: System, r: System, e: Event, job: Job)
    requires Effect(lim, sys, r, e) && ReservedOk(lim, sys.core, job) && job.ticket < sys.core.nextTicket
    ensures ReservedOk(lim, r.core, job)
  {
    hide Presents, Finishes, NoNewWork, EntryFor;
  }

  lemma StillNumbered(lim: Limits, sys: System, r: System, e: Event, id: string)
    requires Effect(lim, sys, r, e) && TokenNumbered(sys.core, id) && sys.core.nextTicket > 0
    ensures TokenNumbered(r.core, id)
  {
    hide Presents, Finishes, NoNewWork, EntryFor;
  }

  lemma QueueReserved(lim: Limits, sys: System, r: System, e: Event, i: nat)
    requires Effect(lim, sys, r, e) && WorksOk(lim, sys) && JobsOk(sys) && i < |r.core.dispatch|
    ensures ReservedOk(lim, r.core, r.core.dispatch[i])
  {
    hide Presents, Finishes, EntryFor, PcOk, ReaderFaithful, EntryOk, TokenNumbered, JobsFresh;
    var job := r.core.dispatch[i];
    if k :| 0 <= k < |sys.core.dispatch| && sys.core.dispatch[k] == job {
      StillReserved(lim, sys, r, e, job);
    }
  }

  lemma StillFormed(lim: Limits, sys: System, r: System, e: Event, id: string)
    requires Effect(lim, sys, r, e) && WorksOk(lim, sys) && id in r.core.ledger.replay
    ensures EntryOk(lim, r.history, id, r.core.ledger.replay[id])
  {
    hide WellFormedTerminal, FrameBytes, ReservedOk, TokenNumbered, NoNewWork, Finishes;
  }

  /** A worker keeps its job or takes the first one of the queue. */
  /** The job in a worker's hands was there before, or was the next one queued. */
  predicate HeldSince(sys: System, r: System, w: nat) {
    w < |r.workers| && HasJob(r.workers[w]) ==>
      && w < |sys.workers|
      && var job := r.workers[w].job;
      && job.ticket < sys.core.nextTicket
      && ((HasJob(sys.workers[w]) && sys.workers[w].job == job) || (|sys.core.dispatch| > 0
          && sys.core.dispatch[0] == job))
  }

  lemma HeldBefore(lim: Limits, sys: System, a: Action, w: nat)
    requires JobsOk(sys)
    ensures HeldSince(sys, Step(lim, sys, a), w)
  {
    hide MoveInbound, MoveWorker, MoveApp, MoveRequest, MoveLife, MoveRegistration, MovePair, MoveWire, JobsFresh,
      SourcesUntouched, WorkerFrame;
    Bystanders(lim, sys, a);
    if a.WorkerMove? && a.worker == w < |sys.workers| {
      WorkerJobs(lim, sys, w, a.input);
    }
  }

  lemma HandsReserved(lim: Limits, sys: System, a: Action, e: Event)
    requires Effect(lim, sys, Step(lim, sys, a), e) && WorksOk(lim, sys) && JobsOk(sys)
    ensures HeldReserved(lim, Step(lim, sys, a))
  {
    hide Step, Effect, ReservedOk, PcOk, ReaderFaithful, EntryOk, TokenNumbered, JobsOk;
    var r := Step(lim, sys, a);
    forall w | 0 <= w < |r.workers| && HasJob(r.workers[w]) ensures ReservedOk(lim, r.core, r.workers[w].job) {
      HeldBefore(lim, sys, a, w);
      StillReserved(lim, sys, r, e, r.workers[w].job);
    }
  }

  lemma HandsFormed(lim: Limits, sys: System, a: Action)
    requires WorksOk(lim, sys)
    ensures PcsOk(Step(lim, sys, a).workers)
  {
    hide MoveInbound, MoveWorker, MoveApp, MoveRequest, MoveLife, MoveRegistration, MovePair, MoveWire,
      ReservedOk, PcOk, ReaderFaithful, EntryOk, TokenNumbered, WorkerFrame;
    Bystanders(lim, sys, a);
    if a.WorkerMove? && a.worker < |sys.workers| {
      WorkerPc(lim, sys, a.worker, a.input);
    }
  }

  lemma WorksStep(lim: Limits, sys: System, a: Action)
    requires WorksOk(lim, sys) && AdmissionsOk(sys) && PairOk(sys)
    ensures WorksOk(lim, Step(lim, sys, a))
  {
    hide MoveInbound, MoveWorker, MoveApp, MoveRequest, MoveLife, MoveRegistration, MovePair, MoveWire, Effect,
      ReservedOk, PcOk, ReaderFaithful, EntryOk, TokenNumbered, JobsOk, Told, PairOk, RequestFrame, AppFrame,
      HeldReserved, PcsOk;
    var r := Step(lim, sys, a);
    var e := StepEffect(lim, sys, a);
    forall id | id in r.core.ledger.tokens ensures TokenNumbered(r.core, id) {
      AbsentNumbered(sys.core, id);
      StillNumbered(lim, sys, r, e, id);
    }
    forall i | 0 <= i < |r.core.dispatch| ensures ReservedOk(lim, r.core, r.core.dispatch[i]) {
      QueueReserved(lim, sys, r, e, i);
    }
    HandsReserved(lim, sys, a, e);
    HandsFormed(lim, sys, a);
    forall id | id in r.core.ledger.replay ensures EntryOk(lim, r.history, id, r.core.ledger.replay[id]) {
      StillFormed(lim, sys, r, e, id);
    }
    if OfReader(a) {
      ReaderReads(lim, sys, a);
    } else {
      Bystanders(lim, sys, a);
      ReaderWaits(lim, sys, r, e);
    }
  }

  lemma AbsentNumbered(core: State, id: string)
    ensures id !in core.ledger.tokens ==> TokenNumbered(core, id)
  {
  }

  // Whole runs.

  lemma {:induction false} WorksRun(lim: Limits, workers: nat, run: Run, n: nat)
    requires Reaches(lim, workers, run, n)
    ensures WorksOk(lim, run.At(n))
  {
    hide Step, WorksOk, CountsOk, AccountsOk;
    if n == 0 {
      NoWork(lim, workers);
    } else {
      WorksRun(lim, workers, run, n - 1);
      NextState(lim, workers, run, n - 1);
      SafeRun(lim, workers, run, n - 1);
      WorksStep(lim, run.At(n - 1), run.actions[n - 1]);
    }
  }

  lemma NoWork(lim: Limits, workers: nat)
    ensures WorksOk(lim, Initial(workers))
  {
  }

  /** Whatever the handlers return or throw, every retained terminal of every run is well formed for
      the endpoint that ran, matches its request's kind, and carries its own digest. */
  lemma RetainedWellFormed(lim: Limits, workers: nat, run: Run, n: nat, id: string)
    requires Reaches(lim, workers, run, n)
    requires id in run.At(n).core.ledger.replay
    ensures var (entry, history) := (run.At(n).core.ledger.replay[id], run.At(n).history);
            && id in history.answeredBy && WellFormedTerminal(id, entry.frame.body, history.answeredBy[id])
            && KindMatches(entry.kind, entry.frame.body) && entry.digest == lim.digest(entry.frame)
  {
    hide IsRun, PcOk, ReaderFaithful, ReservedOk, TokenNumbered, WellFormedTerminal;
    WorksRun(lim, workers, run, n);
    var sys := run.At(n);
    assert EntryOk(lim, sys.history, id, sys.core.ledger.replay[id]);
  }

  /** In every reachable state a worker that commits the terminal of a job whose token it still owns is
      refused only for the frame's own size, for a failed link or for a full Work queue: what the job
      reserved at admission covers the entry, and nothing else can have the identity. */
  lemma ReservationEnough(lim: Limits, workers: nat, run: Run, n: nat, w: nat)
    requires Reaches(lim, workers, run, n)
    requires UsesSha256(lim)
    requires var sys := run.At(n);
             && w < |sys.workers| && sys.workers[w].Committing? && sys.workers[w].job.workId in sys.core.ledger.tokens
             && sys.core.ledger.tokens[sys.workers[w].job.workId].ticket == sys.workers[w].job.ticket
             && sys.workers[w].job.workId !in sys.core.ledger.replay
    ensures var sys := run.At(n);
            var (s, job, frame) := (sys.core, sys.workers[w].job, sys.workers[w].frame);
            var ((after, result), bytes) := (CommitTerminal(lim, s, job, frame), FrameBytes(lim, s, frame));
            && (result.TooLarge? <==> bytes > lim.maxFrame)
            && (result.Committed? <==>
                  bytes <= lim.maxFrame && Sendable(s) && RoomFor(lim, s, bytes) && Encodable(frame))
            && (result.Committed? ==>
                  && job.workId !in after.ledger.tokens && job.workId in after.ledger.replay
                  && after.ledger.replay[job.workId].frame == frame && after.ledger.bytes <= s.ledger.bytes)
  {
    hide IsRun, FrameBytes, CommitTerminal, TokenNumbered, EntryOk, WellFormedTerminal, LifetimesOk, SpecsOk,
      AdmissionsOk, PairOk, CountsOk, TablesOk, RoomFor;
    WorksRun(lim, workers, run, n);
    SafeRun(lim, workers, run, n);
    var sys := run.At(n);
    var job, frame := sys.workers[w].job, sys.workers[w].frame;
    var slack: nat :| TablesOk(lim, sys.core, slack);
    assert ReservedOk(lim, sys.core, job) && PcOk(sys.workers[w]);
    ReservationSuffices(lim, sys.core, job, frame, slack);
  }
}
