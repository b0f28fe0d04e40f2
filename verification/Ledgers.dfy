/** What each step of any thread does to the Work tokens and the retained terminals. */
module Ledgers {
  import opened Base
  import opened Fips180
  import opened Protocol
  import opened Complaints
  import opened Results
  import opened Core
  import opened Machine
  import opened Jobs
  import Digest

  datatype Event =
    | Calm
    | Admits(job: Job)
    | Retains(job: Job, frame: WorkFrame, ranOn: Option<Endpoint>, ticket: nat)
    | Erases(workId: string)
    | Frees(workId: string, digest: string)
    | DropsAll
    | Wipes

  predicate SameRecords(h: History, k: History) {
    k.released == h.released && k.answeredBy == h.answeredBy && k.answered == h.answered && k.resets == h.resets
  }

  /** A thread is about to retain this terminal for this job. */
  ghost predicate Presents(sys: System, job: Job, frame: WorkFrame, ranOn: Option<Endpoint>, ticket: nat) {
    || (sys.reader == Retaining(job, frame) && ranOn.None? && ticket == 0)
    || exists w :: 0 <= w < |sys.workers| && CommitsWith(sys.workers[w], job, frame, ranOn) && ticket == job.ticket
  }

  predicate CommitsWith(pc: Worker, job: Job, frame: WorkFrame, ranOn: Option<Endpoint>) {
    pc.Committing? && pc.job == job && pc.frame == frame && pc.ranOn == ranOn
  }

  /** A worker is done with a job of this id. */
  ghost predicate Finishes(sys: System, workId: string) {
    exists w :: 0 <= w < |sys.workers| && (sys.workers[w].Erasing? || sys.workers[w].Finishing?)
        && sys.workers[w].job.workId == workId
  }

  /** No unary or operation job is new in the queue, and no source open under a retained id. */
  predicate NoNewWork(replay: map<string, Entry>, before: seq<Job>, after: seq<Job>) {
    forall i :: 0 <= i < |after| ==> after[i] in before || (after[i].kind.SourceOpen? && after[i].workId !in replay)
  }

  ghost predicate Effect(lim: Limits, sys: System, r: System, e: Event) {
    var s, t, h, k := sys.core, r.core, sys.history, r.history;
    && s.nextTicket <= t.nextTicket
    && (e.Admits? || NoNewWork(s.ledger.replay, s.dispatch, t.dispatch))
    && match e
       case Calm => t.ledger == s.ledger && SameRecords(h, k)
       case Admits(job) =>
         && SameRecords(h, k) && !job.kind.SourceOpen? && job.workId != ""
         && job.workId !in s.ledger.tokens && job.workId !in s.ledger.replay
         && job.ticket == s.nextTicket < t.nextTicket && t.dispatch == s.dispatch + [job]
         && t.ledger == AddToken(s.ledger, job.workId, Token(job.ticket, Reservation(lim, job.fingerprint)))
       case Retains(job, frame, ranOn, ticket) =>
         && Presents(sys, job, frame, ranOn, ticket) && Sendable(s) && job.workId !in s.ledger.replay
         && KindMatches(job.kind, frame.body) && Encodable(frame)
         && t.ledger.replay == s.ledger.replay[job.workId := EntryFor(lim, s, job, frame)]
         && t.ledger.tokens == (if OwnsToken(s, job) then s.ledger.tokens - {job.workId} else s.ledger.tokens)
         && k.answeredBy == h.answeredBy[job.workId := ranOn] && k.released == h.released && k.resets == h.resets
         && k.answered == (if ticket == 0 then h.answered else h.answered + {Settlement(ticket, job.workId)})
       case Erases(workId) =>
         && Finishes(sys, workId) && SameRecords(h, k)
         && t.ledger.tokens == s.ledger.tokens - {workId} && t.ledger.replay == s.ledger.replay
       case Frees(workId, digest) =>
         && sys.reader == Listening && workId in s.ledger.replay && digest == s.ledger.replay[workId].digest
             && workId !in s.ledger.tokens
         && t.ledger.replay == s.ledger.replay - {workId} && t.ledger.tokens == s.ledger.tokens
         && k.released == h.released[workId := Releases(h, workId) + [digest]]
         && k.answeredBy == h.answeredBy && k.answered == h.answered && k.resets == h.resets
       case DropsAll =>
         && sys.pair != Open && t.ledger.tokens == map[] && t.ledger.replay == s.ledger.replay && SameRecords(h, k)
       case Wipes =>
         && sys.life.Halting? && sys.life.next.ThenReset? && r.pair == Over && t.ledger.tokens == map[]
             && t.ledger.replay == map[] && k.resets == h.resets + 1
         && k.released == h.released && k.answeredBy == h.answeredBy && k.answered == h.answered
  }

  predicate OwnsToken(s: State, job: Job) {
    && job.workId in s.ledger.tokens && s.ledger.tokens[job.workId].ticket == job.ticket
    && s.ledger.tokens[job.workId].reservation != 0
  }

  // The reader.

  lemma ReceiveEffect(lim: Limits, sys: System, a: Action) returns (e: Event)
    requires a.Inbound?
    ensures Effect(lim, sys, MoveInbound(lim, sys, a), e) && Caused(sys, a, e) && !e.Retains?
  {
    hide Handle, Tickets, ReaderFrame, Effect;
    e := Calm;
    if sys.pair == Open && sys.wire.workOpen && sys.reader == Listening && a.authentic && a.sequence > sys.wire.workIn {
      var heard := sys.(wire := sys.wire.(workIn := a.sequence, heard := sys.wire.heard + [a.sequence]));
      e := HandleEffect(lim, heard, a.frame, a.expired, a.wire);
      EffectOfHeard(lim, heard, sys, MoveInbound(lim, sys, a), e);
    } else {
      CalmEffect(lim, sys, MoveInbound(lim, sys, a));
    }
  }

  lemma EffectOfHeard(lim: Limits, heard: System, sys: System, r: System, e: Event)
    requires heard == sys.(wire := heard.wire) && Effect(lim, heard, r, e)
    ensures Effect(lim, sys, r, e)
  {
    hide EntryFor, AddToken;
  }

  lemma CalmEffect(lim: Limits, sys: System, r: System)
    requires r.core.ledger == sys.core.ledger && SameRecords(sys.history, r.history)
    requires sys.core.nextTicket <= r.core.nextTicket
             && NoNewWork(sys.core.ledger.replay, sys.core.dispatch, r.core.dispatch)
    ensures Effect(lim, sys, r, Calm)
  {
  }

  lemma HandleEffect(lim: Limits, sys: System, frame: HostFrame, expired: bool, wire: seq<Byte>) returns (e: Event)
    requires sys.reader == Listening
    ensures Effect(lim, sys, Handle(lim, sys, frame, expired, wire), e)
    ensures e.Admits? ==> frame.WorkRequest? && e.job.workId == frame.job.workId
    ensures !e.Erases? && !e.Retains?
  {
    hide Effect, ReaderFrame, HandleWork, HandleOpen, HandleCredit, HandleCancel, HandleAck, Tickets;
    var r := Handle(lim, sys, frame, expired, wire);
    e := Calm;
    match frame
    case WorkRequest(job) => e := WorkEffect(lim, sys, job, wire);
    case AckFrame(identity, digest) => e := AckEffect(lim, sys, identity, digest, wire);
    case OpenRequest(job) => OpenEffect(lim, sys, job, expired, wire);
    case CreditFrame(id, acknowledged, grant) => CreditEffect(lim, sys, id, acknowledged, grant, wire);
    case CancelFrame(identity, reason) => CancelEffect(lim, sys, identity, reason, wire);
    case EmptyFrame => CalmEffect(lim, sys, r);
    case HostError => CalmEffect(lim, sys, r);
  }

  lemma WorkEffect(lim: Limits, sys: System, job: Job, wire: seq<Byte>) returns (e: Event)
    ensures Effect(lim, sys, HandleWork(lim, sys, job, wire), e) && (e.Admits? ==> e.job.workId == job.workId)
    ensures !e.Erases? && !e.Retains?
  {
    hide ReaderFrame, RejectedDispatch, Explain, EnqueueDispatch;
    var arrived := job.(ticket := 0, reservation := 0);
    var result, r := EnqueueDispatch(lim, sys.core, arrived), HandleWork(lim, sys, job, wire);
    e := Calm;
    if !job.kind.SourceOpen? && result.1.Admitted? {
      e := Admits(result.0.dispatch[|sys.core.dispatch|]);
      AdmissionEffect(lim, sys.core, arrived);
    }
  }

  lemma AdmissionEffect(lim: Limits, s: State, job: Job)
    requires EnqueueDispatch(lim, s, job).1.Admitted?
    ensures var t := EnqueueDispatch(lim, s, job).0;
            && job.workId != "" && job.workId !in s.ledger.tokens && job.workId !in s.ledger.replay
            && t.ledger == AddToken(s.ledger, job.workId, Token(s.nextTicket, Reservation(lim, job.fingerprint)))
  {
  }

  lemma OpenEffect(lim: Limits, sys: System, job: Job, expired: bool, wire: seq<Byte>)
    ensures Effect(lim, sys, HandleOpen(lim, sys, job, expired, wire), Calm)
  {
    hide Effect, ReaderFrame, EnqueueSourceOpen, Queues;
    var result := EnqueueSourceOpen(lim, sys.core, job.(kind := SourceOpen), expired, wire);
    if result.1.Admitted? {
      FreshSource(lim, sys.core, job.(kind := SourceOpen), expired, wire);
      QueuesOneSource(sys.core, result.0, job.(kind := SourceOpen));
    }
    CalmEffect(lim, sys, HandleOpen(lim, sys, job, expired, wire));
  }

  lemma FreshSource(lim: Limits, s: State, job: Job, expired: bool, wire: seq<Byte>)
    requires EnqueueSourceOpen(lim, s, job, expired, wire).1.Admitted?
    ensures job.workId !in s.ledger.replay
  {
    hide JudgeSourceOpen, ValidateWorkContext, AdmitSource, RefuseSource, Queues;
  }

  lemma QueuesOneSource(s: State, t: State, job: Job)
    requires Queues(s, t, job) && job.kind.SourceOpen? && job.workId !in s.ledger.replay
    ensures NoNewWork(s.ledger.replay, s.dispatch, t.dispatch) && s.nextTicket <= t.nextTicket
  {
  }

  lemma CreditEffect(lim: Limits, sys: System, id: string, acknowledged: nat, grant: Credit, wire: seq<Byte>)
    ensures Effect(lim, sys, HandleCredit(sys, id, acknowledged, grant, wire), Calm)
  {
    hide Effect, ReaderFrame, GrantSourceCredit;
    CalmEffect(lim, sys, HandleCredit(sys, id, acknowledged, grant, wire));
  }

  lemma CancelEffect(lim: Limits, sys: System, identity: Identity, reason: string, wire: seq<Byte>)
    ensures Effect(lim, sys, HandleCancel(lim, sys, identity, reason, wire), Calm)
  {
    hide Effect, ReaderFrame, HandleCancellation;
    CalmEffect(lim, sys, HandleCancel(lim, sys, identity, reason, wire));
  }

  lemma AckEffect(lim: Limits, sys: System, identity: Identity, digest: string, wire: seq<Byte>) returns (e: Event)
    requires sys.reader == Listening
    ensures Effect(lim, sys, HandleAck(sys, identity, digest, wire), e) && !e.Admits?
    ensures !e.Erases? && !e.Retains?
  {
    hide ReaderFrame, AcknowledgeStream, Digest.IsCanonicalSha256, Minus, EntryFor, Presents;
    var result := AcknowledgeTerminal(sys.core, identity, digest);
    e := if result.1 && identity.WorkId?
        && identity.id in sys.core.ledger.replay then Frees(identity.id, digest) else Calm;
    AckStreamCalm(sys.core, if identity.NoIdentity? then "" else identity.id, digest);
  }

  lemma AckStreamCalm(s: State, id: string, digest: string)
    ensures var t := AcknowledgeStream(s, id, digest).0;
            t == s.(sources := t.sources)
  {
  }

  lemma SendEffect(lim: Limits, sys: System) returns (e: Event)
    ensures Effect(lim, sys, MoveReader(lim, sys), e) && !e.Admits?
    ensures !e.Erases? && (e.Retains? ==> e.ticket == 0)
    ensures e.Retains? ==> sys.reader == Retaining(e.job, e.frame)
  {
    hide ReaderFrame, Effect, QueueWork, Tickets, CommitTerminal;
    e := Calm;
    if sys.reader.Retaining? && CommitTerminal(lim, sys.core, sys.reader.job, sys.reader.frame).1.Committed? {
      e := Retains(sys.reader.job, sys.reader.frame, None, 0);
      RetainEffect(lim, sys, MoveReader(lim, sys), sys.reader.job, sys.reader.frame, None, 0);
    } else {
      CalmEffect(lim, sys, MoveReader(lim, sys));
    }
  }

  lemma RetainEffect(lim: Limits, sys: System, r: System, job: Job, frame: WorkFrame, ranOn: Option<Endpoint>,
                     ticket: nat)
    requires Presents(sys, job, frame, ranOn, ticket)
    requires var result := CommitTerminal(lim, sys.core, job, frame);
             && result.1.Committed? && r.core == result.0 && r.history == Answer(sys.history, job.workId, ranOn, ticket)
    ensures Effect(lim, sys, r, Retains(job, frame, ranOn, ticket))
  {
    hide EntryFor, Presents, FrameBytes;
  }

  // The workers.

  lemma WorkerEffect(lim: Limits, sys: System, w: nat, x: WorkerInput) returns (e: Event)
    requires w < |sys.workers|
    ensures Effect(lim, sys, MoveWorker(lim, sys, w, x), e) && !e.Admits?
    ensures e.Retains? ==> CommitsWith(sys.workers[w], e.job, e.frame, e.ranOn) && e.ticket == e.job.ticket
  {
    hide Effect, TakeJob, Triage, Validate, Announce, EndCall, Commit, Depart, ReadOpen, EnterOpen, EndOpen,
      SettleOpen, WorkerMoves, SamePair, SameSpec, Tickets, ReleaseWorkToken, JobMoves;
    var pc, r := sys.workers[w], MoveWorker(lim, sys, w, x);
    e := Calm;
    WorkerJobs(lim, sys, w, x);
    ShorterQueue(sys, r, w);
    if pc.Committing? {
      e := CommitEffect(lim, sys, w);
    } else if pc.Erasing? || pc.Finishing? {
      e := Erases(pc.job.workId);
      EraseEffect(lim, sys, r, w);
    } else {
      WorkerCalm(lim, sys, w, x);
      CalmEffect(lim, sys, r);
    }
  }

  lemma ShorterQueue(sys: System, r: System, w: nat)
    requires w < |sys.workers| == |r.workers| && JobMoves(sys, r, sys.workers[w], r.workers[w])
    ensures NoNewWork(sys.core.ledger.replay, sys.core.dispatch, r.core.dispatch)
  {
  }

  lemma EraseEffect(lim: Limits, sys: System, r: System, w: nat)
    requires w < |sys.workers| && (sys.workers[w].Erasing? || sys.workers[w].Finishing?)
    requires r.core == EraseWorkToken(sys.core, sys.workers[w].job.workId) && r.history == sys.history
    ensures Effect(lim, sys, r, Erases(sys.workers[w].job.workId))
  {
    hide EntryFor, Presents;
  }

  lemma CommitEffect(lim: Limits, sys: System, w: nat) returns (e: Event)
    requires w < |sys.workers| && sys.workers[w].Committing?
    ensures Effect(lim, sys, Commit(lim, sys, w), e) && !e.Admits?
    ensures e.Retains? ==> CommitsWith(sys.workers[w], e.job, e.frame, e.ranOn) && e.ticket == e.job.ticket
  {
    hide Effect, WorkerFrame, CommitTerminal;
    var pc := sys.workers[w];
    e := Calm;
    if CommitTerminal(lim, sys.core, pc.job, pc.frame).1.Committed? {
      e := Retains(pc.job, pc.frame, pc.ranOn, pc.job.ticket);
      assert CommitsWith(sys.workers[w], pc.job, pc.frame, pc.ranOn);
      RetainEffect(lim, sys, Commit(lim, sys, w), pc.job, pc.frame, pc.ranOn, pc.job.ticket);
    } else {
      CalmEffect(lim, sys, Commit(lim, sys, w));
    }
  }

  lemma WorkerCalm(lim: Limits, sys: System, w: nat, x: WorkerInput)
    requires w < |sys.workers| && !sys.workers[w].Committing? && !sys.workers[w].Erasing? && !sys.workers[w].Finishing?
    ensures var r := MoveWorker(lim, sys, w, x);
            r.core.ledger == sys.core.ledger && SameRecords(sys.history, r.history)
  {
    hide TakeJob, Triage, Validate, Announce, EndCall, Commit, ReadOpen, EnterOpen, EndOpen, SettleOpen, WorkerFrame,
      Tickets;
    DecidesCalmly(sys, w, x);
    QueuesCalmly(lim, sys, w, x);
  }

  lemma DecidesCalmly(sys: System, w: nat, x: WorkerInput)
    requires w < |sys.workers|
    ensures sys.workers[w].Taken? ==> Calmly(sys, Triage(sys, w, x))
    ensures sys.workers[w].Validating? ==> Calmly(sys, Validate(sys, w, x))
    ensures sys.workers[w].Calling? ==> Calmly(sys, EndCall(sys, w, x))
    ensures sys.workers[w].OpenReading? ==> Calmly(sys, ReadOpen(sys, w))
    ensures sys.workers[w].OpenEntering? ==> Calmly(sys, EnterOpen(sys, w, x))
    ensures sys.workers[w].OpenCalling? ==> Calmly(sys, EndOpen(sys, w, x))
  {
    hide WorkerFrame, UnaryReply, OperationTerminal, OpenOutcome, RejectedDispatch, ValidateWorkContext;
  }

  predicate Calmly(sys: System, r: System) {
    r.core.ledger == sys.core.ledger && SameRecords(sys.history, r.history)
  }

  lemma QueuesCalmly(lim: Limits, sys: System, w: nat, x: WorkerInput)
    requires w < |sys.workers|
    ensures sys.workers[w].Idle? ==> Calmly(sys, TakeJob(sys, w))
    ensures sys.workers[w].Announcing? ==> Calmly(sys, Announce(lim, sys, w, x))
    ensures sys.workers[w].OpenSettling? ==> Calmly(sys, SettleOpen(lim, sys, w))
  {
    hide WorkerFrame, QueueWork, SettleSourceOpen, Minus;
  }

  // Everything else.

  lemma AppEffect(lim: Limits, sys: System, a: Action)
    ensures Effect(lim, sys, MoveApp(lim, sys, a), Calm)
  {
    hide Effect, AppPublish, AppClose, LiveKept, SamePair, SameSpec;
    CalmEffect(lim, sys, MoveApp(lim, sys, a));
  }

  lemma LifeEffect(lim: Limits, sys: System, ok: bool, order: seq<string>) returns (e: Event)
    ensures Effect(lim, sys, MoveLife(sys, ok, order), e) && !e.Admits?
    ensures !e.Erases? && !e.Retains?
  {
    hide Effect, MoveDeactivation, MoveStartup, MoveCommit, Tickets, LifeFrame;
    var r := MoveLife(sys, ok, order);
    if sys.life.Clearing? || sys.life.Awaiting? || sys.life.Halting? {
      e := HaltEffect(lim, sys, order);
    } else {
      e := Calm;
      StartupCalm(sys, ok);
      CalmEffect(lim, sys, r);
    }
  }

  predicate LifeCalm(sys: System, r: System) {
    && r.core.ledger == sys.core.ledger && r.core.dispatch == sys.core.dispatch
        && r.core.nextTicket == sys.core.nextTicket
    && SameRecords(sys.history, r.history)
  }

  lemma StartupCalm(sys: System, ok: bool)
    ensures LifeCalm(sys, MoveStartup(sys, ok)) && LifeCalm(sys, MoveCommit(sys, ok))
  {
    StartupRecords(sys, ok);
    CommitRecords(sys, ok);
  }

  lemma StartupRecords(sys: System, ok: bool)
    ensures MoveStartup(sys, ok).history.resets == sys.history.resets
  {
    hide LifeFrame;
  }

  lemma CommitRecords(sys: System, ok: bool)
    ensures MoveCommit(sys, ok).history.resets == sys.history.resets
  {
    hide LifeFrame, Grants;
  }

  lemma HaltEffect(lim: Limits, sys: System, order: seq<string>) returns (e: Event)
    ensures Effect(lim, sys, MoveDeactivation(sys, order), e) && !e.Admits?
    ensures !e.Erases? && !e.Retains?
  {
    hide Effect, StopTaking, Deactivated, LifeFrame;
    var r := MoveDeactivation(sys, order);
    e := Calm;
    match sys.life
    case Clearing(next) => StopTakingCalm(sys, next, order); CalmEffect(lim, sys, r);
    case Halting(bindings, hadSpec, next) =>
      if |bindings| > 0 {
        CalmEffect(lim, sys, r);
      } else {
        e := DeactivatedEffect(lim, sys, if hadSpec then Log(sys, ClearSpec) else sys, next);
      }
    case _ => CalmEffect(lim, sys, r);
  }

  lemma StopTakingCalm(sys: System, next: Next, order: seq<string>)
    ensures LifeCalm(sys, StopTaking(sys, next, order))
  {
    hide Enumerates, Bindings, LiveTickets, Tickets, LifeFrame;
  }

  lemma DeactivatedEffect(lim: Limits, sys: System, logged: System, next: Next) returns (e: Event)
    requires (logged == sys || logged == Log(sys, ClearSpec)) && sys.life.Halting? && sys.life.next == next
    ensures Effect(lim, sys, Deactivated(logged, next), e) && !e.Admits?
    ensures !e.Erases? && !e.Retains?
  {
    hide LifeFrame, EntryFor, Presents, Finishes;
    e := if next.ThenReset? then Wipes else Calm;
  }

  lemma PairEffect(lim: Limits, sys: System, a: Action) returns (e: Event)
    ensures Effect(lim, sys, MovePair(lim, sys, a), e) && !e.Admits?
    ensures !e.Erases? && !e.Retains?
  {
    hide EntryFor, Presents, Finishes, Tickets, LiveTickets, JudgePair;
    var r := MovePair(lim, sys, a);
    e := if r != sys && (a.Prepare? || a.Release? || a.Clear?) then DropsAll else Calm;
  }

  lemma RequestEffect(lim: Limits, sys: System, a: Action)
    ensures Effect(lim, sys, MoveRequest(sys, a), Calm)
  {
    hide MoveRequest, Effect;
    CalmEffect(lim, sys, MoveRequest(sys, a));
  }

  lemma RegistrationEffect(lim: Limits, sys: System, a: Action)
    ensures Effect(lim, sys, MoveRegistration(lim, sys, a), Calm)
  {
    hide Negotiated, Effect;
    CalmEffect(lim, sys, MoveRegistration(lim, sys, a));
  }

  lemma WireEffect(lim: Limits, sys: System, a: Action)
    ensures Effect(lim, sys, MoveWire(lim, sys, a), Calm)
  {
    hide Effect, MoveWire;
    CalmEffect(lim, sys, MoveWire(lim, sys, a));
  }

  predicate AsksForWork(a: Action) { a.Inbound? && a.frame.WorkRequest? }

  predicate Requests(a: Action, workId: string) {
    AsksForWork(a) && a.frame.job.workId == workId
  }

  /** Work is admitted when it is asked for, and only workers and the reader retain and erase. */
  predicate Caused(sys: System, a: Action, e: Event) {
    && (e.Admits? ==> Requests(a, e.job.workId))
    && (!a.WorkerMove? ==> !e.Erases? && (e.Retains? ==> e.ticket == 0))
    && (e.Retains? ==> CommittedBy(sys, a, e))
  }

  /** The thread that moves is the one whose terminal is retained. */
  predicate CommittedBy(sys: System, a: Action, e: Event)
    requires e.Retains?
  {
    if a.WorkerMove? then
      && a.worker < |sys.workers| && CommitsWith(sys.workers[a.worker], e.job, e.frame, e.ranOn)
      && e.ticket == e.job.ticket
    else a.ReaderMove? && sys.reader == Retaining(e.job, e.frame)
  }

  /** Every step is one of the events; only the Host's request admits Work, only workers erase tokens. */
  lemma StepEffect(lim: Limits, sys: System, a: Action) returns (e: Event)
    ensures Effect(lim, sys, Step(lim, sys, a), e) && Caused(sys, a, e)
  {
    hide Receive, MoveReader, MoveWorker, MoveApp, MoveRequest, MoveLife, MoveRegistration, MovePair, MoveWire,
      Effect, ReaderFrame, WorkerFrame, LifeFrame, PairFrame, SamePair, SameSpec, LiveKept, WireFrame, RequestFrame,
      AppFrame;
    e := Calm;
    if a.Inbound? {
      e := ReceiveEffect(lim, sys, a);
    } else if a.ReaderMove? {
      e := SendEffect(lim, sys);
    } else if a.WorkerMove? {
      if a.worker < |sys.workers| {
        e := WorkerEffect(lim, sys, a.worker, a.input);
      } else {
        CalmEffect(lim, sys, sys);
      }
    } else if OfApp(a) {
      AppEffect(lim, sys, a);
    } else if a.LifeMove? {
      e := LifeEffect(lim, sys, a.ok, a.order);
    } else if OfPair(a) {
      e := PairEffect(lim, sys, a);
    } else if OfWire(a) {
      WireEffect(lim, sys, a);
    } else if OfRegistration(a) {
      RegistrationEffect(lim, sys, a);
    } else {
      RequestEffect(lim, sys, a);
    }
  }
}
