/** The exact accounting of every table is kept by every step of every thread. */
module Accounts {
  import opened Base
  import opened Fips180
  import opened Protocol
  import opened Results
  import opened Core
  import opened Tables
  import opened Machine
  import opened Threads

  /** On an open pair the source counter is exact; between pairs it may only be too high. */
  ghost predicate AccountsOk(lim: Limits, sys: System) {
    exists slack: nat :: TablesOk(lim, sys.core, slack) && (sys.pair == Open ==> slack == 0)
  }

  /** Flags and cancellations are not accounted for. */
  lemma FlagsOk(lim: Limits, s: State, t: State, slack: nat)
    requires TablesOk(lim, s, slack)
    requires t.ledger == s.ledger && t.outbox == s.outbox && t.dispatch == s.dispatch
             && t.dispatchBytes == s.dispatchBytes
    requires t.sources == s.sources && t.link.epoch == s.link.epoch
    ensures TablesOk(lim, t, slack)
  {
  }

  lemma ReceiveOk(lim: Limits, sys: System, sequence: nat, authentic: bool, frame: HostFrame, expired: bool,
                  wire: seq<Byte>, slack: nat)
    requires TablesOk(lim, sys.core, slack)
    ensures TablesOk(lim, Receive(lim, sys, sequence, authentic, frame, expired, wire).core, slack)
  {
    hide Handle, TablesOk, Tickets;
    FlagsOk(lim, sys.core, SignalTerminalFailure(sys.core), slack);
    HandleOk(lim, sys.(wire := sys.wire.(workIn := sequence, heard := sys.wire.heard + [sequence])), frame, expired,
        wire, slack);
  }

  lemma HandleOk(lim: Limits, sys: System, frame: HostFrame, expired: bool, wire: seq<Byte>, slack: nat)
    requires TablesOk(lim, sys.core, slack)
    ensures TablesOk(lim, Handle(lim, sys, frame, expired, wire).core, slack)
  {
    hide TablesOk, EnqueueDispatch, EnqueueSourceOpen, GrantSourceCredit, HandleCancellation, AcknowledgeTerminal,
      Tickets, Begin, Conclude, Credited, Owe, RejectedDispatch;
    match frame
    case WorkRequest(job) => EnqueueDispatchOk(lim, sys.core, job.(ticket := 0, reservation := 0), slack);
    case OpenRequest(job) => EnqueueSourceOpenOk(lim, sys.core, job.(kind := SourceOpen), expired, wire, slack);
    case CreditFrame(id, acknowledged, grant) => GrantSourceCreditOk(lim, sys.core, id, acknowledged, grant, slack);
    case CancelFrame(identity, reason) => HandleCancellationOk(lim, sys.core, identity, reason, wire, slack);
    case AckFrame(identity, digest) => AcknowledgeTerminalOk(lim, sys.core, identity, digest, slack);
    case EmptyFrame =>
    case HostError => FlagsOk(lim, sys.core, SignalTerminalFailure(sys.core), slack);
  }

  lemma ReaderOk(lim: Limits, sys: System, slack: nat)
    requires TablesOk(lim, sys.core, slack)
    ensures TablesOk(lim, MoveReader(lim, sys).core, slack)
  {
    hide TablesOk, QueueWork, CommitTerminal, Tickets, Tell, Answer;
    match sys.reader
    case Sending(frame, _) => QueueWorkOk(lim, sys.core, frame, slack);
    case Retaining(job, frame) => CommitTerminalOk(lim, sys.core, job, frame, slack);
    case _ => FlagsOk(lim, sys.core, SignalFailure(sys.core), slack);
  }

  lemma WorkerOk(lim: Limits, sys: System, w: nat, x: WorkerInput, slack: nat)
    requires TablesOk(lim, sys.core, slack)
    ensures TablesOk(lim, MoveWorker(lim, sys, w, x).core, slack)
  {
    hide TablesOk, TakeJob, Triage, Validate, Announce, EndCall, Commit, ReadOpen, EnterOpen, EndOpen, SettleOpen,
      WorkerFrame, Tickets, ReleaseWorkToken, Depart;
    if w < |sys.workers| {
      var pc := sys.workers[w];
      match pc
      case Idle => TakeJobOk(lim, sys, w, slack);
      case Announcing(_, _, _, _) => AnnounceOk(lim, sys, w, x, slack);
      case Committing(_, _, _, _, _) => CommitOk(lim, sys, w, slack);
      case OpenSettling(_, _, _, _) => SettleOk(lim, sys, w, slack);
      case Failing(_, _) => FlagsOk(lim, sys.core, SignalFailure(sys.core), slack);
      case OpenFailing(_) => FlagsOk(lim, sys.core, SignalFailure(sys.core), slack);
      case Erasing(job) => EraseWorkTokenOk(lim, sys.core, job.workId, slack);
      case Finishing(job) => EraseWorkTokenOk(lim, sys.core, job.workId, slack);
      case Taken(_) => TriageKeepsCore(sys, w, x);
      case Validating(_) => TriageKeepsCore(sys, w, x);
      case Calling(_, _, _) => TriageKeepsCore(sys, w, x);
      case OpenReading(_) => TriageKeepsCore(sys, w, x);
      case OpenEntering(_, _, _) => TriageKeepsCore(sys, w, x);
      case OpenCalling(_, _, _) => TriageKeepsCore(sys, w, x);
      case Leaving =>
      case OpenFinishing(_, _) =>
    }
  }

  /** The steps that only decide leave the tables alone. */
  lemma TriageKeepsCore(sys: System, w: nat, x: WorkerInput)
    requires w < |sys.workers|
    ensures sys.workers[w].Taken? ==> Triage(sys, w, x).core == sys.core
    ensures sys.workers[w].Validating? ==> Validate(sys, w, x).core == sys.core
    ensures sys.workers[w].Calling? ==> EndCall(sys, w, x).core == sys.core
    ensures sys.workers[w].OpenReading? ==> ReadOpen(sys, w).core == sys.core
    ensures sys.workers[w].OpenEntering? ==> EnterOpen(sys, w, x).core == sys.core
    ensures sys.workers[w].OpenCalling? ==> EndOpen(sys, w, x).core == sys.core
  {
    hide WorkerFrame, UnaryReply, OperationTerminal, OpenOutcome, RejectedDispatch, ValidateWorkContext;
  }

  lemma TakeJobOk(lim: Limits, sys: System, w: nat, slack: nat)
    requires TablesOk(lim, sys.core, slack) && w < |sys.workers| && sys.workers[w].Idle?
    ensures TablesOk(lim, TakeJob(sys, w).core, slack)
  {
    hide WorkerFrame, LedgerOk, OutboxOk, SourcesOk, Minus;
  }

  lemma AnnounceOk(lim: Limits, sys: System, w: nat, x: WorkerInput, slack: nat)
    requires TablesOk(lim, sys.core, slack) && w < |sys.workers| && sys.workers[w].Announcing?
    ensures TablesOk(lim, Announce(lim, sys, w, x).core, slack)
  {
    hide WorkerFrame, TablesOk, QueueWork;
    var pc := sys.workers[w];
    var phase := if pc.left == 1 then PhaseStarted else PhaseAccepted;
    QueueWorkOk(lim, sys.core, WorkFrame(OperationEvent(pc.job.workId, phase, None, None), x.wire), slack);
  }

  lemma CommitOk(lim: Limits, sys: System, w: nat, slack: nat)
    requires TablesOk(lim, sys.core, slack) && w < |sys.workers| && sys.workers[w].Committing?
    ensures TablesOk(lim, Commit(lim, sys, w).core, slack)
  {
    hide WorkerFrame, TablesOk, CommitTerminal;
    CommitTerminalOk(lim, sys.core, sys.workers[w].job, sys.workers[w].frame, slack);
  }

  lemma SettleOk(lim: Limits, sys: System, w: nat, slack: nat)
    requires TablesOk(lim, sys.core, slack) && w < |sys.workers| && sys.workers[w].OpenSettling?
    ensures TablesOk(lim, SettleOpen(lim, sys, w).core, slack)
  {
    hide WorkerFrame, TablesOk, SettleSourceOpen, Tell, Conclude, Credited, Owe;
    SettleSourceOpenOk(lim, sys.core, sys.workers[w].job, sys.workers[w].decision, sys.workers[w].wire, slack);
  }

  lemma AppOk(lim: Limits, sys: System, a: Action, slack: nat)
    requires TablesOk(lim, sys.core, slack)
    ensures a.Publish? ==> TablesOk(lim, AppPublish(lim, sys, a.id, a.items, a.wire).core, slack)
    ensures a.Close? ==> TablesOk(lim, AppClose(lim, sys, a.id, a.problem, a.wire).core, slack)
  {
    hide TablesOk, PublishSource, CloseSource, Tell, Conclude;
    if a.Publish? {
      PublishSourceOk(lim, sys.core, a.id, a.items, a.wire, slack);
    } else if a.Close? {
      CloseSourceOk(lim, sys.core, a.id, a.problem, a.wire, slack);
    }
  }

  lemma LifeOk(lim: Limits, sys: System, ok: bool, order: seq<string>)
    requires AccountsOk(lim, sys)
    ensures AccountsOk(lim, MoveLife(sys, ok, order))
  {
    hide MoveDeactivation, MoveStartup, MoveCommit, TablesOk, LifeFrame, SignalFailure;
    var slack: nat :| TablesOk(lim, sys.core, slack) && (sys.pair == Open ==> slack == 0);
    FailureOk(lim, sys.core, slack);
    DeactivationOk(lim, sys, order);
    StartupOk(lim, sys, ok);
    CommitStageOk(lim, sys, ok);
  }

  lemma FailureOk(lim: Limits, s: State, slack: nat)
    requires TablesOk(lim, s, slack)
    ensures TablesOk(lim, SignalFailure(s), slack)
  {
    hide TablesOk, Tickets;
    FlagsOk(lim, s, SignalFailure(s), slack);
  }

  lemma DeactivationOk(lim: Limits, sys: System, order: seq<string>)
    requires AccountsOk(lim, sys)
    ensures AccountsOk(lim, MoveDeactivation(sys, order))
  {
    hide TablesOk, Tickets, Enumerates, Bindings, LiveTickets, Deactivate, LifeFrame, SamePair, SameSpec;
    var slack: nat :| TablesOk(lim, sys.core, slack) && (sys.pair == Open ==> slack == 0);
    var core := sys.core;
    DeactivateOk(lim, core, slack);
    ResetOk(lim, core);
    FlagsOk(lim, core, core.(link := core.link.(phase := Registered, accepting := false)), slack);
    FlagsOk(lim, core, core.(link := core.link.(terminal := true, failed := true, accepting := false,
        phase := SessionLost)), slack);
  }

  lemma ResetOk(lim: Limits, s: State)
    ensures TablesOk(lim, ResetSession(s), 0)
  {
  }

  lemma StartupOk(lim: Limits, sys: System, ok: bool)
    requires AccountsOk(lim, sys)
    ensures AccountsOk(lim, MoveStartup(sys, ok))
  {
    hide TablesOk;
    var slack: nat :| TablesOk(lim, sys.core, slack) && (sys.pair == Open ==> slack == 0);
    FlagsOk(lim, sys.core, MoveStartup(sys, ok).core, slack);
  }

  lemma CommitStageOk(lim: Limits, sys: System, ok: bool)
    requires AccountsOk(lim, sys)
    ensures AccountsOk(lim, MoveCommit(sys, ok))
  {
    hide TablesOk, Grants, LifeFrame;
    var slack: nat :| TablesOk(lim, sys.core, slack) && (sys.pair == Open ==> slack == 0);
    FlagsOk(lim, sys.core, MoveCommit(sys, ok).core, slack);
  }

  lemma RegistrationOk(lim: Limits, sys: System, a: Action)
    requires AccountsOk(lim, sys)
    ensures AccountsOk(lim, MoveRegistration(lim, sys, a))
  {
    hide TablesOk, InstallSession, Negotiated;
    var slack: nat :| TablesOk(lim, sys.core, slack) && (sys.pair == Open ==> slack == 0);
    InstallOk(lim, sys.core, slack);
  }

  lemma InstallOk(lim: Limits, s: State, slack: nat)
    requires TablesOk(lim, s, slack)
    ensures TablesOk(lim, InstallSession(lim, s), 0)
  {
    hide LedgerOk, FramedBytes;
  }

  lemma PairMoveOk(lim: Limits, sys: System, a: Action)
    requires AccountsOk(lim, sys) && PairOk(sys)
    ensures AccountsOk(lim, MovePair(lim, sys, a))
  {
    hide TablesOk, Tickets, LiveTickets, RetirePairTables, ClearConnection, PreparePair, ReleaseAllTokens, PairOk,
      JudgePair, PairFrame;
    var slack: nat :| TablesOk(lim, sys.core, slack) && (sys.pair == Open ==> slack == 0);
    RetirePairTablesOk(lim, sys.core, slack);
    ClearConnectionOk(lim, sys.core, slack);
    ReleaseTokensOk(lim, sys.core, slack);
    if sys.pair == Preparing {
      NothingLive(sys);
      PreparePairOk(lim, sys.core, slack);
    }
    if sys.pair == Judging {
      JudgeOk(lim, sys, slack);
    }
  }

  lemma NothingLive(sys: System)
    requires PairOk(sys) && sys.pair != Open
    ensures sys.core.sources.live == map[]
  {
  }

  /** The epoch advances only while no frame measured under the old one is queued. */
  lemma JudgeOk(lim: Limits, sys: System, slack: nat)
    requires TablesOk(lim, sys.core, slack) && PairOk(sys) && sys.pair == Judging
    ensures TablesOk(lim, JudgePair(lim, sys).core, slack) && JudgePair(lim, sys).pair != Open
  {
    hide LedgerOk, SourcesOk, FramedBytes, NextBackoff;
  }

  lemma ReleaseTokensOk(lim: Limits, s: State, slack: nat)
    requires TablesOk(lim, s, slack)
    ensures TablesOk(lim, s.(ledger := ReleaseAllTokens(s.ledger)), slack)
  {
    hide OutboxOk;
    ReleaseAllOk(lim, s.ledger);
  }

  lemma WireOk(lim: Limits, sys: System, a: Action, slack: nat)
    requires TablesOk(lim, sys.core, slack)
    ensures TablesOk(lim, MoveWire(lim, sys, a).core, slack)
  {
    hide TablesOk, MoveWire, PopWork;
    var after := MoveWire(lim, sys, a).core;
    if |sys.core.outbox.queue| > 0 && after == PopWork(sys.core) {
      PopWorkOk(lim, sys.core, slack);
    } else {
      FlagsOk(lim, sys.core, after, slack);
    }
  }

  /** Only the supervisor and the end of a teardown change the pair's phase. */
  lemma PairPhase(lim: Limits, sys: System, a: Action)
    requires !a.LifeMove? && !a.Register? && !a.FinishRegister? && !a.CheckStop? && !a.Prepare? && !a.Retire?
             && !a.Quiesce?
    requires !a.Release? && !a.Clear? && !a.Judge? && !a.JoinAll?
    ensures Step(lim, sys, a).pair == sys.pair
  {
    hide MoveInbound, MoveWorker, MoveApp, MoveRequest, MoveLife, MoveRegistration, MovePair, MoveWire,
      WorkerMoves, SamePair, SameSpec, WriterTouches;
  }

  /** Steps of the Work reader, the workers and the application. */
  lemma TrafficOk(lim: Limits, sys: System, a: Action, slack: nat)
    requires TablesOk(lim, sys.core, slack) && (OfReader(a) || a.WorkerMove? || OfApp(a))
    ensures TablesOk(lim, Step(lim, sys, a).core, slack)
  {
    hide Receive, MoveReader, MoveWorker, AppPublish, AppClose, MoveRequest, MoveLife, MoveRegistration, MovePair,
      MoveWire, TablesOk, WorkerFrame, ReaderFrame, AppFrame, RequestFrame, WireFrame;
    if a.Inbound? {
      ReceiveOk(lim, sys, a.sequence, a.authentic, a.frame, a.expired, a.wire, slack);
    } else if a.ReaderMove? {
      ReaderOk(lim, sys, slack);
    } else if a.WorkerMove? {
      WorkerOk(lim, sys, a.worker, a.input, slack);
    } else {
      AppOk(lim, sys, a, slack);
    }
  }

  /** Steps that set flags or begin a transaction. */
  lemma QuietOk(lim: Limits, sys: System, a: Action, slack: nat)
    requires TablesOk(lim, sys.core, slack)
    ensures TablesOk(lim, MoveRequest(sys, a).core, slack)
  {
    hide SetFlags, TablesOk, BeginSpec, SamePair, SameSpec;
    if a.BeginApply? {
      BeginOk(lim, sys, a.spec, slack);
    } else if !a.Notify? && !a.Teardown? {
      SetFlagsOk(lim, sys, a, slack);
    }
  }

  lemma AccountsStep(lim: Limits, sys: System, a: Action)
    requires AccountsOk(lim, sys) && PairOk(sys)
    ensures AccountsOk(lim, Step(lim, sys, a))
  {
    hide MoveInbound, MoveWorker, MoveApp, MoveRequest, MoveLife, MoveRegistration, MovePair, MoveWire, TablesOk,
      PairOk, WorkerFrame, ReaderFrame, LifeFrame, PairFrame, SamePair, SameSpec, WriterTouches, LiveKept,
      RequestFrame, AppFrame;
    var slack: nat :| TablesOk(lim, sys.core, slack) && (sys.pair == Open ==> slack == 0);
    if a.LifeMove? {
      LifeOk(lim, sys, a.ok, a.order);
    } else if OfPair(a) {
      PairMoveOk(lim, sys, a);
    } else if OfRegistration(a) {
      RegistrationOk(lim, sys, a);
    } else if OfReader(a) || OfApp(a) || a.WorkerMove? {
      PairPhase(lim, sys, a);
      TrafficOk(lim, sys, a, slack);
    } else if OfWire(a) {
      WireOk(lim, sys, a, slack);
    } else {
      PairPhase(lim, sys, a);
      QuietOk(lim, sys, a, slack);
    }
  }

  lemma SetFlagsOk(lim: Limits, sys: System, a: Action, slack: nat)
    requires TablesOk(lim, sys.core, slack)
    ensures TablesOk(lim, SetFlags(sys.core, sys.pair, a), slack)
  {
    hide SetFlags, TablesOk;
    FlagsOk(lim, sys.core, SetFlags(sys.core, sys.pair, a), slack);
  }

  lemma BeginOk(lim: Limits, sys: System, spec: Spec, slack: nat)
    requires TablesOk(lim, sys.core, slack)
    ensures TablesOk(lim, BeginSpec(sys, spec).core, slack)
  {
    hide TablesOk, ValidSpec, Tickets;
    FlagsOk(lim, sys.core, BeginSpec(sys, spec).core, slack);
  }
}
