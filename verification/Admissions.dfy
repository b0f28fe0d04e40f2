/** The stories of source admissions across threads: every one is well told in every reachable state. */
module Admissions {
  import opened Fips180
  import opened Protocol
  import opened Core
  import opened Machine
  import opened Lifetimes
  import opened Transactions
  import opened Streams
  import opened Jobs

  lemma HandleTold(lim: Limits, sys: System, frame: HostFrame, expired: bool, wire: seq<Byte>)
    requires Told(sys.core, sys.history) && Apart(sys.core.sources) && ChunksOk(sys.core) && sys.core.nextTicket > 0
    ensures var r := Handle(lim, sys, frame, expired, wire); Told(r.core, r.history)
  {
    hide Told, Apart, ChunksOk, ReaderFrame, HandleOpen, HandleCredit, HandleCancel, HandleAck, EnqueueDispatch,
      Tickets;
    match frame
    case WorkRequest(job) =>
      var r := Handle(lim, sys, frame, expired, wire);
      FewerTold(sys.core, sys.history, r.core, r.history);
    case OpenRequest(job) => OpenTold(lim, sys, job, expired, wire);
    case CreditFrame(id, acknowledged, grant) => CreditTold(sys, id, acknowledged, grant, wire);
    case CancelFrame(identity, reason) => CancelTold(lim, sys, identity, reason, wire);
    case AckFrame(identity, digest) => AckTold(sys, identity, digest, wire);
    case EmptyFrame =>
    case HostError => FewerTold(sys.core, sys.history, SignalTerminalFailure(sys.core), sys.history);
  }

  lemma ReceiveTold(lim: Limits, sys: System, sequence: nat, authentic: bool, frame: HostFrame, expired: bool,
                    wire: seq<Byte>)
    requires Told(sys.core, sys.history) && Apart(sys.core.sources) && ChunksOk(sys.core) && sys.core.nextTicket > 0
    ensures var r := Receive(lim, sys, sequence, authentic, frame, expired, wire); Told(r.core, r.history)
  {
    hide Told, Apart, ChunksOk, ReaderFrame, Handle, Tickets;
    FewerTold(sys.core, sys.history, SignalTerminalFailure(sys.core), sys.history);
    HandleTold(lim, sys.(wire := sys.wire.(workIn := sequence, heard := sys.wire.heard + [sequence])), frame, expired,
        wire);
  }

  lemma WorkerTold(lim: Limits, sys: System, w: nat, x: WorkerInput)
    requires Told(sys.core, sys.history) && Apart(sys.core.sources) && JobsOk(sys) && w < |sys.workers|
    ensures var r := MoveWorker(lim, sys, w, x); Told(r.core, r.history)
  {
    hide Told, Apart, JobsApart, WorkerFrame, TakeJob, Triage, Validate, Announce, EndCall, Commit, Depart, ReadOpen,
      EnterOpen, EndOpen, SettleOpen, Tickets, ReleaseWorkToken, JobMoves;
    if sys.workers[w].OpenSettling? {
      SettleTold(lim, sys, w);
    } else {
      var r := MoveWorker(lim, sys, w, x);
      WorkerJobs(lim, sys, w, x);
      FewerTold(sys.core, sys.history, r.core, r.history);
    }
  }

  lemma ToldStep(lim: Limits, sys: System, a: Action)
    requires Told(sys.core, sys.history) && ReplayTold(sys.history, sys.reader) && JobsOk(sys)
    requires Apart(sys.core.sources) && ChunksOk(sys.core) && sys.core.nextTicket > 0
    ensures var r := Step(lim, sys, a); Told(r.core, r.history)
  {
    hide Receive, MoveReader, MoveWorker, AppPublish, AppClose, BeginSpec, BeginTeardown, SetFlags, MoveLife,
      MoveRegistration, MovePair, MoveWire, Told, ReplayTold, JobsOk, Apart, ChunksOk, TablesShrink, ReaderFrame,
      WorkerFrame, LifeFrame, PairFrame, SamePair, SameSpec, LiveKept, LiveTickets;
    if a.Inbound? {
      ReceiveTold(lim, sys, a.sequence, a.authentic, a.frame, a.expired, a.wire);
    } else if a.ReaderMove? {
      SendTold(lim, sys);
    } else if a.WorkerMove? {
      if a.worker < |sys.workers| { WorkerTold(lim, sys, a.worker, a.input); }
    } else if a.Publish? {
      PublishTold(lim, sys, a.id, a.items, a.wire);
    } else if a.Close? {
      CloseTold(lim, sys, a.id, a.problem, a.wire);
    } else if a.Notify? {
      FewerTold(sys.core, sys.history, sys.core, Deliver(sys, a.ticket).history);
    } else {
      QuietShrinks(lim, sys, a);
      ShrunkTold(sys, Step(lim, sys, a));
    }
  }

  lemma ShrunkTold(sys: System, r: System)
    requires Told(sys.core, sys.history) && TablesShrink(sys, r)
    ensures Told(r.core, r.history)
  {
    hide Told, OwesAll;
    FewerTold(sys.core, sys.history, r.core, r.history);
  }

  // A redelivered terminal waits in the reader while other threads go on.

  /** An ended story keeps its end and the frame there. */
  ghost predicate EndsKept(before: map<nat, Story>, after: map<nat, Story>) {
    forall t :: t in after && t in before && before[t].end.Some? ==>
      && after[t].end == before[t].end && |before[t].frames| <= |after[t].frames|
      && (before[t].end.value < |before[t].frames| ==>
            after[t].frames[before[t].end.value] == before[t].frames[before[t].end.value])
  }

  ghost predicate NoneAdded(before: map<nat, Story>, after: map<nat, Story>) {
    forall t :: t in after ==> t in before
  }

  lemma ReplayKept(history: History, later: History, reader: Reader)
    requires ReplayTold(history, reader) && EndsKept(history.stories, later.stories)
    requires NoneAdded(history.stories, later.stories)
    ensures ReplayTold(later, reader)
  {
  }

  lemma LiveUnended(core: State, history: History, id: string)
    requires Told(core, history) && id in core.sources.live
    ensures var t := core.sources.live[id].ticket; t in history.stories && history.stories[t].end.None?
  {
    LiveName(id, core.sources.live[id], history.stories[core.sources.live[id].ticket]);
  }

  /** What the application and the settling worker record is about live sources only. */
  lemma AppKeepsEnds(lim: Limits, sys: System, a: Action)
    requires Told(sys.core, sys.history)
    ensures var r := MoveApp(lim, sys, a);
            EndsKept(sys.history.stories, r.history.stories) && NoneAdded(sys.history.stories, r.history.stories)
    ensures MoveApp(lim, sys, a).reader == sys.reader && MoveApp(lim, sys, a).core.nextTicket == sys.core.nextTicket
  {
    hide PublishSource, CloseSource, LiveKept, SamePair, SameSpec, Told, AppFrame;
    if OfApp(a) && a.id in sys.core.sources.live {
      LiveUnended(sys.core, sys.history, a.id);
    }
  }

  lemma WorkerKeepsEnds(lim: Limits, sys: System, w: nat, x: WorkerInput)
    requires Told(sys.core, sys.history) && w < |sys.workers|
    ensures var r := MoveWorker(lim, sys, w, x);
            EndsKept(sys.history.stories, r.history.stories) && NoneAdded(sys.history.stories, r.history.stories)
  {
    hide TakeJob, Triage, Validate, Announce, EndCall, Commit, Depart, ReadOpen, EnterOpen, EndOpen, SettleOpen,
      WorkerFrame, Tickets, ReleaseWorkToken, Told, JobMoves;
    WorkerJobs(lim, sys, w, x);
    if sys.workers[w].OpenSettling? {
      SettleKeepsEnds(lim, sys, w);
    }
  }

  lemma SettleKeepsEnds(lim: Limits, sys: System, w: nat)
    requires Told(sys.core, sys.history) && w < |sys.workers| && sys.workers[w].OpenSettling?
    ensures var r := SettleOpen(lim, sys, w);
            EndsKept(sys.history.stories, r.history.stories) && NoneAdded(sys.history.stories, r.history.stories)
  {
    hide SettleSourceOpen, WorkerFrame, Told;
    if sys.workers[w].job.workId in sys.core.sources.live {
      LiveUnended(sys.core, sys.history, sys.workers[w].job.workId);
    }
  }

  /** The frame a redelivery is answered with is the retained terminal. */
  lemma ReaderReplays(lim: Limits, sys: System, a: Action)
    requires Told(sys.core, sys.history) && ReplayTold(sys.history, sys.reader)
    ensures var r := MoveInbound(lim, sys, a); ReplayTold(r.history, r.reader)
  {
    hide Handle, Tickets, QueueWork, CommitTerminal, ReaderFrame, Tell, Answer, Told, LiveTold, StoryOk;
    if a.Inbound? && sys.reader.Listening? {
      HandleReplays(lim, sys.(wire := sys.wire.(workIn := a.sequence, heard := sys.wire.heard + [a.sequence])), a.frame,
                    a.expired, a.wire);
    }
  }

  lemma HandleReplays(lim: Limits, sys: System, frame: HostFrame, expired: bool, wire: seq<Byte>)
    requires Told(sys.core, sys.history) && sys.reader.Listening?
    ensures var r := Handle(lim, sys, frame, expired, wire); ReplayTold(r.history, r.reader)
  {
    hide EnqueueDispatch, EnqueueSourceOpen, GrantSourceCredit, HandleCancellation, AcknowledgeTerminal, Tickets,
      ReaderFrame, Begin, Conclude, Credited, Owe, Freed, LiveTold, StoryOk;
  }

  /** Everything about sources that holds between any two steps. */
  ghost predicate AdmissionsOk(sys: System) {
    && Told(sys.core, sys.history) && ReplayTold(sys.history, sys.reader) && JobsOk(sys) && sys.core.nextTicket > 0
  }

  lemma ReplayStep(lim: Limits, sys: System, a: Action)
    requires AdmissionsOk(sys)
    ensures var r := Step(lim, sys, a); ReplayTold(r.history, r.reader) && r.core.nextTicket > 0
  {
    hide MoveInbound, MoveWorker, MoveApp, MoveRequest, MoveLife, MoveRegistration, MovePair, MoveWire, Told,
      JobsOk, ReaderFrame, WorkerFrame, LifeFrame, PairFrame, SamePair, SameSpec, LiveKept, LiveTickets,
      EndsKept, NoneAdded, Arrives;
    if OfReader(a) {
      ReaderReplays(lim, sys, a);
      ReaderTickets(lim, sys, a);
    } else if a.WorkerMove? {
      if a.worker < |sys.workers| {
        WorkerReplays(lim, sys, a.worker, a.input);
      }
    } else if OfApp(a) {
      AppKeepsEnds(lim, sys, a);
      ReplayKept(sys.history, Step(lim, sys, a).history, sys.reader);
    } else if a.Notify? {
    } else {
      QuietShrinks(lim, sys, a);
    }
  }

  lemma ReaderTickets(lim: Limits, sys: System, a: Action)
    ensures sys.core.nextTicket <= MoveInbound(lim, sys, a).core.nextTicket
  {
    ReaderArrives(lim, sys, a);
  }

  lemma WorkerReplays(lim: Limits, sys: System, w: nat, x: WorkerInput)
    requires AdmissionsOk(sys) && w < |sys.workers|
    ensures var r := MoveWorker(lim, sys, w, x); ReplayTold(r.history, r.reader) && r.core.nextTicket > 0
  {
    hide MoveWorker, Told, JobsOk, WorkerMoves, SamePair, SameSpec, EndsKept, NoneAdded, JobMoves, ReplayTold;
    var r := MoveWorker(lim, sys, w, x);
    WorkerKeepsEnds(lim, sys, w, x);
    WorkerJobs(lim, sys, w, x);
    ReplayKept(sys.history, r.history, sys.reader);
  }

  /** A committed spec's endpoints are the only ones a source opens on. */
  lemma ChunksServed(sys: System)
    requires LifetimesOk(sys)
    ensures ChunksOk(sys.core)
  {
    hide Watch, Handlers, WorkersServed, LiveServed, Winding;
    var core := sys.core;
    forall c, e | c in core.active && e in core.active[c].endpoints && core.active[c].endpoints[e].mode == SourceOpen
      ensures ChunkOk(core.active[c].endpoints[e])
    {
      GrantsFromSpec(core.current.value.grants, c);
    }
  }

  lemma AdmissionsStep(lim: Limits, sys: System, a: Action)
    requires AdmissionsOk(sys) && LifetimesOk(sys) && Apart(sys.core.sources)
    ensures AdmissionsOk(Step(lim, sys, a))
  {
    hide Step, Told, ReplayTold, JobsOk, LifetimesOk, ChunksOk, Apart;
    ChunksServed(sys);
    ToldStep(lim, sys, a);
    ReplayStep(lim, sys, a);
    JobsStep(lim, sys, a);
  }
}
