/** What each step of any thread does to the Work queue and to the log of everything it admitted. */
module Logs {
  import opened Base
  import opened Fips180
  import opened Protocol
  import opened Complaints
  import opened Results
  import opened Core
  import opened Machine
  import opened Works

  // The log of queued frames.

  /** A terminal of retained Work is queued only as the retained frame. */
  predicate Admissible(replay: map<string, Entry>, frame: WorkFrame) {
    var id := TerminalOf(frame.body);
    id.Some? && id.value in replay ==> frame == replay[id.value].frame
  }

  /** A frame joins the queue and the log at the back. */
  predicate Pushed(before: Outbox, after: Outbox, frame: WorkFrame) {
    && after.log == before.log + [frame] && after.taken == before.taken && |after.queue| == |before.queue| + 1
    && after.queue[..|before.queue|] == before.queue && after.queue[|before.queue|].frame == frame
  }

  /** A frame leaves the queue at the front. */
  predicate Popped(before: Outbox, after: Outbox) {
    && |before.queue| > 0 && after.queue == before.queue[1..] && after.taken == before.taken + [before.queue[0]]
    && after.log == before.log
  }

  predicate Cleared(before: Outbox, after: Outbox) {
    after.queue == [] && after.taken == [] && after.log == before.log
  }

  /** What a step does to the Work queue. */
  predicate QueueMoves(replay: map<string, Entry>, before: Outbox, after: Outbox) {
    || after == before || Popped(before, after) || Cleared(before, after)
    || (|after.log| > |before.log| && Pushed(before, after, after.log[|before.log|])
        && Admissible(replay, after.log[|before.log|]))
  }

  predicate LogGrows(sys: System, r: System) {
    QueueMoves(sys.core.ledger.replay, sys.core.outbox, r.core.outbox)
  }

  /** At most one frame is queued, and it is no terminal of Work. */
  predicate QuietLog(s: State, t: State) {
    || t.outbox == s.outbox
    || (|t.outbox.log| > |s.outbox.log| && Pushed(s.outbox, t.outbox, t.outbox.log[|s.outbox.log|])
        && TerminalOf(t.outbox.log[|s.outbox.log|].body).None?)
  }

  lemma QuietGrows(sys: System, r: System)
    requires QuietLog(sys.core, r.core)
    ensures LogGrows(sys, r)
  {
  }

  lemma OneMore(sys: System, r: System, frame: WorkFrame)
    requires Pushed(sys.core.outbox, r.core.outbox, frame) && Admissible(sys.core.ledger.replay, frame)
    ensures LogGrows(sys, r)
  {
  }

  lemma QueueLogs(lim: Limits, s: State, frame: WorkFrame)
    ensures var t := QueueWork(lim, s, frame); t.Some? ==> Pushed(s.outbox, t.value.outbox, frame)
  {
    hide FrameBytes;
  }

  lemma TerminalLogs(lim: Limits, s: State, id: string, source: Source, frame: WorkFrame)
    ensures var t := CommitSourceTerminal(lim, s, id, source, frame);
            t.Some? ==> Pushed(s.outbox, t.value.outbox, frame) && TerminalOf(frame.body).None?
  {
    hide FrameBytes, Entomb, QueueWork;
    QueueLogs(lim, s, frame);
  }

  lemma OpenLog(lim: Limits, s: State, job: Job, expired: bool, wire: seq<Byte>)
    ensures QuietLog(s, EnqueueSourceOpen(lim, s, job, expired, wire).0)
  {
    hide CommitSourceTerminal, JudgeSourceOpen, ValidateWorkContext, Explain;
    var verdict := JudgeSourceOpen(lim, s, job, expired);
    if verdict.Reject? {
      var source := NewSource(s, lim, job, NO_ENDPOINT, 0);
      var held := s.(sources := s.sources.(bytes := s.sources.bytes + source.bytes), nextTicket := s.nextTicket + 1);
      TerminalLogs(lim, held, job.workId, source, RefusalFrame(job.workId, verdict.complaint, wire));
    }
  }

  lemma EndLog(lim: Limits, s: State, id: string, frame: WorkFrame)
    requires id in s.sources.live
    ensures var t := EndLive(lim, s, id, frame); t.Some? ==> QuietLog(s, t.value)
  {
    hide CommitSourceTerminal;
    TerminalLogs(lim, s, id, s.sources.live[id], frame);
  }

  lemma CancelLog(lim: Limits, s: State, identity: Identity, reason: string, wire: seq<Byte>)
    ensures QuietLog(s, HandleCancellation(lim, s, identity, reason, wire).0)
  {
    hide EndLive, PeerCancelled;
    if identity.StreamId? && identity.id in s.sources.live {
      var flagged := s.(cancelled := s.cancelled + {s.sources.live[identity.id].ticket});
      EndLog(lim, flagged, identity.id, CloseFrame(flagged, identity.id, Some(PeerCancelled(reason)), wire));
    }
  }

  lemma SettleLog(lim: Limits, s: State, job: Job, decision: OpenDecision, wire: seq<Byte>)
    ensures QuietLog(s, SettleSourceOpen(lim, s, job, decision, wire).0)
  {
    hide EndLive, QueueWork, FrameBytes;
    QueueLogs(lim, s, OpenFrame(job.workId, decision, wire));
    if job.workId in s.sources.live {
      EndLog(lim, s, job.workId, OpenFrame(job.workId, decision, wire));
    }
  }

  lemma AppLog(lim: Limits, sys: System, a: Action)
    ensures QuietLog(sys.core, MoveApp(lim, sys, a).core)
  {
    hide EndLive, QueueWork, FrameBytes, SaturatedBytes, IsTypedError, LiveKept, SamePair, SameSpec, Tell, Conclude;
    if a.Publish? && a.id in sys.core.sources.live {
      QueueLogs(lim, sys.core, WorkFrame(SourceData(a.id, sys.core.sources.live[a.id].sequence + 1, a.items), a.wire));
    } else if a.Close? && a.id in sys.core.sources.live {
      EndLog(lim, sys.core, a.id, CloseFrame(sys.core, a.id, a.problem, a.wire));
    }
  }

  lemma HandleLog(lim: Limits, sys: System, frame: HostFrame, expired: bool, wire: seq<Byte>)
    ensures QuietLog(sys.core, Handle(lim, sys, frame, expired, wire).core)
  {
    hide EnqueueDispatch, EnqueueSourceOpen, GrantSourceCredit, HandleCancellation, AcknowledgeTerminal, Tickets,
      ReaderFrame, Begin, Conclude, Credited, Owe, Freed;
    match frame
    case OpenRequest(job) => OpenLog(lim, sys.core, job.(kind := SourceOpen), expired, wire);
    case CancelFrame(identity, reason) => CancelLog(lim, sys.core, identity, reason, wire);
    case _ =>
  }

  lemma ReceiveLog(lim: Limits, sys: System, a: Action)
    requires a.Inbound?
    ensures LogGrows(sys, MoveInbound(lim, sys, a))
  {
    hide Handle, Tickets, ReaderFrame, LogGrows, QuietLog;
    var heard := sys.(wire := sys.wire.(workIn := a.sequence, heard := sys.wire.heard + [a.sequence]));
    HandleLog(lim, heard, a.frame, a.expired, a.wire);
    QuietSame(sys.core, MoveInbound(lim, sys, a).core);
    QuietGrows(sys, MoveInbound(lim, sys, a));
  }

  lemma QuietSame(s: State, t: State)
    ensures t.outbox == s.outbox ==> QuietLog(s, t)
  {
  }

  lemma CommitLog(lim: Limits, s: State, job: Job, frame: WorkFrame)
    ensures var (t, result) := CommitTerminal(lim, s, job, frame);
            && (result.Committed? ==> Pushed(s.outbox, t.outbox, frame) && job.workId !in s.ledger.replay)
            && (!result.Committed? ==> t == s)
  {
    hide Retain, EntryFor, FrameBytes;
  }

  /** What a thread retains is queued for its own id, which has no entry yet. */
  lemma FreshTerminal(replay: map<string, Entry>, job: Job, frame: WorkFrame, ranOn: Option<Endpoint>)
    requires WellFormedFor(job, frame, ranOn) && job.workId !in replay
    ensures Admissible(replay, frame)
  {
    hide IsTypedError, Meets, ErrorMatchesPhase;
  }

  lemma SendLog(lim: Limits, sys: System)
    requires ReaderFaithful(sys.reader, sys.core.ledger.replay)
    ensures LogGrows(sys, MoveReader(lim, sys))
  {
    hide QueueWork, CommitTerminal, ReaderFrame, Tickets, LogGrows, WellFormedFor, TerminalOf;
    match sys.reader
    case Sending(frame, ticket) =>
      QueueLogs(lim, sys.core, frame);
      if QueueWork(lim, sys.core, frame).Some? { OneMore(sys, MoveReader(lim, sys), frame); } else {
        SameLog(sys, MoveReader(lim, sys));
      }
    case Retaining(job, frame) =>
      CommitLog(lim, sys.core, job, frame);
      if CommitTerminal(lim, sys.core, job, frame).1.Committed? {
        FreshTerminal(sys.core.ledger.replay, job, frame, None);
        OneMore(sys, MoveReader(lim, sys), frame);
      } else {
        SameLog(sys, MoveReader(lim, sys));
      }
    case _ => SameLog(sys, MoveReader(lim, sys));
  }

  lemma SameLog(sys: System, r: System)
    requires r.core.outbox == sys.core.outbox || Cleared(sys.core.outbox, r.core.outbox)
             || Popped(sys.core.outbox, r.core.outbox)
    ensures LogGrows(sys, r)
  {
  }

  lemma WorkerLog(lim: Limits, sys: System, w: nat, x: WorkerInput)
    requires w < |sys.workers| && PcOk(sys.workers[w])
    ensures LogGrows(sys, MoveWorker(lim, sys, w, x))
  {
    hide LogGrows, PcOk, WorkerFrame, TakeJob, Triage, Validate, Announce, EndCall, Commit, ReadOpen, EnterOpen,
      EndOpen, SettleOpen, Tickets, ReleaseWorkToken;
    var pc, r := sys.workers[w], MoveWorker(lim, sys, w, x);
    if pc.Announcing? {
      AnnounceLog(lim, sys, w, x);
    } else if pc.Committing? {
      CommittingLog(lim, sys, w);
    } else if pc.OpenSettling? {
      OpenSettlingLog(lim, sys, w);
    } else {
      DecidesLog(sys, w, x);
      SameLog(sys, r);
    }
  }

  lemma AnnounceLog(lim: Limits, sys: System, w: nat, x: WorkerInput)
    requires w < |sys.workers| && sys.workers[w].Announcing?
    ensures LogGrows(sys, Announce(lim, sys, w, x))
  {
    hide WorkerFrame, QueueWork, LogGrows;
    var pc := sys.workers[w];
    var phase := if pc.left == 1 then PhaseStarted else PhaseAccepted;
    QueueLogs(lim, sys.core, WorkFrame(OperationEvent(pc.job.workId, phase, None, None), x.wire));
    QuietGrows(sys, Announce(lim, sys, w, x));
  }

  lemma CommittingLog(lim: Limits, sys: System, w: nat)
    requires w < |sys.workers| && sys.workers[w].Committing? && PcOk(sys.workers[w])
    ensures LogGrows(sys, Commit(lim, sys, w))
  {
    hide WorkerFrame, CommitTerminal, LogGrows, WellFormedFor;
    var pc := sys.workers[w];
    CommitLog(lim, sys.core, pc.job, pc.frame);
    if CommitTerminal(lim, sys.core, pc.job, pc.frame).1.Committed? {
      FreshTerminal(sys.core.ledger.replay, pc.job, pc.frame, pc.ranOn);
      OneMore(sys, Commit(lim, sys, w), pc.frame);
    } else {
      SameLog(sys, Commit(lim, sys, w));
    }
  }

  lemma OpenSettlingLog(lim: Limits, sys: System, w: nat)
    requires w < |sys.workers| && sys.workers[w].OpenSettling?
    ensures LogGrows(sys, SettleOpen(lim, sys, w))
  {
    hide WorkerFrame, SettleSourceOpen, LogGrows, QuietLog, Tell, Conclude, Credited, Owe;
    SettleLog(lim, sys.core, sys.workers[w].job, sys.workers[w].decision, sys.workers[w].wire);
    QuietSame(sys.core, SettleOpen(lim, sys, w).core);
    QuietGrows(sys, SettleOpen(lim, sys, w));
  }

  lemma DecidesLog(sys: System, w: nat, x: WorkerInput)
    requires w < |sys.workers|
    ensures sys.workers[w].Idle? ==> TakeJob(sys, w).core.outbox == sys.core.outbox
    ensures sys.workers[w].Taken? ==> Triage(sys, w, x).core.outbox == sys.core.outbox
    ensures sys.workers[w].Validating? ==> Validate(sys, w, x).core.outbox == sys.core.outbox
    ensures sys.workers[w].Calling? ==> EndCall(sys, w, x).core.outbox == sys.core.outbox
    ensures sys.workers[w].OpenReading? ==> ReadOpen(sys, w).core.outbox == sys.core.outbox
    ensures sys.workers[w].OpenEntering? ==> EnterOpen(sys, w, x).core.outbox == sys.core.outbox
    ensures sys.workers[w].OpenCalling? ==> EndOpen(sys, w, x).core.outbox == sys.core.outbox
  {
    hide WorkerFrame, UnaryReply, OperationTerminal, OpenOutcome, RejectedDispatch, ValidateWorkContext, Minus;
  }

  // The remaining steps leave the log alone.

  lemma LifeLog(sys: System, ok: bool, order: seq<string>)
    ensures MoveLife(sys, ok, order).core.outbox == sys.core.outbox
            || Cleared(sys.core.outbox, MoveLife(sys, ok, order).core.outbox)
  {
    hide MoveDeactivation, MoveStartup, MoveCommit, LifeFrame, Tickets;
    if sys.life.Clearing? || sys.life.Awaiting? || sys.life.Halting? {
      HaltLog(sys, order);
    }
  }

  lemma HaltLog(sys: System, order: seq<string>)
    ensures MoveDeactivation(sys, order).core.outbox == sys.core.outbox
            || Cleared(sys.core.outbox, MoveDeactivation(sys, order).core.outbox)
  {
    hide Enumerates, Bindings, LiveTickets, Tickets, LifeFrame;
  }

  lemma PairLog(lim: Limits, sys: System, a: Action)
    ensures MovePair(lim, sys, a).core.outbox == sys.core.outbox
            || Cleared(sys.core.outbox, MovePair(lim, sys, a).core.outbox)
    ensures var r := MoveRegistration(lim, sys, a);
            r.core.outbox == sys.core.outbox || Cleared(sys.core.outbox, r.core.outbox)
  {
    hide Tickets, LiveTickets, ReleaseAllTokens, JudgePair, Negotiated;
  }

  lemma LogStep(lim: Limits, sys: System, a: Action)
    requires WorksOk(lim, sys)
    ensures LogGrows(sys, Step(lim, sys, a))
  {
    hide Receive, MoveReader, MoveWorker, MoveApp, MoveRequest, MoveLife, MoveRegistration, MovePair, MoveWire,
      LogGrows, QuietLog, SamePair, SameSpec, LiveKept, ReaderFrame, WorkerFrame, LifeFrame, PairFrame, ReservedOk,
      TokenNumbered, EntryOk, PcOk, ReaderFaithful, RequestFrame, AppFrame;
    if a.Inbound? {
      ReceiveLog(lim, sys, a);
    } else if a.ReaderMove? {
      SendLog(lim, sys);
    } else if a.WorkerMove? {
      if a.worker < |sys.workers| { WorkerLog(lim, sys, a.worker, a.input); } else { SameLog(sys, sys); }
    } else if OfApp(a) {
      AppLog(lim, sys, a);
      QuietGrows(sys, Step(lim, sys, a));
    } else if a.LifeMove? {
      LifeLog(sys, a.ok, a.order);
      SameLog(sys, Step(lim, sys, a));
    } else if OfRegistration(a) || OfPair(a) {
      PairLog(lim, sys, a);
      SameLog(sys, Step(lim, sys, a));
    } else if OfWire(a) {
      WireLog(lim, sys, a);
    } else {
      OtherLog(sys, a);
    }
  }

  lemma WireLog(lim: Limits, sys: System, a: Action)
    ensures LogGrows(sys, MoveWire(lim, sys, a))
  {
    hide MoveWire, LogGrows, Minus;
    SameLog(sys, MoveWire(lim, sys, a));
  }

  lemma OtherLog(sys: System, a: Action)
    ensures LogGrows(sys, MoveRequest(sys, a))
  {
    hide LogGrows, MoveRequest;
    SameLog(sys, MoveRequest(sys, a));
  }

}
