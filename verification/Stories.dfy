/** What the records of source admissions have to do with the Work queue: its log is an interleaving of
    the stories, and every accepted open it holds meets the contract of its endpoint. */
module Stories {
  import opened Base
  import opened Fips180
  import opened Protocol
  import opened Complaints
  import opened Results
  import opened Core
  import opened Machine
  import opened Threads
  import opened Accounts
  import opened Transactions
  import opened Streams
  import opened Jobs
  import opened Admissions
  import opened Runs
  import opened Works
  import opened Logs
  import opened Endings
  import opened Notices

  predicate IsSource(body: Body) { body.SourceOpenResult? || body.SourceData? || body.SourceClose? }

  /** An accepted open carries no error, and its initial payload, if any, meets the endpoint's contract. */
  predicate OpensWell(body: Body, endpoint: Endpoint) {
    body.SourceOpenResult? && body.accepted ==>
      body.problem.None? && (body.initial.Some? ==> Initiates(endpoint, body.initial.value))
  }

  function FramesOf(stories: map<nat, Story>, t: nat): seq<WorkFrame> {
    if t in stories then stories[t].frames else []
  }

  /** Stories are kept; the frames of one may grow by `added`. */
  ghost predicate StoriesGrow(before: map<nat, Story>, after: map<nat, Story>, t: nat, added: seq<WorkFrame>) {
    && (forall u :: u in before ==> u in after)
    && forall u :: u in after ==>
         && after[u].frames == FramesOf(before, u) + (if u == t then added else [])
         && (u in before ==> after[u].id == before[u].id && after[u].endpoint == before[u].endpoint)
  }

  predicate LogAdds(before: seq<WorkFrame>, after: seq<WorkFrame>) {
    |after| == |before| + 1 && after[..|before|] == before
  }

  /** No source frame is queued and no story told. */
  ghost predicate Silent(sys: System, r: System) {
    var before, after := sys.core.outbox.log, r.core.outbox.log;
    && StoriesGrow(sys.history.stories, r.history.stories, 0, [])
    && (after == before || (LogAdds(before, after) && !IsSource(after[|before|].body)))
  }

  /** One source frame is queued, and told in the story of ticket `t` alone. */
  ghost predicate Recorded(sys: System, r: System, t: nat) {
    var before, after := sys.core.outbox.log, r.core.outbox.log;
    && t > 0 && LogAdds(before, after) && IsSource(after[|before|].body)
    && StoriesGrow(sys.history.stories, r.history.stories, t, [after[|before|]]) && t in r.history.stories
    && OpensWell(after[|before|].body, r.history.stories[t].endpoint)
  }

  ghost predicate Records(sys: System, r: System, t: nat) {
    if t == 0 then Silent(sys, r) else Recorded(sys, r, t)
  }

  // Pieces.

  lemma NothingTold(sys: System, r: System)
    requires r.history.stories == sys.history.stories
    requires || r.core.outbox.log == sys.core.outbox.log
             || exists frame: WorkFrame :: r.core.outbox.log == sys.core.outbox.log + [frame] && !IsSource(frame.body)
    ensures Silent(sys, r)
  {
  }

  lemma OneTold(sys: System, r: System, t: nat, frame: WorkFrame)
    requires t > 0 && t in r.history.stories && r.core.outbox.log == sys.core.outbox.log + [frame]
             && IsSource(frame.body)
    requires r.history.stories == sys.history.stories[t := r.history.stories[t]]
    requires r.history.stories[t].frames == FramesOf(sys.history.stories, t) + [frame]
    requires t in sys.history.stories ==>
               var (was, told) := (sys.history.stories[t], r.history.stories[t]);
               told.id == was.id && told.endpoint == was.endpoint
    requires OpensWell(frame.body, r.history.stories[t].endpoint)
    ensures Recorded(sys, r, t)
  {
    hide OpensWell;
  }

  lemma EndPushes(lim: Limits, s: State, id: string, frame: WorkFrame)
    requires id in s.sources.live
    ensures var t := EndLive(lim, s, id, frame);
            t.Some? ==>
              && t.value.outbox.log == s.outbox.log + [frame]
                  && (frame.body.SourceOpenResult? || frame.body.SourceClose?)
              && id in t.value.sources.closed && t.value.sources.closed[id].frame == frame
  {
    hide QueueWork, FrameBytes, Encodable;
    QueueLogs(lim, s, frame);
  }

  lemma RefusalPushes(lim: Limits, s: State, job: Job, complaint: Complaint, wire: seq<Byte>)
    ensures var t := RefuseSource(lim, s, job, complaint, wire);
            t.Some? ==>
              && job.workId in t.value.sources.closed
              && t.value.sources.closed[job.workId].frame == RefusalFrame(job.workId, complaint, wire)
              && t.value.outbox.log == s.outbox.log + [RefusalFrame(job.workId, complaint, wire)]
  {
    hide QueueWork, FrameBytes, Encodable, Explain;
    var source := NewSource(s, lim, job, NO_ENDPOINT, 0);
    var held := s.(sources := s.sources.(bytes := s.sources.bytes + source.bytes), nextTicket := s.nextTicket + 1);
    QueueLogs(lim, held, RefusalFrame(job.workId, complaint, wire));
  }

  // The reader.

  lemma OpenRecords(lim: Limits, sys: System, job: Job, expired: bool, wire: seq<Byte>) returns (t: nat)
    requires Told(sys.core, sys.history) && sys.core.nextTicket > 0
    ensures Records(sys, HandleOpen(lim, sys, job, expired, wire), t)
  {
    hide ReaderFrame, JudgeSourceOpen, ValidateWorkContext, AdmitSource, RefuseSource, Queues, Explain, StoryOk,
      LiveTold, ClosedTold, Silent, Recorded, TablesTold;
    var open, core := job.(kind := SourceOpen), sys.core;
    var result, r := EnqueueSourceOpen(lim, core, open, expired, wire), HandleOpen(lim, sys, job, expired, wire);
    t := 0;
    assert core.nextTicket !in sys.history.stories;
    match result.1
    case Admitted => NewStory(sys, r, core.nextTicket);
    case Reject(complaint) =>
      t := core.nextTicket;
      RefusalPushes(lim, core, open, complaint, wire);
      OneTold(sys, r, t, RefusalFrame(job.workId, complaint, wire));
    case _ => NothingTold(sys, r);
  }

  lemma NewStory(sys: System, r: System, t: nat)
    requires t !in sys.history.stories && t in r.history.stories && r.history.stories[t].frames == []
    requires r.history.stories == sys.history.stories[t := r.history.stories[t]]
    requires r.core.outbox.log == sys.core.outbox.log
    ensures Silent(sys, r)
  {
  }

  lemma CancelRecords(lim: Limits, sys: System, identity: Identity, reason: string, wire: seq<Byte>) returns (t: nat)
    requires Told(sys.core, sys.history)
    ensures Records(sys, HandleCancel(lim, sys, identity, reason, wire), t)
  {
    hide ReaderFrame, EndLive, PeerCancelled, StoryOk, ClosedTold, Silent, Recorded;
    var core, r := sys.core, HandleCancel(lim, sys, identity, reason, wire);
    t := 0;
    if HandleCancellation(lim, core, identity, reason, wire).1.CancelNotifies? {
      var id := identity.id;
      var flagged := core.(cancelled := core.cancelled + {core.sources.live[id].ticket});
      var frame := CloseFrame(flagged, id, Some(PeerCancelled(reason)), wire);
      t := core.sources.live[id].ticket;
      EndPushes(lim, flagged, id, frame);
      OneTold(sys, r, t, frame);
    } else {
      NothingTold(sys, r);
    }
  }

  lemma CreditRecords(sys: System, id: string, acknowledged: nat, grant: Credit, wire: seq<Byte>)
    requires Told(sys.core, sys.history)
    ensures Silent(sys, HandleCredit(sys, id, acknowledged, grant, wire))
  {
    hide ReaderFrame, GrantSourceCredit, StoryOk, LiveTold, ClosedTold;
  }

  lemma HandleRecords(lim: Limits, sys: System, frame: HostFrame, expired: bool, wire: seq<Byte>) returns (t: nat)
    requires Told(sys.core, sys.history) && sys.core.nextTicket > 0
    ensures Records(sys, Handle(lim, sys, frame, expired, wire), t)
  {
    hide HandleOpen, HandleCancel, HandleCredit, EnqueueDispatch, AcknowledgeTerminal, Tickets, ReaderFrame, Silent,
      Recorded, Told;
    var r := Handle(lim, sys, frame, expired, wire);
    t := 0;
    match frame
    case OpenRequest(job) => t := OpenRecords(lim, sys, job, expired, wire);
    case CancelFrame(identity, reason) => t := CancelRecords(lim, sys, identity, reason, wire);
    case CreditFrame(id, acknowledged, grant) => CreditRecords(sys, id, acknowledged, grant, wire);
    case _ => NothingTold(sys, r);
  }

  lemma ReceiveRecords(lim: Limits, sys: System, a: Action) returns (t: nat)
    requires a.Inbound? && Told(sys.core, sys.history) && sys.core.nextTicket > 0
    ensures Records(sys, MoveInbound(lim, sys, a), t)
  {
    hide Handle, Tickets, ReaderFrame, Told, Silent, Recorded;
    t := 0;
    if sys.pair == Open && sys.wire.workOpen && sys.reader == Listening && a.authentic && a.sequence > sys.wire.workIn {
      var heard := sys.(wire := sys.wire.(workIn := a.sequence, heard := sys.wire.heard + [a.sequence]));
      t := HandleRecords(lim, heard, a.frame, a.expired, a.wire);
      SameRecord(heard, sys, MoveInbound(lim, sys, a), t);
    } else {
      NothingTold(sys, MoveInbound(lim, sys, a));
    }
  }

  lemma SameRecord(heard: System, sys: System, r: System, t: nat)
    requires heard.core == sys.core && heard.history == sys.history && Records(heard, r, t)
    ensures Records(sys, r, t)
  {
    hide StoriesGrow, OpensWell;
  }

  /** What the reader repeats is a source frame exactly if it names the admission it belongs to. */
  predicate RepeatsKnown(reader: Reader, stories: map<nat, Story>) {
    reader.Sending? ==> if IsSource(reader.frame.body) then reader.ticket in stories else reader.ticket == 0
  }

  lemma SendRecords(lim: Limits, sys: System) returns (t: nat)
    requires Told(sys.core, sys.history) && ReplayTold(sys.history, sys.reader)
             && RepeatsKnown(sys.reader, sys.history.stories)
    ensures Records(sys, MoveReader(lim, sys), t)
  {
    hide ReaderFrame, QueueWork, CommitTerminal, Tickets, TablesTold, Silent, Recorded, AcksOk;
    var r := MoveReader(lim, sys);
    t := 0;
    match sys.reader
    case Sending(frame, ticket) =>
      QueueLogs(lim, sys.core, frame);
      if QueueWork(lim, sys.core, frame).Some? && ticket in sys.history.stories {
        t := ticket;
        assert StoryOk(sys.history.stories[t]);
        OneTold(sys, r, t, frame);
      } else {
        NothingTold(sys, r);
      }
    case Retaining(job, frame) =>
      CommitLog(lim, sys.core, job, frame);
      CommitKind(lim, sys.core, job, frame);
      NothingTold(sys, r);
    case _ => NothingTold(sys, r);
  }

  lemma CommitKind(lim: Limits, s: State, job: Job, frame: WorkFrame)
    ensures CommitTerminal(lim, s, job, frame).1.Committed? ==> !IsSource(frame.body)
  {
    hide Retain, EntryFor, FrameBytes;
  }

  // The workers.

  /** A worker settles with the endpoint its job's source was opened on, if the source is still there. */
  predicate AllAsked(core: State, workers: seq<Worker>) {
    forall w :: 0 <= w < |workers| ==> AskedRight(core, workers[w])
  }

  predicate AskedRight(core: State, pc: Worker) {
    (pc.OpenEntering? || pc.OpenCalling? || pc.OpenSettling?) && pc.job.workId in core.sources.live
      && core.sources.live[pc.job.workId].ticket == pc.job.ticket ==>
      pc.endpoint == core.sources.live[pc.job.workId].endpoint
  }

  lemma SettleRecords(lim: Limits, sys: System, w: nat) returns (t: nat)
    requires Told(sys.core, sys.history) && w < |sys.workers| && sys.workers[w].OpenSettling?
    requires DecidedWell(sys.workers[w]) && AskedRight(sys.core, sys.workers[w])
    ensures Records(sys, SettleOpen(lim, sys, w), t)
  {
    hide WorkerFrame, EndLive, QueueWork, FrameBytes, StoryOk, ClosedTold, Silent, Recorded, IsTypedError, HasError;
    var pc, r := sys.workers[w], SettleOpen(lim, sys, w);
    var id, frame := pc.job.workId, OpenFrame(pc.job.workId, pc.decision, pc.wire);
    var result := SettleSourceOpen(lim, sys.core, pc.job, pc.decision, pc.wire);
    t := 0;
    QueueLogs(lim, sys.core, frame);
    if result.1.Opened? {
      t := pc.job.ticket;
      OneTold(sys, r, t, frame);
    } else if result.1.OpenRefused? {
      t := pc.job.ticket;
      EndPushes(lim, sys.core, id, frame);
      OneTold(sys, r, t, frame);
    } else {
      NothingTold(sys, r);
    }
  }

  lemma WorkerRecords(lim: Limits, sys: System, w: nat, x: WorkerInput) returns (t: nat)
    requires Told(sys.core, sys.history) && w < |sys.workers|
    requires DecidedWell(sys.workers[w]) && AskedRight(sys.core, sys.workers[w])
    ensures Records(sys, MoveWorker(lim, sys, w, x), t)
  {
    hide WorkerFrame, TakeJob, Triage, Validate, Announce, EndCall, Commit, ReadOpen, EnterOpen, EndOpen, SettleOpen,
      Tickets, ReleaseWorkToken, Told, Silent, Recorded, DecidedWell, AskedRight, JobMoves;
    var pc, r := sys.workers[w], MoveWorker(lim, sys, w, x);
    t := 0;
    WorkerJobs(lim, sys, w, x);
    if pc.OpenSettling? {
      t := SettleRecords(lim, sys, w);
    } else if pc.Announcing? {
      AnnounceRecords(lim, sys, w, x);
    } else if pc.Committing? {
      CommitRecords(lim, sys, w);
    } else {
      DecidesLog(sys, w, x);
      NothingTold(sys, r);
    }
  }

  lemma AnnounceRecords(lim: Limits, sys: System, w: nat, x: WorkerInput)
    requires w < |sys.workers| && sys.workers[w].Announcing?
    ensures Silent(sys, Announce(lim, sys, w, x))
  {
    hide WorkerFrame, QueueWork, Silent;
    var pc := sys.workers[w];
    var phase := if pc.left == 1 then PhaseStarted else PhaseAccepted;
    QueueLogs(lim, sys.core, WorkFrame(OperationEvent(pc.job.workId, phase, None, None), x.wire));
    NothingTold(sys, Announce(lim, sys, w, x));
  }

  lemma CommitRecords(lim: Limits, sys: System, w: nat)
    requires w < |sys.workers| && sys.workers[w].Committing?
    ensures Silent(sys, Commit(lim, sys, w))
  {
    hide WorkerFrame, CommitTerminal, Silent;
    var pc := sys.workers[w];
    CommitLog(lim, sys.core, pc.job, pc.frame);
    CommitKind(lim, sys.core, pc.job, pc.frame);
    NothingTold(sys, Commit(lim, sys, w));
  }

  // The application and everything else.

  lemma AppRecords(lim: Limits, sys: System, a: Action) returns (t: nat)
    requires Told(sys.core, sys.history) && OfApp(a)
    ensures Records(sys, MoveApp(lim, sys, a), t)
  {
    hide AppPublish, AppClose, LiveKept, SamePair, SameSpec, Told, Silent, Recorded;
    if a.Publish? {
      t := PublishRecords(lim, sys, a.id, a.items, a.wire);
    } else {
      t := CloseRecords(lim, sys, a.id, a.problem, a.wire);
    }
  }

  lemma PublishRecords(lim: Limits, sys: System, id: string, items: seq<seq<Byte>>, wire: seq<Byte>) returns (t: nat)
    requires Told(sys.core, sys.history)
    ensures Records(sys, AppPublish(lim, sys, id, items, wire), t)
  {
    hide QueueWork, FrameBytes, SaturatedBytes, LiveKept, SamePair, SameSpec, StoryOk, ClosedTold, Silent, Recorded;
    var core, r := sys.core, AppPublish(lim, sys, id, items, wire);
    t := 0;
    if PublishSource(lim, core, id, items, wire).1.Accepted? {
      var frame := WorkFrame(SourceData(id, core.sources.live[id].sequence + 1, items), wire);
      t := core.sources.live[id].ticket;
      QueueLogs(lim, core, frame);
      OneTold(sys, r, t, frame);
    } else {
      NothingTold(sys, r);
    }
  }

  lemma CloseRecords(lim: Limits, sys: System, id: string, problem: Option<AdapterError>, wire: seq<Byte>)
    returns (t: nat)
    requires Told(sys.core, sys.history)
    ensures Records(sys, AppClose(lim, sys, id, problem, wire), t)
  {
    hide EndLive, IsTypedError, LiveKept, SamePair, SameSpec, StoryOk, ClosedTold, Silent, Recorded;
    var core, r := sys.core, AppClose(lim, sys, id, problem, wire);
    t := 0;
    if CloseSource(lim, core, id, problem, wire).1 {
      t := core.sources.live[id].ticket;
      EndPushes(lim, core, id, CloseFrame(core, id, problem, wire));
      OneTold(sys, r, t, CloseFrame(core, id, problem, wire));
    } else {
      NothingTold(sys, r);
    }
  }

  lemma OtherRecords(lim: Limits, sys: System, a: Action)
    requires !OfReader(a) && !a.WorkerMove? && !OfApp(a)
    ensures Silent(sys, Step(lim, sys, a))
  {
    hide MoveInbound, MoveWorker, MoveApp, MoveRequest, MoveLife, MoveRegistration, MovePair, MoveWire, Silent,
      OwesAll;
    var r := Step(lim, sys, a);
    OtherLogSame(lim, sys, a);
    if !a.Notify? {
      QuietShrinks(lim, sys, a);
    }
    NothingTold(sys, r);
  }

  lemma OtherLogSame(lim: Limits, sys: System, a: Action)
    requires !OfReader(a) && !a.WorkerMove? && !OfApp(a)
    ensures Step(lim, sys, a).core.outbox.log == sys.core.outbox.log
  {
    hide MoveInbound, MoveWorker, MoveApp, MoveRequest, MoveLife, MoveRegistration, MovePair, MoveWire,
      SamePair, SameSpec, LifeFrame, PairFrame, ReaderFrame, WorkerFrame, WriterTouches, LiveKept;
    if a.LifeMove? {
      LifeLog(sys, a.ok, a.order);
    } else if OfRegistration(a) || OfPair(a) {
      PairLog(lim, sys, a);
    } else if OfWire(a) {
      WireLogSame(lim, sys, a);
    }
  }

  lemma WireLogSame(lim: Limits, sys: System, a: Action)
    ensures MoveWire(lim, sys, a).core.outbox.log == sys.core.outbox.log
  {
    hide MoveWire, Minus;
  }

  /** Each step queues at most one source frame, and tells it in exactly one story. */
  lemma RecordStep(lim: Limits, sys: System, a: Action) returns (t: nat)
    requires Told(sys.core, sys.history) && ReplayTold(sys.history, sys.reader) && sys.core.nextTicket > 0
    requires RepeatsKnown(sys.reader, sys.history.stories)
    requires EndingsOk(sys) && AllAsked(sys.core, sys.workers)
    ensures Records(sys, Step(lim, sys, a), t)
  {
    hide MoveInbound, MoveWorker, MoveApp, MoveRequest, MoveLife, MoveRegistration, MovePair, MoveWire, Told,
      ReplayTold, RepeatsKnown, Silent, Recorded, RequestFrame, AppFrame, EndingsOk, AllAsked;
    t := 0;
    if a.Inbound? {
      t := ReceiveRecords(lim, sys, a);
    } else if a.ReaderMove? {
      t := MoveReaderRecords(lim, sys, a);
    } else if a.WorkerMove? {
      t := MoveWorkerRecords(lim, sys, a);
    } else if OfApp(a) {
      t := AppRecords(lim, sys, a);
    } else {
      OtherRecords(lim, sys, a);
    }
  }

  lemma MoveReaderRecords(lim: Limits, sys: System, a: Action) returns (t: nat)
    requires a.ReaderMove? && Told(sys.core, sys.history) && ReplayTold(sys.history, sys.reader)
    requires RepeatsKnown(sys.reader, sys.history.stories)
    ensures Records(sys, MoveInbound(lim, sys, a), t)
  {
    hide MoveReader, ReaderFrame, Told, ReplayTold, RepeatsKnown, Silent, Recorded;
    t := SendRecords(lim, sys);
  }

  lemma MoveWorkerRecords(lim: Limits, sys: System, a: Action) returns (t: nat)
    requires a.WorkerMove? && Told(sys.core, sys.history)
    requires EndingsOk(sys) && AllAsked(sys.core, sys.workers)
    ensures Records(sys, Step(lim, sys, a), t)
  {
    hide MoveWorker, WorkerFrame, Told, Silent, Recorded, EndsWell, MoveInbound, MoveApp, MoveRequest, MoveLife,
      MoveRegistration, MovePair, MoveWire;
    t := 0;
    if a.worker < |sys.workers| {
      t := WorkerRecords(lim, sys, a.worker, a.input);
    } else {
      NothingTold(sys, sys);
    }
  }

  // What else those steps rely on.

  lemma RepeatsStep(lim: Limits, sys: System, a: Action, t: nat)
    requires Told(sys.core, sys.history) && WorksOk(lim, sys) && RepeatsKnown(sys.reader, sys.history.stories)
    requires Records(sys, Step(lim, sys, a), t)
    ensures RepeatsKnown(Step(lim, sys, a).reader, Step(lim, sys, a).history.stories)
  {
    hide MoveInbound, MoveWorker, MoveApp, MoveRequest, MoveLife, MoveRegistration, MovePair, MoveWire, Told, WorksOk,
      OpensWell, LogAdds, RequestFrame, AppFrame;
    if OfReader(a) {
      ReaderRepeats(lim, sys, a);
    } else {
      Bystanders(lim, sys, a);
    }
  }

  lemma ReaderRepeats(lim: Limits, sys: System, a: Action)
    requires Told(sys.core, sys.history) && WorksOk(lim, sys) && RepeatsKnown(sys.reader, sys.history.stories)
    ensures RepeatsKnown(MoveInbound(lim, sys, a).reader, MoveInbound(lim, sys, a).history.stories)
  {
    hide Handle, Tickets, ReaderFrame, QueueWork, CommitTerminal, Tell, Answer, Told, WorksOk;
    if a.Inbound? && sys.reader.Listening? {
      var heard := sys.(wire := sys.wire.(workIn := a.sequence, heard := sys.wire.heard + [a.sequence]));
      WorksHeard(lim, sys, heard);
      HandleRepeats(lim, heard, a.frame, a.expired, a.wire);
    }
  }

  lemma HandleRepeats(lim: Limits, sys: System, frame: HostFrame, expired: bool, wire: seq<Byte>)
    requires Told(sys.core, sys.history) && WorksOk(lim, sys) && sys.reader == Listening
    ensures var r := Handle(lim, sys, frame, expired, wire); RepeatsKnown(r.reader, r.history.stories)
  {
    hide WorksOk, ReaderFrame, EnqueueDispatch, EnqueueSourceOpen, GrantSourceCredit, HandleCancellation,
      AcknowledgeTerminal, Tickets, Begin, Conclude, Credited, Owe, Freed, LiveTold, AcksOk;
    match frame
    case WorkRequest(job) =>
      DispatchVerdicts(lim, sys.core, job.(ticket := 0, reservation := 0));
      if job.workId in sys.core.ledger.replay { WorkFrames(lim, sys, job.workId); }
    case OpenRequest(job) =>
      if job.workId in sys.core.sources.closed {
        assert StoryOk(sys.history.stories[sys.core.sources.closed[job.workId].ticket]);
      }
    case _ =>
  }

  lemma WorkFrames(lim: Limits, sys: System, id: string)
    requires WorksOk(lim, sys) && id in sys.core.ledger.replay
    ensures !IsSource(sys.core.ledger.replay[id].frame.body)
  {
    hide ReservedOk, PcOk, ReaderFaithful, IsTypedError, Meets, ErrorMatchesPhase, TokenNumbered;
    assert EntryOk(lim, sys.history, id, sys.core.ledger.replay[id]);
  }

  /** A step makes no source live but under a new ticket. */
  lemma LiveTicketsStep(lim: Limits, sys: System, a: Action)
    requires Told(sys.core, sys.history)
    ensures forall t :: t in LiveTickets(Step(lim, sys, a).core) ==>
              t in LiveTickets(sys.core) || t >= sys.core.nextTicket
  {
    hide MoveInbound, MoveWorker, MoveApp, MoveRequest, MoveLife, MoveRegistration, MovePair, MoveWire, Told,
      Undisturbed, Leaves, TablesShrink;
    if OfReader(a) {
      ReaderNotices(lim, sys, a);
    } else if a.WorkerMove? {
      WorkerTickets(lim, sys, a);
    } else if OfApp(a) {
      AppNotices(lim, sys, a);
    } else if !a.Notify? {
      QuietShrinks(lim, sys, a);
      ShrinkNotices(sys, Step(lim, sys, a));
    }
  }

  lemma WorkerTickets(lim: Limits, sys: System, a: Action)
    requires a.WorkerMove? && Told(sys.core, sys.history)
    ensures NoticeMoves(sys, Step(lim, sys, a)) || Step(lim, sys, a) == sys
  {
    hide MoveWorker, WorkerFrame, Told, NoticeMoves, MoveInbound, MoveApp, MoveRequest, MoveLife, MoveRegistration,
      MovePair, MoveWire;
    if a.worker < |sys.workers| {
      WorkerNotices(lim, sys, a.worker, a.input);
    }
  }

  /** A source that was live before is on the endpoint it was opened on. */
  /** A live source older than the step was live before, at the same endpoint. */
  predicate EndpointKept(before: State, after: State, id: string) {
    id in after.sources.live && after.sources.live[id].ticket < before.nextTicket ==>
      && id in before.sources.live && before.sources.live[id].ticket == after.sources.live[id].ticket
      && before.sources.live[id].endpoint == after.sources.live[id].endpoint
  }

  lemma EndpointStays(lim: Limits, sys: System, a: Action, t: nat, id: string)
    requires Told(sys.core, sys.history) && Told(Step(lim, sys, a).core, Step(lim, sys, a).history)
    requires Records(sys, Step(lim, sys, a), t)
    ensures EndpointKept(sys.core, Step(lim, sys, a).core, id)
  {
    hide Step, StoryOk, ClosedTold, OpensWell, LogAdds;
    var r := Step(lim, sys, a);
    if id in r.core.sources.live && r.core.sources.live[id].ticket < sys.core.nextTicket {
      var ticket := r.core.sources.live[id].ticket;
      LiveTicketsStep(lim, sys, a);
      assert ticket in LiveTickets(r.core);
      var k :| k in sys.core.sources.live && sys.core.sources.live[k].ticket == ticket;
      assert LiveTold(k, sys.core.sources.live[k], sys.history.stories[ticket]);
      assert LiveTold(id, r.core.sources.live[id], r.history.stories[ticket]);
    }
  }

  lemma AskedMove(lim: Limits, sys: System, w: nat, x: WorkerInput)
    requires w < |sys.workers| && AskedRight(sys.core, sys.workers[w])
    ensures AskedRight(sys.core, MoveWorker(lim, sys, w, x).workers[w])
  {
    hide WorkerFrame, TakeJob, Triage, Validate, Announce, EndCall, Commit, SettleOpen, Tickets, ReleaseWorkToken,
      OpenOutcome;
    AskedElsewhere(lim, sys, w, x);
  }

  lemma AskedElsewhere(lim: Limits, sys: System, w: nat, x: WorkerInput)
    requires w < |sys.workers|
    ensures sys.workers[w].Idle? ==> !OpensSource(TakeJob(sys, w).workers[w])
    ensures sys.workers[w].Taken? ==> AskedRight(sys.core, Triage(sys, w, x).workers[w])
    ensures sys.workers[w].Validating? ==> !OpensSource(Validate(sys, w, x).workers[w])
    ensures sys.workers[w].Announcing? ==> !OpensSource(Announce(lim, sys, w, x).workers[w])
    ensures sys.workers[w].Calling? ==> !OpensSource(EndCall(sys, w, x).workers[w])
    ensures sys.workers[w].Committing? ==> !OpensSource(Commit(lim, sys, w).workers[w])
    ensures sys.workers[w].OpenSettling? ==> !OpensSource(SettleOpen(lim, sys, w).workers[w])
  {
    hide WorkerFrame, UnaryReply, OperationTerminal, RejectedDispatch, TooLargeFallback, ValidateWorkContext,
      QueueWork, CommitTerminal, SettleSourceOpen, Minus;
  }

  lemma AskedStep(lim: Limits, sys: System, a: Action, t: nat)
    requires Told(sys.core, sys.history) && Told(Step(lim, sys, a).core, Step(lim, sys, a).history) && JobsOk(sys)
    requires Records(sys, Step(lim, sys, a), t) && AllAsked(sys.core, sys.workers)
    ensures AllAsked(Step(lim, sys, a).core, Step(lim, sys, a).workers)
  {
    hide Step, Told, JobsOk, Records;
    var r := Step(lim, sys, a);
    StillAsked(lim, sys, a);
    forall w | 0 <= w < |r.workers| ensures AskedRight(r.core, r.workers[w]) {
      HeldBefore(lim, sys, a, w);
      if OpensSource(r.workers[w]) {
        EndpointStays(lim, sys, a, t, r.workers[w].job.workId);
      }
    }
  }

  lemma StillAsked(lim: Limits, sys: System, a: Action)
    requires AllAsked(sys.core, sys.workers)
    ensures AllAsked(sys.core, Step(lim, sys, a).workers)
  {
    hide MoveInbound, MoveWorker, MoveApp, MoveRequest, MoveLife, MoveRegistration, MovePair, MoveWire,
      AskedRight, WorkerFrame;
    Bystanders(lim, sys, a);
    if a.WorkerMove? && a.worker < |sys.workers| {
      AskedMove(lim, sys, a.worker, a.input);
    }
  }

  // The log as an interleaving of the stories.

  /** The frames of the log that carry this tag. */
  function Selected(log: seq<WorkFrame>, tags: seq<nat>, t: nat): (frames: seq<WorkFrame>)
    requires |tags| == |log|
  {
    if |log| == 0 then []
    else
      var last := |log| - 1;
      Selected(log[..last], tags[..last], t) + (if tags[last] == t then [log[last]] else [])
  }

  /** Every source frame of the log is tagged with the admission it belongs to, and every story is the
      frames with its tag, in order. */
  ghost predicate Tagged(log: seq<WorkFrame>, tags: seq<nat>, stories: map<nat, Story>) {
    && |tags| == |log|
    && (forall k :: 0 <= k < |log| ==> if IsSource(log[k].body) then tags[k] in stories else tags[k] == 0)
    && (forall t :: t in stories ==> t > 0 && stories[t].frames == Selected(log, tags, t))
  }

  lemma SelectedAppend(log: seq<WorkFrame>, tags: seq<nat>, frame: WorkFrame, tag: nat, t: nat)
    requires |tags| == |log|
    ensures Selected(log + [frame], tags + [tag], t) == Selected(log, tags, t) + (if tag == t then [frame] else [])
  {
    assert (log + [frame])[..|log|] == log && (tags + [tag])[..|log|] == tags;
  }

  lemma {:induction false} SelectedNone(log: seq<WorkFrame>, tags: seq<nat>, t: nat)
    requires |tags| == |log| && forall k :: 0 <= k < |log| ==> tags[k] != t
    ensures Selected(log, tags, t) == []
  {
    if |log| > 0 {
      SelectedNone(log[..|log| - 1], tags[..|log| - 1], t);
    }
  }

  lemma {:induction false} SelectedMember(log: seq<WorkFrame>, tags: seq<nat>, k: nat)
    requires |tags| == |log| && k < |log|
    ensures log[k] in Selected(log, tags, tags[k])
  {
    if k < |log| - 1 {
      SelectedMember(log[..|log| - 1], tags[..|log| - 1], k);
    }
  }

  /** The frames told so far of an admission not yet recorded are none. */
  lemma Untold(log: seq<WorkFrame>, tags: seq<nat>, stories: map<nat, Story>, t: nat)
    requires Tagged(log, tags, stories) && t > 0
    ensures FramesOf(stories, t) == Selected(log, tags, t)
  {
    if t !in stories {
      SelectedNone(log, tags, t);
    }
  }

  lemma TaggedStep(sys: System, r: System, t: nat, tags: seq<nat>) returns (after: seq<nat>)
    requires Tagged(sys.core.outbox.log, tags, sys.history.stories) && Records(sys, r, t)
    requires forall u :: u in r.history.stories ==> u > 0
    ensures Tagged(r.core.outbox.log, after, r.history.stories)
  {
    hide OpensWell, Selected;
    var log, later := sys.core.outbox.log, r.core.outbox.log;
    if later == log {
      after := tags;
      forall u | u in r.history.stories ensures r.history.stories[u].frames == Selected(later, after, u) {
        Untold(log, tags, sys.history.stories, u);
      }
    } else {
      after := tags + [t];
      assert later == log + [later[|log|]];
      forall u | u in r.history.stories ensures r.history.stories[u].frames == Selected(later, after, u) {
        Untold(log, tags, sys.history.stories, u);
        SelectedAppend(log, tags, later[|log|], t, u);
      }
    }
  }

  ghost predicate TellingOk(sys: System) {
    && RepeatsKnown(sys.reader, sys.history.stories)
    && AllAsked(sys.core, sys.workers)
    && (exists tags :: Tagged(sys.core.outbox.log, tags, sys.history.stories))
    && OpenedWell(sys.history.stories)
  }

  ghost predicate OpenedWell(stories: map<nat, Story>) {
    forall t, k :: t in stories && 0 <= k < |stories[t].frames| ==>
        OpensWell(stories[t].frames[k].body, stories[t].endpoint)
  }

  lemma OpenedStep(sys: System, r: System, t: nat)
    requires OpenedWell(sys.history.stories) && Records(sys, r, t)
    ensures OpenedWell(r.history.stories)
  {
    hide OpensWell;
  }

  lemma TellingStep(lim: Limits, sys: System, a: Action)
    requires TellingOk(sys) && EndingsOk(sys) && WorksOk(lim, sys) && AdmissionsOk(sys)
             && AdmissionsOk(Step(lim, sys, a))
    ensures TellingOk(Step(lim, sys, a))
  {
    hide Step, WorksOk, Told, JobsOk, ReplayTold, RepeatsKnown, AllAsked, Records, Tagged, OpenedWell, EndingsOk;
    var r := Step(lim, sys, a);
    var t := RecordStep(lim, sys, a);
    RepeatsStep(lim, sys, a, t);
    AskedStep(lim, sys, a, t);
    var tags :| Tagged(sys.core.outbox.log, tags, sys.history.stories);
    StoriesPositive(r);
    var after := TaggedStep(sys, r, t, tags);
    OpenedStep(sys, r, t);
  }

  lemma StoriesPositive(sys: System)
    requires Told(sys.core, sys.history)
    ensures forall u :: u in sys.history.stories ==> u > 0
  {
    hide StoryOk, LiveTold, ClosedTold;
  }

  lemma {:induction false} TellingRun(lim: Limits, workers: nat, run: Run, n: nat)
    requires Reaches(lim, workers, run, n)
    ensures TellingOk(run.At(n))
  {
    hide Step, IsRun, TellingOk, Safe, WorksOk, EndingsOk, AdmissionsOk;
    FirstState(lim, workers, run);
    if n == 0 {
      NothingToTell(workers);
    } else {
      TellingRun(lim, workers, run, n - 1);
      NextState(lim, workers, run, n - 1);
      WorksRun(lim, workers, run, n - 1);
      SourceTerminalsWellFormed(lim, workers, run, n - 1);
      SafeRun(lim, workers, run, n - 1);
      SafeRun(lim, workers, run, n);
      SafelyAdmitted(lim, run.At(n - 1));
      SafelyAdmitted(lim, run.At(n));
      TellingStep(lim, run.At(n - 1), run.actions[n - 1]);
    }
  }

  lemma SafelyAdmitted(lim: Limits, sys: System)
    requires Safe(lim, sys)
    ensures AdmissionsOk(sys)
  {
    hide AdmissionsOk, CountsOk, PairOk, AccountsOk, LifetimesOk, SpecsOk;
  }

  lemma NothingToTell(workers: nat)
    ensures TellingOk(Initial(workers))
  {
    hide OpensWell, Selected, Tagged, AskedRight;
    var sys := Initial(workers);
    EmptyTagged(sys.core.outbox.log, sys.history.stories);
    forall w | 0 <= w < |sys.workers| ensures AskedRight(sys.core, sys.workers[w]) {
      IdleAsks(sys.core, sys.workers[w]);
    }
    assert OpenedWell(sys.history.stories);
  }

  lemma IdleAsks(core: State, pc: Worker)
    requires pc.Idle?
    ensures AskedRight(core, pc)
  {
  }

  lemma EmptyTagged(log: seq<WorkFrame>, stories: map<nat, Story>)
    requires log == [] && stories == map[]
    ensures Tagged(log, [], stories)
  {
  }

  // What it means.

  /** The source frames of the log of everything ever queued are exactly an interleaving of the stories:
      each belongs to one story, and each story is its frames in the order they were queued. */
  lemma LogTellsStories(lim: Limits, workers: nat, run: Run, n: nat)
    requires Reaches(lim, workers, run, n)
    ensures exists tags :: Tagged(run.At(n).core.outbox.log, tags, run.At(n).history.stories)
  {
    hide IsRun, AskedRight, RepeatsKnown, Tagged, OpenedWell;
    TellingRun(lim, workers, run, n);
  }

  /** The frame is told in this story, and if it accepts the open it meets the endpoint's contract. */
  predicate ToldWell(frame: WorkFrame, stories: map<nat, Story>, t: nat) {
    t in stories && frame in stories[t].frames && OpensWell(frame.body, stories[t].endpoint)
  }

  /** Every source frame ever queued belongs to an admission, and if it accepts the open it carries no error
      and an initial payload, if any, that meets the contract of the endpoint the source was opened on. */
  lemma AcceptedOpensWellFormed(lim: Limits, workers: nat, run: Run, n: nat, k: nat)
    requires Reaches(lim, workers, run, n) && k < |run.At(n).core.outbox.log|
    requires IsSource(run.At(n).core.outbox.log[k].body)
    ensures exists t :: ToldWell(run.At(n).core.outbox.log[k], run.At(n).history.stories, t)
  {
    hide IsRun, AskedRight, RepeatsKnown, OpensWell, Selected;
    TellingRun(lim, workers, run, n);
    var log, stories := run.At(n).core.outbox.log, run.At(n).history.stories;
    var tags :| Tagged(log, tags, stories);
    SelectedMember(log, tags, k);
    var t := tags[k];
    assert t in stories && stories[t].frames == Selected(log, tags, t);
    var j :| 0 <= j < |stories[t].frames| && stories[t].frames[j] == log[k];
    assert OpensWell(stories[t].frames[j].body, stories[t].endpoint);
    assert ToldWell(log[k], stories, t);
  }
}
