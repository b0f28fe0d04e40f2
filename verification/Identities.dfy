/** When one id names two things: the four tables of ids are disjoint exactly as long as the client neither
    admits Work under the id of a closed source nor retains a refusal for an id that is in use. */
module Identities {
  import opened Base
  import opened Fips180
  import opened Protocol
  import opened Complaints
  import opened Results
  import opened Core
  import opened Tables
  import opened Machine
  import opened Threads
  import opened Transactions
  import opened Streams
  import opened Jobs
  import opened Ledgers
  import opened Runs
  import opened Works
  import opened Custody
  import opened Keeping
  import opened Supervision

  predicate InUse(s: State, id: string) {
    id in s.ledger.tokens || id in s.sources.live || id in s.sources.closed
  }

  /** Nothing retained is in use, and no closed source is named like outstanding Work. Live sources are
      never named like outstanding Work or closed sources. */
  predicate Disjoint(s: State) {
    && (forall id :: id in s.ledger.replay ==> !InUse(s, id))
    && (forall id :: id in s.ledger.tokens ==> id !in s.sources.closed)
  }

  /** Sources are closed or forgotten. */
  ghost predicate OldSources(s: State, t: State) {
    && (forall id :: id in t.sources.live ==> id in s.sources.live)
    && (forall id :: id in t.sources.closed ==> id in s.sources.closed || id in s.sources.live)
  }

  /** One source is opened or refused, under an id that names nothing. */
  ghost predicate NewSourceOf(s: State, t: State, id: string) {
    && t.ledger == s.ledger && !InUse(s, id) && id !in s.ledger.replay
    && (forall k :: k in t.sources.live ==> k in s.sources.live || k == id)
    && (forall k :: k in t.sources.closed ==> k in s.sources.closed || k == id)
  }

  ghost predicate SourcesMove(s: State, t: State) {
    OldSources(s, t) || exists id :: NewSourceOf(s, t, id)
  }

  lemma OpenSources(lim: Limits, s: State, job: Job, expired: bool, wire: seq<Byte>)
    ensures SourcesMove(s, EnqueueSourceOpen(lim, s, job, expired, wire).0)
  {
    hide JudgeSourceOpen, ValidateWorkContext, QueueWork, FrameBytes, Encodable, Explain, SourceFits, Queues;
    var t := EnqueueSourceOpen(lim, s, job, expired, wire).0;
    assert t == s || NewSourceOf(s, t, job.workId);
  }

  lemma EndSources(lim: Limits, s: State, id: string, frame: WorkFrame)
    requires id in s.sources.live
    ensures var t := EndLive(lim, s, id, frame); t.Some? ==> OldSources(s, t.value)
  {
    hide QueueWork, FrameBytes, Encodable;
  }

  lemma CancelSources(lim: Limits, s: State, identity: Identity, reason: string, wire: seq<Byte>)
    ensures OldSources(s, HandleCancellation(lim, s, identity, reason, wire).0)
  {
    hide EndLive, PeerCancelled;
    if identity.StreamId? && identity.id in s.sources.live {
      var flagged := s.(cancelled := s.cancelled + {s.sources.live[identity.id].ticket});
      EndSources(lim, flagged, identity.id, CloseFrame(flagged, identity.id, Some(PeerCancelled(reason)), wire));
    }
  }

  lemma AckSources(s: State, identity: Identity, digest: string)
    ensures OldSources(s, AcknowledgeTerminal(s, identity, digest).0)
  {
    hide Digest.IsCanonicalSha256;
  }

  lemma CreditSources(s: State, id: string, acknowledged: nat, grant: Credit)
    ensures OldSources(s, GrantSourceCredit(s, id, acknowledged, grant).0)
  {
  }

  lemma SettleSources(lim: Limits, s: State, job: Job, decision: OpenDecision, wire: seq<Byte>)
    ensures OldSources(s, SettleSourceOpen(lim, s, job, decision, wire).0)
  {
    hide EndLive, QueueWork, FrameBytes;
    if job.workId in s.sources.live {
      EndSources(lim, s, job.workId, OpenFrame(job.workId, decision, wire));
    }
  }

  lemma AppSources(lim: Limits, sys: System, a: Action)
    ensures OldSources(sys.core, MoveApp(lim, sys, a).core)
  {
    hide EndLive, QueueWork, FrameBytes, SaturatedBytes, IsTypedError, LiveKept, SamePair, SameSpec, Tell, Conclude;
    if a.Close? && a.id in sys.core.sources.live {
      EndSources(lim, sys.core, a.id, CloseFrame(sys.core, a.id, a.problem, a.wire));
    }
  }

  lemma HandleSources(lim: Limits, sys: System, frame: HostFrame, expired: bool, wire: seq<Byte>)
    ensures SourcesMove(sys.core, Handle(lim, sys, frame, expired, wire).core)
  {
    hide EnqueueDispatch, EnqueueSourceOpen, GrantSourceCredit, HandleCancellation, AcknowledgeTerminal, Tickets,
      ReaderFrame, Begin, Conclude, Credited, Owe, Freed, NewSourceOf;
    match frame
    case OpenRequest(job) =>
      OpenSources(lim, sys.core, job.(kind := SourceOpen), expired, wire);
      UnchangedSources(sys.core);
    case CancelFrame(identity, reason) => CancelSources(lim, sys.core, identity, reason, wire);
    case CreditFrame(id, acknowledged, grant) => CreditSources(sys.core, id, acknowledged, grant);
    case AckFrame(identity, digest) => AckSources(sys.core, identity, digest);
    case _ =>
  }

  lemma UnchangedSources(s: State)
    ensures OldSources(s, s)
  {
  }

  lemma ReceiveSources(lim: Limits, sys: System, a: Action)
    requires a.Inbound?
    ensures SourcesMove(sys.core, MoveInbound(lim, sys, a).core)
  {
    hide Handle, Tickets, ReaderFrame, NewSourceOf;
    HandleSources(lim, sys.(wire := sys.wire.(workIn := a.sequence, heard := sys.wire.heard + [a.sequence])), a.frame,
                  a.expired, a.wire);
  }

  lemma WorkerSources(lim: Limits, sys: System, w: nat, x: WorkerInput)
    requires w < |sys.workers|
    ensures OldSources(sys.core, MoveWorker(lim, sys, w, x).core)
  {
    hide TakeJob, Triage, Validate, Announce, EndCall, Commit, ReadOpen, EnterOpen, EndOpen, SettleOpen, Depart,
      WorkerFrame, Tickets, ReleaseWorkToken, JobMoves;
    WorkerJobs(lim, sys, w, x);
    if sys.workers[w].OpenSettling? {
      SettlingSources(lim, sys, w);
    }
  }

  lemma SettlingSources(lim: Limits, sys: System, w: nat)
    requires w < |sys.workers| && sys.workers[w].OpenSettling?
    ensures OldSources(sys.core, SettleOpen(lim, sys, w).core)
  {
    hide WorkerFrame, SettleSourceOpen, Tell, Conclude, Credited, Owe;
    SettleSources(lim, sys.core, sys.workers[w].job, sys.workers[w].decision, sys.workers[w].wire);
  }

  /** Only the reader gives an id to a source. */
  lemma SourcesStep(lim: Limits, sys: System, a: Action)
    ensures SourcesMove(sys.core, Step(lim, sys, a).core)
    ensures !a.Inbound? ==> OldSources(sys.core, Step(lim, sys, a).core)
  {
    hide MoveInbound, MoveWorker, MoveApp, MoveRequest, MoveLife, MoveRegistration, MovePair, MoveWire, OldSources,
      NewSourceOf, OwesAll, AppFrame;
    if a.Inbound? {
      ReceiveSources(lim, sys, a);
    } else if a.ReaderMove? {
      SendSources(lim, sys, a);
    } else if a.WorkerMove? {
      MovingSources(lim, sys, a);
    } else if OfApp(a) {
      AppSources(lim, sys, a);
    } else {
      if !a.Notify? {
        QuietShrinks(lim, sys, a);
      }
      FewerSources(sys.core, Step(lim, sys, a).core);
    }
  }

  lemma FewerSources(s: State, t: State)
    requires t.sources.live == s.sources.live || t.sources.live == map[]
    requires t.sources.closed == s.sources.closed || t.sources.closed == map[]
    ensures OldSources(s, t)
  {
  }

  lemma SendSources(lim: Limits, sys: System, a: Action)
    requires a.ReaderMove?
    ensures OldSources(sys.core, MoveInbound(lim, sys, a).core)
  {
    hide QueueWork, CommitTerminal, ReaderFrame, Tickets, Tell, Answer;
  }

  lemma MovingSources(lim: Limits, sys: System, a: Action)
    requires a.WorkerMove?
    ensures OldSources(sys.core, Step(lim, sys, a).core)
  {
    hide MoveWorker, WorkerFrame, MoveInbound, MoveApp, MoveRequest, MoveLife, MoveRegistration, MovePair, MoveWire;
    if a.worker < |sys.workers| {
      WorkerSources(lim, sys, a.worker, a.input);
    }
  }

  /** Neither a request for Work nor the terminal of Work touches the sources. */
  lemma SourcesUnmoved(lim: Limits, sys: System, a: Action)
    requires AsksForWork(a) || Presented(sys, a).Some?
    ensures Step(lim, sys, a).core.sources == sys.core.sources
  {
    hide EnqueueDispatch, QueueWork, CommitTerminal, ReaderFrame, Tickets, Tell, Answer, MoveWorker, JobMoves,
      WorkerFrame, MoveApp, MoveRequest, MoveLife, MoveRegistration, MovePair, MoveWire;
    if a.WorkerMove? {
      WorkerJobs(lim, sys, a.worker, a.input);
    }
  }

  // The step.

  /** The job whose terminal the step may retain. */
  function Presented(sys: System, a: Action): Option<Job> {
    if a.ReaderMove? && sys.reader.Retaining? then Some(sys.reader.job)
    else if a.WorkerMove? && a.worker < |sys.workers| && sys.workers[a.worker].Committing?
    then Some(sys.workers[a.worker].job)
    else None
  }

  /** The commit section accepts the terminal of a job without a token of its own. */
  predicate Retainable(lim: Limits, s: State, job: Job, frame: WorkFrame) {
    var bytes := FrameBytes(lim, s, frame);
    && bytes <= lim.maxFrame && Sendable(s) && RoomFor(lim, s, bytes) && KindMatches(job.kind, frame.body)
    && Encodable(frame) && job.workId !in s.ledger.replay && |s.ledger.replay| + |s.ledger.tokens| < lim.maxReplay
    && FitsByteBudget(s.ledger.bytes, EntryFor(lim, s, job, frame).bytes, lim.maxReplayBytes)
  }

  /** The terminal would be retained for an id in use, and not by the token of its own job. */
  predicate Intrudes(lim: Limits, s: State, job: Job, frame: WorkFrame) {
    InUse(s, job.workId) && !OwnsToken(s, job) && Retainable(lim, s, job, frame)
  }

  /** A request for Work that admission accepts names a closed source, or the reader or a worker is about to
      retain a terminal for an id in use, and not by the token of its own job. */
  predicate Clashes(lim: Limits, sys: System, a: Action) {
    || (AdmitsWork(lim, sys, a) && a.frame.job.workId in sys.core.sources.closed)
    || (a.ReaderMove? && sys.reader.Retaining? && Intrudes(lim, sys.core, sys.reader.job, sys.reader.frame))
    || (a.WorkerMove? && a.worker < |sys.workers| && sys.workers[a.worker].Committing?
        && Intrudes(lim, sys.core, sys.workers[a.worker].job, sys.workers[a.worker].frame))
  }

  lemma CommitExactly(lim: Limits, s: State, job: Job, frame: WorkFrame)
    requires !OwnsToken(s, job)
    ensures CommitTerminal(lim, s, job, frame).1.Committed? <==> Retainable(lim, s, job, frame)
  {
    hide FrameBytes, EntryFor, Sendable, RoomFor, KindMatches, Encodable;
  }

  lemma ReaderRetains(lim: Limits, sys: System)
    requires sys.reader.Retaining? && !OwnsToken(sys.core, sys.reader.job)
             && sys.reader.job.workId !in sys.core.ledger.replay
    ensures sys.reader.job.workId in MoveReader(lim, sys).core.ledger.replay
       <==> Retainable(lim, sys.core, sys.reader.job, sys.reader.frame)
  {
    hide CommitTerminal, QueueWork, ReaderFrame, Tickets, Retainable, OwnsToken;
    CommitExactly(lim, sys.core, sys.reader.job, sys.reader.frame);
  }

  lemma WorkerRetains(lim: Limits, sys: System, w: nat)
    requires w < |sys.workers| && sys.workers[w].Committing? && !OwnsToken(sys.core, sys.workers[w].job)
             && sys.workers[w].job.workId !in sys.core.ledger.replay
    ensures sys.workers[w].job.workId in Commit(lim, sys, w).core.ledger.replay
       <==> Retainable(lim, sys.core, sys.workers[w].job, sys.workers[w].frame)
  {
    hide CommitTerminal, WorkerFrame, Retainable, OwnsToken;
    CommitExactly(lim, sys.core, sys.workers[w].job, sys.workers[w].frame);
  }

  /** The step is about to commit this terminal. */
  predicate Offers(sys: System, a: Action, job: Job, frame: WorkFrame) {
    || (a.ReaderMove? && sys.reader == Retaining(job, frame))
    || (a.WorkerMove? && a.worker < |sys.workers| && sys.workers[a.worker].Committing?
        && sys.workers[a.worker].job == job && sys.workers[a.worker].frame == frame)
  }

  lemma RetainsExactly(lim: Limits, sys: System, a: Action, job: Job, frame: WorkFrame)
    requires Offers(sys, a, job, frame)
    ensures !OwnsToken(sys.core, job) && job.workId !in sys.core.ledger.replay ==>
              (job.workId in Step(lim, sys, a).core.ledger.replay <==> Retainable(lim, sys.core, job, frame))
    ensures Retainable(lim, sys.core, job, frame) ==> job.workId !in sys.core.ledger.replay
  {
    hide MoveReader, Commit, MoveApp, MoveRequest, MoveLife, MoveRegistration, MovePair, MoveWire, ReaderFrame,
      WorkerFrame, OwnsToken, Receive, TakeJob, Triage, Validate, Announce, EndCall, ReadOpen, EnterOpen, EndOpen,
      SettleOpen, FrameBytes, EntryFor, RoomFor, KindMatches, Encodable;
    if !OwnsToken(sys.core, job) && job.workId !in sys.core.ledger.replay {
      if a.ReaderMove? {
        ReaderRetains(lim, sys);
      } else {
        WorkerRetains(lim, sys, a.worker);
      }
    }
  }

  /** What the guards decide before the step is what shows after it. */
  lemma ClashesExactly(lim: Limits, sys: System, a: Action)
    ensures Clashes(lim, sys, a) <==> Clashed(sys, a, Step(lim, sys, a))
  {
    hide MoveInbound, MoveWorker, MoveApp, MoveRequest, MoveLife, MoveRegistration, MovePair, MoveWire, Accepts,
      PassesAdmission, Retainable, OwnsToken, InUse;
    var r := Step(lim, sys, a);
    forall id ensures Accepts(sys, r, id) <==> AdmitsWork(lim, sys, a) && Requests(a, id) {
      AcceptsExactly(lim, sys, a, id);
    }
    if a.ReaderMove? && sys.reader.Retaining? {
      RetainsExactly(lim, sys, a, sys.reader.job, sys.reader.frame);
    } else if a.WorkerMove? && a.worker < |sys.workers| && sys.workers[a.worker].Committing? {
      RetainsExactly(lim, sys, a, sys.workers[a.worker].job, sys.workers[a.worker].frame);
    }
  }

  /** The step shows a token handed out under the id of a closed source, or a terminal newly retained for an
      id that was in use, and not by the token of its own job. */
  ghost predicate Clashed(sys: System, a: Action, r: System) {
    || (exists id :: Accepts(sys, r, id) && id in sys.core.sources.closed)
    || (Presented(sys, a).Some?
        && var job := Presented(sys, a).value;
        && job.workId !in sys.core.ledger.replay && job.workId in r.core.ledger.replay
        && InUse(sys.core, job.workId) && !OwnsToken(sys.core, job))
  }

  lemma DisjointStep(lim: Limits, sys: System, a: Action)
    requires Disjoint(sys.core) && WorksOk(lim, sys) && Safe(lim, sys) && Safe(lim, Step(lim, sys, a))
    ensures Disjoint(Step(lim, sys, a).core) <==> !Clashes(lim, sys, a)
  {
    hide Step, Disjoint, Clashes, Clashed, WorksOk, Safe, Effect, SourcesMove;
    var r := Step(lim, sys, a);
    var e := StepEffect(lim, sys, a);
    SourcesStep(lim, sys, a);
    if AsksForWork(a) || Presented(sys, a).Some? {
      SourcesUnmoved(lim, sys, a);
    }
    ApartTables(lim, sys);
    ApartTables(lim, r);
    EventStep(lim, sys, a, r, e);
    ClashesExactly(lim, sys, a);
  }

  predicate LiveApart(s: State) {
    s.sources.live.Keys !! s.ledger.tokens.Keys && s.sources.live.Keys !! s.sources.closed.Keys
  }

  lemma ApartTables(lim: Limits, sys: System)
    requires Safe(lim, sys)
    ensures LiveApart(sys.core) && JobsOk(sys)
  {
    hide CountsOk, PairOk, LifetimesOk, SpecsOk, JobsOk, Told, LedgerOk, OutboxOk, DispatchOk;
  }

  lemma EventStep(lim: Limits, sys: System, a: Action, r: System, e: Event)
    requires Disjoint(sys.core) && WorksOk(lim, sys) && JobsOk(sys) && Effect(lim, sys, r, e)
    requires SourcesMove(sys.core, r.core) && LiveApart(sys.core) && LiveApart(r.core)
    requires e.Retains? ==> CommittedBy(sys, a, e)
    requires e.Admits? || Presented(sys, a).Some? ==> r.core.sources == sys.core.sources
    ensures Disjoint(r.core) <==> !Clashed(sys, a, r)
  {
    hide Presents, Finishes, NoNewWork, EntryFor, WorksOk, Disjoint, Clashed, SourcesMove, JobsOk;
    match e
    case Admits(job) => AdmitClashes(sys, a, r, job);
    case Retains(job, frame, ranOn, ticket) => RetainClashes(sys, a, r, job);
    case _ => CalmSpares(sys, a, r);
  }

  lemma AdmitClashes(sys: System, a: Action, r: System, job: Job)
    requires Disjoint(sys.core) && r.core.sources == sys.core.sources && LiveApart(r.core)
    requires job.workId !in sys.core.ledger.tokens && job.workId !in sys.core.ledger.replay
    requires r.core.ledger.tokens.Keys == sys.core.ledger.tokens.Keys + {job.workId}
    requires r.core.ledger.replay == sys.core.ledger.replay
    ensures Disjoint(r.core) <==> !Clashed(sys, a, r)
  {
    if job.workId in sys.core.sources.closed {
      assert Accepts(sys, r, job.workId);
    }
  }

  lemma RetainClashes(sys: System, a: Action, r: System, job: Job)
    requires Disjoint(sys.core) && r.core.sources == sys.core.sources && LiveApart(sys.core)
    requires Presented(sys, a) == Some(job) && job.workId !in sys.core.ledger.replay
    requires r.core.ledger.replay.Keys == sys.core.ledger.replay.Keys + {job.workId}
    requires r.core.ledger.tokens
             == if OwnsToken(sys.core, job) then sys.core.ledger.tokens - {job.workId} else sys.core.ledger.tokens
    ensures Disjoint(r.core) <==> !Clashed(sys, a, r)
  {
    assert job.workId in r.core.ledger.replay;
    if InUse(sys.core, job.workId) && !OwnsToken(sys.core, job) {
      assert InUse(r.core, job.workId);
    }
  }

  lemma CalmSpares(sys: System, a: Action, r: System)
    requires Disjoint(sys.core) && SourcesMove(sys.core, r.core) && LiveApart(sys.core) && LiveApart(r.core)
    requires forall id :: id in r.core.ledger.tokens ==> id in sys.core.ledger.tokens
    requires forall id :: id in r.core.ledger.replay ==> id in sys.core.ledger.replay
    ensures Disjoint(r.core) && !Clashed(sys, a, r)
  {
  }

  lemma CommitterOwns(lim: Limits, sys: System, w: nat)
    requires HoldersOwn(sys) && WorksOk(lim, sys) && w < |sys.workers| && sys.workers[w].Committing?
             && Sendable(sys.core)
    ensures OwnsToken(sys.core, sys.workers[w].job)
  {
    hide PcOk, ReaderFaithful, EntryOk, TokenNumbered;
    assert ReservedOk(lim, sys.core, sys.workers[w].job) && PcOk(sys.workers[w]);
    WorkKind(sys.workers[w]);
  }

  lemma WorkKind(pc: Worker)
    requires PcOk(pc)
    ensures pc.Committing? ==> !pc.job.kind.SourceOpen?
  {
  }

  // Pairs that fail stop sending.

  /** A terminal failure of an open pair is a failure, and a pair is retired only after it failed or stop
      was requested. */
  predicate BrokenOk(sys: System) {
    && (sys.pair == Open && sys.core.link.terminal ==> sys.core.link.failed)
    && (sys.pair == Retiring ==> !Sendable(sys.core))
  }

  predicate BreakKept(sys: System, r: System) {
    && r.pair == sys.pair && r.core.link.session == sys.core.link.session
    && (sys.core.link.failed ==> r.core.link.failed) && (sys.core.link.stopping ==> r.core.link.stopping)
    && (r.core.link.terminal ==> sys.core.link.terminal || r.core.link.failed)
  }

  lemma BreakStays(sys: System, r: System)
    requires BrokenOk(sys) && BreakKept(sys, r)
    ensures BrokenOk(r)
  {
  }

  lemma ReaderBreaks(lim: Limits, sys: System, a: Action)
    requires PairOk(sys) && BrokenOk(sys)
    ensures BreakKept(sys, MoveInbound(lim, sys, a))
  {
    hide Receive, MoveReader, SameSpec;
    ReceiveBreaks(lim, sys, a);
  }

  lemma ReceiveBreaks(lim: Limits, sys: System, a: Action)
    ensures a.Inbound? ==>
              var r := Receive(lim, sys, a.sequence, a.authentic, a.frame, a.expired, a.wire);
              r.core.link.terminal ==> sys.core.link.terminal || r.core.link.failed
    ensures MoveReader(lim, sys).core.link.terminal ==> sys.core.link.terminal || MoveReader(lim, sys).core.link.failed
  {
    hide Handle, ReaderFrame, Tickets, QueueWork, CommitTerminal;
    if a.Inbound? {
      HandleBreaks(lim, sys.(wire := sys.wire.(workIn := a.sequence, heard := sys.wire.heard + [a.sequence])), a.frame,
                   a.expired, a.wire);
    }
  }

  lemma HandleBreaks(lim: Limits, sys: System, frame: HostFrame, expired: bool, wire: seq<Byte>)
    ensures var r := Handle(lim, sys, frame, expired, wire);
            r.core.link.terminal ==> sys.core.link.terminal || r.core.link.failed
  {
    hide EnqueueDispatch, EnqueueSourceOpen, GrantSourceCredit, HandleCancellation, AcknowledgeTerminal, Tickets,
      ReaderFrame;
  }

  lemma HandlerBreaks(lim: Limits, sys: System, a: Action)
    requires a.WorkerMove? || OfApp(a)
    ensures BreakKept(sys, Step(lim, sys, a))
  {
    hide MoveInbound, MoveWorker, MoveApp, MoveRequest, MoveLife, MoveRegistration, MovePair, MoveWire, SameSpec,
      LiveKept, WorkerMoves, ReaderFrame;
  }

  lemma FlagBreaks(sys: System, a: Action)
    ensures BreakKept(sys, MoveRequest(sys, a))
  {
    hide SetFlags, ValidSpec, Tickets, SameSpec;
    FlagsBreak(sys.core, sys.pair, a);
  }

  lemma FlagsBreak(core: State, pair: Pair, a: Action)
    ensures SetFlags(core, pair, a).link.terminal ==> core.link.terminal || SetFlags(core, pair, a).link.failed
  {
    hide Tickets, SamePair;
  }

  lemma WireBreaks(lim: Limits, sys: System, a: Action)
    ensures BreakKept(sys, MoveWire(lim, sys, a))
  {
    hide MoveWriter, Tickets, WriterTouches;
    WriterBreaks(lim, sys, true);
    WriterBreaks(lim, sys, false);
  }

  lemma WriterBreaks(lim: Limits, sys: System, ok: bool)
    ensures BreakKept(sys, MoveWriter(lim, sys, ok))
  {
    hide Tickets, FramedBytes, Minus, WriterTouches;
  }

  lemma LifeBreaks(sys: System, ok: bool, order: seq<string>)
    requires PairOk(sys) && BrokenOk(sys)
    ensures BrokenOk(MoveLife(sys, ok, order))
  {
    hide MoveStartup, MoveCommit, MoveDeactivation, Tickets, LifeFrame, AtRest, BrokenOk;
    var r := MoveLife(sys, ok, order);
    CommitBreaks(sys, ok);
    if sys.life.Clearing? || sys.life.Awaiting? || sys.life.Halting? {
      HaltBreaks(sys, order);
    } else {
      BreakStays(sys, r);
    }
  }

  lemma CommitBreaks(sys: System, ok: bool)
    ensures BreakKept(sys, MoveCommit(sys, ok)) && BreakKept(sys, MoveStartup(sys, ok))
  {
    hide MoveStartup, LifeFrame, Grants;
  }

  lemma HaltBreaks(sys: System, order: seq<string>)
    requires PairOk(sys) && BrokenOk(sys)
    ensures BrokenOk(MoveDeactivation(sys, order))
  {
    hide StopTaking, LifeFrame, AtRest;
    if sys.life.Clearing? {
      StopTakingBreaks(sys, sys.life.next, order);
    }
  }

  lemma StopTakingBreaks(sys: System, next: Next, order: seq<string>)
    ensures BreakKept(sys, StopTaking(sys, next, order))
  {
    hide Enumerates, Bindings, LiveTickets, Tickets, LifeFrame;
  }

  lemma PairBreaks(lim: Limits, sys: System, a: Action)
    requires BrokenOk(sys) && OnceOk(sys)
    ensures BrokenOk(MovePair(lim, sys, a)) && BrokenOk(MoveRegistration(lim, sys, a))
  {
    hide Tickets, LiveTickets, ReleaseAllTokens, JudgePair, Negotiated;
    JudgeLeaves(lim, sys);
  }

  lemma JudgeLeaves(lim: Limits, sys: System)
    ensures sys.pair == Judging ==> JudgePair(lim, sys).pair != Open && JudgePair(lim, sys).pair != Retiring
  {
    hide NextBackoff;
  }

  lemma BrokenStep(lim: Limits, sys: System, a: Action)
    requires BrokenOk(sys) && PairOk(sys) && OnceOk(sys)
    ensures BrokenOk(Step(lim, sys, a))
  {
    hide MoveInbound, MoveWorker, MoveApp, MoveRequest, MoveLife, MoveRegistration, MovePair, MoveWire, ReaderFrame,
      WorkerFrame, LifeFrame, PairFrame, SamePair, SameSpec, LiveKept, WireFrame, BrokenOk, BreakKept, PairOk, OnceOk,
      RequestFrame, AppFrame;
    if a.LifeMove? {
      LifeBreaks(sys, a.ok, a.order);
    } else if OfRegistration(a) || OfPair(a) {
      PairBreaks(lim, sys, a);
    } else if OfReader(a) {
      ReaderBreaks(lim, sys, a);
      BreakStays(sys, Step(lim, sys, a));
    } else if OfApp(a) || a.WorkerMove? {
      HandlerBreaks(lim, sys, a);
      BreakStays(sys, Step(lim, sys, a));
    } else if OfWire(a) {
      WireBreaks(lim, sys, a);
      BreakStays(sys, Step(lim, sys, a));
    } else {
      FlagBreaks(sys, a);
      BreakStays(sys, Step(lim, sys, a));
    }
  }

  lemma {:induction false} BrokenRun(lim: Limits, workers: nat, run: Run, n: nat)
    requires Reaches(lim, workers, run, n)
    ensures BrokenOk(run.At(n))
  {
    hide Step, IsRun, BrokenOk, Safe, PairOk, EpochsOk, BudgetOk, PausesOk, OnceOk;
    FirstState(lim, workers, run);
    if n == 0 {
      NothingBroken(workers);
    } else {
      BrokenRun(lim, workers, run, n - 1);
      SafeRun(lim, workers, run, n - 1);
      SupRun(lim, workers, run, n - 1);
      PairIsOk(lim, run.At(n - 1));
      NextState(lim, workers, run, n - 1);
      BrokenStep(lim, run.At(n - 1), run.actions[n - 1]);
    }
  }

  lemma NothingBroken(workers: nat)
    ensures BrokenOk(Initial(workers))
  {
  }

  // Runs.

  /** A worker that can retain a terminal holds the token of its job. */
  ghost predicate HoldersOwn(sys: System) {
    Sendable(sys.core) ==>
      forall w :: 0 <= w < |sys.workers| && sys.workers[w].Committing? ==> Owns(sys.core, sys.workers[w].job)
  }

  /** Whoever can retain a terminal on a careful run holds the token. */
  lemma HoldersRun(lim: Limits, workers: nat, run: Run, n: nat)
    requires Reaches(lim, workers, run, n) && CarefulTo(lim, run, n)
    ensures HoldersOwn(run.At(n))
  {
    hide IsRun, Careful;
    SafeRun(lim, workers, run, n);
    WorksRun(lim, workers, run, n);
    GuardedRun(lim, workers, run, n);
    BrokenRun(lim, workers, run, n);
    PairIsOk(lim, run.At(n));
    GuardedHold(lim, run.At(n));
  }

  lemma GuardedHold(lim: Limits, sys: System)
    requires (Working(sys) ==> Guarded(sys)) && PairOk(sys) && BrokenOk(sys) && WorksOk(lim, sys)
    ensures HoldersOwn(sys)
  {
    hide Attended, Done, PcOk, ReservedOk, TokenNumbered, ReaderFaithful, EntryOk;
    forall w | 0 <= w < |sys.workers| && sys.workers[w].Committing?
        && Sendable(sys.core) ensures Owns(sys.core, sys.workers[w].job) {
      assert PcOk(sys.workers[w]);
      WorkKind(sys.workers[w]);
    }
  }

  ghost predicate ClashFree(lim: Limits, run: Run, n: nat) {
    forall k {:trigger run.actions[k]} :: 0 <= k < |run.actions| && k < n ==> !Clashes(lim, run.At(k), run.actions[k])
  }

  /** The four tables are disjoint in every state of a run if and only if no step admits Work under the id of
      a closed source or retains a terminal for an id that is in use, and not by its own job's token. */
  lemma {:induction false} DisjointExactly(lim: Limits, workers: nat, run: Run, n: nat)
    requires Reaches(lim, workers, run, n)
    ensures (forall k: nat {:trigger run.At(k)} :: k <= n ==> Disjoint(run.At(k).core)) <==> ClashFree(lim, run, n)
  {
    hide Step, IsRun, Disjoint, Clashes, Safe, WorksOk;
    FirstState(lim, workers, run);
    if n == 0 {
      NothingShared(workers);
    } else {
      DisjointExactly(lim, workers, run, n - 1);
      WorksRun(lim, workers, run, n - 1);
      SafeRun(lim, workers, run, n - 1);
      SafeRun(lim, workers, run, n);
      NextState(lim, workers, run, n - 1);
      assert run.At(n) == run.At(n) && run.actions[n - 1] == run.actions[n - 1];
      if Disjoint(run.At(n - 1).core) {
        DisjointStep(lim, run.At(n - 1), run.actions[n - 1]);
      }
    }
  }

  lemma NothingShared(workers: nat)
    ensures Disjoint(Initial(workers).core)
  {
  }

  // Hosts that use fresh ids.

  /** A request for Work that is no redelivery names no source, and no outstanding Work while the client is
      not ready. */
  predicate FreshRequest(s: State, a: Action) {
    AsksForWork(a) && a.frame.job.workId !in s.ledger.replay ==>
      var id := a.frame.job.workId;
      && id !in s.sources.live && id !in s.sources.closed
      && (!s.link.accepting || s.link.phase != Ready ==> id !in s.ledger.tokens)
  }

  ghost predicate FreshTo(run: Run, n: nat) {
    forall k {:trigger run.actions[k]} :: 0 <= k < |run.actions| && k < n ==>
      FreshRequest(run.At(k).core, run.actions[k])
  }

  /** What the reader is about to refuse is not in use. */
  predicate RefusesUnused(sys: System) {
    sys.reader.Retaining? ==> !InUse(sys.core, sys.reader.job.workId)
  }

  lemma RefusalStep(lim: Limits, sys: System, a: Action)
    requires RefusesUnused(sys) && FreshRequest(sys.core, a)
    ensures RefusesUnused(Step(lim, sys, a))
  {
    hide MoveInbound, MoveWorker, MoveApp, MoveRequest, MoveLife, MoveRegistration, MovePair, MoveWire, FreshRequest,
      Effect, OldSources;
    if a.Inbound? {
      RefusalBegins(lim, sys, a);
    } else {
      var e := StepEffect(lim, sys, a);
      SourcesStep(lim, sys, a);
      TokensShrink(lim, sys, a, e);
      RefusalWaits(lim, sys, a);
    }
  }

  lemma TokensShrink(lim: Limits, sys: System, a: Action, e: Event)
    requires Effect(lim, sys, Step(lim, sys, a), e) && !e.Admits?
    ensures forall id :: id in Step(lim, sys, a).core.ledger.tokens ==> id in sys.core.ledger.tokens
  {
    hide Step, Presents, Finishes, NoNewWork, EntryFor;
  }

  lemma RefusalWaits(lim: Limits, sys: System, a: Action)
    requires RefusesUnused(sys) && !a.Inbound? && OldSources(sys.core, Step(lim, sys, a).core)
    requires forall id :: id in Step(lim, sys, a).core.ledger.tokens ==> id in sys.core.ledger.tokens
    ensures RefusesUnused(Step(lim, sys, a))
  {
    hide MoveInbound, MoveWorker, MoveApp, MoveRequest, MoveLife, MoveRegistration, MovePair, MoveWire, RequestFrame,
      AppFrame;
    Bystanders(lim, sys, a);
    if a.ReaderMove? {
      RefusalEnds(lim, sys, a);
    }
  }

  lemma RefusalEnds(lim: Limits, sys: System, a: Action)
    requires a.ReaderMove?
    ensures !MoveInbound(lim, sys, a).reader.Retaining?
  {
    hide QueueWork, CommitTerminal, ReaderFrame, Tickets, Tell, Answer;
  }

  lemma RefusalBegins(lim: Limits, sys: System, a: Action)
    requires RefusesUnused(sys) && FreshRequest(sys.core, a) && a.Inbound?
    ensures RefusesUnused(MoveInbound(lim, sys, a))
  {
    hide Handle, Tickets, ReaderFrame, FreshRequest;
    if sys.pair == Open && sys.wire.workOpen && sys.reader == Listening && a.authentic && a.sequence > sys.wire.workIn {
      var heard := sys.(wire := sys.wire.(workIn := a.sequence, heard := sys.wire.heard + [a.sequence]));
      HandleRefuses(lim, heard, a);
    }
  }

  lemma HandleRefuses(lim: Limits, sys: System, a: Action)
    requires FreshRequest(sys.core, a) && a.Inbound? && sys.reader == Listening
    ensures RefusesUnused(Handle(lim, sys, a.frame, a.expired, a.wire))
  {
    hide EnqueueDispatch, EnqueueSourceOpen, GrantSourceCredit, HandleCancellation, AcknowledgeTerminal, Tickets,
      ReaderFrame, Begin, Conclude, Credited, Owe, Freed, Explain;
    if a.frame.WorkRequest? {
      RefusedUnused(lim, sys.core, a.frame.job.(ticket := 0, reservation := 0));
    }
  }

  lemma RefusedUnused(lim: Limits, s: State, job: Job)
    ensures var (t, verdict) := EnqueueDispatch(lim, s, job);
            verdict.Reject? ==>
              && t == s && job.workId !in s.ledger.replay
              && (s.link.accepting && s.link.phase == Ready ==>
                    job.workId !in s.ledger.tokens && job.workId !in s.sources.live)
  {
  }

  /** If the Host uses fresh ids, the four tables are disjoint in every reachable state. */
  lemma {:induction false} FreshIsDisjoint(lim: Limits, workers: nat, run: Run, n: nat)
    requires Reaches(lim, workers, run, n) && HonestTo(run, n) && FreshTo(run, n)
    ensures Disjoint(run.At(n).core) && RefusesUnused(run.At(n))
  {
    hide Step, IsRun, Disjoint, Clashes, Safe, WorksOk, HoldersOwn, Careful, FreshRequest, RefusesUnused;
    FirstState(lim, workers, run);
    if n == 0 {
      NothingShared(workers);
      NothingRefused(workers);
    } else {
      FreshIsDisjoint(lim, workers, run, n - 1);
      HonestIsCareful(lim, workers, run, n - 1);
      HoldersRun(lim, workers, run, n - 1);
      WorksRun(lim, workers, run, n - 1);
      SafeRun(lim, workers, run, n - 1);
      SafeRun(lim, workers, run, n);
      NextState(lim, workers, run, n - 1);
      assert run.actions[n - 1] == run.actions[n - 1];
      RefusalStep(lim, run.At(n - 1), run.actions[n - 1]);
      DisjointStep(lim, run.At(n - 1), run.actions[n - 1]);
      FreshNeverClashes(lim, run.At(n - 1), run.actions[n - 1]);
    }
  }

  lemma NothingRefused(workers: nat)
    ensures RefusesUnused(Initial(workers))
  {
  }

  lemma FreshNeverClashes(lim: Limits, sys: System, a: Action)
    requires FreshRequest(sys.core, a) && RefusesUnused(sys) && HoldersOwn(sys) && WorksOk(lim, sys)
    ensures !Clashes(lim, sys, a)
  {
    hide Step, HoldersOwn, WorksOk, Effect, Clashes;
    ClashesExactly(lim, sys, a);
    var r := Step(lim, sys, a);
    if id :| Accepts(sys, r, id) && id in sys.core.sources.closed {
      AcceptsQuietly(lim, sys, a, id);
    }
    if Presented(sys, a).Some? && a.WorkerMove? {
      var e := StepEffect(lim, sys, a);
      NewlyRetained(lim, sys, r, e, Presented(sys, a).value.workId);
      if Sendable(sys.core) {
        CommitterOwns(lim, sys, a.worker);
      }
    }
  }

  lemma NewlyRetained(lim: Limits, sys: System, r: System, e: Event, id: string)
    requires Effect(lim, sys, r, e)
    ensures id !in sys.core.ledger.replay && id in r.core.ledger.replay ==> Sendable(sys.core)
  {
    hide Presents, Finishes, NoNewWork, EntryFor;
  }
}
