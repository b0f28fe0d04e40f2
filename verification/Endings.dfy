/** The terminals of sources: whatever the open handlers and the application give, what is retained for
    a source is well formed. */
module Endings {
  import opened Base
  import opened Fips180
  import opened Protocol
  import opened Complaints
  import opened Results
  import opened Core
  import opened Machine
  import opened Jobs
  import Digest

  /** A refused open carries a typed error and no payload; a close carries no error or a typed one. */
  predicate EndsWell(body: Body) {
    || (body.SourceOpenResult? && !body.accepted && body.initial.None? && body.problem.Some?
        && IsTypedError(body.problem.value))
    || (body.SourceClose? && (body.problem.Some? ==> IsTypedError(body.problem.value)))
  }

  /** A worker settles an open only with an outcome that was checked. */
  predicate DecidedWell(pc: Worker) { pc.OpenSettling? ==> WellFormedDecision(pc.decision, pc.endpoint) }

  ghost predicate EndingsOk(sys: System) {
    && (forall id :: id in sys.core.sources.closed ==> EndsWell(sys.core.sources.closed[id].frame.body))
    && (forall w :: 0 <= w < |sys.workers| ==> DecidedWell(sys.workers[w]))
  }

  /** A section retains only well-formed terminals. */
  ghost predicate ClosesWell(s: State, t: State) {
    forall id :: id in t.sources.closed ==>
      || (id in s.sources.closed && t.sources.closed[id].frame == s.sources.closed[id].frame)
      || EndsWell(t.sources.closed[id].frame.body)
  }

  lemma OpenCloses(lim: Limits, s: State, job: Job, expired: bool, wire: seq<Byte>)
    ensures ClosesWell(s, EnqueueSourceOpen(lim, s, job, expired, wire).0)
  {
    hide JudgeSourceOpen, ValidateWorkContext, Explain, IsTypedError, QueueWork, FrameBytes, Encodable, SourceFits;
    var verdict := JudgeSourceOpen(lim, s, job, expired);
    if verdict.Reject? {
      ComplaintTyped(verdict.complaint);
    }
  }

  lemma EndCloses(lim: Limits, s: State, id: string, frame: WorkFrame)
    requires id in s.sources.live && EndsWell(frame.body)
    ensures var t := EndLive(lim, s, id, frame); t.Some? ==> ClosesWell(s, t.value)
  {
    hide EndsWell, QueueWork, FrameBytes, Encodable;
  }

  lemma PeerTyped(reason: string)
    ensures IsTypedError(PeerCancelled(reason))
  {
    hide CanonicalText, IdentifierShape;
    PeerCancellationTyped();
  }

  lemma CancelCloses(lim: Limits, s: State, identity: Identity, reason: string, wire: seq<Byte>)
    ensures ClosesWell(s, HandleCancellation(lim, s, identity, reason, wire).0)
  {
    hide EndLive, PeerCancelled, IsTypedError;
    PeerTyped(reason);
    if identity.StreamId? && identity.id in s.sources.live {
      var flagged := s.(cancelled := s.cancelled + {s.sources.live[identity.id].ticket});
      EndCloses(lim, flagged, identity.id, CloseFrame(flagged, identity.id, Some(PeerCancelled(reason)), wire));
    }
  }

  lemma SettleCloses(lim: Limits, s: State, job: Job, decision: OpenDecision, wire: seq<Byte>, endpoint: Endpoint)
    requires WellFormedDecision(decision, endpoint)
    ensures ClosesWell(s, SettleSourceOpen(lim, s, job, decision, wire).0)
  {
    hide EndLive, QueueWork, FrameBytes, IsTypedError;
    if job.workId in s.sources.live && !decision.accepted {
      EndCloses(lim, s, job.workId, OpenFrame(job.workId, decision, wire));
    }
  }

  lemma AppCloses(lim: Limits, sys: System, a: Action)
    ensures ClosesWell(sys.core, MoveApp(lim, sys, a).core)
  {
    hide EndLive, QueueWork, FrameBytes, SaturatedBytes, IsTypedError, LiveKept, SamePair, SameSpec, Tell, Conclude;
    if a.Close? && a.id in sys.core.sources.live && (a.problem.Some? ==> IsTypedError(a.problem.value)) {
      EndCloses(lim, sys.core, a.id, CloseFrame(sys.core, a.id, a.problem, a.wire));
    }
  }

  lemma HandleCloses(lim: Limits, sys: System, frame: HostFrame, expired: bool, wire: seq<Byte>)
    ensures ClosesWell(sys.core, Handle(lim, sys, frame, expired, wire).core)
  {
    hide EnqueueDispatch, EnqueueSourceOpen, HandleCancellation, Tickets, ReaderFrame, Begin, Conclude, Credited, Owe,
      Freed, ClosesWell, GrantSourceCredit, AcknowledgeTerminal;
    SameCloses(sys.core, Handle(lim, sys, frame, expired, wire).core);
    match frame
    case OpenRequest(job) => OpenCloses(lim, sys.core, job.(kind := SourceOpen), expired, wire);
    case CancelFrame(identity, reason) => CancelCloses(lim, sys.core, identity, reason, wire);
    case CreditFrame(id, acknowledged, grant) => CreditCloses(sys.core, id, acknowledged, grant);
    case AckFrame(identity, digest) => AckCloses(sys.core, identity, digest);
    case _ =>
  }

  lemma SameCloses(s: State, t: State)
    ensures t.sources.closed == s.sources.closed || t.sources.closed == map[] ==> ClosesWell(s, t)
  {
  }

  lemma CreditCloses(s: State, id: string, acknowledged: nat, grant: Credit)
    ensures ClosesWell(s, GrantSourceCredit(s, id, acknowledged, grant).0) && ClosesWell(s, s)
  {
    hide EndsWell;
  }

  lemma AckCloses(s: State, identity: Identity, digest: string)
    ensures ClosesWell(s, AcknowledgeTerminal(s, identity, digest).0) && ClosesWell(s, s)
  {
    hide EndsWell, Digest.IsCanonicalSha256;
  }

  lemma ReaderCloses(lim: Limits, sys: System, a: Action)
    ensures ClosesWell(sys.core, MoveInbound(lim, sys, a).core)
  {
    hide Handle, Tickets, QueueWork, CommitTerminal, ReaderFrame, ClosesWell, Tell, Answer;
    SameCloses(sys.core, MoveInbound(lim, sys, a).core);
    if a.Inbound? {
      HandleCloses(lim, sys.(wire := sys.wire.(workIn := a.sequence, heard := sys.wire.heard + [a.sequence])), a.frame,
                   a.expired, a.wire);
    }
  }

  lemma DecidesWell(lim: Limits, sys: System, w: nat, x: WorkerInput)
    requires w < |sys.workers|
    ensures DecidedWell(MoveWorker(lim, sys, w, x).workers[w])
  {
    hide WorkerFrame, TakeJob, Triage, Validate, Announce, EndCall, Commit, ReadOpen, EnterOpen, EndOpen, SettleOpen,
      Tickets, ReleaseWorkToken, WellFormedDecision;
    DecidesElsewhere(lim, sys, w, x);
    DecidesOpen(lim, sys, w, x);
  }

  lemma DecidesOpen(lim: Limits, sys: System, w: nat, x: WorkerInput)
    requires w < |sys.workers|
    ensures sys.workers[w].OpenReading? ==> DecidedWell(ReadOpen(sys, w).workers[w])
    ensures sys.workers[w].OpenEntering? ==> DecidedWell(EnterOpen(sys, w, x).workers[w])
    ensures sys.workers[w].OpenCalling? ==> DecidedWell(EndOpen(sys, w, x).workers[w])
    ensures sys.workers[w].OpenSettling? ==> DecidedWell(SettleOpen(lim, sys, w).workers[w])
  {
    hide WorkerFrame, OpenOutcome, SettleSourceOpen, IsTypedError, Explain;
    ComplaintTyped(OpenCancelledEarly);
    if sys.workers[w].OpenCalling? {
      OpenOutcomeWellFormed(x.open, sys.workers[w].endpoint, sys.workers[w].job.ticket in sys.core.cancelled);
    }
  }

  lemma DecidesElsewhere(lim: Limits, sys: System, w: nat, x: WorkerInput)
    requires w < |sys.workers|
    ensures sys.workers[w].Idle? ==> !TakeJob(sys, w).workers[w].OpenSettling?
    ensures sys.workers[w].Taken? ==> !Triage(sys, w, x).workers[w].OpenSettling?
    ensures sys.workers[w].Validating? ==> !Validate(sys, w, x).workers[w].OpenSettling?
    ensures sys.workers[w].Announcing? ==> !Announce(lim, sys, w, x).workers[w].OpenSettling?
    ensures sys.workers[w].Calling? ==> !EndCall(sys, w, x).workers[w].OpenSettling?
    ensures sys.workers[w].Committing? ==> !Commit(lim, sys, w).workers[w].OpenSettling?
  {
    hide WorkerFrame, UnaryReply, OperationTerminal, RejectedDispatch, TooLargeFallback, ValidateWorkContext,
      QueueWork, CommitTerminal, Minus;
  }

  lemma WorkerEnds(lim: Limits, sys: System, w: nat, x: WorkerInput)
    requires EndingsOk(sys) && w < |sys.workers|
    ensures EndingsOk(MoveWorker(lim, sys, w, x))
  {
    hide MoveWorker, EndsWell, DecidedWell, WorkerMoves, SamePair, SameSpec, JobMoves, ClosesWell;
    var r := MoveWorker(lim, sys, w, x);
    DecidesWell(lim, sys, w, x);
    WorkerJobs(lim, sys, w, x);
    SameCloses(sys.core, r.core);
    if sys.workers[w].OpenSettling? {
      assert DecidedWell(sys.workers[w]);
      SettlingEnds(lim, sys, w, x);
    }
    StillWell(sys, r);
  }

  lemma SettlingEnds(lim: Limits, sys: System, w: nat, x: WorkerInput)
    requires w < |sys.workers| && sys.workers[w].OpenSettling? && DecidedWell(sys.workers[w])
    ensures ClosesWell(sys.core, MoveWorker(lim, sys, w, x).core)
  {
    hide WorkerFrame, SettleSourceOpen, ClosesWell, WellFormedDecision;
    SameCloses(sys.core, sys.core);
    SettleCloses(lim, sys.core, sys.workers[w].job, sys.workers[w].decision, sys.workers[w].wire,
                 sys.workers[w].endpoint);
  }

  lemma StillWell(sys: System, r: System)
    requires EndingsOk(sys) && ClosesWell(sys.core, r.core)
    ensures forall id :: id in r.core.sources.closed ==> EndsWell(r.core.sources.closed[id].frame.body)
  {
    hide EndsWell, DecidedWell;
  }

  lemma EndingsStep(lim: Limits, sys: System, a: Action)
    requires EndingsOk(sys)
    ensures EndingsOk(Step(lim, sys, a))
  {
    hide MoveInbound, MoveWorker, MoveApp, MoveRequest, MoveLife, MoveRegistration, MovePair, MoveWire, EndsWell,
      DecidedWell, ClosesWell, RequestFrame, AppFrame;
    var r := Step(lim, sys, a);
    Bystanders(lim, sys, a);
    if a.WorkerMove? {
      WorkerEnding(lim, sys, a);
    } else {
      if OfReader(a) {
        ReaderCloses(lim, sys, a);
      } else if OfApp(a) {
        AppCloses(lim, sys, a);
      } else {
        OtherCloses(lim, sys, a);
      }
      StillWell(sys, r);
    }
  }

  lemma WorkerEnding(lim: Limits, sys: System, a: Action)
    requires EndingsOk(sys) && a.WorkerMove?
    ensures EndingsOk(Step(lim, sys, a))
  {
    hide MoveWorker, EndingsOk, WorkerFrame, MoveInbound, MoveApp, MoveRequest, MoveLife, MoveRegistration, MovePair,
      MoveWire;
    if a.worker < |sys.workers| {
      WorkerEnds(lim, sys, a.worker, a.input);
    }
  }

  lemma OtherCloses(lim: Limits, sys: System, a: Action)
    requires !OfReader(a) && !a.WorkerMove? && !OfApp(a)
    ensures ClosesWell(sys.core, Step(lim, sys, a).core)
  {
    hide MoveInbound, MoveWorker, MoveApp, MoveRequest, MoveLife, MoveRegistration, MovePair, MoveWire, ClosesWell,
      OwesAll;
    SameCloses(sys.core, Step(lim, sys, a).core);
    if !a.Notify? {
      QuietShrinks(lim, sys, a);
    }
  }

  /** Over any run every terminal retained for a source is well formed. */
  lemma {:induction false} SourceTerminalsWellFormed(lim: Limits, workers: nat, run: Run, n: nat)
    requires Reaches(lim, workers, run, n)
    ensures EndingsOk(run.At(n))
  {
    hide Step, EndsWell, DecidedWell;
    if n == 0 {
      NothingEnded(workers);
    } else {
      SourceTerminalsWellFormed(lim, workers, run, n - 1);
      NextState(lim, workers, run, n - 1);
      EndingsStep(lim, run.At(n - 1), run.actions[n - 1]);
    }
  }

  lemma NothingEnded(workers: nat)
    ensures EndingsOk(Initial(workers))
  {
  }
}
