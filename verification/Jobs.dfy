/** Outstanding jobs, queued or in a worker's hands, and what each step does to them. */
module Jobs {
  import opened Base
  import opened Fips180
  import opened Protocol
  import opened Complaints
  import opened Results
  import opened Core
  import opened Machine
  import opened Streams

  // Outstanding jobs.

  predicate HasJob(pc: Worker) { !pc.Idle? && !pc.Leaving? }

  /** The worker's job may still settle a source open. */
  predicate Unsettled(pc: Worker) {
    pc.Taken? || pc.OpenReading? || pc.OpenEntering? || pc.OpenCalling? || pc.OpenSettling?
  }

  /** The worker has a job and may still enter its handler. */
  predicate BeforeEntry(pc: Worker) {
    pc.Taken? || pc.Validating? || pc.Announcing? || pc.OpenReading? || pc.OpenEntering?
  }

  predicate OpensSource(pc: Worker) {
    pc.OpenReading? || pc.OpenEntering? || pc.OpenCalling? || pc.OpenSettling?
  }

  /** No two outstanding jobs share a ticket, and every one has been given out. */
  predicate JobsApart(core: State, workers: seq<Worker>) {
    && (forall i, j :: 0 <= i < j < |core.dispatch| ==> core.dispatch[i].ticket != core.dispatch[j].ticket)
    && (forall v, w :: 0 <= v < w < |workers| && HasJob(workers[v]) && HasJob(workers[w]) ==>
          workers[v].job.ticket != workers[w].job.ticket)
    && (forall i, w :: 0 <= i < |core.dispatch| && 0 <= w < |workers| && HasJob(workers[w]) ==>
          core.dispatch[i].ticket != workers[w].job.ticket)
    && (forall i :: 0 <= i < |core.dispatch| ==> 0 < core.dispatch[i].ticket < core.nextTicket)
    && (forall w :: 0 <= w < |workers| && HasJob(workers[w]) ==> 0 < workers[w].job.ticket < core.nextTicket)
  }

  ghost predicate JobsFresh(core: State, workers: seq<Worker>) {
    && (forall i :: 0 <= i < |core.dispatch| ==> Fresh(core, core.dispatch[i]))
    && (forall w :: 0 <= w < |workers| && Unsettled(workers[w]) ==> Fresh(core, workers[w].job))
    && (forall w :: 0 <= w < |workers| && OpensSource(workers[w]) ==> workers[w].job.kind.SourceOpen?)
  }

  ghost predicate JobsOk(sys: System) {
    JobsApart(sys.core, sys.workers) && JobsFresh(sys.core, sys.workers)
  }

  // How steps move jobs and touch sources.

  predicate Unopened(source: Source) { !source.open && source.credit == Credit(0, 0) }

  /** Every source but the one of ticket `settled` stays unopened if it was, and new ones are unopened. */
  ghost predicate UnopenedKept(s: State, t: State, settled: nat) {
    forall id :: id in t.sources.live ==>
      || Unopened(t.sources.live[id])
      || (&& id in s.sources.live && t.sources.live[id].ticket == s.sources.live[id].ticket
          && (Unopened(s.sources.live[id]) ==> t.sources.live[id].ticket == settled))
  }

  predicate JobMoves(sys: System, r: System, pc: Worker, next: Worker) {
    if pc.Idle? then
      || (r.core.dispatch == sys.core.dispatch && next.Idle?)
      || (|sys.core.dispatch| > 0 && next == Taken(sys.core.dispatch[0]) && r.core.dispatch == sys.core.dispatch[1..])
    else
      && r.core.dispatch == sys.core.dispatch
      && (HasJob(next) ==> HasJob(pc) && next.job == pc.job)
      && (Unsettled(next) ==> Unsettled(pc))
      && (OpensSource(next) ==> OpensSource(pc) || next.job.kind.SourceOpen?)
      && (BeforeEntry(next) ==> BeforeEntry(pc))
  }

  predicate SourcesUntouched(sys: System, r: System) {
    && r.core.sources == sys.core.sources && r.history.stories == sys.history.stories
    && r.history.pending == sys.history.pending && r.history.notices == sys.history.notices
    && r.history.closedLocally == sys.history.closedLocally
  }

  /** What every step of a worker does to its job and to the sources. */
  predicate WorkerTouches(sys: System, r: System, w: nat) {
    && w < |sys.workers| == |r.workers|
    && JobMoves(sys, r, sys.workers[w], r.workers[w])
    && r.core.nextTicket == sys.core.nextTicket
    && (!sys.workers[w].OpenSettling? ==> SourcesUntouched(sys, r))
  }

  lemma WorkerJobs(lim: Limits, sys: System, w: nat, x: WorkerInput)
    requires w < |sys.workers|
    ensures WorkerTouches(sys, MoveWorker(lim, sys, w, x), w)
  {
    hide TakeJob, Triage, Validate, Announce, EndCall, Commit, ReadOpen, EnterOpen, EndOpen, SettleOpen, WorkerMoves,
      SamePair, SameSpec, Tickets, ReleaseWorkToken, Depart;
    TriageJobs(sys, w, x);
    DecidingJobs(sys, w, x);
    OpeningJobs(sys, w, x);
    QueueingJobs(lim, sys, w, x);
    SettlingJobs(lim, sys, w);
  }

  lemma TriageJobs(sys: System, w: nat, x: WorkerInput)
    requires w < |sys.workers|
    ensures sys.workers[w].Taken? ==> WorkerTouches(sys, Triage(sys, w, x), w)
  {
    hide WorkerFrame, RejectedDispatch;
  }

  lemma DecidingJobs(sys: System, w: nat, x: WorkerInput)
    requires w < |sys.workers|
    ensures sys.workers[w].Validating? ==> WorkerTouches(sys, Validate(sys, w, x), w)
    ensures sys.workers[w].Calling? ==> WorkerTouches(sys, EndCall(sys, w, x), w)
  {
    hide WorkerFrame, UnaryReply, OperationTerminal, RejectedDispatch, ValidateWorkContext;
  }

  lemma OpeningJobs(sys: System, w: nat, x: WorkerInput)
    requires w < |sys.workers|
    ensures sys.workers[w].OpenReading? ==> WorkerTouches(sys, ReadOpen(sys, w), w)
    ensures sys.workers[w].OpenEntering? ==> WorkerTouches(sys, EnterOpen(sys, w, x), w)
    ensures sys.workers[w].OpenCalling? ==> WorkerTouches(sys, EndOpen(sys, w, x), w)
  {
    hide WorkerFrame, OpenOutcome;
  }

  lemma QueueingJobs(lim: Limits, sys: System, w: nat, x: WorkerInput)
    requires w < |sys.workers|
    ensures sys.workers[w].Idle? ==> WorkerTouches(sys, TakeJob(sys, w), w)
    ensures sys.workers[w].Announcing? ==> WorkerTouches(sys, Announce(lim, sys, w, x), w)
  {
    hide WorkerFrame, QueueWork, Minus;
  }

  lemma SettlingJobs(lim: Limits, sys: System, w: nat)
    requires w < |sys.workers|
    ensures sys.workers[w].Committing? ==> WorkerTouches(sys, Commit(lim, sys, w), w)
    ensures sys.workers[w].OpenSettling? ==> WorkerTouches(sys, SettleOpen(lim, sys, w), w)
  {
    hide WorkerFrame, CommitTerminal, SettleSourceOpen, Tell, Conclude, Credited, Owe;
  }

  /** Steps of the lifecycle, the supervisor and the writers: tables empty or stay, jobs go or stay. */
  predicate TablesShrink(sys: System, r: System) {
    && r.core.nextTicket == sys.core.nextTicket && r.history.stories == sys.history.stories
    && r.history.notices == sys.history.notices && r.history.closedLocally == sys.history.closedLocally
    && (r.core.sources.live == sys.core.sources.live || r.core.sources.live == map[])
    && (r.core.sources.closed == sys.core.sources.closed || r.core.sources.closed == map[])
    && (r.core.dispatch == sys.core.dispatch || r.core.dispatch == []) && r.workers == sys.workers
    && (r.reader == sys.reader || r.reader == Listening)
    && (r.history.pending == sys.history.pending || OwesAll(sys, r))
  }

  predicate OwesAll(sys: System, r: System) {
    r.history.pending == sys.history.pending + multiset(LiveTickets(sys.core)) && r.core.sources.live == map[]
  }

  lemma LifeShrinks(sys: System, ok: bool, order: seq<string>)
    ensures TablesShrink(sys, MoveLife(sys, ok, order))
  {
    hide MoveDeactivation, MoveStartup, MoveCommit, OwesAll;
    DeactivationShrinks(sys, order);
    StartupShrinks(sys, ok);
    CommitShrinks(sys, ok);
  }

  lemma DeactivationShrinks(sys: System, order: seq<string>)
    ensures TablesShrink(sys, MoveDeactivation(sys, order))
  {
    hide Enumerates, Bindings, Tickets, LiveTickets, StopTaking, Deactivated, LifeFrame;
    if sys.life.Clearing? {
      StopTakingShrinks(sys, sys.life.next, order);
    } else if sys.life.Halting? {
      DeactivatedShrinks(sys, sys.life.next);
      DeactivatedShrinks(Log(sys, ClearSpec), sys.life.next);
    }
  }

  lemma StopTakingShrinks(sys: System, next: Next, order: seq<string>)
    ensures TablesShrink(sys, StopTaking(sys, next, order))
  {
    hide Enumerates, Bindings, Tickets, LiveTickets, LifeFrame;
  }

  lemma DeactivatedShrinks(sys: System, next: Next)
    ensures TablesShrink(sys, Deactivated(sys, next))
  {
    hide OwesAll, LifeFrame;
  }

  lemma StartupShrinks(sys: System, ok: bool)
    ensures TablesShrink(sys, MoveStartup(sys, ok))
  {
    hide OwesAll, MoveStartup;
  }

  lemma CommitShrinks(sys: System, ok: bool)
    ensures TablesShrink(sys, MoveCommit(sys, ok))
  {
    hide OwesAll, MoveCommit;
  }

  lemma PairShrinks(lim: Limits, sys: System, a: Action)
    ensures TablesShrink(sys, MovePair(lim, sys, a))
  {
    hide Tickets, LiveTickets, ReleaseAllTokens, SameSpec, JudgePair;
  }

  lemma RegistrationShrinks(lim: Limits, sys: System, a: Action)
    ensures TablesShrink(sys, MoveRegistration(lim, sys, a))
  {
    hide OwesAll, Negotiated;
  }

  lemma QuietShrinks(lim: Limits, sys: System, a: Action)
    requires !OfReader(a) && !a.WorkerMove? && !OfApp(a) && !a.Notify?
    ensures TablesShrink(sys, Step(lim, sys, a))
  {
    hide MoveInbound, MoveWorker, MoveApp, MoveRequest, MoveLife, MoveRegistration, MovePair, MoveWire, TablesShrink,
      LifeFrame, PairFrame, WriterTouches, SamePair, RequestFrame;
    if a.LifeMove? {
      LifeShrinks(sys, a.ok, a.order);
    } else if OfRegistration(a) {
      RegistrationShrinks(lim, sys, a);
    } else if OfPair(a) {
      PairShrinks(lim, sys, a);
    } else if OfWire(a) {
      WireShrinks(lim, sys, a);
    } else {
      RequestShrinks(sys, a);
    }
  }

  lemma RequestShrinks(sys: System, a: Action)
    requires !a.Notify?
    ensures TablesShrink(sys, MoveRequest(sys, a))
  {
    hide MoveRequest, OwesAll;
  }

  lemma WireShrinks(lim: Limits, sys: System, a: Action)
    ensures TablesShrink(sys, MoveWire(lim, sys, a))
  {
    hide MoveWire, OwesAll;
  }

  // Every outstanding job keeps its own ticket, and its source waits for it unopened.

  lemma FreshKept(s: State, t: State, settled: nat, job: Job)
    requires UnopenedKept(s, t, settled) && Fresh(s, job) && job.ticket != settled
    ensures Fresh(t, job)
  {
  }

  /** A section of the reader or the application: at most one job arrives, under the next ticket. */
  ghost predicate Arrives(s: State, t: State) {
    && UnopenedKept(s, t, s.nextTicket) && s.nextTicket <= t.nextTicket
    && (t.dispatch != s.dispatch ==>
          && |t.dispatch| == |s.dispatch| + 1 && t.dispatch[..|s.dispatch|] == s.dispatch
          && t.nextTicket == s.nextTicket + 1
          && t.dispatch[|s.dispatch|].ticket == s.nextTicket && Fresh(t, t.dispatch[|s.dispatch|]))
  }

  lemma JobsArrive(sys: System, r: System)
    requires JobsOk(sys) && Arrives(sys.core, r.core) && r.workers == sys.workers && sys.core.nextTicket > 0
    ensures JobsOk(r)
  {
    hide Fresh, UnopenedKept;
    var s, t := sys.core, r.core;
    assert t.dispatch != s.dispatch ==> forall i :: 0 <= i < |s.dispatch| ==>
        t.dispatch[i] == t.dispatch[..|s.dispatch|][i];
    forall i | 0 <= i < |t.dispatch| ensures Fresh(t, t.dispatch[i]) {
      if i < |s.dispatch| {
        FreshKept(s, t, s.nextTicket, s.dispatch[i]);
      }
    }
    forall w | 0 <= w < |r.workers| && Unsettled(r.workers[w]) ensures Fresh(t, r.workers[w].job) {
      FreshKept(s, t, s.nextTicket, sys.workers[w].job);
    }
  }

  /** A section that only drops sources, or spends and grants credit of open ones, leaves the unopened alone. */
  lemma OnlyOpened(s: State, t: State)
    requires t.dispatch == s.dispatch && s.nextTicket <= t.nextTicket
    requires forall id :: id in t.sources.live ==>
               && id in s.sources.live && t.sources.live[id].ticket == s.sources.live[id].ticket
               && (t.sources.live[id] == s.sources.live[id] || s.sources.live[id].open)
    ensures Arrives(s, t)
  {
  }

  lemma HandleArrives(lim: Limits, sys: System, frame: HostFrame, expired: bool, wire: seq<Byte>)
    ensures Arrives(sys.core, Handle(lim, sys, frame, expired, wire).core)
  {
    hide Arrives, EnqueueDispatch, EnqueueSourceOpen, GrantSourceCredit, HandleCancellation, AcknowledgeTerminal,
      Tickets, ReaderFrame, RejectedDispatch, Begin, Conclude, Credited, Owe, Freed;
    OnlyOpened(sys.core, sys.core);
    match frame
    case WorkRequest(job) =>
      if !job.kind.SourceOpen? { DispatchArrives(lim, sys.core, job.(ticket := 0, reservation := 0)); }
    case OpenRequest(job) => OpenArrives(lim, sys.core, job.(kind := SourceOpen), expired, wire);
    case CreditFrame(id, acknowledged, grant) => CreditArrives(sys.core, id, acknowledged, grant);
    case CancelFrame(identity, reason) => CancelArrives(lim, sys.core, identity, reason, wire);
    case AckFrame(identity, digest) => OnlyOpened(sys.core, AcknowledgeTerminal(sys.core, identity, digest).0);
    case EmptyFrame =>
    case HostError => OnlyOpened(sys.core, SignalTerminalFailure(sys.core));
  }

  lemma DispatchArrives(lim: Limits, s: State, job: Job)
    requires !job.kind.SourceOpen?
    ensures Arrives(s, EnqueueDispatch(lim, s, job).0)
  {
    hide EnqueueDispatch;
    var t := EnqueueDispatch(lim, s, job).0;
    assert t.dispatch != s.dispatch ==> t.dispatch[..|s.dispatch|] == s.dispatch;
  }

  lemma OpenArrives(lim: Limits, s: State, job: Job, expired: bool, wire: seq<Byte>)
    ensures Arrives(s, EnqueueSourceOpen(lim, s, job, expired, wire).0)
  {
    hide CommitSourceTerminal, JudgeSourceOpen, ValidateWorkContext;
    var t := EnqueueSourceOpen(lim, s, job, expired, wire).0;
    assert t.dispatch != s.dispatch ==> t.dispatch[..|s.dispatch|] == s.dispatch;
  }

  lemma CreditArrives(s: State, id: string, acknowledged: nat, grant: Credit)
    ensures Arrives(s, GrantSourceCredit(s, id, acknowledged, grant).0)
  {
  }

  lemma CancelArrives(lim: Limits, s: State, identity: Identity, reason: string, wire: seq<Byte>)
    ensures Arrives(s, HandleCancellation(lim, s, identity, reason, wire).0)
  {
    hide CommitSourceTerminal, PeerCancelled;
  }

  lemma AppArrives(lim: Limits, sys: System, a: Action)
    ensures Arrives(sys.core, MoveApp(lim, sys, a).core)
  {
    hide QueueWork, CommitSourceTerminal, SaturatedBytes, FramedBytes, IsTypedError, LiveKept, Tell, Conclude;
  }

  lemma ReaderArrives(lim: Limits, sys: System, a: Action)
    ensures Arrives(sys.core, MoveInbound(lim, sys, a).core)
  {
    hide Handle, Tickets, QueueWork, CommitTerminal, Arrives, ReaderFrame, Tell, Answer;
    OnlyOpened(sys.core, MoveInbound(lim, sys, ReaderMove).core);
    OnlyOpened(sys.core, sys.core);
    if a.Inbound? {
      OnlyOpened(sys.core, SignalTerminalFailure(sys.core));
      HandleArrives(lim, sys.(wire := sys.wire.(workIn := a.sequence, heard := sys.wire.heard + [a.sequence])), a.frame,
                    a.expired, a.wire);
    }
  }

  lemma JobsShrink(sys: System, r: System)
    requires JobsOk(sys) && TablesShrink(sys, r)
    ensures JobsOk(r)
  {
    hide OwesAll;
  }

  /** What a worker's step may do to unopened sources: only the settling one opens its own. */
  ghost predicate Settles(sys: System, r: System, w: nat)
    requires w < |sys.workers| == |r.workers|
  {
    if sys.workers[w].OpenSettling?
    then UnopenedKept(sys.core, r.core, sys.workers[w].job.ticket) && !Unsettled(r.workers[w])
    else r.core.sources == sys.core.sources
  }

  lemma WorkerSettles(lim: Limits, sys: System, w: nat, x: WorkerInput)
    requires w < |sys.workers|
    ensures Settles(sys, MoveWorker(lim, sys, w, x), w)
  {
    hide TakeJob, Triage, Validate, Announce, EndCall, Commit, ReadOpen, EnterOpen, EndOpen, SettleOpen, Depart,
      WorkerMoves, SamePair, SameSpec, JobMoves;
    WorkerJobs(lim, sys, w, x);
    if sys.workers[w].OpenSettling? {
      SettleSettles(lim, sys, w);
    }
  }

  lemma SettleSettles(lim: Limits, sys: System, w: nat)
    requires w < |sys.workers| && sys.workers[w].OpenSettling?
    ensures Settles(sys, SettleOpen(lim, sys, w), w)
  {
    hide QueueWork, CommitSourceTerminal, WorkerFrame, Tell, Conclude, Credited, Owe, FramedBytes;
  }

  lemma JobsWorker(lim: Limits, sys: System, w: nat, x: WorkerInput)
    requires JobsOk(sys) && w < |sys.workers|
    ensures JobsOk(MoveWorker(lim, sys, w, x))
  {
    hide MoveWorker, WorkerMoves, SamePair, SameSpec, SourcesUntouched, JobsApart, JobsFresh, JobMoves, Settles;
    var r := MoveWorker(lim, sys, w, x);
    WorkerJobs(lim, sys, w, x);
    WorkerSettles(lim, sys, w, x);
    ApartMoved(sys, r, w);
    FreshMoved(sys, r, w);
  }

  lemma ApartMoved(sys: System, r: System, w: nat)
    requires JobsOk(sys) && w < |sys.workers| == |r.workers| && r.workers == sys.workers[w := r.workers[w]]
    requires JobMoves(sys, r, sys.workers[w], r.workers[w]) && r.core.nextTicket == sys.core.nextTicket
    ensures JobsApart(r.core, r.workers)
  {
    hide Fresh;
  }

  lemma FreshMoved(sys: System, r: System, w: nat)
    requires JobsOk(sys) && w < |sys.workers| == |r.workers| && r.workers == sys.workers[w := r.workers[w]]
    requires JobMoves(sys, r, sys.workers[w], r.workers[w]) && Settles(sys, r, w)
    ensures JobsFresh(r.core, r.workers)
  {
    hide Fresh, UnopenedKept;
    var settled := if sys.workers[w].OpenSettling? then sys.workers[w].job.ticket else sys.core.nextTicket;
    assert UnopenedKept(sys.core, r.core, settled) by { SameUnopened(sys.core, r.core); }
    forall i | 0 <= i < |r.core.dispatch| ensures Fresh(r.core, r.core.dispatch[i]) {
      var k := if r.core.dispatch == sys.core.dispatch then i else i + 1;
      FreshKept(sys.core, r.core, settled, sys.core.dispatch[k]);
    }
    forall v | 0 <= v < |r.workers| && Unsettled(r.workers[v]) ensures Fresh(r.core, r.workers[v].job) {
      FreshKept(sys.core, r.core, settled, r.workers[v].job);
    }
  }

  lemma SameUnopened(s: State, t: State)
    ensures t.sources == s.sources ==> UnopenedKept(s, t, s.nextTicket)
  {
  }

  lemma JobsStep(lim: Limits, sys: System, a: Action)
    requires JobsOk(sys) && sys.core.nextTicket > 0
    ensures JobsOk(Step(lim, sys, a))
  {
    hide MoveInbound, MoveWorker, MoveApp, BeginSpec, BeginTeardown, SetFlags, MoveLife, MoveRegistration, MovePair,
      MoveWire, TablesShrink, JobsOk, Arrives, LifeFrame, PairFrame, WriterTouches, SamePair, SameSpec, WorkerFrame,
      LiveKept;
    if OfReader(a) {
      ReaderArrives(lim, sys, a);
      JobsArrive(sys, Step(lim, sys, a));
    } else if OfApp(a) {
      AppArrives(lim, sys, a);
      JobsArrive(sys, Step(lim, sys, a));
    } else if a.WorkerMove? {
      if a.worker < |sys.workers| { JobsWorker(lim, sys, a.worker, a.input); }
    } else if a.Notify? {
      JobsNotified(sys, a.ticket);
    } else {
      QuietShrinks(lim, sys, a);
      JobsShrink(sys, Step(lim, sys, a));
    }
  }

  lemma JobsNotified(sys: System, ticket: nat)
    requires JobsOk(sys)
    ensures JobsOk(Deliver(sys, ticket))
  {
  }

  /** Each thread moves itself only, except that retiring a pair restarts the reader. */
  /** Only a worker's own step changes its program counter, and only the reader's steps occupy the reader. */
  predicate StoodBy(sys: System, r: System, a: Action) {
    && (!a.WorkerMove? ==> r.workers == sys.workers)
    && (!OfReader(a) ==> r.reader == sys.reader || r.reader == Listening)
    && (a.WorkerMove? && a.worker < |sys.workers| ==>
          && |r.workers| == |sys.workers| && r.workers == sys.workers[a.worker := r.workers[a.worker]])
    && (a.WorkerMove? && a.worker >= |sys.workers| ==> r == sys)
  }

  lemma Bystanders(lim: Limits, sys: System, a: Action)
    ensures StoodBy(sys, Step(lim, sys, a), a)
  {
    hide MoveInbound, MoveWorker, MoveApp, MoveRequest, MoveLife, MoveRegistration, MovePair, MoveWire,
      TablesShrink, WriterTouches, SamePair, SameSpec, LiveKept, WorkerMoves;
    if !OfReader(a) && !a.WorkerMove? && !OfApp(a) && !a.Notify? {
      QuietShrinks(lim, sys, a);
      ShrinkSpares(sys, Step(lim, sys, a));
    }
  }

  lemma ShrinkSpares(sys: System, r: System)
    requires TablesShrink(sys, r)
    ensures r.workers == sys.workers && (r.reader == sys.reader || r.reader == Listening)
  {
  }
}
