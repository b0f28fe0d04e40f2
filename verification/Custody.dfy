/** Who holds what on a pair that works: the jobs, their tokens, and the workers that are done with a job
    but have not erased its token yet. */
module Custody {
  import opened Base
  import opened Protocol
  import opened Results
  import opened Core
  import opened Machine
  import opened Threads
  import opened Accounts
  import opened Transactions
  import opened Streams
  import opened Jobs
  import opened Ledgers
  import opened Runs
  import opened Works

  predicate Working(sys: System) { sys.pair == Open && Sendable(sys.core) }

  predicate Owns(core: State, job: Job) {
    job.workId in core.ledger.tokens && core.ledger.tokens[job.workId].ticket == job.ticket
  }

  /** The worker has not settled its unary or operation job. */
  predicate InHand(pc: Worker) {
    && (pc.Taken? || pc.Validating? || pc.Announcing? || pc.Calling? || pc.Committing? || pc.Failing?)
    && !pc.job.kind.SourceOpen?
  }

  predicate Wrapping(pc: Worker) { pc.Erasing? || pc.Finishing? }

  predicate Answered(sys: System, id: string) { id in sys.core.ledger.replay || id in sys.history.released }

  predicate Done(sys: System, job: Job) {
    && Settlement(job.ticket, job.workId) in sys.history.answered
    && job.workId !in sys.core.ledger.tokens && Answered(sys, job.workId)
  }

  predicate ForToken(core: State, job: Job, id: string) {
    job.workId == id && Owns(core, job) && !job.kind.SourceOpen?
  }

  /** A queued or held job is there for this token. */
  ghost predicate Attended(sys: System, id: string) {
    || (exists i :: 0 <= i < |sys.core.dispatch| && ForToken(sys.core, sys.core.dispatch[i], id))
    || (exists w :: 0 <= w < |sys.workers| && InHand(sys.workers[w]) && ForToken(sys.core, sys.workers[w].job, id))
  }

  ghost predicate Guarded(sys: System) {
    && (forall i :: 0 <= i < |sys.core.dispatch| && !sys.core.dispatch[i].kind.SourceOpen? ==>
        Owns(sys.core, sys.core.dispatch[i]))
    && (forall w :: 0 <= w < |sys.workers| && InHand(sys.workers[w]) ==> Owns(sys.core, sys.workers[w].job))
    && (forall w :: 0 <= w < |sys.workers| && Wrapping(sys.workers[w]) ==> Done(sys, sys.workers[w].job))
    && (forall id :: id in sys.core.ledger.tokens ==> Attended(sys, id))
  }

  /** A token of this id is handed out. */
  predicate Accepts(sys: System, r: System, id: string) {
    id !in sys.core.ledger.tokens && id in r.core.ledger.tokens
  }

  /** The step hands out no token of an id whose old token a worker is about to erase. */
  predicate Spared(sys: System, r: System) {
    forall w :: 0 <= w < |sys.workers| && Wrapping(sys.workers[w]) ==> !Accepts(sys, r, sys.workers[w].job.workId)
  }

  /** What was answered is retained or acknowledged, until the session is reset at the very end. */
  ghost predicate RecordsOk(sys: System) {
    && (forall s :: s in sys.history.answered ==> Answered(sys, s.workId) || sys.history.resets > 0)
    && (sys.history.resets > 0 ==> sys.pair == Over || sys.pair == Breaking)
  }

  // A worker's step.

  /** The terminal of the worker's job was retained. */
  predicate CommitMove(sys: System, r: System, pc: Worker, next: Worker) {
    && pc.Committing? && Wrapping(next) && next.job == pc.job
    && r.core.ledger.tokens == (if OwnsToken(sys.core, pc.job)
                                then sys.core.ledger.tokens - {pc.job.workId} else sys.core.ledger.tokens)
    && r.core.ledger.replay.Keys == sys.core.ledger.replay.Keys + {pc.job.workId}
    && r.history.released == sys.history.released
    && (pc.job.ticket > 0 ==> r.history.answered == sys.history.answered + {Settlement(pc.job.ticket, pc.job.workId)})
  }

  /** Nothing was retained; a job leaves the hand only by failing the pair. */
  predicate PlainMove(sys: System, r: System, pc: Worker, next: Worker) {
    && SameRecords(sys.history, r.history)
    && r.core.ledger == (if Wrapping(pc) then ReleaseWorkToken(sys.core.ledger, pc.job.workId) else sys.core.ledger)
    && (Wrapping(next) ==> pc.Failing?) && (InHand(pc) && !InHand(next) ==> pc.Failing?)
    && (pc.Failing? ==> !Sendable(r.core)) && (InHand(next) ==> InHand(pc) || pc.Idle?)
  }

  lemma CommitHand(lim: Limits, sys: System, w: nat)
    requires w < |sys.workers| && sys.workers[w].Committing? && PcOk(sys.workers[w])
    ensures var r := Commit(lim, sys, w);
            CommitMove(sys, r, sys.workers[w], r.workers[w]) || PlainMove(sys, r, sys.workers[w], r.workers[w])
  {
    hide EntryFor, CommitTerminal, WorkerFrame, WellFormedFor, NoNewWork, Finishes, Presents;
    var pc, r := sys.workers[w], Commit(lim, sys, w);
    if CommitTerminal(lim, sys.core, pc.job, pc.frame).1.Committed? {
      PresentsOwn(sys, w);
      RetainEffect(lim, sys, r, pc.job, pc.frame, pc.ranOn, pc.job.ticket);
    }
  }

  lemma PresentsOwn(sys: System, w: nat)
    requires w < |sys.workers| && sys.workers[w].Committing?
    ensures var pc := sys.workers[w]; Presents(sys, pc.job, pc.frame, pc.ranOn, pc.job.ticket)
  {
    assert CommitsWith(sys.workers[w], sys.workers[w].job, sys.workers[w].frame, sys.workers[w].ranOn);
  }

  lemma DepartHand(lim: Limits, sys: System, w: nat, x: WorkerInput)
    requires w < |sys.workers| && (sys.workers[w].Failing? || Wrapping(sys.workers[w]) || sys.workers[w].Leaving?
                                   || sys.workers[w].OpenFailing? || sys.workers[w].OpenFinishing?)
    ensures var r := MoveWorker(lim, sys, w, x); PlainMove(sys, r, sys.workers[w], r.workers[w])
  {
    hide WorkerFrame, Tickets, ReleaseWorkToken, TakeJob, Triage, Validate, Announce, EndCall, Commit, ReadOpen,
      EnterOpen, EndOpen, SettleOpen;
  }

  lemma WorkHand(sys: System, w: nat, x: WorkerInput)
    requires w < |sys.workers| && (RunsWork(sys.workers[w]) ==> !sys.workers[w].job.kind.SourceOpen?)
    ensures sys.workers[w].Taken? ==> PlainMove(sys, Triage(sys, w, x), sys.workers[w], Triage(sys, w, x).workers[w])
    ensures sys.workers[w].Validating? ==>
            PlainMove(sys, Validate(sys, w, x), sys.workers[w], Validate(sys, w, x).workers[w])
    ensures sys.workers[w].Calling? ==>
            PlainMove(sys, EndCall(sys, w, x), sys.workers[w], EndCall(sys, w, x).workers[w])
  {
    hide WorkerFrame, UnaryReply, OperationTerminal, RejectedDispatch, TooLargeFallback, ValidateWorkContext;
  }

  lemma QueueHand(lim: Limits, sys: System, w: nat, x: WorkerInput)
    requires w < |sys.workers| && (RunsWork(sys.workers[w]) ==> !sys.workers[w].job.kind.SourceOpen?)
    ensures sys.workers[w].Announcing? ==>
              PlainMove(sys, Announce(lim, sys, w, x), sys.workers[w], Announce(lim, sys, w, x).workers[w])
    ensures sys.workers[w].Idle? ==> PlainMove(sys, TakeJob(sys, w), sys.workers[w], TakeJob(sys, w).workers[w])
  {
    hide WorkerFrame, QueueWork, Minus;
  }

  lemma OpenHand(sys: System, w: nat, x: WorkerInput)
    requires w < |sys.workers|
    ensures sys.workers[w].OpenReading? ==>
            PlainMove(sys, ReadOpen(sys, w), sys.workers[w], ReadOpen(sys, w).workers[w])
    ensures sys.workers[w].OpenEntering? ==>
            PlainMove(sys, EnterOpen(sys, w, x), sys.workers[w], EnterOpen(sys, w, x).workers[w])
    ensures sys.workers[w].OpenCalling? ==>
            PlainMove(sys, EndOpen(sys, w, x), sys.workers[w], EndOpen(sys, w, x).workers[w])
  {
    hide WorkerFrame, OpenOutcome;
  }

  lemma SettleHand(lim: Limits, sys: System, w: nat)
    requires w < |sys.workers| && sys.workers[w].OpenSettling?
    ensures PlainMove(sys, SettleOpen(lim, sys, w), sys.workers[w], SettleOpen(lim, sys, w).workers[w])
  {
    hide WorkerFrame, SettleSourceOpen;
  }

  lemma WorkerHand(lim: Limits, sys: System, w: nat, x: WorkerInput)
    requires w < |sys.workers| && PcOk(sys.workers[w])
    ensures var r := MoveWorker(lim, sys, w, x);
            CommitMove(sys, r, sys.workers[w], r.workers[w]) || PlainMove(sys, r, sys.workers[w], r.workers[w])
  {
    hide WorkerFrame, TakeJob, Triage, Validate, Announce, EndCall, Commit, ReadOpen, EnterOpen, EndOpen, SettleOpen,
      Depart, CommitMove, PlainMove, WellFormedFor, Tickets, ReleaseWorkToken;
    match sys.workers[w]
    case Committing(_, _, _, _, _) => CommitHand(lim, sys, w);
    case Taken(_) | Validating(_) | Calling(_, _, _) => WorkHand(sys, w, x);
    case Announcing(_, _, _, _) | Idle => QueueHand(lim, sys, w, x);
    case OpenReading(_) | OpenEntering(_, _, _) | OpenCalling(_, _, _) => OpenHand(sys, w, x);
    case OpenSettling(_, _, _, _) => SettleHand(lim, sys, w);
    case _ => DepartHand(lim, sys, w, x);
  }

  lemma GuardedCommit(lim: Limits, sys: System, r: System, w: nat)
    requires Guarded(sys) && WorksOk(lim, sys) && JobsOk(sys) && w < |sys.workers| == |r.workers|
    requires r.workers == sys.workers[w := r.workers[w]] && CommitMove(sys, r, sys.workers[w], r.workers[w])
    requires r.core.dispatch == sys.core.dispatch
    ensures Guarded(r)
  {
    hide WellFormedFor, JobsOk, WorksOk, Attended, ForToken, OwnsToken;
    var job := sys.workers[w].job;
    OwnTokenGoes(lim, sys, r, w);
    forall i | 0 <= i < |r.core.dispatch| && !r.core.dispatch[i].kind.SourceOpen?
      ensures Owns(r.core, r.core.dispatch[i])
    {
      OthersOwn(sys, r, w, r.core.dispatch[i]);
    }
    forall v | 0 <= v < |r.workers| && InHand(r.workers[v]) ensures Owns(r.core, r.workers[v].job) {
      OthersOwn(sys, r, w, r.workers[v].job);
    }
    forall id | id in r.core.ledger.tokens ensures Attended(r, id) {
      StillAttended(sys, r, w, id);
    }
  }

  /** The worker's own token, and only that, is gone. */
  lemma OwnTokenGoes(lim: Limits, sys: System, r: System, w: nat)
    requires Guarded(sys) && WorksOk(lim, sys) && w < |sys.workers| == |r.workers|
    requires CommitMove(sys, r, sys.workers[w], r.workers[w])
    ensures var job := sys.workers[w].job;
            && Owns(sys.core, job) && job.ticket > 0 && r.core.ledger.tokens == sys.core.ledger.tokens - {job.workId}
  {
    hide WellFormedFor, ReaderFaithful, EntryOk, Attended;
    var job := sys.workers[w].job;
    assert PcOk(sys.workers[w]) && ReservedOk(lim, sys.core, job) && InHand(sys.workers[w])
        && TokenNumbered(sys.core, job.workId);
  }

  lemma OthersOwn(sys: System, r: System, w: nat, job: Job)
    requires JobsOk(sys) && w < |sys.workers| == |r.workers| && r.workers == sys.workers[w := r.workers[w]]
    requires HasJob(sys.workers[w]) && !InHand(r.workers[w]) && Owns(sys.core, sys.workers[w].job)
             && Owns(sys.core, job)
    requires r.core.ledger.tokens == sys.core.ledger.tokens - {sys.workers[w].job.workId}
    requires || job in sys.core.dispatch
             || exists v :: 0 <= v < |r.workers| && InHand(r.workers[v]) && r.workers[v].job == job
    ensures Owns(r.core, job)
  {
    hide JobsFresh;
  }

  lemma StillAttended(sys: System, r: System, w: nat, id: string)
    requires w < |sys.workers| == |r.workers| && r.workers == sys.workers[w := r.workers[w]] && HasJob(sys.workers[w])
    requires r.core.dispatch == sys.core.dispatch && id != sys.workers[w].job.workId && id in r.core.ledger.tokens
    requires r.core.ledger.tokens == sys.core.ledger.tokens - {sys.workers[w].job.workId} && Attended(sys, id)
    ensures Attended(r, id)
  {
    if i :| 0 <= i < |sys.core.dispatch| && ForToken(sys.core, sys.core.dispatch[i], id) {
      assert ForToken(r.core, r.core.dispatch[i], id);
    } else {
      var v :| 0 <= v < |sys.workers| && InHand(sys.workers[v]) && ForToken(sys.core, sys.workers[v].job, id);
      assert v != w && ForToken(r.core, r.workers[v].job, id);
    }
  }

  lemma GuardedPlain(sys: System, r: System, w: nat)
    requires Guarded(sys) && Working(r) && w < |sys.workers| == |r.workers|
    requires r.workers == sys.workers[w := r.workers[w]] && PlainMove(sys, r, sys.workers[w], r.workers[w])
    requires JobMoves(sys, r, sys.workers[w], r.workers[w])
    ensures Guarded(r)
  {
    var pc, next := sys.workers[w], r.workers[w];
    assert r.core.ledger == sys.core.ledger by {
      if Wrapping(pc) { assert Done(sys, pc.job); }
    }
    forall id | id in r.core.ledger.tokens ensures Attended(r, id) {
      assert Attended(sys, id);
      if i :| 0 <= i < |sys.core.dispatch| && ForToken(sys.core, sys.core.dispatch[i], id) {
        if r.core.dispatch == sys.core.dispatch {
          assert ForToken(r.core, r.core.dispatch[i], id);
        } else if i == 0 {
          assert InHand(next) && ForToken(r.core, next.job, id);
        } else {
          assert ForToken(r.core, r.core.dispatch[i - 1], id);
        }
      } else {
        var v :| 0 <= v < |sys.workers| && InHand(sys.workers[v]) && ForToken(sys.core, sys.workers[v].job, id);
        assert InHand(r.workers[v]) && ForToken(r.core, r.workers[v].job, id);
      }
    }
  }

  lemma GuardedWorker(lim: Limits, sys: System, w: nat, x: WorkerInput)
    requires Guarded(sys) && WorksOk(lim, sys) && JobsOk(sys) && w < |sys.workers|
    requires Working(MoveWorker(lim, sys, w, x))
    ensures Guarded(MoveWorker(lim, sys, w, x))
  {
    hide MoveWorker, Guarded, WorkerMoves, SamePair, SameSpec, CommitMove, PlainMove, SourcesUntouched, JobMoves,
      JobsOk, ReservedOk, TokenNumbered, ReaderFaithful, EntryOk, PcOk;
    var r := MoveWorker(lim, sys, w, x);
    assert PcOk(sys.workers[w]);
    WorkerHand(lim, sys, w, x);
    WorkerJobs(lim, sys, w, x);
    if CommitMove(sys, r, sys.workers[w], r.workers[w]) {
      QueueUntaken(sys, r, w);
      GuardedCommit(lim, sys, r, w);
    } else {
      GuardedPlain(sys, r, w);
    }
  }

  lemma QueueUntaken(sys: System, r: System, w: nat)
    requires w < |sys.workers| == |r.workers| && JobMoves(sys, r, sys.workers[w], r.workers[w])
    requires CommitMove(sys, r, sys.workers[w], r.workers[w])
    ensures r.core.dispatch == sys.core.dispatch
  {
  }

  // Steps of the other threads.

  /** On a pair that stays open only workers take jobs off the queue. */
  lemma QueueStays(lim: Limits, sys: System, a: Action)
    requires sys.pair == Open && Step(lim, sys, a).pair == Open && !a.WorkerMove? && PairOk(sys)
    ensures sys.core.dispatch <= Step(lim, sys, a).core.dispatch
  {
    hide MoveInbound, MoveWorker, MoveApp, MoveRequest, MoveLife, MoveRegistration, MovePair, MoveWire,
      ReaderFrame, LifeFrame, PairFrame, SamePair, SameSpec, LiveKept, AtRest, UnopenedKept, Fresh;
    if OfReader(a) {
      ReaderArrives(lim, sys, a);
    } else if OfApp(a) {
      AppArrives(lim, sys, a);
    } else if a.LifeMove? {
      LifeQueue(sys, a.ok, a.order);
    } else if OfPair(a) {
      PairQueue(lim, sys, a);
    } else if OfRegistration(a) {
      PairQueue(lim, sys, a);
    }
  }

  lemma LifeQueue(sys: System, ok: bool, order: seq<string>)
    requires sys.pair == Open && PairOk(sys)
    ensures MoveLife(sys, ok, order).core.dispatch == sys.core.dispatch
    ensures MoveLife(sys, ok, order).history.resets == sys.history.resets
  {
    hide MoveStartup, MoveCommit, StopTaking, AtRest, Tickets, LifeFrame;
    StartupCalm(sys, ok);
    if sys.life.Clearing? {
      StopTakingCalm(sys, sys.life.next, order);
    }
  }

  lemma PairQueue(lim: Limits, sys: System, a: Action)
    requires sys.pair == Open
    ensures MovePair(lim, sys, a).pair == Open ==> MovePair(lim, sys, a) == sys
    ensures MoveRegistration(lim, sys, a) == sys
  {
    hide Tickets, LiveTickets, JudgePair;
  }

  lemma GuardedOther(lim: Limits, sys: System, r: System, e: Event)
    requires Guarded(sys) && WorksOk(lim, sys) && PairOk(sys) && sys.pair == Open && Effect(lim, sys, r, e)
    requires Spared(sys, r) && !e.Erases? && (e.Retains? ==> e.ticket == 0)
    requires r.workers == sys.workers && |sys.core.dispatch| <= |r.core.dispatch|
    requires r.core.dispatch[..|sys.core.dispatch|] == sys.core.dispatch
    ensures Guarded(r)
  {
    hide Finishes, EntryFor, ReservedOk, EntryOk, WellFormedFor, AtRest;
    TokensStay(lim, sys, r, e);
    forall i | 0 <= i < |r.core.dispatch| && !r.core.dispatch[i].kind.SourceOpen?
      ensures Owns(r.core, r.core.dispatch[i])
    {
      if k :| 0 <= k < |sys.core.dispatch| && sys.core.dispatch[k] == r.core.dispatch[i] {
        assert Owns(sys.core, sys.core.dispatch[k]);
      }
    }
    forall id | id in r.core.ledger.tokens ensures Attended(r, id) {
      if id in sys.core.ledger.tokens {
        assert Attended(sys, id);
        if i :| 0 <= i < |sys.core.dispatch| && ForToken(sys.core, sys.core.dispatch[i], id) {
          assert r.core.dispatch[i] == r.core.dispatch[..|sys.core.dispatch|][i];
          assert ForToken(r.core, r.core.dispatch[i], id);
        } else {
          var v :| 0 <= v < |sys.workers| && InHand(sys.workers[v]) && ForToken(sys.core, sys.workers[v].job, id);
          assert ForToken(r.core, r.workers[v].job, id);
        }
      } else {
        assert ForToken(r.core, r.core.dispatch[|sys.core.dispatch|], id);
      }
    }
  }

  /** No token goes, and what was answered stays answered. */
  lemma TokensStay(lim: Limits, sys: System, r: System, e: Event)
    requires WorksOk(lim, sys) && PairOk(sys) && sys.pair == Open && Effect(lim, sys, r, e)
    requires !e.Erases? && (e.Retains? ==> e.ticket == 0)
    ensures forall id :: id in sys.core.ledger.tokens ==>
              id in r.core.ledger.tokens && r.core.ledger.tokens[id] == sys.core.ledger.tokens[id]
    ensures forall id :: id in r.core.ledger.tokens && id !in sys.core.ledger.tokens ==> e.Admits? && id == e.job.workId
    ensures forall id :: Answered(sys, id) ==> Answered(r, id)
    ensures r.history.answered == sys.history.answered && r.history.resets == sys.history.resets
  {
    hide Finishes, EntryFor, ReservedOk, EntryOk, WellFormedFor, AtRest, NoNewWork;
    if e.Retains? && e.job.workId in sys.core.ledger.tokens {
      assert TokenNumbered(sys.core, e.job.workId);
    }
  }

  // Records over every step.

  lemma AnsweredStep(lim: Limits, sys: System, a: Action)
    requires forall s :: s in sys.history.answered ==> Answered(sys, s.workId) || sys.history.resets > 0
    ensures var r := Step(lim, sys, a);
            forall s :: s in r.history.answered ==> Answered(r, s.workId) || r.history.resets > 0
  {
    hide Step, Presents, Finishes, NoNewWork, EntryFor;
    var e := StepEffect(lim, sys, a);
  }

  /** A session is reset only at the end of the last teardown. */
  lemma ResetsStep(lim: Limits, sys: System, a: Action)
    requires sys.history.resets > 0 ==> sys.pair == Over || sys.pair == Breaking
    ensures var r := Step(lim, sys, a); r.history.resets > 0 ==> r.pair == Over || r.pair == Breaking
  {
    hide Step, Presents, Finishes, NoNewWork, EntryFor;
    var e := StepEffect(lim, sys, a);
    if sys.pair == Over || sys.pair == Breaking {
      EndStays(lim, sys, a);
    }
  }

  /** Once the supervisor is done it only ever resets the session. */
  lemma EndStays(lim: Limits, sys: System, a: Action)
    requires sys.pair == Over || sys.pair == Breaking
    ensures Step(lim, sys, a).pair == Over || Step(lim, sys, a).pair == Breaking
  {
    hide MoveInbound, MoveWorker, MoveApp, MoveRequest, MoveLife, MoveRegistration, MovePair, MoveWire,
      ReaderFrame, WorkerFrame, LifeFrame, PairFrame, SamePair, SameSpec, LiveKept, WriterTouches;
    if a.LifeMove? {
      LifeEnds(sys, a.ok, a.order);
    } else if OfRegistration(a) || OfPair(a) {
      PairEnds(lim, sys, a);
    } else {
      PairPhase(lim, sys, a);
    }
  }

  lemma LifeEnds(sys: System, ok: bool, order: seq<string>)
    ensures MoveLife(sys, ok, order).pair == sys.pair || MoveLife(sys, ok, order).pair == Over
  {
    hide MoveStartup, MoveCommit, StopTaking, Tickets, LifeFrame;
    StartupPhase(sys, ok);
    if sys.life.Clearing? {
      StopTakingPhase(sys, sys.life.next, order);
    }
  }

  lemma StartupPhase(sys: System, ok: bool)
    ensures MoveStartup(sys, ok).pair == sys.pair && MoveCommit(sys, ok).pair == sys.pair
  {
    hide LifeFrame, Grants;
  }

  lemma StopTakingPhase(sys: System, next: Next, order: seq<string>)
    ensures StopTaking(sys, next, order).pair == sys.pair
  {
    hide LifeFrame, Enumerates, Bindings, Tickets, LiveTickets;
  }

  lemma PairEnds(lim: Limits, sys: System, a: Action)
    requires sys.pair == Over || sys.pair == Breaking
    ensures MovePair(lim, sys, a).pair == Over || MovePair(lim, sys, a).pair == Breaking
    ensures MoveRegistration(lim, sys, a) == sys
  {
    hide Tickets, LiveTickets, JudgePair, Negotiated;
  }

  /** A pair begins to work with no job and no token. */
  lemma Reopens(lim: Limits, sys: System, a: Action)
    requires PairOk(sys) && Working(Step(lim, sys, a)) && !Working(sys)
    ensures var r := Step(lim, sys, a);
            AllIdle(r.workers) && r.core.dispatch == [] && r.core.ledger.tokens == map[]
                && |r.history.epochs| > |sys.history.epochs|
  {
    hide MoveInbound, MoveWorker, MoveApp, BeginSpec, BeginTeardown, SetFlags, MoveLife, MoveRegistration, MovePair,
      MoveWire, ReaderFrame, WorkerFrame, LifeFrame, PairFrame, SameSpec, SamePair, LiveKept, WireFrame, PairOk,
      RequestFrame, AppFrame;
    if OfPair(a) {
      PairReopens(lim, sys, a);
    } else if OfRegistration(a) {
      RegistrationShut(lim, sys, a);
    } else if a.LifeMove? {
      LifeShut(sys, a.ok, a.order);
    } else if a.BeginApply? {
      BeginShut(sys, a.spec);
    } else if OfWire(a) {
      WireShut(lim, sys, a);
    } else if a.Teardown? {
      TeardownShut(sys);
    } else {
      TrafficShut(lim, sys, a);
    }
  }

  /** Traffic, failures and stops never make a pair work again. */
  lemma TrafficShut(lim: Limits, sys: System, a: Action)
    requires OfReader(a) || a.WorkerMove? || OfApp(a) || (OfRequest(a) && !a.BeginApply? && !a.Teardown?)
    ensures Working(Step(lim, sys, a)) ==> Working(sys)
  {
    hide Receive, MoveReader, MoveWorker, MoveApp, SetFlags, MoveLife, MoveRegistration, MovePair, MoveWire,
      LifeFrame, PairFrame, SameSpec, LiveKept, WorkerMoves, WireFrame;
  }

  lemma TeardownShut(sys: System)
    ensures BeginTeardown(sys).core == sys.core && BeginTeardown(sys).pair == sys.pair
  {
  }

  lemma PairReopens(lim: Limits, sys: System, a: Action)
    requires PairOk(sys) && Working(MovePair(lim, sys, a)) && !Working(sys)
    ensures var r := MovePair(lim, sys, a);
            AllIdle(r.workers) && r.core.dispatch == [] && r.core.ledger.tokens == map[]
                && |r.history.epochs| > |sys.history.epochs|
  {
    hide Tickets, LiveTickets, JudgePair, LifeFits;
    NotJudged(lim, sys);
  }

  lemma NotJudged(lim: Limits, sys: System)
    ensures JudgePair(lim, sys).pair != Open
  {
  }

  lemma RegistrationShut(lim: Limits, sys: System, a: Action)
    ensures MoveRegistration(lim, sys, a).pair != Open || MoveRegistration(lim, sys, a) == sys
  {
    hide Negotiated, InstallSession;
  }

  lemma LifeShut(sys: System, ok: bool, order: seq<string>)
    ensures Working(MoveLife(sys, ok, order)) ==> Working(sys)
  {
    hide MoveStartup, MoveCommit, StopTaking, LifeFrame, Tickets;
    StartupShut(sys, ok);
    if sys.life.Clearing? {
      StopTakingShut(sys, sys.life.next, order);
    }
  }

  lemma StartupShut(sys: System, ok: bool)
    ensures Working(MoveStartup(sys, ok)) ==> Working(sys)
    ensures Working(MoveCommit(sys, ok)) ==> Working(sys)
  {
    hide LifeFrame, Grants;
  }

  lemma StopTakingShut(sys: System, next: Next, order: seq<string>)
    ensures Working(StopTaking(sys, next, order)) ==> Working(sys)
  {
    hide LifeFrame, Enumerates, Bindings, Tickets, LiveTickets;
  }

  lemma BeginShut(sys: System, spec: Spec)
    ensures Working(BeginSpec(sys, spec)) ==> Working(sys)
  {
    hide ValidSpec, Tickets;
  }

  lemma WireShut(lim: Limits, sys: System, a: Action)
    ensures Working(MoveWire(lim, sys, a)) ==> Working(sys)
  {
    hide MoveWriter, Tickets;
    WriterShut(lim, sys, true);
    WriterShut(lim, sys, false);
  }

  lemma WriterShut(lim: Limits, sys: System, ok: bool)
    ensures Working(MoveWriter(lim, sys, ok)) ==> Working(sys)
  {
    hide Tickets, FramedBytes, Minus;
  }

  // The step and the runs.

  lemma GuardedStep(lim: Limits, sys: System, a: Action)
    requires Safe(lim, sys) && WorksOk(lim, sys) && (Working(sys) ==> Guarded(sys) && Spared(sys, Step(lim, sys, a)))
    ensures Working(Step(lim, sys, a)) ==> Guarded(Step(lim, sys, a))
  {
    hide Step, WorksOk, CountsOk, PairOk, AccountsOk, LifetimesOk, SpecsOk, JobsOk, Told, Guarded, Effect, Spared,
      Sendable;
    var r := Step(lim, sys, a);
    if Working(r) {
      if !Working(sys) {
        Reopens(lim, sys, a);
        NothingToGuard(r);
      } else if a.WorkerMove? {
        Bystanders(lim, sys, a);
        WorkerGuarded(lim, sys, a);
      } else {
        var e := StepEffect(lim, sys, a);
        Bystanders(lim, sys, a);
        QueueStays(lim, sys, a);
        GuardedOther(lim, sys, r, e);
      }
    }
  }

  lemma WorkerGuarded(lim: Limits, sys: System, a: Action)
    requires a.WorkerMove? && Guarded(sys) && WorksOk(lim, sys) && JobsOk(sys) && Working(Step(lim, sys, a))
    ensures Guarded(Step(lim, sys, a))
  {
    hide MoveWorker, Guarded, WorksOk, JobsOk, WorkerFrame, Working, MoveInbound, MoveApp, MoveRequest, MoveLife,
      MoveRegistration, MovePair, MoveWire;
    if a.worker < |sys.workers| {
      GuardedWorker(lim, sys, a.worker, a.input);
    }
  }

  lemma NothingToGuard(sys: System)
    requires AllIdle(sys.workers) && sys.core.dispatch == [] && sys.core.ledger.tokens == map[]
    ensures Guarded(sys)
  {
  }

  lemma PairIsOk(lim: Limits, sys: System)
    requires Safe(lim, sys)
    ensures PairOk(sys) && JobsOk(sys)
  {
    hide CountsOk, PairOk, AccountsOk, LifetimesOk, SpecsOk, JobsOk, Told;
  }

  lemma EpochsGrow(lim: Limits, sys: System, a: Action)
    ensures |sys.history.epochs| <= |Step(lim, sys, a).history.epochs|
  {
    hide MoveInbound, MoveWorker, MoveApp, MoveRequest, MoveLife, MoveRegistration, MovePair, MoveWire,
      SamePair, SameSpec, LiveKept, WorkerMoves;
    PairEpochs(lim, sys, a);
  }

  lemma PairEpochs(lim: Limits, sys: System, a: Action)
    ensures |sys.history.epochs| <= |MovePair(lim, sys, a).history.epochs|
    ensures MoveRegistration(lim, sys, a).history.epochs == sys.history.epochs
  {
    hide Tickets, LiveTickets, ReleaseAllTokens, Negotiated;
  }

  lemma AnsweredGrows(lim: Limits, sys: System, a: Action)
    ensures sys.history.answered <= Step(lim, sys, a).history.answered
  {
    hide Step, Presents, Finishes, NoNewWork, EntryFor;
    var e := StepEffect(lim, sys, a);
  }
}
