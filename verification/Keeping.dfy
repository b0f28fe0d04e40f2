/** No admitted Work silently disappears. A job on a working pair stays in the queue or in the hands of a
    worker until its terminal is retained, whatever the Host does. Its token stays as long, unless the
    Host uses the id again before the worker of an earlier job has erased the earlier token. */
module Keeping {
  import opened Base
  import opened Core
  import opened Machine
  import opened Threads
  import opened Accounts
  import opened Transactions
  import opened Streams
  import opened Jobs
  import opened Ledgers
  import opened Runs
  import opened Works
  import opened Custody

  // The Work itself.

  /** The job is queued or in the hands of a worker who has not settled it. */
  ghost predicate Here(sys: System, job: Job) {
    || job in sys.core.dispatch
    || exists w :: 0 <= w < |sys.workers| && InHand(sys.workers[w]) && sys.workers[w].job == job
  }

  ghost predicate JobAnswered(sys: System, job: Job) { Settlement(job.ticket, job.workId) in sys.history.answered }

  lemma HereWorker(lim: Limits, sys: System, w: nat, x: WorkerInput, job: Job)
    requires Here(sys, job) && !job.kind.SourceOpen? && job.ticket > 0 && w < |sys.workers| && PcOk(sys.workers[w])
    requires Working(MoveWorker(lim, sys, w, x))
    ensures Here(MoveWorker(lim, sys, w, x), job) || JobAnswered(MoveWorker(lim, sys, w, x), job)
  {
    hide MoveWorker, WorkerMoves, SamePair, SameSpec, SourcesUntouched, PcOk, ReleaseWorkToken, OwnsToken;
    var r := MoveWorker(lim, sys, w, x);
    WorkerHand(lim, sys, w, x);
    WorkerJobs(lim, sys, w, x);
    if v :| 0 <= v < |sys.workers| && InHand(sys.workers[v]) && sys.workers[v].job == job {
      assert v != w ==> r.workers[v] == sys.workers[v];
    } else {
      var i :| 0 <= i < |sys.core.dispatch| && sys.core.dispatch[i] == job;
      if r.core.dispatch != sys.core.dispatch && i > 0 {
        assert r.core.dispatch[i - 1] == job;
      }
    }
  }

  lemma HereStep(lim: Limits, sys: System, a: Action, job: Job)
    requires Here(sys, job) && !job.kind.SourceOpen? && job.ticket > 0 && WorksOk(lim, sys) && PairOk(sys)
    requires Working(sys) && Working(Step(lim, sys, a))
    ensures Here(Step(lim, sys, a), job) || JobAnswered(Step(lim, sys, a), job)
  {
    hide Step, Here, JobAnswered, WorksOk, PairOk, Sendable;
    Bystanders(lim, sys, a);
    if a.WorkerMove? {
      HereMoved(lim, sys, a, job);
    } else {
      QueueStays(lim, sys, a);
      HereStill(sys, Step(lim, sys, a), job);
    }
  }

  lemma HereStill(sys: System, r: System, job: Job)
    requires Here(sys, job) && r.workers == sys.workers && |sys.core.dispatch| <= |r.core.dispatch|
    requires r.core.dispatch[..|sys.core.dispatch|] == sys.core.dispatch
    ensures Here(r, job)
  {
    if i :| 0 <= i < |sys.core.dispatch| && sys.core.dispatch[i] == job {
      assert r.core.dispatch[i] == r.core.dispatch[..|sys.core.dispatch|][i];
    }
  }

  lemma HereMoved(lim: Limits, sys: System, a: Action, job: Job)
    requires a.WorkerMove? && Here(sys, job) && !job.kind.SourceOpen? && job.ticket > 0 && WorksOk(lim, sys)
    requires Working(Step(lim, sys, a))
    ensures Here(Step(lim, sys, a), job) || JobAnswered(Step(lim, sys, a), job)
  {
    hide MoveWorker, WorkerFrame, Here, JobAnswered, PcOk, Working, MoveInbound, MoveApp, MoveRequest, MoveLife,
      MoveRegistration, MovePair, MoveWire;
    if a.worker < |sys.workers| {
      assert PcOk(sys.workers[a.worker]);
      HereWorker(lim, sys, a.worker, a.input, job);
    }
  }

  /** What may have become of a job, as long as its pair keeps working. */
  ghost predicate Followed(start: System, end: System, job: Job) {
    && |start.history.epochs| <= |end.history.epochs|
    && (Working(end) && |end.history.epochs| == |start.history.epochs| ==> Here(end, job) || JobAnswered(end, job))
  }

  lemma FollowedStep(lim: Limits, start: System, sys: System, a: Action, job: Job)
    requires Followed(start, sys, job) && !job.kind.SourceOpen? && job.ticket > 0 && WorksOk(lim, sys) && PairOk(sys)
    ensures Followed(start, Step(lim, sys, a), job)
  {
    hide Step, Here, Working, WorksOk, PairOk;
    EpochsGrow(lim, sys, a);
    AnsweredGrows(lim, sys, a);
    var r := Step(lim, sys, a);
    if Working(r) && |r.history.epochs| == |sys.history.epochs| {
      if !Working(sys) {
        Reopens(lim, sys, a);
      } else if Here(sys, job) {
        HereStep(lim, sys, a, job);
      }
    }
  }

  lemma {:induction false} FollowedRun(lim: Limits, workers: nat, run: Run, n: nat, m: nat, job: Job)
    requires Reaches(lim, workers, run, m) && n <= m && Here(run.At(n), job) && !job.kind.SourceOpen?
             && job.ticket > 0
    ensures Followed(run.At(n), run.At(m), job)
  {
    hide Step, IsRun, Here, Working, WorksOk, Safe, JobAnswered;
    if n < m {
      FollowedRun(lim, workers, run, n, m - 1, job);
      SafeRun(lim, workers, run, m - 1);
      WorksRun(lim, workers, run, m - 1);
      PairIsOk(lim, run.At(m - 1));
      NextState(lim, workers, run, m - 1);
      FollowedStep(lim, run.At(n), run.At(m - 1), run.actions[m - 1], job);
    }
  }

  lemma {:induction false} RecordsRun(lim: Limits, workers: nat, run: Run, n: nat)
    requires Reaches(lim, workers, run, n)
    ensures RecordsOk(run.At(n))
  {
    hide Step, IsRun, Answered;
    FirstState(lim, workers, run);
    if n > 0 {
      RecordsRun(lim, workers, run, n - 1);
      NextState(lim, workers, run, n - 1);
      AnsweredStep(lim, run.At(n - 1), run.actions[n - 1]);
      ResetsStep(lim, run.At(n - 1), run.actions[n - 1]);
    }
  }

  lemma HereNumbered(sys: System, job: Job)
    requires JobsOk(sys) && Here(sys, job)
    ensures job.ticket > 0
  {
    hide JobsFresh;
  }

  /** A unary or operation job that is queued or in hand on a working pair is, as long as that pair works,
      still there, or its terminal was retained and then perhaps acknowledged. Nothing is asked of the Host. */
  lemma WorkNeverLost(lim: Limits, workers: nat, run: Run, n: nat, m: nat, job: Job)
    requires Reaches(lim, workers, run, m) && n <= m && Here(run.At(n), job) && !job.kind.SourceOpen?
    ensures var (start, end) := (run.At(n), run.At(m));
            Working(end) && |end.history.epochs| == |start.history.epochs| ==>
              || Here(end, job)
              || (Settlement(job.ticket, job.workId) in end.history.answered && Answered(end, job.workId))
  {
    hide IsRun, Here, Answered, Safe, JobsOk;
    SafeRun(lim, workers, run, n);
    PairIsOk(lim, run.At(n));
    HereNumbered(run.At(n), job);
    FollowedRun(lim, workers, run, n, m, job);
    RecordsRun(lim, workers, run, m);
  }

  // Its token.

  /** A request for Work that the reader hears and admission accepts. */
  predicate AdmitsWork(lim: Limits, sys: System, a: Action) {
    && AsksForWork(a) && sys.pair == Open && sys.wire.workOpen && sys.reader == Listening && a.authentic
    && a.sequence > sys.wire.workIn && PassesAdmission(lim, sys.core, a.frame.job)
  }

  predicate PassesAdmission(lim: Limits, s: State, job: Job) {
    var id := job.workId;
    && !job.kind.SourceOpen? && id != "" && id !in s.ledger.replay && s.link.accepting && s.link.phase == Ready
    && id !in s.ledger.tokens && id !in s.sources.live
    && |s.dispatch| < lim.maxDispatch && FitsByteBudget(s.dispatchBytes, job.bytes, lim.maxDispatchBytes)
    && ReserveTerminalReplay(lim, s.ledger, id, job.fingerprint).Some?
  }

  /** Exactly such a request hands out a token. */
  lemma AcceptsExactly(lim: Limits, sys: System, a: Action, id: string)
    ensures Accepts(sys, Step(lim, sys, a), id) <==> AdmitsWork(lim, sys, a) && Requests(a, id)
  {
    hide MoveInbound, MoveWorker, MoveApp, MoveRequest, MoveLife, MoveRegistration, MovePair, MoveWire, Presents,
      Finishes, NoNewWork, EntryFor, PassesAdmission;
    if AsksForWork(a) {
      RequestAccepted(lim, sys, a, id);
    } else {
      var e := StepEffect(lim, sys, a);
    }
  }

  lemma RequestAccepted(lim: Limits, sys: System, a: Action, id: string)
    requires AsksForWork(a)
    ensures Accepts(sys, MoveInbound(lim, sys, a), id) <==> AdmitsWork(lim, sys, a) && Requests(a, id)
  {
    hide ReaderFrame, Tickets, SamePair, SameSpec, ReserveTerminalReplay, HandleOpen, HandleCredit, HandleCancel,
      HandleAck, MoveReader;
  }

  /** The request, if it is accepted, names no id whose old token a worker is about to erase. */
  predicate Careful(lim: Limits, sys: System, a: Action) {
    AdmitsWork(lim, sys, a) ==>
      forall w :: 0 <= w < |sys.workers| && Wrapping(sys.workers[w]) ==>
        sys.workers[w].job.workId != a.frame.job.workId
  }

  lemma CarefulSpares(lim: Limits, sys: System, a: Action)
    ensures Careful(lim, sys, a) <==> Spared(sys, Step(lim, sys, a))
  {
    hide Step, Accepts, PassesAdmission;
    forall id ensures Accepts(sys, Step(lim, sys, a), id) <==> AdmitsWork(lim, sys, a) && Requests(a, id) {
      AcceptsExactly(lim, sys, a, id);
    }
  }

  /** Before position `n` no Work was admitted under an id whose old token was about to be erased. */
  ghost predicate CarefulTo(lim: Limits, run: Run, n: nat) {
    forall k {:trigger run.actions[k]} :: 0 <= k < |run.actions| && k < n && Working(run.At(k)) ==>
      Careful(lim, run.At(k), run.actions[k])
  }

  /** In a careful run every job owns its token, and every token is attended by its job. */
  lemma {:induction false} GuardedRun(lim: Limits, workers: nat, run: Run, n: nat)
    requires Reaches(lim, workers, run, n) && CarefulTo(lim, run, n)
    ensures Working(run.At(n)) ==> Guarded(run.At(n))
  {
    hide Step, IsRun, Safe, WorksOk, Guarded, Careful, Spared, Working;
    FirstState(lim, workers, run);
    if n == 0 {
      NothingToGuard(Initial(workers));
    } else {
      GuardedRun(lim, workers, run, n - 1);
      SafeRun(lim, workers, run, n - 1);
      WorksRun(lim, workers, run, n - 1);
      NextState(lim, workers, run, n - 1);
      CarefulSpares(lim, run.At(n - 1), run.actions[n - 1]);
      GuardedStep(lim, run.At(n - 1), run.actions[n - 1]);
    }
  }

  // Exactly when a token is lost.

  /** The token of this id is gone although its job was not answered. */
  predicate TokenLost(sys: System, r: System, id: string) {
    && id in sys.core.ledger.tokens
    && !(id in r.core.ledger.tokens && r.core.ledger.tokens[id] == sys.core.ledger.tokens[id])
    && Settlement(sys.core.ledger.tokens[id].ticket, id) !in r.history.answered
  }

  /** The step is the one with which a worker that is done with a job erases the token of its id. */
  predicate Epilogue(sys: System, a: Action, id: string) {
    && a.WorkerMove? && a.worker < |sys.workers| && Wrapping(sys.workers[a.worker])
    && sys.workers[a.worker].job.workId == id
  }

  /** No token is there for a job that was answered. */
  predicate Unanswered(sys: System) {
    && (forall s :: s in sys.history.answered ==> s.ticket < sys.core.nextTicket)
    && (forall id :: id in sys.core.ledger.tokens ==>
          Settlement(sys.core.ledger.tokens[id].ticket, id) !in sys.history.answered)
  }

  lemma UnansweredStep(lim: Limits, sys: System, a: Action)
    requires Unanswered(sys) && WorksOk(lim, sys) && JobsOk(sys) && sys.core.nextTicket > 0
    ensures Unanswered(Step(lim, sys, a))
  {
    hide Step, Effect, WorksOk, JobsOk, Unanswered;
    var e := StepEffect(lim, sys, a);
    UnansweredBy(lim, sys, Step(lim, sys, a), e);
  }

  lemma UnansweredBy(lim: Limits, sys: System, r: System, e: Event)
    requires Unanswered(sys) && WorksOk(lim, sys) && JobsOk(sys) && sys.core.nextTicket > 0 && Effect(lim, sys, r, e)
    ensures Unanswered(r)
  {
    hide Finishes, NoNewWork, EntryFor, PcOk, ReaderFaithful, EntryOk, TokenNumbered, JobsFresh;
    if e.Retains? && e.ticket > 0 {
      var w :| 0 <= w < |sys.workers| && CommitsWith(sys.workers[w], e.job, e.frame, e.ranOn)
          && e.ticket == e.job.ticket;
      assert HasJob(sys.workers[w]) && ReservedOk(lim, sys.core, sys.workers[w].job);
    }
  }

  lemma {:induction false} UnansweredRun(lim: Limits, workers: nat, run: Run, n: nat)
    requires Reaches(lim, workers, run, n)
    ensures Unanswered(run.At(n))
  {
    hide Step, IsRun, Safe, WorksOk, Unanswered, JobsOk;
    FirstState(lim, workers, run);
    if n == 0 {
      NoneAnswered(workers);
    } else {
      UnansweredRun(lim, workers, run, n - 1);
      SafeRun(lim, workers, run, n - 1);
      WorksRun(lim, workers, run, n - 1);
      PairIsOk(lim, run.At(n - 1));
      TicketsBegun(lim, run.At(n - 1));
      NextState(lim, workers, run, n - 1);
      UnansweredStep(lim, run.At(n - 1), run.actions[n - 1]);
    }
  }

  lemma NoneAnswered(workers: nat)
    ensures Unanswered(Initial(workers))
  {
  }

  lemma TicketsBegun(lim: Limits, sys: System)
    requires Safe(lim, sys)
    ensures sys.core.nextTicket > 0
  {
    hide CountsOk, PairOk, AccountsOk, LifetimesOk, SpecsOk, JobsOk, Told;
  }

  /** An epilogue erases whatever token the id has, and does nothing else. */
  /** Only the token of this id goes. */
  predicate OnlyErased(sys: System, r: System, id: string) {
    && id !in r.core.ledger.tokens && r.history == sys.history && r.pair == sys.pair
    && r.core == sys.core.(ledger := r.core.ledger)
  }

  lemma EpilogueErases(lim: Limits, sys: System, a: Action, id: string)
    requires id in sys.core.ledger.tokens && Epilogue(sys, a, id)
    ensures OnlyErased(sys, Step(lim, sys, a), id)
  {
    hide MoveInbound, MoveApp, MoveRequest, MoveLife, MoveRegistration, MovePair, MoveWire,
      WorkerFrame, TakeJob, Triage, Validate, Announce, EndCall, Commit, ReadOpen, EnterOpen, EndOpen,
      SettleOpen;
  }

  lemma OnlyEpilogues(lim: Limits, sys: System, a: Action, id: string)
    requires id in sys.core.ledger.tokens && Working(sys) && !Epilogue(sys, a, id) && Working(Step(lim, sys, a))
    requires WorksOk(lim, sys) && PairOk(sys) && JobsOk(sys)
    ensures !TokenLost(sys, Step(lim, sys, a), id)
  {
    hide Step, WorksOk, PairOk, JobsOk, TokenLost, Effect, Sendable;
    if a.WorkerMove? {
      HandKeeps(lim, sys, a, id);
    } else {
      var e := StepEffect(lim, sys, a);
      TokensStay(lim, sys, Step(lim, sys, a), e);
      TokenThere(sys, Step(lim, sys, a), id);
    }
  }

  lemma TokenThere(sys: System, r: System, id: string)
    requires id in sys.core.ledger.tokens
    requires id in r.core.ledger.tokens && r.core.ledger.tokens[id] == sys.core.ledger.tokens[id]
    ensures !TokenLost(sys, r, id)
  {
  }

  lemma HandKeeps(lim: Limits, sys: System, a: Action, id: string)
    requires id in sys.core.ledger.tokens && a.WorkerMove? && !Epilogue(sys, a, id)
    requires WorksOk(lim, sys) && JobsOk(sys)
    ensures !TokenLost(sys, Step(lim, sys, a), id)
  {
    hide MoveWorker, WorkerFrame, PcOk, ReservedOk, ReaderFaithful, EntryOk, JobsFresh, TokenNumbered, MoveInbound,
      MoveApp, MoveRequest, MoveLife, MoveRegistration, MovePair, MoveWire;
    if a.worker < |sys.workers| {
      assert PcOk(sys.workers[a.worker]);
      WorkerHand(lim, sys, a.worker, a.input);
    }
  }

  /** In every reachable state: a step on a pair that keeps working loses the token of an id, without the
      job being answered, if and only if it is the epilogue of a worker that is done with a job of that id. */
  lemma TokenLostExactly(lim: Limits, workers: nat, run: Run, n: nat, id: string)
    requires Reaches(lim, workers, run, n + 1) && Working(run.At(n)) && Working(run.At(n + 1))
    requires id in run.At(n).core.ledger.tokens
    ensures TokenLost(run.At(n), run.At(n + 1), id) <==> Epilogue(run.At(n), run.actions[n], id)
    ensures TokenLost(run.At(n), run.At(n + 1), id) ==>
              && run.At(n + 1).history == run.At(n).history
              && run.At(n + 1).core.dispatch == run.At(n).core.dispatch
  {
    hide Step, IsRun, Safe, WorksOk, JobsOk, PairOk, Working;
    SafeRun(lim, workers, run, n);
    WorksRun(lim, workers, run, n);
    UnansweredRun(lim, workers, run, n);
    PairIsOk(lim, run.At(n));
    NextState(lim, workers, run, n);
    if Epilogue(run.At(n), run.actions[n], id) {
      EpilogueErases(lim, run.At(n), run.actions[n], id);
    } else {
      OnlyEpilogues(lim, run.At(n), run.actions[n], id);
    }
  }

  /** In a careful run no step of a working pair is an epilogue for an id that has a token. */
  lemma NoLateEpilogue(sys: System, a: Action, id: string)
    requires Guarded(sys) && id in sys.core.ledger.tokens
    ensures !Epilogue(sys, a, id)
  {
  }

  // Tokens over careful runs.

  /** What may have become of a token, as long as its pair keeps working. */
  predicate Traced(start: System, end: System, id: string) {
    && |start.history.epochs| <= |end.history.epochs|
    && (Working(end) && |end.history.epochs| == |start.history.epochs| ==> !TokenLost(start, end, id))
  }

  lemma TracedStep(lim: Limits, start: System, sys: System, a: Action, id: string)
    requires id in start.core.ledger.tokens && Traced(start, sys, id) && (Working(sys) ==> Guarded(sys))
    requires WorksOk(lim, sys) && PairOk(sys) && JobsOk(sys)
    ensures Traced(start, Step(lim, sys, a), id)
  {
    hide Step, Guarded, Working, WorksOk, PairOk, JobsOk;
    EpochsGrow(lim, sys, a);
    AnsweredGrows(lim, sys, a);
    var r := Step(lim, sys, a);
    if Working(r) && |r.history.epochs| == |sys.history.epochs| {
      if !Working(sys) {
        Reopens(lim, sys, a);
      } else if id in sys.core.ledger.tokens {
        NoLateEpilogue(sys, a, id);
        OnlyEpilogues(lim, sys, a, id);
      }
    }
  }

  lemma {:induction false} TokenTraced(lim: Limits, workers: nat, run: Run, n: nat, m: nat, id: string)
    requires Reaches(lim, workers, run, m) && CarefulTo(lim, run, m) && n <= m && id in run.At(n).core.ledger.tokens
    ensures Traced(run.At(n), run.At(m), id)
  {
    hide Step, IsRun, Traced, Working, WorksOk, Safe, Guarded, PairOk, JobsOk, Careful;
    if n == m {
      TracedAtFirst(run.At(n), id);
    } else {
      TokenTraced(lim, workers, run, n, m - 1, id);
      SafeRun(lim, workers, run, m - 1);
      WorksRun(lim, workers, run, m - 1);
      GuardedRun(lim, workers, run, m - 1);
      PairIsOk(lim, run.At(m - 1));
      NextState(lim, workers, run, m - 1);
      TracedStep(lim, run.At(n), run.At(m - 1), run.actions[m - 1], id);
    }
  }

  lemma TracedAtFirst(sys: System, id: string)
    requires id in sys.core.ledger.tokens
    ensures Traced(sys, sys, id)
  {
  }

  lemma AttendedNow(sys: System, id: string)
    requires Guarded(sys)
    ensures id in sys.core.ledger.tokens ==> Attended(sys, id)
  {
    hide Attended, Owns, Done;
  }

  /** As long as the pair keeps working, the token is there, attended by its own job, or the terminal of that
      job was retained and then perhaps acknowledged. */
  ghost predicate TokenHeld(start: System, end: System, id: string) {
    && id in start.core.ledger.tokens
    && var token := start.core.ledger.tokens[id];
    Working(end) && |end.history.epochs| == |start.history.epochs| ==>
      || (id in end.core.ledger.tokens && end.core.ledger.tokens[id] == token && Attended(end, id))
      || (Settlement(token.ticket, id) in end.history.answered && Answered(end, id))
  }

  /** In a careful run the token of admitted Work stays, attended by its own job, as long as the pair keeps
      working, or the job's terminal was retained and then perhaps acknowledged. */
  lemma TokenKept(lim: Limits, workers: nat, run: Run, n: nat, m: nat, id: string)
    requires Reaches(lim, workers, run, m) && CarefulTo(lim, run, m) && n <= m
    requires Working(run.At(n)) && id in run.At(n).core.ledger.tokens
    ensures TokenHeld(run.At(n), run.At(m), id)
  {
    hide IsRun, Guarded, Answered, Attended, Working, Careful;
    GuardedRun(lim, workers, run, m);
    RecordsRun(lim, workers, run, m);
    TokenTraced(lim, workers, run, n, m, id);
    if Working(run.At(m)) {
      AttendedNow(run.At(m), id);
      OpenRecords(run.At(m));
    }
  }

  lemma OpenRecords(sys: System)
    requires RecordsOk(sys) && Working(sys)
    ensures forall s :: s in sys.history.answered ==> Answered(sys, s.workId)
  {
    hide Answered;
  }

  // The condition is exact.

  /** A step that hands out a token changes neither the workers nor the link. */
  lemma AcceptsQuietly(lim: Limits, sys: System, a: Action, id: string)
    requires Accepts(sys, Step(lim, sys, a), id)
    ensures var r := Step(lim, sys, a);
            r.workers == sys.workers && (Working(sys) ==> Working(r)) && a.Inbound? && id !in sys.core.ledger.replay
            && Requests(a, id)
  {
    hide MoveInbound, MoveWorker, MoveApp, MoveRequest, MoveLife, MoveRegistration, MovePair, MoveWire, Presents,
      Finishes, NoNewWork, EntryFor, Working;
    var e := StepEffect(lim, sys, a);
    Bystanders(lim, sys, a);
    RequestsQuietly(lim, sys, a);
  }

  lemma RequestsQuietly(lim: Limits, sys: System, a: Action)
    requires AsksForWork(a)
    ensures var r := MoveInbound(lim, sys, a);
            r.core.ledger.tokens != sys.core.ledger.tokens && Working(sys) ==> Working(r)
  {
    hide EnqueueDispatch, ReaderFrame, Tickets;
  }

  /** Every working state of a run is guarded, each job with its own token and each token with its job, if
      and only if the run is careful. */
  lemma {:induction false} CustodyExact(lim: Limits, workers: nat, run: Run, n: nat)
    requires Reaches(lim, workers, run, n)
    ensures (forall k: nat {:trigger run.At(k)} :: k <= n && Working(run.At(k)) ==> Guarded(run.At(k)))
        <==> CarefulTo(lim, run, n)
  {
    hide Step, IsRun, Guarded, Careful, Working;
    if CarefulTo(lim, run, n) {
      forall k | 0 <= k <= n && Working(run.At(k)) ensures Guarded(run.At(k)) {
        CarefulBefore(lim, run, k, n);
        GuardedRun(lim, workers, run, k);
      }
    }
    if forall k: nat {:trigger run.At(k)} :: k <= n && Working(run.At(k)) ==> Guarded(run.At(k)) {
      forall k | 0 <= k < |run.actions| && k < n && Working(run.At(k))
        ensures Careful(lim, run.At(k), run.actions[k])
      {
        NextState(lim, workers, run, k);
        GuardedIsCareful(lim, run.At(k), run.actions[k]);
      }
    }
  }

  lemma CarefulBefore(lim: Limits, run: Run, k: nat, n: nat)
    requires k <= n && CarefulTo(lim, run, n)
    ensures CarefulTo(lim, run, k)
  {
    hide Careful, Working;
  }

  lemma GuardedIsCareful(lim: Limits, sys: System, a: Action)
    requires Working(sys) && (Working(Step(lim, sys, a)) ==> Guarded(Step(lim, sys, a)))
    ensures Careful(lim, sys, a)
  {
    hide Step, Working, Careful;
    var r := Step(lim, sys, a);
    forall w | 0 <= w < |sys.workers| && Wrapping(sys.workers[w]) ensures !Accepts(sys, r, sys.workers[w].job.workId) {
      if Accepts(sys, r, sys.workers[w].job.workId) {
        AcceptsQuietly(lim, sys, a, sys.workers[w].job.workId);
      }
    }
    CarefulSpares(lim, sys, a);
  }

  // Honest Hosts.

  /** The Host does not request Work under an id it has acknowledged. */
  ghost predicate HonestTo(run: Run, n: nat) {
    forall k {:trigger run.actions[k]} :: 0 <= k < |run.actions| && k < n ==>
      Honest(run.At(k), run.actions[k])
  }

  predicate Honest(sys: System, a: Action) {
    AsksForWork(a) ==> a.frame.job.workId !in sys.history.released
  }

  /** Such a Host makes careful runs. */
  lemma {:induction false} HonestIsCareful(lim: Limits, workers: nat, run: Run, n: nat)
    requires Reaches(lim, workers, run, n) && HonestTo(run, n)
    ensures CarefulTo(lim, run, n)
  {
    hide Step, IsRun, Guarded, Careful, Working;
    FirstState(lim, workers, run);
    if n > 0 {
      NextState(lim, workers, run, n - 1);
      HonestIsCareful(lim, workers, run, n - 1);
      GuardedRun(lim, workers, run, n - 1);
      if Working(run.At(n - 1)) {
        HonestStep(lim, run.At(n - 1), run.actions[n - 1]);
      }
    }
  }

  lemma HonestStep(lim: Limits, sys: System, a: Action)
    requires Guarded(sys) && Honest(sys, a)
    ensures Careful(lim, sys, a)
  {
    hide Step, Attended, Owns, Careful;
    var r := Step(lim, sys, a);
    forall w | 0 <= w < |sys.workers| && Wrapping(sys.workers[w]) ensures !Accepts(sys, r, sys.workers[w].job.workId) {
      if Accepts(sys, r, sys.workers[w].job.workId) {
        AcceptsQuietly(lim, sys, a, sys.workers[w].job.workId);
      }
    }
    CarefulSpares(lim, sys, a);
  }

  /** For a Host that does not use an acknowledged id again, no token is ever lost on a working pair. */
  lemma NothingDisappears(lim: Limits, workers: nat, run: Run, n: nat, m: nat, id: string)
    requires Reaches(lim, workers, run, m) && HonestTo(run, m) && n <= m
    requires Working(run.At(n)) && id in run.At(n).core.ledger.tokens
    ensures TokenHeld(run.At(n), run.At(m), id)
  {
    hide IsRun, TokenHeld, Careful;
    HonestIsCareful(lim, workers, run, m);
    TokenKept(lim, workers, run, n, m, id);
  }
}
