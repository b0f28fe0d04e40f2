/** Runs that show the conditions of `Keeping` and `Identities` are met by no means always: each is a list of
    actions a Host, the threads and the application can take. */
module Witnesses {
  import opened Base
  import opened Protocol
  import opened Complaints
  import opened Results
  import opened Core
  import opened Machine
  import opened Custody
  import opened Keeping
  import opened Identities
  import Digest

  // A small client: one dispatch worker and a spec without capabilities.

  const SPEC := Spec(1, "s", [], 0)
  const LIM := Limits(4, 100000, 4, 100000, 8, 100000, 4, 8, 100000, 1000, 10, frame => DigestOf(frame), SPEC, 1,
      250, 1000)

  function CoreAt(phase: Phase, accepting: bool, current: Option<Spec>, attach: bool): State {
    State(Link(true, false, false, false, accepting, phase, 1, attach, if attach then 1 else 0, false),
          Ledger(map[], map[], 0), Outbox([], 0, [], []), [], 0, Sources(map[], map[], 0),
          current, SPEC, map[], {}, 1)
  }

  function HistoryAt(trace: seq<Callback>, committed: seq<Spec>): History {
    NO_HISTORY.(trace := trace, committed := committed, epochs := [1], registrations := 1)
  }

  /** An open pair whose one worker stands at `pc`. */
  function OpenAt(core: State, pc: Worker, reader: Reader, life: Lifecycle, wire: Transport, history: History): System {
    System(core, 0, if pc.Idle? then 0 else 1, [pc], reader, life, Open, Supervisor(true, 0, 250, false, false),
        wire, history)
  }

  function LifeAt(core: State, life: Lifecycle, trace: seq<Callback>, committed: seq<Spec>): System {
    OpenAt(core, Idle, Listening, life, NEW_TRANSPORT, HistoryAt(trace, committed))
  }

  const REGISTERED := CoreAt(Registered, false, None, false)
  const APPLYING := CoreAt(ApplyingSpec, false, None, false)
  const COMMITTED := CoreAt(ApplyingSpec, false, Some(SPEC), false)
  const PUBLISHED := CoreAt(Phase.Ready, true, Some(SPEC), false)
  const CALLS := [ApplySpec, CommitSpec]

  // Registration and the first pair.

  function Attempting(): System {
    Initial(WORKERS).(pair := Registering, sup := Supervisor(true, 0, 0, false, false),
        history := NO_HISTORY.(registrations := 1))
  }

  function AtPair(pair: Pair): System {
    Initial(WORKERS).(pair := pair, sup := Supervisor(true, 0, 250, false, false),
        core := InstallSession(LIM, Initial(WORKERS).core),
                history := NO_HISTORY.(registrations := 1))
  }

  lemma Registers()
    ensures MoveRegistration(LIM, Initial(WORKERS), Register) == Attempting()
    ensures MoveRegistration(LIM, Attempting(), FinishRegister(true)) == AtPair(Armed)
  {
    hide DigestOf, InstallSession;
    Installed();
  }

  lemma Installed()
    ensures InstallSession(LIM, Initial(WORKERS).core) == REGISTERED
    ensures Negotiated(LIM)
  {
    hide DigestOf;
  }

  lemma Prepares()
    ensures MovePair(LIM, AtPair(Armed), CheckStop) == AtPair(Preparing)
    ensures MovePair(LIM, AtPair(Preparing), Prepare) == LifeAt(REGISTERED, Resting, [], [])
  {
    hide DigestOf, InstallSession, JudgePair;
    Installed();
    EmptyTotal(REGISTERED.ledger.tokens, ReservedBytes);
    assert Initial(WORKERS).workers == [Idle];
  }

  // The first transaction.

  lemma Begins()
    ensures MoveRequest(LifeAt(REGISTERED, Resting, [], []), BeginApply(SPEC))
         == LifeAt(APPLYING, Quiescing(SPEC), [], [])
  {
    hide DigestOf;
  }

  lemma Waits()
    ensures MoveLife(LifeAt(APPLYING, Quiescing(SPEC), [], []), true, []) == LifeAt(APPLYING, Checking(SPEC), [], [])
    ensures MoveLife(LifeAt(APPLYING, Checking(SPEC), [], []), true, [])
         == LifeAt(APPLYING, Clearing(ThenApply(SPEC)), [], [])
    ensures MoveLife(LifeAt(APPLYING, Clearing(ThenApply(SPEC)), [], []), true, [])
         == LifeAt(APPLYING, Awaiting([], false, ThenApply(SPEC)), [], [])
    ensures MoveLife(LifeAt(APPLYING, Awaiting([], false, ThenApply(SPEC)), [], []), true, [])
         == LifeAt(APPLYING, Halting([], false, ThenApply(SPEC)), [], [])
    ensures MoveLife(LifeAt(APPLYING, Halting([], false, ThenApply(SPEC)), [], []), true, [])
         == LifeAt(APPLYING, Applying(SPEC), [], [])
  {
    hide DigestOf, StopTaking, MoveStartup, MoveCommit, LifeFrame;
    NothingActive(LifeAt(APPLYING, Clearing(ThenApply(SPEC)), [], []));
  }

  lemma NothingActive(sys: System)
    requires sys == LifeAt(APPLYING, Clearing(ThenApply(SPEC)), [], [])
    ensures StopTaking(sys, ThenApply(SPEC), []) == LifeAt(APPLYING, Awaiting([], false, ThenApply(SPEC)), [], [])
  {
    hide DigestOf;
    assert Enumerates([], sys.core.active);
    assert Bindings([], sys.core.active) == [];
    assert Tickets(sys.core) == {} && LiveTickets(sys.core) == {};
    assert sys.history.pending + multiset(LiveTickets(sys.core)) == sys.history.pending;
    assert Deactivate(sys.core) == sys.core;
  }

  lemma Starts()
    ensures MoveLife(LifeAt(APPLYING, Applying(SPEC), [], []), true, [])
         == LifeAt(APPLYING, Starting(SPEC, 0), [ApplySpec], [])
    ensures MoveLife(LifeAt(APPLYING, Starting(SPEC, 0), [ApplySpec], []), true, [])
         == LifeAt(APPLYING, Settling(SPEC), [ApplySpec], [])
  {
    hide DigestOf, MoveDeactivation, MoveCommit, LifeFrame;
  }

  lemma Commits()
    ensures MoveLife(LifeAt(APPLYING, Settling(SPEC), [ApplySpec], []), true, [])
         == LifeAt(COMMITTED, Readying(SPEC, 0), CALLS, [SPEC])
    ensures MoveLife(LifeAt(COMMITTED, Readying(SPEC, 0), CALLS, [SPEC]), true, [])
         == LifeAt(COMMITTED, Publishing(SPEC), CALLS, [SPEC])
  {
    hide DigestOf, MoveDeactivation, MoveStartup, LifeFrame;
  }

  lemma Publishes()
    ensures MoveLife(LifeAt(COMMITTED, Publishing(SPEC), CALLS, [SPEC]), true, [])
         == LifeAt(PUBLISHED, Reporting(Applied(SPEC)), CALLS, [SPEC])
    ensures MoveLife(LifeAt(PUBLISHED, Reporting(Applied(SPEC)), CALLS, [SPEC]), true, []) == WireAt(PUBLISHED, QUEUED)
  {
    hide DigestOf, MoveDeactivation, MoveStartup, LifeFrame;
  }

  // The result is written, and Work is opened.

  const RESULT := SpecResult(Applied(SPEC))
  const ATTACHED := CoreAt(Phase.Ready, true, Some(SPEC), true)

  function WireAt(core: State, wire: Transport): System {
    OpenAt(core, Idle, Listening, Resting, wire, HistoryAt(CALLS, [SPEC]))
  }

  const QUEUED := NEW_TRANSPORT.(control := [RESULT])
  const WRITING := NEW_TRANSPORT.(ctl := CtlWriting(RESULT), controlOut := 1)
  const REPORTED := NEW_TRANSPORT.(ctl := CtlGate, controlOut := 1, reported := Some(SPEC))
  const GATED := NEW_TRANSPORT.(ctl := CtlWaiting, controlOut := 1, reported := Some(SPEC))
  const WORKING := GATED.(workOpen := true, writer := Opening)

  lemma Writes()
    ensures MoveWire(LIM, WireAt(PUBLISHED, QUEUED), CtlTake) == WireAt(PUBLISHED, WRITING)
    ensures MoveWire(LIM, WireAt(PUBLISHED, WRITING), CtlWrite(true)) == WireAt(PUBLISHED, REPORTED)
  {
    hide DigestOf, MoveWriter, WireFrame;
  }

  lemma Opens()
    ensures MoveWire(LIM, WireAt(PUBLISHED, REPORTED), CtlOpenGate) == WireAt(ATTACHED, GATED)
    ensures MoveWire(LIM, WireAt(ATTACHED, GATED), OpenWork) == WireAt(ATTACHED, WORKING)
  {
    hide DigestOf, MoveWriter, WireFrame;
  }

  // Reachable states.

  const WORKERS: nat := 1
  const MOVE_LIFE := LifeMove(true, [])

  ghost predicate Reachable(sys: System) {
    exists run: Run, n: nat :: Reaches(LIM, WORKERS, run, n) && run.At(n) == sys
  }

  lemma StartReachable()
    ensures Reachable(Initial(WORKERS))
  {
    hide Step;
    var run := EveryListRuns(LIM, WORKERS, []);
    assert Reaches(LIM, WORKERS, run, 0) && run.At(0) == Initial(WORKERS);
  }

  /** A run to this state goes on with any action. */
  lemma GoesOn(sys: System, a: Action) returns (run: Run, n: nat)
    requires Reachable(sys)
    ensures Reaches(LIM, WORKERS, run, n + 1) && n < |run.actions| && run.actions[n] == a
    ensures run.At(n) == sys && run.At(n + 1) == Step(LIM, sys, a)
  {
    hide Step;
    var before: Run, m: nat :| Reaches(LIM, WORKERS, before, m) && before.At(m) == sys;
    n := m;
    run := Run(before.states[..n + 1] + [Step(LIM, sys, a)], before.actions[..n] + [a]);
    forall k | 0 <= k < |run.actions| ensures run.At(k + 1) == Step(LIM, run.At(k), run.actions[k]) {
      if k < n {
        NextState(LIM, WORKERS, before, k);
      }
    }
  }

  lemma Extend(s: System, a: Action)
    requires Reachable(s)
    ensures OfReader(a) ==> Reachable(MoveInbound(LIM, s, a))
    ensures a.WorkerMove? ==> Reachable(MoveWorker(LIM, s, a.worker, a.input))
    ensures a.LifeMove? ==> Reachable(MoveLife(s, a.ok, a.order))
    ensures OfRegistration(a) ==> Reachable(MoveRegistration(LIM, s, a))
    ensures OfPair(a) ==> Reachable(MovePair(LIM, s, a))
    ensures OfWire(a) ==> Reachable(MoveWire(LIM, s, a))
    ensures OfRequest(a) ==> Reachable(MoveRequest(s, a))
  {
    hide MoveInbound, MoveWorker, MoveApp, MoveRequest, MoveLife, MoveRegistration, MovePair, MoveWire, IsRun,
      ReaderFrame, WorkerFrame, LifeFrame, PairFrame, WireFrame, RequestFrame, AppFrame, SameSpec, SamePair, LiveKept;
    var run, n := GoesOn(s, a);
    assert Reaches(LIM, WORKERS, run, n + 1) && run.At(n + 1) == Step(LIM, s, a);
  }

  lemma WorkReachable()
    ensures Reachable(WireAt(ATTACHED, WORKING))
  {
    hide MoveInbound, MoveWorker, MoveApp, MoveRequest, MoveLife, MoveRegistration, MovePair, MoveWire, Reachable,
      LifeAt, WireAt;
    StartReachable();
    Registers();
    Prepares();
    Extend(Initial(WORKERS), Register);
    Extend(Attempting(), FinishRegister(true));
    Extend(AtPair(Armed), CheckStop);
    Extend(AtPair(Preparing), Prepare);
    Begins();
    Waits();
    Extend(LifeAt(REGISTERED, Resting, [], []), BeginApply(SPEC));
    Extend(LifeAt(APPLYING, Quiescing(SPEC), [], []), MOVE_LIFE);
    Extend(LifeAt(APPLYING, Checking(SPEC), [], []), MOVE_LIFE);
    Extend(LifeAt(APPLYING, Clearing(ThenApply(SPEC)), [], []), MOVE_LIFE);
    Extend(LifeAt(APPLYING, Awaiting([], false, ThenApply(SPEC)), [], []), MOVE_LIFE);
    Extend(LifeAt(APPLYING, Halting([], false, ThenApply(SPEC)), [], []), MOVE_LIFE);
    Starts();
    Commits();
    Publishes();
    Extend(LifeAt(APPLYING, Applying(SPEC), [], []), MOVE_LIFE);
    Extend(LifeAt(APPLYING, Starting(SPEC, 0), [ApplySpec], []), MOVE_LIFE);
    Extend(LifeAt(APPLYING, Settling(SPEC), [ApplySpec], []), MOVE_LIFE);
    Extend(LifeAt(COMMITTED, Readying(SPEC, 0), CALLS, [SPEC]), MOVE_LIFE);
    Extend(LifeAt(COMMITTED, Publishing(SPEC), CALLS, [SPEC]), MOVE_LIFE);
    Extend(LifeAt(PUBLISHED, Reporting(Applied(SPEC)), CALLS, [SPEC]), MOVE_LIFE);
    Writes();
    Opens();
    Extend(WireAt(PUBLISHED, QUEUED), CtlTake);
    Extend(WireAt(PUBLISHED, WRITING), CtlWrite(true));
    Extend(WireAt(PUBLISHED, REPORTED), CtlOpenGate);
    Extend(WireAt(ATTACHED, GATED), OpenWork);
  }

  // The same id again before the old epilogue.

  const JOB := Job(Unary, "w", "f", Context("c", "e", "k", 1, false, false, true), 10, Credit(0, 0), 0, 0, 0)
  const FIRST: nat := 0
  const INPUT := WorkerInput(false, true, Threw(false), Threw(false), Threw(false), [], [])

  const WORK := WorkerMove(FIRST, INPUT)

  function Held(ticket: nat): Job { JOB.(ticket := ticket, reservation := 1072) }

  /** The core with the job of this ticket admitted. */
  function Admitting(core: State, ticket: nat): State {
    core.(ledger := Ledger(map["w" := Token(ticket, 1072)], map[], 1072),
          dispatch := [Held(ticket)], dispatchBytes := 10, nextTicket := ticket + 1)
  }

  function Request(sequence: nat): Action { Inbound(sequence, true, WorkRequest(JOB), false, []) }

  function Ask1(): Action { Request(1) }
  function Ask2(): Action { Request(2) }
  function Ask3(): Action { Request(3) }

  function Heard(sequence: nat, heard: seq<nat>): Transport { WORKING.(workIn := sequence, heard := heard) }

  function WorkAt(core: State, pc: Worker, reader: Reader, wire: Transport, history: History): System {
    OpenAt(core, pc, reader, Resting, wire, history)
  }

  const BUSY := Admitting(ATTACHED, 1)
  const TAKEN := BUSY.(dispatch := [], dispatchBytes := 0)
  const QUIET := HistoryAt(CALLS, [SPEC])
  function Refusal(): WorkFrame { WorkFrame(RejectedDispatch(Unary, "w", Explain(BadContext(NoContract))), []) }
  function Refused1(): Worker { Committing(Held(1), Refusal(), None, false, None) }

  function Busy(): System { WorkAt(BUSY, Idle, Listening, Heard(1, [1]), QUIET) }
  function Took(): System { WorkAt(TAKEN, Taken(Held(1)), Listening, Heard(1, [1]), QUIET) }
  function Checks(): System { WorkAt(TAKEN, Validating(Held(1)), Listening, Heard(1, [1]), QUIET) }
  function Refused(): System { WorkAt(TAKEN, Refused1(), Listening, Heard(1, [1]), QUIET) }

  lemma AdmitsJob()
    ensures MoveInbound(LIM, WireAt(ATTACHED, WORKING), Ask1()) == Busy()
  {
    hide DigestOf, Explain;
  }

  lemma TakesJob()
    ensures MoveWorker(LIM, Busy(), FIRST, INPUT) == Took() && MoveWorker(LIM, Took(), FIRST, INPUT) == Checks()
    ensures MoveWorker(LIM, Checks(), FIRST, INPUT) == Refused()
  {
    hide DigestOf, Explain, WorkerFrame;
  }

  function Text(): string { DigestOf(Refusal()) }
  function Kept1(): Entry { Entry(Unary, "f", Refusal(), Text(), 99) }

  /** The refusal is retained and queued. */
  function Retaining1(): State {
    TAKEN.(ledger := Ledger(map[], map["w" := Kept1()], 99),
           outbox := Outbox([Queued(Refusal(), 27)], 27, [], [Refusal()]))
  }

  function Answered1(): History {
    QUIET.(answeredBy := map["w" := None], answered := {Settlement(1, "w")})
  }

  function Retained(): System { WorkAt(Retaining1(), Erasing(Held(1)), Listening, Heard(1, [1]), Answered1()) }
  function Freed1(): State { Retaining1().(ledger := Ledger(map[], map[], 0)) }
  function Released1(): History { Answered1().(released := map["w" := [Text()]]) }
  function Again(): State { Admitting(Freed1(), 2) }

  lemma Measures(frame: WorkFrame)
    requires frame.wire == []
    ensures FramedBytes(10, 1, U64_MAX, frame) == 27
  {
    assert VarintLen(1) == 1 && VarintLen(0) == 1 && VarintLen(23) == 1;
    LargestVarint();
  }

  lemma LargestVarint()
    ensures VarintLen(U64_MAX) == 10
  {
    assert VarintLen(1) == 1;
    assert VarintLen(0xFF) == 2;
    assert VarintLen(0x7FFF) == 3;
    assert VarintLen(0x3F_FFFF) == 4;
    assert VarintLen(0x1FFF_FFFF) == 5;
    assert VarintLen(0xF_FFFF_FFFF) == 6;
    assert VarintLen(0x7FF_FFFF_FFFF) == 7;
    assert VarintLen(0x3_FFFF_FFFF_FFFF) == 8;
    assert VarintLen(0x1FF_FFFF_FFFF_FFFF) == 9;
  }

  lemma TerminalCommits()
    ensures CommitTerminal(LIM, TAKEN, Held(1), Refusal()) == (Retaining1(), Committed)
  {
    hide DigestOf, Explain, FramedBytes;
    Measures(Refusal());
    assert |Text()| == 71;
    assert EntryFor(LIM, TAKEN, Held(1), Refusal()) == Kept1();
    assert TAKEN.ledger.tokens - {"w"} == map[];
    assert Retain(LIM, TAKEN.ledger, "w", 1, Kept1()) == Some(Retaining1().ledger);
    assert [] + [Queued(Refusal(), 27)] == [Queued(Refusal(), 27)] && [] + [Refusal()] == [Refusal()];
  }

  lemma EndsJob()
    ensures MoveWorker(LIM, Refused(), FIRST, INPUT)
         == Retained()
  {
    hide DigestOf, Explain, WorkerFrame, CommitTerminal;
    TerminalCommits();
  }

  function Ack(): Action { Inbound(2, true, AckFrame(WorkId("w"), Text()), false, []) }

  lemma CanonicalDigest(frame: WorkFrame)
    ensures Digest.IsCanonicalSha256(DigestOf(frame))
  {
  }

  lemma Acknowledges()
    ensures MoveInbound(LIM, Retained(), Ack())
         == Acked()
  {
    hide DigestOf, Explain, AcknowledgeTerminal;
    AckFrees();
    assert [1] + [2] == [1, 2];
    assert Releases(Answered1(), "w") == [] && [] + [Text()] == [Text()];
    assert Freed(Answered1(), "w", Text()) == Released1();
  }

  lemma AckFrees()
    ensures AcknowledgeTerminal(Retaining1(), WorkId("w"), Text()) == (Freed1(), true)
  {
    hide DigestOf, Explain, Digest.IsCanonicalSha256;
    CanonicalDigest(Refusal());
    assert Retaining1().ledger.replay - {"w"} == map[];
  }

  function Acked(): System { WorkAt(Freed1(), Erasing(Held(1)), Listening, Heard(2, [1, 2]), Released1()) }

  function Stale(): System { WorkAt(Again(), Erasing(Held(1)), Listening, Heard(3, [1, 2, 3]), Released1()) }

  lemma AdmitsAgain()
    ensures MoveInbound(LIM, Acked(), Ask3()) == Stale()
  {
    hide DigestOf, Explain;
  }

  lemma StaleReachable()
    ensures Reachable(Stale())
  {
    hide MoveInbound, MoveWorker, MoveApp, MoveRequest, MoveLife, MoveRegistration, MovePair, MoveWire, Reachable,
      WireAt, Busy, Took, Checks, Refused, Retained, Acked, Stale, DigestOf, Text;
    WorkReachable();
    AdmitsJob();
    TakesJob();
    Extend(WireAt(ATTACHED, WORKING), Ask1());
    Extend(Busy(), WORK);
    Extend(Took(), WORK);
    Extend(Checks(), WORK);
    EndsJob();
    Acknowledges();
    AdmitsAgain();
    Extend(Refused(), WORK);
    Extend(Retained(), Ack());
    Extend(Acked(), Ask3());
  }

  lemma StaleLoses(r: System)
    requires r == MoveWorker(LIM, Stale(), FIRST, INPUT)
    ensures "w" in Stale().core.ledger.tokens && Working(Stale()) && Working(r)
    ensures TokenLost(Stale(), r, "w") && Held(2) in r.core.dispatch
  {
    hide DigestOf, Explain, WorkerFrame;
  }

  /** A token is lost on a working pair: the Host acknowledges a terminal and requests the same id again, and
      only then the worker of the first job erases the token, which by now is the second job's. */
  lemma TokenLostReached() returns (run: Run, n: nat)
    ensures Reaches(LIM, WORKERS, run, n + 1) && n < |run.actions| && Working(run.At(n)) && Working(run.At(n + 1))
    ensures "w" in run.At(n).core.ledger.tokens && TokenLost(run.At(n), run.At(n + 1), "w")
    ensures Here(run.At(n + 1), Held(2))
  {
    hide MoveInbound, MoveWorker, MoveApp, MoveRequest, MoveLife, MoveRegistration, MovePair, MoveWire, Reachable,
      Stale, TokenLost, Working;
    StaleReachable();
    run, n := GoesOn(Stale(), WORK);
    StaleLoses(run.At(n + 1));
  }

  // A refusal for Work that is outstanding.

  const DRAINING := BUSY.(link := BUSY.link.(phase := Draining, accepting := false))
  function NotReady(): WorkFrame { WorkFrame(RejectedDispatch(Unary, "w", Explain(NotReadyForWork)), []) }

  function Ending(): System { WorkAt(DRAINING, Idle, Listening, Heard(1, [1]), QUIET) }
  function Refusing(): System { WorkAt(DRAINING, Idle, Retaining(JOB, NotReady()), Heard(2, [1, 2]), QUIET) }

  lemma Drains()
    ensures MoveRequest(Busy(), Drain)
         == Ending()
    ensures MoveInbound(LIM, Ending(), Ask2())
         == Refusing()
  {
    hide DigestOf, Explain;
  }

  lemma RefusingReachable()
    ensures Reachable(Refusing())
  {
    hide MoveInbound, MoveWorker, MoveApp, MoveRequest, MoveLife, MoveRegistration, MovePair, MoveWire, Reachable,
      WireAt, Busy, Ending, Refusing;
    WorkReachable();
    AdmitsJob();
    Drains();
    Extend(WireAt(ATTACHED, WORKING), Ask1());
    Extend(Busy(), Drain);
    Extend(Ending(), Ask2());
  }

  lemma RefusalRetained(r: System)
    requires r == MoveInbound(LIM, Refusing(), ReaderMove)
    ensures Disjoint(Refusing().core) && "w" in r.core.ledger.tokens && "w" in r.core.ledger.replay && Working(r)
  {
    hide DigestOf, Explain, FramedBytes, ReaderFrame;
    Measures(NotReady());
    assert |DigestOf(NotReady())| == 71;
  }

  /** An id is outstanding and retained at once: the Host repeats a request while the client is draining, and
      the refusal becomes the terminal of the id. */
  lemma OutstandingAndRetained() returns (run: Run, n: nat)
    ensures Reaches(LIM, WORKERS, run, n + 1) && Disjoint(run.At(n).core) && Working(run.At(n + 1))
    ensures "w" in run.At(n + 1).core.ledger.tokens && "w" in run.At(n + 1).core.ledger.replay
  {
    hide MoveInbound, MoveWorker, MoveApp, MoveRequest, MoveLife, MoveRegistration, MovePair, MoveWire, Reachable,
      Refusing, Disjoint, Working;
    RefusingReachable();
    run, n := GoesOn(Refusing(), ReaderMove);
    RefusalRetained(run.At(n + 1));
  }

  // Work under the id of a closed source.

  const BAD_OPEN := JOB.(kind := SourceOpen, context := JOB.context.(capability := ""))
  function Turned(): WorkFrame { RefusalFrame("w", OpenBadIdentity, []) }

  lemma Turns(r: System)
    requires r == MoveInbound(LIM, WireAt(ATTACHED, WORKING), Inbound(1, true, OpenRequest(BAD_OPEN), false, []))
    ensures r.core.sources.live == map[] && r.core.sources.closed.Keys == {"w"} && r.core.ledger == ATTACHED.ledger
    ensures r.core.link == ATTACHED.link && r.core.dispatch == [] && r.core.dispatchBytes == 0
    ensures r.pair == Open && r.reader == Listening && r.wire == Heard(1, [1])
  {
    hide DigestOf, Explain, FramedBytes, ReaderFrame;
    Measures(Turned());
  }

  lemma Takes(s: System, r: System)
    requires s.core.sources.live == map[] && s.core.sources.closed.Keys == {"w"} && s.core.ledger == ATTACHED.ledger
    requires s.core.link == ATTACHED.link && s.core.dispatch == [] && s.core.dispatchBytes == 0
    requires s.pair == Open && s.reader == Listening && s.wire == Heard(1, [1]) && r == MoveInbound(LIM, s, Ask2())
    ensures Disjoint(s.core) && "w" in r.core.ledger.tokens && "w" in r.core.sources.closed && Working(r)
  {
    hide DigestOf, Explain, ReaderFrame;
  }

  /** An id names a closed source and outstanding Work at once: admission of Work does not look at the closed
      sources. */
  lemma OutstandingAndClosed() returns (run: Run, n: nat)
    ensures Reaches(LIM, WORKERS, run, n + 1) && Disjoint(run.At(n).core) && Working(run.At(n + 1))
    ensures "w" in run.At(n + 1).core.ledger.tokens && "w" in run.At(n + 1).core.sources.closed
  {
    hide MoveInbound, MoveWorker, MoveApp, MoveRequest, MoveLife, MoveRegistration, MovePair, MoveWire, Reachable,
      WireAt, Disjoint, Working;
    WorkReachable();
    var before, k := GoesOn(WireAt(ATTACHED, WORKING), Inbound(1, true, OpenRequest(BAD_OPEN), false, []));
    Turns(before.At(k + 1));
    Found(before, k + 1);
    run, n := GoesOn(before.At(k + 1), Ask2());
    Takes(run.At(n), run.At(n + 1));
  }

  lemma Found(run: Run, n: nat)
    requires Reaches(LIM, WORKERS, run, n)
    ensures Reachable(run.At(n))
  {
    hide Step, IsRun;
  }
}
