/** The in-flight counters, and which threads can run in which part of a pair's life. */
module Threads {
  import opened Base
  import opened Protocol
  import opened Core
  import opened Machine

  function One(b: bool): nat { if b then 1 else 0 }

  function Count(workers: seq<Worker>, p: Worker -> bool): nat {
    if |workers| == 0 then 0 else Count(workers[..|workers| - 1], p) + One(p(workers[|workers| - 1]))
  }

  lemma {:induction false} CountUpdate(workers: seq<Worker>, i: nat, w: Worker, p: Worker -> bool)
    requires i < |workers|
    ensures Count(workers[i := w], p) + One(p(workers[i])) == Count(workers, p) + One(p(w))
  {
    var last := |workers| - 1;
    if i == last {
      assert workers[i := w][..last] == workers[..last];
    } else {
      assert workers[i := w][..last] == workers[..last][i := w];
      CountUpdate(workers[..last], i, w, p);
    }
  }

  lemma {:induction false} CountZero(workers: seq<Worker>, i: nat, p: Worker -> bool)
    requires i < |workers| && Count(workers, p) == 0
    ensures !p(workers[i])
  {
    if i != |workers| - 1 {
      CountZero(workers[..|workers| - 1], i, p);
    }
  }

  /** The client's two counters are the numbers of workers they are meant to count. */
  predicate CountsOk(sys: System) {
    sys.inFlight == Count(sys.workers, IsCounted) && sys.busy == Count(sys.workers, IsBusy)
  }

  predicate AllIdle(workers: seq<Worker>) {
    forall i :: 0 <= i < |workers| ==> workers[i].Idle?
  }

  /** The pair's tables were cleared, or there never was one. */
  predicate Between(pair: Pair) {
    !pair.Open? && !pair.Retiring? && !pair.Quiesced? && !pair.Released?
  }

  /** Between pairs no reader runs, no source is live and no Work is accepted; from the wait on
      the callbacks until the next pair is prepared, no job exists either. */
  ghost predicate PairOk(sys: System) {
    AtRest(sys.pair, sys.core, sys.reader, sys.workers) && LifeFits(sys.pair, sys.life)
  }

  ghost predicate AtRest(pair: Pair, core: State, reader: Reader, workers: seq<Worker>) {
    && (pair != Open ==> reader == Listening && NoneLive(core) && core.dispatch == [] && !core.link.accepting)
    && (pair != Open && pair != Retiring ==> AllIdle(workers))
    && (Between(pair) ==> core.outbox.queue == [] && core.outbox.taken == [])
    && (core.link.accepting ==> Sendable(core))
    && (Supervised(pair) ==> core.link.session)
  }

  /** The supervisor's loop is running. */
  predicate Supervised(pair: Pair) {
    !pair.Unregistered? && !pair.Registering? && !pair.Losing? && !pair.Breaking? && !pair.Over?
  }

  predicate LifeFits(pair: Pair, life: Lifecycle) {
    if pair == Open then LifeOnPair(life)
    else life == Resting || ((pair == Losing || pair == Breaking) && LifeTeardown(life))
  }

  /** Flags alone may change anywhere, but Work is newly accepted only on an open pair. */
  lemma FlagsAtRest(pair: Pair, s: State, t: State, reader: Reader, workers: seq<Worker>)
    requires AtRest(pair, s, reader, workers)
    requires t.sources.live == s.sources.live || t.sources.live == map[]
    requires t.dispatch == s.dispatch && t.outbox == s.outbox && t.link.session == s.link.session
    requires t.link.accepting ==>
               (s.link.accepting && (Sendable(s) ==> Sendable(t))) || (pair == Open && Sendable(t))
    ensures AtRest(pair, t, reader, workers)
  {
    hide Sendable, AllIdle, Supervised;
  }

  ghost predicate NoneLive(core: State) {
    forall id :: id !in core.sources.live
  }

  predicate Tears(next: Next) { next.ThenLost? || next.ThenReset? }

  predicate LifeTeardown(life: Lifecycle) {
    || (life.Clearing? && Tears(life.next)) || (life.Awaiting? && Tears(life.next)) || (life.Halting?
        && Tears(life.next))
  }

  predicate LifeOnPair(life: Lifecycle) {
    && (life.Clearing? ==> !Tears(life.next)) && (life.Awaiting? ==> !Tears(life.next))
    && (life.Halting? ==> !Tears(life.next))
  }

  lemma CountsStep(lim: Limits, sys: System, a: Action)
    requires CountsOk(sys)
    ensures CountsOk(Step(lim, sys, a))
  {
    hide MoveInbound, MoveWorker, MoveApp, MoveRequest, MoveLife, MoveRegistration, MovePair, MoveWire, Count,
      Granted;
    if a.WorkerMove? && a.worker < |sys.workers| {
      var after := MoveWorker(lim, sys, a.worker, a.input);
      var pc, next := sys.workers[a.worker], after.workers[a.worker];
      CountUpdate(sys.workers, a.worker, next, IsCounted);
      CountUpdate(sys.workers, a.worker, next, IsBusy);
      CountPositive(sys.workers, a.worker, IsCounted);
      CountPositive(sys.workers, a.worker, IsBusy);
    }
  }

  lemma CountPositive(workers: seq<Worker>, i: nat, p: Worker -> bool)
    requires i < |workers|
    ensures p(workers[i]) ==> Count(workers, p) > 0
  {
    if Count(workers, p) == 0 {
      CountZero(workers, i, p);
    }
  }

  lemma QuietMeansIdle(sys: System)
    requires CountsOk(sys) && Quiet(sys)
    ensures AllIdle(sys.workers)
  {
    forall i | 0 <= i < |sys.workers| ensures sys.workers[i].Idle? {
      CountZero(sys.workers, i, IsBusy);
    }
  }

  lemma PairStep(lim: Limits, sys: System, a: Action)
    requires CountsOk(sys) && PairOk(sys)
    ensures PairOk(Step(lim, sys, a))
  {
    hide MoveInbound, MoveWorker, MoveApp, BeginSpec, BeginTeardown, SetFlags, MoveLife, MoveRegistration, MovePair,
      MoveWire, CountsOk, Granted, PairOk, ReaderFrame, WorkerFrame, LifeFrame, PairFrame, WireFrame, SamePair,
      SameSpec, LiveKept, RequestFrame, AppFrame;
    if OfReader(a) || OfApp(a) || a.WorkerMove? {
      PairTables(lim, sys, a);
    } else if a.Notify? || a.Teardown? {
      PairTeardown(sys, a);
    } else if a.LifeMove? {
      PairLife(sys, a.ok, a.order);
    } else if a.BeginApply? {
      PairBegin(sys, a.spec);
    } else if OfRegistration(a) {
      PairRegistration(lim, sys, a);
    } else if OfPair(a) {
      PairPair(lim, sys, a);
    } else if OfWire(a) {
      PairWire(lim, sys, a);
    } else {
      PairFlags(sys, a);
    }
  }

  lemma PairTables(lim: Limits, sys: System, a: Action)
    requires PairOk(sys)
    requires OfReader(a) || a.WorkerMove? || OfApp(a)
    ensures PairOk(Step(lim, sys, a))
  {
    hide Receive, MoveReader, MoveWorker, AppPublish, AppClose, MoveRequest, MoveLife, MoveRegistration, MovePair,
      MoveWire, Granted, LifeFits;
  }

  lemma PairTeardown(sys: System, a: Action)
    requires PairOk(sys) && (a.Notify? || a.Teardown?)
    ensures PairOk(MoveRequest(sys, a))
  {
    hide AtRest;
  }

  lemma PairFlags(sys: System, a: Action)
    requires PairOk(sys)
    ensures PairOk(sys.(core := SetFlags(sys.core, sys.pair, a)))
  {
    hide AtRest, LifeFits;
    FlagsAtRest(sys.pair, sys.core, SetFlags(sys.core, sys.pair, a), sys.reader, sys.workers);
  }

  lemma PairBegin(sys: System, spec: Spec)
    requires PairOk(sys)
    ensures PairOk(BeginSpec(sys, spec))
  {
    hide ValidSpec, Tickets, AtRest;
    FlagsAtRest(sys.pair, sys.core, BeginSpec(sys, spec).core, sys.reader, sys.workers);
  }

  lemma PairRegistration(lim: Limits, sys: System, a: Action)
    requires PairOk(sys)
    ensures PairOk(MoveRegistration(lim, sys, a))
  {
    hide Negotiated, AllIdle;
  }

  lemma PairPair(lim: Limits, sys: System, a: Action)
    requires CountsOk(sys) && PairOk(sys)
    ensures PairOk(MovePair(lim, sys, a))
  {
    hide Tickets, LiveTickets, ReleaseAllTokens, CountsOk, JudgePair, AllIdle, PairFrame, Quiet, Joined,
      ClearConnection, PreparePair, AtRest;
    if a.Quiesce? {
      PairQuiesce(lim, sys);
    } else if a.Judge? {
      if sys.pair == Judging { PairJudge(lim, sys); }
    } else if a.CheckStop? || a.JoinAll? || a.Release? {
      PairPasses(lim, sys, a);
    } else {
      PairClears(lim, sys, a);
    }
  }

  lemma PairQuiesce(lim: Limits, sys: System)
    requires CountsOk(sys) && PairOk(sys)
    ensures PairOk(MovePair(lim, sys, Quiesce))
  {
    hide CountsOk, JudgePair, AllIdle, PairFrame, Tickets;
    if Quiet(sys) {
      QuietMeansIdle(sys);
    }
  }

  lemma PairPasses(lim: Limits, sys: System, a: Action)
    requires PairOk(sys) && (a.CheckStop? || a.JoinAll? || a.Release?)
    ensures PairOk(MovePair(lim, sys, a))
  {
    hide ReleaseAllTokens, JudgePair, AllIdle, PairFrame, Tickets;
  }

  lemma PairClears(lim: Limits, sys: System, a: Action)
    requires PairOk(sys) && !a.Quiesce? && !a.Judge? && !a.CheckStop? && !a.JoinAll? && !a.Release?
    ensures PairOk(MovePair(lim, sys, a))
  {
    hide Tickets, LiveTickets, ReleaseAllTokens, JudgePair, AllIdle, PairFrame;
  }

  lemma PairJudge(lim: Limits, sys: System)
    requires PairOk(sys) && sys.pair == Judging
    ensures PairOk(JudgePair(lim, sys))
  {
    hide NextBackoff, PairFrame, AllIdle;
  }

  lemma PairWire(lim: Limits, sys: System, a: Action)
    requires PairOk(sys)
    ensures PairOk(MoveWire(lim, sys, a))
  {
    hide MoveWriter, Tickets, LifeFits;
    PairWriter(lim, sys, a == WriterMove(true));
    PairWriter(lim, sys, false);
  }

  lemma PairWriter(lim: Limits, sys: System, ok: bool)
    requires PairOk(sys)
    ensures sys.pair == Open ==> PairOk(MoveWriter(lim, sys, ok))
  {
    hide Tickets, FramedBytes, Minus, LifeFits;
  }

  lemma PairLife(sys: System, ok: bool, order: seq<string>)
    requires PairOk(sys)
    ensures PairOk(MoveLife(sys, ok, order))
  {
    hide MoveDeactivation, MoveStartup, MoveCommit, AtRest, Tickets, LifeFrame;
    match sys.life
    case Clearing(_) | Awaiting(_, _, _) | Halting(_, _, _) => PairDeactivation(sys, order);
    case Applying(_) | Starting(_, _) | Unwinding(_, _, _) | Abandoning => PairStartup(sys, ok);
    case Settling(_) | Readying(_, _) | Publishing(_) => PairCommit(sys, ok);
    case Reporting(_) => FlagsAtRest(sys.pair, sys.core, SignalFailure(sys.core), sys.reader, sys.workers);
    case Resting | Quiescing(_) | Checking(_) =>
  }

  lemma PairDeactivation(sys: System, order: seq<string>)
    requires PairOk(sys)
    ensures PairOk(MoveDeactivation(sys, order))
  {
    hide StopTaking, Deactivated, AtRest, LifeFrame;
    if sys.life.Clearing? {
      PairStopTaking(sys, sys.life.next, order);
    } else if sys.life.Halting? {
      PairDeactivated(sys, sys.life.next);
      PairDeactivated(Log(sys, ClearSpec), sys.life.next);
    }
  }

  lemma PairStopTaking(sys: System, next: Next, order: seq<string>)
    requires PairOk(sys) && sys.life == Clearing(next)
    ensures PairOk(StopTaking(sys, next, order))
  {
    hide Enumerates, Bindings, LiveTickets, Tickets, AtRest, LifeFrame;
    FlagsAtRest(sys.pair, sys.core, Deactivate(sys.core), sys.reader, sys.workers);
  }

  lemma PairDeactivated(sys: System, next: Next)
    requires PairOk(sys) && sys.life.Halting? && sys.life.next == next
    ensures PairOk(Deactivated(sys, next))
  {
    hide AllIdle, LifeFrame;
  }

  lemma PairStartup(sys: System, ok: bool)
    requires PairOk(sys)
    ensures PairOk(MoveStartup(sys, ok))
  {
    hide AtRest, LifeFrame;
    FlagsAtRest(sys.pair, sys.core, MoveStartup(sys, ok).core, sys.reader, sys.workers);
  }

  lemma PairCommit(sys: System, ok: bool)
    requires PairOk(sys) && (sys.life.Settling? || sys.life.Readying? || sys.life.Publishing?)
    ensures PairOk(MoveCommit(sys, ok))
  {
    hide Grants, AtRest, LifeFrame;
    FlagsAtRest(sys.pair, sys.core, MoveCommit(sys, ok).core, sys.reader, sys.workers);
  }
}
