/** The supervisor over whole runs: which pairs it opens, when it gives up, and how long it pauses. */
module Supervision {
  import opened Base
  import opened Fips180
  import opened Protocol
  import opened Core
  import opened Machine
  import opened Threads
  import opened Runs
  import opened Custody

  // Delays.

  /** The delay before the retry that follows `retries` others since the last ready pair. */
  function Backoff(lim: Limits, retries: nat): nat {
    if retries == 0 then lim.initialDelay else NextBackoff(lim, Backoff(lim, retries - 1))
  }

  function Doubled(delay: nat, times: nat): nat {
    if times == 0 then delay else 2 * Doubled(delay, times - 1)
  }

  function Min(a: nat, b: nat): nat { if a <= b then a else b }

  /** The first delay of the doubling series that 32 bits cannot double. */
  function FirstLarge(delay: nat): nat
    requires delay > 0
    decreases 0x8000_0000 - delay
  {
    if delay >= 0x8000_0000 then delay else FirstLarge(2 * delay)
  }

  /** What the configuration checks about the delays. */
  predicate DelaysConfigured(lim: Limits) { 0 < lim.initialDelay <= lim.maxDelay < 0x1_0000_0000 }

  lemma {:induction false} DoubledMonotone(delay: nat, i: nat, j: nat)
    requires i <= j
    ensures Doubled(delay, i) <= Doubled(delay, j)
  {
    if i < j {
      DoubledMonotone(delay, i, j - 1);
    }
  }

  /** As long as no doubled delay wrapped, the pause is the doubled one, cut off at the maximum. */
  lemma {:induction false} BackoffCapped(lim: Limits, j: nat)
    requires DelaysConfigured(lim)
    requires forall k :: 0 <= k < j ==>
               Doubled(lim.initialDelay, k) < 0x8000_0000 || Doubled(lim.initialDelay, k) >= lim.maxDelay
    ensures Backoff(lim, j) == Min(lim.maxDelay, Doubled(lim.initialDelay, j))
  {
    if j > 0 {
      BackoffCapped(lim, j - 1);
      assert Doubled(lim.initialDelay, j - 1) < 0x8000_0000 || Doubled(lim.initialDelay, j - 1) >= lim.maxDelay;
    }
  }

  /** `FirstLarge` is in the series, and everything before it can be doubled. */
  lemma {:induction false} FirstLargeIn(delay: nat, steps: nat) returns (k: nat)
    requires Doubled(delay, steps) > 0
    ensures steps <= k && Doubled(delay, k) == FirstLarge(Doubled(delay, steps)) >= 0x8000_0000
    ensures forall i :: steps <= i < k ==> Doubled(delay, i) < 0x8000_0000
    decreases 0x8000_0000 - Doubled(delay, steps)
  {
    k := steps;
    if Doubled(delay, steps) < 0x8000_0000 {
      k := FirstLargeIn(delay, steps + 1);
    }
  }

  /** The delay follows the formula for every number of retries exactly when the first delay that cannot
      be doubled in 32 bits has already reached the maximum. */
  lemma BackoffFormula(lim: Limits)
    requires DelaysConfigured(lim)
    ensures (forall j :: Backoff(lim, j) == Min(lim.maxDelay, Doubled(lim.initialDelay, j)))
        <==> FirstLarge(lim.initialDelay) >= lim.maxDelay
  {
    hide FirstLarge;
    var k := FirstLargeIn(lim.initialDelay, 0);
    if FirstLarge(lim.initialDelay) >= lim.maxDelay {
      forall j: nat ensures Backoff(lim, j) == Min(lim.maxDelay, Doubled(lim.initialDelay, j)) {
        forall i | 0 <= i < j
          ensures Doubled(lim.initialDelay, i) < 0x8000_0000 || Doubled(lim.initialDelay, i) >= lim.maxDelay
        {
          if i >= k { DoubledMonotone(lim.initialDelay, k, i); }
        }
        BackoffCapped(lim, j);
      }
    } else {
      BackoffCapped(lim, k);
      assert Backoff(lim, k + 1) < lim.maxDelay <= Doubled(lim.initialDelay, k + 1);
    }
  }

  /** A maximum of at most 2^31 is enough. */
  lemma {:induction false} FirstLargeIsLarge(delay: nat)
    requires delay > 0
    ensures FirstLarge(delay) >= 0x8000_0000
    decreases 0x8000_0000 - delay
  {
    if delay < 0x8000_0000 {
      FirstLargeIsLarge(2 * delay);
    }
  }

  /** With an initial delay of 2^31 and the largest maximum the second pause is no pause at all. */
  lemma BackoffWraps(lim: Limits)
    requires lim.initialDelay == 0x8000_0000 && lim.maxDelay == 0xFFFF_FFFF
    ensures Backoff(lim, 1) == 0 && FirstLarge(lim.initialDelay) < lim.maxDelay
  {
  }

  // The invariant.

  /** A pair is about to be opened under the current epoch. */
  predicate Pending(pair: Pair) { pair.Armed? || pair.Preparing? }

  predicate Current(pair: Pair) {
    pair.Open? || pair.Retiring? || pair.Quiesced? || pair.Released? || pair.Closed? || pair.Judging?
  }

  predicate Numbered(epochs: seq<nat>) {
    forall k :: 0 <= k < |epochs| ==> epochs[k] == k + 1
  }

  predicate EpochsOk(sys: System) {
    var count := |sys.history.epochs|;
    && Numbered(sys.history.epochs)
    && (sys.pair.Unregistered? || sys.pair.Registering? ==> count == 0)
    && (Pending(sys.pair) ==> sys.core.link.epoch == count + 1)
    && (Current(sys.pair) ==> sys.core.link.epoch == count > 0)
  }

  /** The pairs opened, counting the one about to be, against the budget used. */
  predicate BudgetOk(lim: Limits, sys: System) {
    && sys.sup.used <= lim.maxReconnects
    && |sys.history.epochs| + One(Pending(sys.pair)) <= 1 + lim.maxReconnects * sys.history.ready + sys.sup.used
  }

  predicate PausesOk(lim: Limits, sys: System) {
    && (Pending(sys.pair) || Current(sys.pair) ==> sys.sup.delay == Backoff(lim, sys.sup.used))
    && forall i :: 0 <= i < |sys.history.pauses| ==>
         sys.history.pauses[i].retries < lim.maxReconnects
         && sys.history.pauses[i].delay == Backoff(lim, sys.history.pauses[i].retries)
  }

  predicate OnceOk(sys: System) {
    && sys.history.registrations == One(sys.sup.registered) && sys.history.lost == One(sys.sup.lostReported)
    && (sys.core.link.terminal ==> !Pending(sys.pair) && !sys.pair.Unregistered? && !sys.pair.Registering?)
    && (sys.history.lost > 0 || sys.history.resets > 0 ==> sys.pair == Over || sys.pair == Breaking)
  }

  predicate SupOk(lim: Limits, sys: System) {
    EpochsOk(sys) && BudgetOk(lim, sys) && PausesOk(lim, sys) && OnceOk(sys)
  }

  // Steps.

  /** Other threads leave the supervisor's records alone; only on an open pair do they report a terminal failure. */
  predicate SupStays(sys: System, r: System) {
    && r.pair == sys.pair && r.sup == sys.sup && r.core.link.epoch == sys.core.link.epoch
    && r.history.epochs == sys.history.epochs && r.history.ready == sys.history.ready
        && r.history.pauses == sys.history.pauses
    && r.history.lost == sys.history.lost && r.history.resets == sys.history.resets
        && r.history.registrations == sys.history.registrations
    && (r.core.link.terminal ==> sys.core.link.terminal || sys.pair == Open)
  }

  lemma StaysOk(lim: Limits, sys: System, r: System)
    requires SupOk(lim, sys) && SupStays(sys, r)
    ensures SupOk(lim, r)
  {
    hide Numbered, Backoff;
  }

  lemma ReaderSup(lim: Limits, sys: System, a: Action)
    requires PairOk(sys)
    ensures SupStays(sys, MoveInbound(lim, sys, a))
  {
    hide Receive, MoveReader, SameSpec, LifeFits;
    ReceiveTerminal(lim, sys, a);
  }

  lemma ReceiveTerminal(lim: Limits, sys: System, a: Action)
    requires PairOk(sys)
    ensures a.Inbound? ==> Receive(lim, sys, a.sequence, a.authentic, a.frame, a.expired, a.wire).core.link.terminal ==>
              sys.core.link.terminal || sys.pair == Open
    ensures MoveReader(lim, sys).core.link.terminal ==> sys.core.link.terminal || sys.pair == Open
  {
    hide Handle, ReaderFrame, Tickets, QueueWork, CommitTerminal, LifeFits;
  }

  lemma HandlerSup(lim: Limits, sys: System, a: Action)
    requires a.WorkerMove? || OfApp(a)
    ensures SupStays(sys, Step(lim, sys, a))
  {
    hide MoveInbound, MoveWorker, MoveApp, MoveRequest, MoveLife, MoveRegistration, MovePair, MoveWire, SameSpec,
      LiveKept, WorkerMoves, ReaderFrame, WireFrame;
  }

  lemma FlagSup(sys: System, a: Action)
    ensures SupStays(sys, MoveRequest(sys, a))
  {
    hide SetFlags, ValidSpec, Tickets, SameSpec;
    FlagTerminal(sys.core, sys.pair, a);
  }

  lemma FlagTerminal(core: State, pair: Pair, a: Action)
    ensures SetFlags(core, pair, a).link.terminal ==> core.link.terminal || pair == Open
  {
    hide Tickets, SamePair;
  }

  lemma WireSup(lim: Limits, sys: System, a: Action)
    ensures SupStays(sys, MoveWire(lim, sys, a))
  {
    hide MoveWire;
    ShutWire(lim, sys, a);
  }

  lemma ShutWire(lim: Limits, sys: System, a: Action)
    ensures sys.pair != Open ==> MoveWire(lim, sys, a) == sys
  {
    hide MoveWriter, WriterTouches, Tickets;
  }

  /** A transaction leaves the supervisor alone, unless it was the last teardown. */
  lemma LifeSup(lim: Limits, sys: System, ok: bool, order: seq<string>)
    requires SupOk(lim, sys) && PairOk(sys)
    ensures SupOk(lim, MoveLife(sys, ok, order))
  {
    hide MoveStartup, MoveCommit, MoveDeactivation, SupOk, Tickets, LifeFrame, PairOk, SupStays;
    match sys.life
    case Clearing(_) | Awaiting(_, _, _) | Halting(_, _, _) => DeactivationSup(lim, sys, order);
    case _ => QuietSup(lim, sys, ok, order);
  }

  lemma QuietSup(lim: Limits, sys: System, ok: bool, order: seq<string>)
    requires SupOk(lim, sys) && !sys.life.Clearing? && !sys.life.Awaiting? && !sys.life.Halting?
    ensures SupOk(lim, MoveLife(sys, ok, order))
  {
    hide MoveStartup, MoveCommit, MoveDeactivation, SupOk, Tickets, LifeFrame;
    CommitSup(sys, ok);
    StartupSup(sys, ok);
    StaysOk(lim, sys, MoveLife(sys, ok, order));
  }

  lemma DeactivationSup(lim: Limits, sys: System, order: seq<string>)
    requires SupOk(lim, sys) && PairOk(sys)
    ensures SupOk(lim, MoveDeactivation(sys, order))
  {
    hide SupOk, LifeFrame, StopTaking, Deactivated, AtRest, LifeFits;
    if sys.life.Halting? && |sys.life.bindings| == 0 {
      var logged := if sys.life.hadSpec then Log(sys, ClearSpec) else sys;
      StaysOk(lim, sys, logged);
      DeactivatedSup(lim, logged, sys.life.next);
    } else {
      if sys.life.Clearing? {
        StopTakingSup(sys, sys.life.next, order);
      }
      StaysOk(lim, sys, MoveDeactivation(sys, order));
    }
  }

  lemma StopTakingSup(sys: System, next: Next, order: seq<string>)
    ensures SupStays(sys, StopTaking(sys, next, order))
  {
    hide Enumerates, Bindings, Tickets, LiveTickets, LifeFrame;
  }

  lemma CommitSup(sys: System, ok: bool)
    ensures SupStays(sys, MoveCommit(sys, ok))
  {
    hide LifeFrame, Grants, Sendable, MoveStartup;
  }

  lemma StartupSup(sys: System, ok: bool)
    ensures SupStays(sys, MoveStartup(sys, ok))
  {
    hide LifeFrame, MoveStartup;
  }

  lemma DeactivatedSup(lim: Limits, sys: System, next: Next)
    requires SupOk(lim, sys) && sys.life.Halting? && sys.life.next == next && LifeFits(sys.pair, sys.life)
    ensures SupOk(lim, Deactivated(sys, next))
  {
    hide Numbered, Backoff, LifeFrame;
  }

  lemma RegistrationSup(lim: Limits, sys: System, a: Action)
    requires SupOk(lim, sys)
    ensures SupOk(lim, MoveRegistration(lim, sys, a))
  {
    hide Numbered, Negotiated;
  }

  /** A pair is opened under the epoch that follows the last one. */
  lemma PairSup(lim: Limits, sys: System, a: Action)
    requires SupOk(lim, sys)
    ensures SupOk(lim, MovePair(lim, sys, a))
  {
    hide Backoff, Tickets, LiveTickets, ReleaseAllTokens, JudgePair;
    if sys.pair == Judging {
      JudgeSup(lim, sys);
    }
  }

  lemma JudgeSup(lim: Limits, sys: System)
    requires SupOk(lim, sys) && sys.pair == Judging
    ensures SupOk(lim, JudgePair(lim, sys))
  {
    hide JudgePair, EpochsOk, OnceOk, BudgetOk, PausesOk;
    JudgeBudget(lim, sys);
    JudgePauses(lim, sys);
    JudgeEpochs(lim, sys);
    JudgeOnce(lim, sys);
  }

  lemma JudgeEpochs(lim: Limits, sys: System)
    requires EpochsOk(sys) && sys.pair == Judging
    ensures EpochsOk(JudgePair(lim, sys))
  {
    hide NextBackoff, Numbered, PairFrame;
  }

  lemma JudgeOnce(lim: Limits, sys: System)
    requires OnceOk(sys) && sys.pair == Judging
    ensures OnceOk(JudgePair(lim, sys))
  {
    hide NextBackoff, PairFrame;
  }

  lemma JudgePauses(lim: Limits, sys: System)
    requires PausesOk(lim, sys) && sys.pair == Judging
    ensures PausesOk(lim, JudgePair(lim, sys))
  {
    hide NextBackoff;
    var used := if sys.sup.wasReady then 0 else sys.sup.used;
    assert Backoff(lim, used) == if sys.sup.wasReady then lim.initialDelay else sys.sup.delay;
    assert Backoff(lim, used + 1) == NextBackoff(lim, Backoff(lim, used));
  }

  /** A ready pair earns a new budget, which covers the retries spent before it. */
  lemma JudgeBudget(lim: Limits, sys: System)
    requires BudgetOk(lim, sys) && sys.pair == Judging
    ensures BudgetOk(lim, JudgePair(lim, sys))
  {
    hide NextBackoff, Backoff;
    var max, ready := lim.maxReconnects, sys.history.ready;
    assert max * (ready + 1) == max * ready + max;
  }

  lemma SupStep(lim: Limits, sys: System, a: Action)
    requires SupOk(lim, sys) && PairOk(sys)
    ensures SupOk(lim, Step(lim, sys, a))
  {
    hide MoveInbound, MoveWorker, MoveApp, MoveRequest, MoveLife, MoveRegistration, MovePair, MoveWire, LifeFrame,
      PairFrame, ReaderFrame, WorkerFrame, SamePair, SameSpec, LiveKept, WireFrame, SupOk, PairOk, SupStays,
      RequestFrame, AppFrame;
    if a.LifeMove? {
      LifeSup(lim, sys, a.ok, a.order);
    } else if OfRegistration(a) {
      RegistrationSup(lim, sys, a);
    } else if OfPair(a) {
      PairSup(lim, sys, a);
    } else if OfReader(a) {
      ReaderSup(lim, sys, a);
      StaysOk(lim, sys, Step(lim, sys, a));
    } else if OfApp(a) || a.WorkerMove? {
      HandlerSup(lim, sys, a);
      StaysOk(lim, sys, Step(lim, sys, a));
    } else if OfWire(a) {
      WireSup(lim, sys, a);
      StaysOk(lim, sys, Step(lim, sys, a));
    } else {
      FlagSup(sys, a);
      StaysOk(lim, sys, Step(lim, sys, a));
    }
  }

  lemma {:induction false} SupRun(lim: Limits, workers: nat, run: Run, n: nat)
    requires Reaches(lim, workers, run, n)
    ensures SupOk(lim, run.At(n))
  {
    hide Step, SupOk, Safe;
    if n == 0 {
      SupAtFirst(lim, workers);
    } else {
      SupRun(lim, workers, run, n - 1);
      NextState(lim, workers, run, n - 1);
      SafeRun(lim, workers, run, n - 1);
      PairIsOk(lim, run.At(n - 1));
      SupStep(lim, run.At(n - 1), run.actions[n - 1]);
    }
  }

  lemma SupAtFirst(lim: Limits, workers: nat)
    ensures SupOk(lim, Initial(workers))
  {
  }

  // What it means.

  /** Pair k is opened under epoch k, and an open pair works under the epoch it was opened with; with R
      pairs found ready at most 1 + max * (R + 1) are opened. */
  lemma PairsBounded(lim: Limits, workers: nat, run: Run, n: nat)
    requires Reaches(lim, workers, run, n)
    ensures var (sys, epochs) := (run.At(n), run.At(n).history.epochs);
            && (forall k :: 0 <= k < |epochs| ==> epochs[k] == k + 1)
            && (sys.pair == Open ==> sys.core.link.epoch == |epochs|)
            && |epochs| <= 1 + lim.maxReconnects * (sys.history.ready + 1)
  {
    hide IsRun, PausesOk, OnceOk;
    SupRun(lim, workers, run, n);
    var max, ready := lim.maxReconnects, run.At(n).history.ready;
    assert max * (ready + 1) == max * ready + max;
  }

  /** The client registers at most once and reports the loss of its session at most once. */
  lemma OnceOnly(lim: Limits, workers: nat, run: Run, n: nat)
    requires Reaches(lim, workers, run, n)
    ensures run.At(n).history.registrations <= 1 && run.At(n).history.lost <= 1
  {
    hide IsRun, PausesOk, EpochsOk, BudgetOk;
    SupRun(lim, workers, run, n);
  }

  /** Every pause lasts as long as the number of unready retries before it says, by the formula
      min(max, initial * 2^retries) whenever no doubling leaves 32 bits below the maximum. */
  lemma PausesFollow(lim: Limits, workers: nat, run: Run, n: nat, i: nat)
    requires Reaches(lim, workers, run, n)
    requires DelaysConfigured(lim) && i < |run.At(n).history.pauses|
    ensures var pause := run.At(n).history.pauses[i];
            && pause.retries < lim.maxReconnects && pause.delay == Backoff(lim, pause.retries)
            && (FirstLarge(lim.initialDelay) >= lim.maxDelay || lim.maxDelay <= 0x8000_0000 ==>
                  pause.delay == Min(lim.maxDelay, Doubled(lim.initialDelay, pause.retries)))
  {
    hide IsRun, EpochsOk, BudgetOk, OnceOk, Backoff, FirstLarge;
    SupRun(lim, workers, run, n);
    BackoffFormula(lim);
    FirstLargeIsLarge(lim.initialDelay);
  }

  // A terminal failure is the end.

  /** The session is beyond rescue. */
  predicate Doomed(sys: System) {
    || (sys.core.link.terminal && !Pending(sys.pair) && !sys.pair.Unregistered? && !sys.pair.Registering?)
    || sys.pair == Losing || sys.pair == Breaking || sys.pair == Over
  }

  lemma DoomedStep(lim: Limits, sys: System, a: Action)
    requires Doomed(sys) && PairOk(sys)
    ensures Doomed(Step(lim, sys, a)) && Step(lim, sys, a).history.epochs == sys.history.epochs
  {
    hide MoveInbound, MoveWorker, MoveApp, MoveRequest, MoveLife, MoveRegistration, MovePair, MoveWire, LifeFrame,
      PairFrame, ReaderFrame, WorkerFrame, SamePair, SameSpec, LiveKept, WireFrame, Doomed, PairOk, SupStays,
      RequestFrame, AppFrame;
    if a.LifeMove? {
      LifeDoomed(sys, a.ok, a.order);
    } else if OfRegistration(a) {
      RegistrationDoomed(lim, sys, a);
    } else if OfPair(a) {
      PairDoomed(lim, sys, a);
    } else if OfReader(a) {
      ReaderSup(lim, sys, a);
      TerminalStays(lim, sys, a);
      DoomedStays(sys, Step(lim, sys, a));
    } else if OfApp(a) || a.WorkerMove? {
      HandlerSup(lim, sys, a);
      TerminalStays(lim, sys, a);
      DoomedStays(sys, Step(lim, sys, a));
    } else if OfWire(a) {
      WireSup(lim, sys, a);
      WireTerminal(lim, sys, a);
      DoomedStays(sys, Step(lim, sys, a));
    } else {
      FlagSup(sys, a);
      FlagsTerminal(sys, a);
      DoomedStays(sys, Step(lim, sys, a));
    }
  }

  lemma DoomedStays(sys: System, r: System)
    requires Doomed(sys) && SupStays(sys, r) && (sys.core.link.terminal ==> r.core.link.terminal)
    ensures Doomed(r) && r.history.epochs == sys.history.epochs
  {
  }

  lemma TerminalStays(lim: Limits, sys: System, a: Action)
    requires OfReader(a) || a.WorkerMove? || OfApp(a)
    ensures sys.core.link.terminal ==> Step(lim, sys, a).core.link.terminal
  {
    hide MoveWorker, MoveApp, MoveRequest, MoveLife, MoveRegistration, MovePair, MoveWire, Handle, QueueWork,
      CommitTerminal, Tickets, SamePair, SameSpec, LiveKept, WorkerMoves, ReaderFrame;
    if a.Inbound? {
      HandleTerminal(lim, sys.(wire := sys.wire.(workIn := a.sequence, heard := sys.wire.heard + [a.sequence])),
          a.frame, a.expired, a.wire);
    }
  }

  lemma HandleTerminal(lim: Limits, sys: System, frame: HostFrame, expired: bool, wire: seq<Byte>)
    ensures sys.core.link.terminal ==> Handle(lim, sys, frame, expired, wire).core.link.terminal
  {
    hide EnqueueDispatch, EnqueueSourceOpen, GrantSourceCredit, HandleCancellation, AcknowledgeTerminal, Tickets,
      ReaderFrame;
  }

  lemma FlagsTerminal(sys: System, a: Action)
    ensures sys.core.link.terminal ==> MoveRequest(sys, a).core.link.terminal
  {
    hide ValidSpec, Tickets, SameSpec, SamePair;
  }

  lemma WireTerminal(lim: Limits, sys: System, a: Action)
    ensures sys.core.link.terminal ==> MoveWire(lim, sys, a).core.link.terminal
  {
    hide Tickets, WriterTouches, FramedBytes, Minus;
  }

  lemma LifeDoomed(sys: System, ok: bool, order: seq<string>)
    requires Doomed(sys) && PairOk(sys)
    ensures Doomed(MoveLife(sys, ok, order)) && MoveLife(sys, ok, order).history.epochs == sys.history.epochs
  {
    hide MoveStartup, MoveCommit, MoveDeactivation, Tickets, PairOk, Doomed, LifeFrame;
    LifeEpochs(sys, ok, order);
    DoomedBy(sys, MoveLife(sys, ok, order));
    LifeTerminal(sys, ok);
    DeactivationTerminal(sys, order);
  }

  lemma LifeTerminal(sys: System, ok: bool)
    ensures MoveCommit(sys, ok).core.link.terminal == sys.core.link.terminal && MoveCommit(sys, ok).pair == sys.pair
  {
    hide LifeFrame, Grants;
  }

  lemma LifeEpochs(sys: System, ok: bool, order: seq<string>)
    ensures MoveLife(sys, ok, order).history.epochs == sys.history.epochs
  {
    hide MoveLife;
  }

  lemma DoomedBy(sys: System, r: System)
    ensures Doomed(sys) && r.pair == sys.pair && r.core.link.terminal == sys.core.link.terminal ==> Doomed(r)
    ensures r.pair == Over ==> Doomed(r)
  {
  }

  lemma DeactivationTerminal(sys: System, order: seq<string>)
    ensures var r := MoveDeactivation(sys, order);
            r.pair == Over || (r.pair == sys.pair && r.core.link.terminal == sys.core.link.terminal)
  {
    hide StopTaking, LifeFrame;
    if sys.life.Clearing? {
      StopTakingTerminal(sys, sys.life.next, order);
    }
  }

  lemma StopTakingTerminal(sys: System, next: Next, order: seq<string>)
    ensures var r := StopTaking(sys, next, order); r.pair == sys.pair && r.core.link.terminal == sys.core.link.terminal
  {
    hide Enumerates, Bindings, Tickets, LiveTickets, LifeFrame;
  }

  lemma RegistrationDoomed(lim: Limits, sys: System, a: Action)
    requires Doomed(sys)
    ensures MoveRegistration(lim, sys, a) == sys
  {
    hide Negotiated;
  }

  lemma PairDoomed(lim: Limits, sys: System, a: Action)
    requires Doomed(sys)
    ensures Doomed(MovePair(lim, sys, a)) && MovePair(lim, sys, a).history.epochs == sys.history.epochs
  {
    hide Tickets, LiveTickets, ReleaseAllTokens, NextBackoff;
  }

  lemma {:induction false} DoomedRun(lim: Limits, workers: nat, run: Run, n: nat, m: nat)
    requires Reaches(lim, workers, run, m) && n <= m && Doomed(run.At(n))
    ensures Doomed(run.At(m)) && run.At(m).history.epochs == run.At(n).history.epochs
  {
    hide Step, Doomed, Safe;
    if n < m {
      DoomedRun(lim, workers, run, n, m - 1);
      SafeRun(lim, workers, run, m - 1);
      PairIsOk(lim, run.At(m - 1));
      NextState(lim, workers, run, m - 1);
      DoomedStep(lim, run.At(m - 1), run.actions[m - 1]);
    }
  }

  /** After a terminal failure, a loss of the session or a teardown no further pair is ever opened. */
  lemma TerminalAbsorbs(lim: Limits, workers: nat, run: Run, n: nat, m: nat)
    requires Reaches(lim, workers, run, m) && n <= m
    requires run.At(n).core.link.terminal || run.At(n).history.lost > 0 || run.At(n).history.resets > 0
    ensures run.At(m).history.epochs == run.At(n).history.epochs
  {
    hide IsRun, EpochsOk, BudgetOk, PausesOk;
    SupRun(lim, workers, run, n);
    DoomedRun(lim, workers, run, n, m);
  }
}
