/** The Control and Work streams of every pair: when Work may be opened, what is written on it in which
    order, and what is accepted from it. */
module Wires {
  import opened Base
  import opened Protocol
  import opened Core
  import opened Tables
  import opened Machine
  import opened Threads
  import opened Accounts
  import opened Transactions
  import opened Admissions
  import opened Runs
  import opened Works
  import opened Logs
  import opened Custody

  /** A result reported as applied is one of a committed spec. */
  predicate OutcomeTrue(outcome: Outcome, committed: seq<Spec>) {
    outcome.Applied? ==> outcome.spec in committed
  }

  predicate FrameTrue(frame: ControlFrame, committed: seq<Spec>) {
    frame.SpecResult? ==> OutcomeTrue(frame.outcome, committed)
  }

  /** So is every result that was written, is being written or waits to be. */
  predicate WireTrue(wire: Transport, committed: seq<Spec>) {
    && (forall i :: 0 <= i < |wire.control| ==> FrameTrue(wire.control[i], committed))
    && (wire.ctl.CtlWriting? ==> FrameTrue(wire.ctl.frame, committed))
    && (wire.reported.Some? ==> wire.reported.value in committed)
  }

  /** And the one about to be queued. */
  predicate LifeTrue(life: Lifecycle, committed: seq<Spec>) {
    && (life.Reporting? ==> OutcomeTrue(life.outcome, committed))
    && (life.Publishing? || life.Readying? ==> life.spec in committed)
  }

  predicate ReportsTrue(sys: System) {
    LifeTrue(sys.life, sys.history.committed) && WireTrue(sys.wire, sys.history.committed)
  }

  lemma StillTrue(before: seq<Spec>, after: seq<Spec>, wire: Transport, life: Lifecycle)
    requires before <= after
    ensures WireTrue(wire, before) ==> WireTrue(wire, after)
    ensures LifeTrue(life, before) ==> LifeTrue(life, after)
  {
    assert forall spec :: spec in before ==> spec in after;
  }

  /** The gate of this pair opens only behind a written result. */
  predicate GateOk(link: Link, wire: Transport) {
    && (wire.ctl == CtlGate ==> wire.reported.Some?)
    && (link.attachAllowed ==> wire.reported.Some? && link.attachEpoch == link.epoch)
    && (wire.workOpen ==> link.attachAllowed) && (wire.writer != Absent ==> wire.workOpen)
  }

  /** The attach comes first, then the frames taken from the queue, numbered from one. */
  predicate WrittenOk(epoch: nat, written: seq<Stamped>, taken: seq<Queued>) {
    && |written| <= |taken| + 1
    && forall k :: 0 <= k < |written| ==>
         written[k] == Stamped(epoch, k + 1, if k == 0 then None else Some(taken[k - 1].frame))
  }

  predicate WriterOk(wire: Transport, taken: seq<Queued>) {
    match wire.writer
    case Absent => wire.workOut == 0 && wire.written == [] && taken == []
    case Opening => wire.workOut == 0 && wire.written == [] && taken == []
    case Attaching => wire.workOut == 1 && wire.written == [] && taken == []
    case Greeting => wire.workOut == 1 && |wire.written| == 1 && taken == []
    case Pumping => wire.workOut == |wire.written| == |taken| + 1
    case Writing(entry) =>
      wire.workOut == |taken| + 1 && |wire.written| == |taken| && |taken| > 0 && entry == taken[|taken| - 1]
    case WriterStopped => true
  }

  predicate HeardOk(heard: seq<nat>, workIn: nat) {
    && (forall i, j :: 0 <= i < j < |heard| ==> heard[i] < heard[j])
    && (forall i :: 0 <= i < |heard| ==> 0 < heard[i] <= workIn)
  }

  /** What was taken and what is still queued are the last frames admitted, in the order of admission. */
  predicate OrderOk(outbox: Outbox) {
    var n, all := |outbox.log| - |outbox.taken| - |outbox.queue|, outbox.taken + outbox.queue;
    && n >= 0
    && forall k :: 0 <= k < |all| ==> outbox.log[n + k] == all[k].frame
  }

  ghost predicate WiresOk(sys: System) {
    && HeardOk(sys.wire.heard, sys.wire.workIn) && OrderOk(sys.core.outbox)
    && (sys.pair == Open ==>
          && GateOk(sys.core.link, sys.wire) && ReportsTrue(sys)
          && WrittenOk(sys.core.link.epoch, sys.wire.written, sys.core.outbox.taken)
          && WriterOk(sys.wire, sys.core.outbox.taken))
  }

  // The order of admission.

  lemma OrderMoves(replay: map<string, Entry>, before: Outbox, after: Outbox)
    requires OrderOk(before) && QueueMoves(replay, before, after)
    ensures OrderOk(after)
  {
    hide Admissible;
    if |after.log| > |before.log| && Pushed(before, after, after.log[|before.log|]) {
      assert after.queue == before.queue + [after.queue[|before.queue|]];
      assert after.taken + after.queue == before.taken + before.queue + [after.queue[|before.queue|]];
    } else if Popped(before, after) {
      assert after.taken + after.queue == before.taken + before.queue;
    }
  }

  lemma OrderStep(lim: Limits, sys: System, a: Action)
    requires OrderOk(sys.core.outbox) && WorksOk(lim, sys)
    ensures OrderOk(Step(lim, sys, a).core.outbox)
  {
    hide Step, OrderOk, WorksOk, QueueMoves;
    LogStep(lim, sys, a);
    OrderMoves(sys.core.ledger.replay, sys.core.outbox, Step(lim, sys, a).core.outbox);
  }

  // The threads that own the streams.

  lemma ControlStep(lim: Limits, sys: System, a: Action)
    requires WiresOk(sys) && sys.pair == Open && !a.WriterMove?
    ensures var r := MoveWire(lim, sys, a);
            && WrittenOk(r.core.link.epoch, r.wire.written, r.core.outbox.taken)
            && WriterOk(r.wire, r.core.outbox.taken)
  {
    hide MoveWriter, Tickets, OrderOk, HeardOk, WrittenOk, ReportsTrue;
  }

  lemma ControlGates(lim: Limits, sys: System, a: Action)
    requires WiresOk(sys) && sys.pair == Open && !a.WriterMove?
    ensures var r := MoveWire(lim, sys, a); GateOk(r.core.link, r.wire) && ReportsTrue(r)
  {
    hide MoveWriter, Tickets, OrderOk, HeardOk, WrittenOk, WriterOk, WriterTouches;
  }

  lemma WriterStep(lim: Limits, sys: System, ok: bool)
    requires WiresOk(sys) && sys.pair == Open
    ensures var r := MoveWriter(lim, sys, ok);
            && GateOk(r.core.link, r.wire) && ReportsTrue(r)
            && WrittenOk(r.core.link.epoch, r.wire.written, r.core.outbox.taken)
            && WriterOk(r.wire, r.core.outbox.taken)
  {
    hide Tickets, OrderOk, HeardOk, FramedBytes, Minus;
  }

  lemma WireMoves(lim: Limits, sys: System, a: Action)
    requires WiresOk(sys) && OrderOk(MoveWire(lim, sys, a).core.outbox)
    ensures WiresOk(MoveWire(lim, sys, a))
  {
    hide MoveWriter, GateOk, ReportsTrue, WrittenOk, WriterOk, OrderOk, WriterTouches, HeardOk, Tickets;
    if sys.pair == Open {
      if a.WriterMove? {
        WriterStep(lim, sys, a.ok);
        WriterHears(lim, sys, a.ok);
      } else {
        ControlStep(lim, sys, a);
        ControlGates(lim, sys, a);
        ControlHears(lim, sys, a);
      }
    }
  }

  lemma WriterHears(lim: Limits, sys: System, ok: bool)
    ensures var r := MoveWriter(lim, sys, ok); r.wire.heard == sys.wire.heard && r.wire.workIn == sys.wire.workIn
  {
    hide WriterTouches, FramedBytes, Tickets, Minus;
  }

  lemma ControlHears(lim: Limits, sys: System, a: Action)
    requires !a.WriterMove?
    ensures var r := MoveWire(lim, sys, a);
            r.wire.heard == sys.wire.heard && r.wire.workIn == sys.wire.workIn && r.pair == sys.pair
  {
    hide WriterTouches, MoveWriter, Tickets;
  }

  // Every other step on an open pair.

  /** The link's epoch and gate and the frames taken are untouched, and commits are not withdrawn. */
  predicate WireStays(sys: System, r: System) {
    && r.core.link.epoch == sys.core.link.epoch && r.core.link.attachAllowed == sys.core.link.attachAllowed
    && r.core.link.attachEpoch == sys.core.link.attachEpoch && r.core.outbox.taken == sys.core.outbox.taken
    && r.wire == sys.wire.(control := r.wire.control, workIn := r.wire.workIn, heard := r.wire.heard)
    && sys.history.committed <= r.history.committed
  }

  lemma Stays(sys: System, r: System)
    requires WiresOk(sys) && sys.pair == Open && WireStays(sys, r) && HeardOk(r.wire.heard, r.wire.workIn)
             && OrderOk(r.core.outbox)
    requires ReportsTrue(r)
    ensures WiresOk(r)
  {
    hide OrderOk, HeardOk, WrittenOk, ReportsTrue;
  }

  lemma TrafficStays(lim: Limits, sys: System, a: Action)
    requires HeardOk(sys.wire.heard, sys.wire.workIn) && Traffic(a)
    ensures TrafficKeeps(sys, Step(lim, sys, a))
  {
    hide MoveInbound, MoveWorker, MoveApp, MoveRequest, MoveLife, MoveRegistration, MovePair, MoveWire, TrafficKeeps,
      HeardOk, RequestFrame, AppFrame, ReaderFrame, LifeFrame, PairFrame, WireFrame, WorkerFrame, SameSpec, SamePair;
    if OfReader(a) {
      ReaderStays(lim, sys, a);
    } else if a.WorkerMove? || OfApp(a) {
      HandlerStays(lim, sys, a);
    } else {
      FlagStays(sys, a);
    }
  }

  predicate TrafficKeeps(sys: System, r: System) {
    && WireStays(sys, r) && HeardOk(r.wire.heard, r.wire.workIn) && r.wire.control == sys.wire.control
    && r.pair == sys.pair && r.history.committed == sys.history.committed
    && (r.life == sys.life || r.life.Clearing?)
  }

  lemma ReaderStays(lim: Limits, sys: System, a: Action)
    requires HeardOk(sys.wire.heard, sys.wire.workIn)
    ensures TrafficKeeps(sys, MoveInbound(lim, sys, a))
  {
    hide Receive, MoveReader, SameSpec, HeardOk;
    ReceiveHears(lim, sys, a);
  }

  lemma HandlerStays(lim: Limits, sys: System, a: Action)
    requires HeardOk(sys.wire.heard, sys.wire.workIn) && (a.WorkerMove? || OfApp(a))
    ensures TrafficKeeps(sys, Step(lim, sys, a))
  {
    hide MoveInbound, MoveWorker, MoveApp, MoveRequest, MoveLife, MoveRegistration, MovePair, MoveWire, SameSpec,
      LiveKept, WorkerMoves, HeardOk, RequestFrame, ReaderFrame, LifeFrame, PairFrame, WireFrame;
  }

  lemma FlagStays(sys: System, a: Action)
    requires HeardOk(sys.wire.heard, sys.wire.workIn)
    requires !a.BeginApply?
    ensures TrafficKeeps(sys, MoveRequest(sys, a))
  {
    hide SetFlags, HeardOk;
  }

  predicate Traffic(a: Action) {
    OfReader(a) || a.WorkerMove? || OfApp(a) || (OfRequest(a) && !a.BeginApply?)
  }

  lemma ReceiveHears(lim: Limits, sys: System, a: Action)
    requires HeardOk(sys.wire.heard, sys.wire.workIn)
    ensures a.Inbound? ==>
              var r := Receive(lim, sys, a.sequence, a.authentic, a.frame, a.expired, a.wire);
              HeardOk(r.wire.heard, r.wire.workIn) && r.wire.control == sys.wire.control
  {
    hide Handle, Tickets, ReaderFrame;
  }

  predicate CurrentCommitted(sys: System) {
    sys.core.link.session && sys.core.current.Some? ==> sys.core.current.value in sys.history.committed
  }

  lemma BeginStays(sys: System, spec: Spec)
    requires LifeTrue(sys.life, sys.history.committed)
    requires CurrentCommitted(sys)
    ensures var r := BeginSpec(sys, spec);
            WireStays(sys, r) && r.wire == sys.wire && r.history == sys.history && LifeTrue(r.life, r.history.committed)
  {
    hide ValidSpec, Tickets;
  }

  lemma LifeStays(sys: System, ok: bool, order: seq<string>)
    requires sys.pair == Open && PairOk(sys) && ReportsTrue(sys)
    ensures var r := MoveLife(sys, ok, order);
            && WireStays(sys, r) && r.wire.heard == sys.wire.heard && r.wire.workIn == sys.wire.workIn && ReportsTrue(r)
  {
    hide MoveDeactivation, MoveStartup, MoveCommit, Tickets, LifeFrame, AtRest;
    var r := MoveLife(sys, ok, order);
    DeactivationStays(sys, order);
    StartupStays(sys, ok);
    CommitStays(sys, ok);
    CommitTells(sys, ok);
    if sys.life.Settling? || sys.life.Readying? || sys.life.Publishing? {
      StillTrue(sys.history.committed, r.history.committed, sys.wire, sys.life);
    }
  }

  lemma DeactivationStays(sys: System, order: seq<string>)
    requires sys.pair == Open && PairOk(sys)
    ensures var r := MoveDeactivation(sys, order);
            && WireStays(sys, r) && r.wire == sys.wire && r.history.committed == sys.history.committed
            && (LifeTrue(sys.life, sys.history.committed) ==> LifeTrue(r.life, r.history.committed))
  {
    hide StopTaking, Deactivated, LifeFrame, AtRest;
    if sys.life.Clearing? {
      StopTakingStays(sys, sys.life.next, order);
    } else if sys.life.Halting? {
      DeactivatedStays(sys, sys.life.next);
      DeactivatedStays(Log(sys, ClearSpec), sys.life.next);
    }
  }

  lemma StopTakingStays(sys: System, next: Next, order: seq<string>)
    ensures var r := StopTaking(sys, next, order);
            && WireStays(sys, r) && r.wire == sys.wire && r.history.committed == sys.history.committed
            && (r.life == sys.life || r.life.Awaiting?)
  {
    hide Tickets, LiveTickets, Enumerates, Bindings, LifeFrame;
  }

  lemma DeactivatedStays(sys: System, next: Next)
    requires !Tears(next)
    ensures var r := Deactivated(sys, next);
            && WireStays(sys, r) && r.wire == sys.wire && r.history.committed == sys.history.committed
            && LifeTrue(r.life, r.history.committed)
  {
    hide LifeFrame;
  }

  lemma StartupStays(sys: System, ok: bool)
    ensures var r := MoveStartup(sys, ok);
            && WireStays(sys, r) && r.wire == sys.wire && r.history.committed == sys.history.committed
            && (LifeTrue(sys.life, sys.history.committed) ==> LifeTrue(r.life, r.history.committed))
  {
    hide LifeFrame, MoveStartup;
    StartupTrue(sys, ok);
  }

  lemma StartupTrue(sys: System, ok: bool)
    ensures LifeTrue(sys.life, sys.history.committed) ==> LifeTrue(MoveStartup(sys, ok).life, sys.history.committed)
  {
    hide LifeFrame;
  }

  lemma CommitStays(sys: System, ok: bool)
    ensures var r := MoveCommit(sys, ok); WireStays(sys, r) && r.wire == sys.wire
  {
    hide LifeFrame, Grants;
  }

  lemma CommitTells(sys: System, ok: bool)
    ensures var r := MoveCommit(sys, ok);
            LifeTrue(sys.life, sys.history.committed) ==> LifeTrue(r.life, r.history.committed)
  {
    hide LifeFrame, Grants, Sendable;
  }

  // Opening a pair.

  /** A new pair starts with a shut gate, nothing written and nothing taken. */
  lemma PairOpens(lim: Limits, sys: System, a: Action)
    requires WiresOk(sys) && OrderOk(MovePair(lim, sys, a).core.outbox) && PairOk(sys)
    ensures WiresOk(MovePair(lim, sys, a))
  {
    hide Tickets, LiveTickets, ReleaseAllTokens, JudgePair, OrderOk, AtRest;
    NotJudged(lim, sys);
    JudgeHears(lim, sys);
  }

  lemma JudgeHears(lim: Limits, sys: System)
    ensures JudgePair(lim, sys).wire == sys.wire
  {
  }

  lemma RegistrationWires(lim: Limits, sys: System, a: Action)
    requires WiresOk(sys) && OrderOk(MoveRegistration(lim, sys, a).core.outbox)
    ensures WiresOk(MoveRegistration(lim, sys, a))
  {
    hide Negotiated, OrderOk, HeardOk;
  }

  // The invariant.

  lemma CommittedWhenCurrent(bootstrap: Spec, sys: System)
    requires SpecsOk(bootstrap, sys)
    ensures CurrentCommitted(sys)
  {
    hide InOrder, Follows, Targets;
  }

  lemma WiresStep(lim: Limits, sys: System, a: Action)
    requires WiresOk(sys) && PairOk(sys) && SpecsOk(lim.bootstrap, sys) && WorksOk(lim, sys)
    ensures WiresOk(Step(lim, sys, a))
  {
    hide MoveInbound, MoveWorker, MoveApp, MoveRequest, MoveLife, MoveRegistration, MovePair, MoveWire, LifeFrame,
      PairFrame, ReaderFrame, WorkerFrame, SamePair, SameSpec, LiveKept, WireFrame, WiresOk, WorksOk, PairOk, SpecsOk,
      OrderOk, HeardOk, ReportsTrue, WireStays, RequestFrame, AppFrame;
    OrderNow(lim, sys, a);
    CommittedWhenCurrent(lim.bootstrap, sys);
    if OfWire(a) {
      WireMoves(lim, sys, a);
    } else if OfPair(a) {
      PairOpens(lim, sys, a);
    } else if OfRegistration(a) {
      RegistrationWires(lim, sys, a);
    } else if a.LifeMove? {
      LifeWires(sys, a.ok, a.order);
    } else if a.BeginApply? {
      BeginWires(sys, a);
    } else {
      TrafficWires(lim, sys, a);
    }
  }

  lemma OrderNow(lim: Limits, sys: System, a: Action)
    requires WiresOk(sys) && WorksOk(lim, sys)
    ensures OrderOk(Step(lim, sys, a).core.outbox)
  {
    hide Step, WorksOk, OrderOk, HeardOk;
    OrderStep(lim, sys, a);
  }

  lemma TrafficWires(lim: Limits, sys: System, a: Action)
    requires WiresOk(sys) && OrderOk(Step(lim, sys, a).core.outbox) && Traffic(a)
    ensures WiresOk(Step(lim, sys, a))
  {
    hide Step, OrderOk, HeardOk, WrittenOk, WriterOk, GateOk, Traffic, WireStays;
    TrafficStays(lim, sys, a);
    if sys.pair == Open {
      SameReports(sys, Step(lim, sys, a));
      Stays(sys, Step(lim, sys, a));
    }
  }

  lemma SameReports(sys: System, r: System)
    requires WireStays(sys, r) && r.wire.control == sys.wire.control && (r.life == sys.life || r.life.Clearing?)
    requires r.history.committed == sys.history.committed && ReportsTrue(sys)
    ensures ReportsTrue(r)
  {
  }

  lemma LifeWires(sys: System, ok: bool, order: seq<string>)
    requires WiresOk(sys) && PairOk(sys) && OrderOk(MoveLife(sys, ok, order).core.outbox)
    ensures WiresOk(MoveLife(sys, ok, order))
  {
    hide MoveLife, PairOk, OrderOk, WrittenOk, WriterOk, GateOk, HeardOk, LifeTrue, WireTrue;
    LifeEnds(sys, ok, order);
    if sys.pair == Open {
      LifeStays(sys, ok, order);
      Stays(sys, MoveLife(sys, ok, order));
    }
  }

  lemma BeginWires(sys: System, a: Action)
    requires WiresOk(sys) && CurrentCommitted(sys) && OrderOk(MoveRequest(sys, a).core.outbox) && a.BeginApply?
    ensures WiresOk(MoveRequest(sys, a))
  {
    hide BeginSpec, OrderOk, WrittenOk, WriterOk, GateOk, HeardOk, LifeTrue, WireTrue;
    if sys.pair == Open {
      BeginStays(sys, a.spec);
      Stays(sys, MoveRequest(sys, a));
    }
  }

  lemma {:induction false} WiresRun(lim: Limits, workers: nat, run: Run, n: nat)
    requires Reaches(lim, workers, run, n)
    ensures WiresOk(run.At(n))
  {
    hide Step, WiresOk, CountsOk, PairOk, AccountsOk, LifetimesOk, SpecsOk, AdmissionsOk, WorksOk;
    if n == 0 {
      WiresAtFirst(workers);
    } else {
      WiresRun(lim, workers, run, n - 1);
      NextState(lim, workers, run, n - 1);
      SafeRun(lim, workers, run, n - 1);
      WorksRun(lim, workers, run, n - 1);
      WiresStep(lim, run.At(n - 1), run.actions[n - 1]);
    }
  }

  lemma WiresAtFirst(workers: nat)
    ensures WiresOk(Initial(workers))
  {
  }

  // What it means.

  /** Work is opened only behind a successful apply result written on this pair's Control stream, and the
      spec that result reports was committed; and Work is accepted from the Host in strictly increasing sequence. */
  lemma WorkGated(lim: Limits, workers: nat, run: Run, n: nat)
    requires Reaches(lim, workers, run, n)
    ensures var sys := run.At(n);
            && (sys.pair == Open && sys.wire.workOpen ==>
                  && sys.core.link.attachEpoch == sys.core.link.epoch
                  && sys.wire.reported.Some? && sys.wire.reported.value in sys.history.committed)
            && (forall i, j :: 0 <= i < j < |sys.wire.heard| ==>
                0 < sys.wire.heard[i] < sys.wire.heard[j] <= sys.wire.workIn)
  {
    hide IsRun, OrderOk, WrittenOk, WriterOk;
    WiresRun(lim, workers, run, n);
  }

  /** On an open pair the first Work frame is the attach; later ones are numbered without gaps, carry the
      pair's epoch and are the frames the queue admitted on this pair, in the order it admitted them. */
  lemma WorkFramesInOrder(lim: Limits, workers: nat, run: Run, n: nat)
    requires Reaches(lim, workers, run, n)
    requires run.At(n).pair == Open
    ensures var (sys, written) := (run.At(n), run.At(n).wire.written);
            var (outbox, log) := (sys.core.outbox, sys.core.outbox.log);
            var first := |log| - |outbox.taken| - |outbox.queue|;
            && first >= 0 && |written| <= |outbox.taken| + 1
            && forall k :: 0 <= k < |written| ==>
                 written[k] == Stamped(sys.core.link.epoch, k + 1, if k == 0 then None else Some(log[first + k - 1]))
  {
    hide IsRun, GateOk, ReportsTrue, WriterOk, HeardOk;
    WiresRun(lim, workers, run, n);
    var sys := run.At(n);
    var outbox := sys.core.outbox;
    var all := outbox.taken + outbox.queue;
    assert forall k :: 0 <= k < |outbox.taken| ==> all[k] == outbox.taken[k];
  }

  /** Every frame the writer stamps with its real sequence number still fits the negotiated limit, as long
      as the number is a 64-bit one: the writer never stops a pair for a frame that grew too large. */
  lemma PreflightSound(lim: Limits, workers: nat, run: Run, n: nat)
    requires Reaches(lim, workers, run, n)
    requires run.At(n).pair == Open && run.At(n).wire.writer.Writing?
    requires run.At(n).wire.workOut <= U64_MAX
    ensures var sys := run.At(n);
            FramedBytes(lim.headerBytes, sys.core.link.epoch, sys.wire.workOut,
                sys.wire.writer.entry.frame) <= lim.maxFrame
  {
    hide IsRun, GateOk, ReportsTrue, WrittenOk, HeardOk, OrderOk, FramedBytes, CountsOk, PairOk, LifetimesOk, SpecsOk,
      AdmissionsOk;
    WiresRun(lim, workers, run, n);
    SafeRun(lim, workers, run, n);
    var sys := run.At(n);
    assert Measured(lim, sys.core.link.epoch, sys.core.outbox.taken[|sys.core.outbox.taken| - 1]);
    PreflightIsUpperBound(lim.headerBytes, sys.core.link.epoch, sys.wire.workOut, sys.wire.writer.entry.frame);
  }
}
