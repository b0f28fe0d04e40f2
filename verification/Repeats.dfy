/** A repeated spec is acknowledged silently, a handler is never missing, and no job enters one twice. */
module Repeats {
  import opened Base
  import opened Protocol
  import opened Complaints
  import opened Core
  import opened Machine
  import opened Threads
  import opened Accounts
  import opened Streams
  import opened Jobs
  import opened Admissions
  import opened Lifetimes
  import opened Transactions
  import opened Runs

  // Repeated specs.

  /** The callbacks that are not handler calls. */
  function LifecycleCalls(trace: seq<Callback>): seq<Callback> {
    if |trace| == 0 then []
    else
      var earlier, last := LifecycleCalls(trace[..|trace| - 1]), trace[|trace| - 1];
      if last.Enter? || last.Leave? then earlier else earlier + [last]
  }

  lemma HandlerCallsDropped(trace: seq<Callback>, call: Callback)
    requires call.Enter? || call.Leave?
    ensures LifecycleCalls(trace + [call]) == LifecycleCalls(trace)
  {
    assert (trace + [call])[..|trace|] == trace;
  }

  /** No spec arrives and no teardown begins. */
  predicate Uneventful(actions: seq<Action>) {
    forall i :: 0 <= i < |actions| ==> !actions[i].BeginApply? && !actions[i].Teardown?
  }

  predicate Stable(life: Lifecycle) { life.Resting? || life.Reporting? }

  lemma StableStep(lim: Limits, sys: System, a: Action)
    requires Stable(sys.life) && !a.BeginApply? && !a.Teardown?
    ensures Stable(Step(lim, sys, a).life)
    ensures LifecycleCalls(Step(lim, sys, a).history.trace) == LifecycleCalls(sys.history.trace)
  {
    hide MoveInbound, MoveWorker, MoveApp, BeginSpec, BeginTeardown, SetFlags, MoveLife, MoveRegistration, MovePair,
      MoveWire, WriterTouches, SamePair, SameSpec, LiveKept, LifecycleCalls, LifeFrame;
    if a.WorkerMove? {
      if a.worker < |sys.workers| { HandlersOnly(lim, sys, a.worker, a.input); }
    } else if a.LifeMove? {
      ReportOnly(sys, a.ok, a.order);
    }
  }

  lemma HandlersOnly(lim: Limits, sys: System, w: nat, x: WorkerInput)
    requires w < |sys.workers|
    ensures LifecycleCalls(MoveWorker(lim, sys, w, x).history.trace) == LifecycleCalls(sys.history.trace)
  {
    hide MoveWorker, LifecycleCalls, Granted, LiveKept, SamePair, SameSpec;
    var r := MoveWorker(lim, sys, w, x);
    if Inside(sys.workers[w]) {
      HandlerCallsDropped(sys.history.trace, Leave(sys.workers[w].binding));
    } else if Inside(r.workers[w]) {
      HandlerCallsDropped(sys.history.trace, Enter(r.workers[w].binding));
    } else {
      assert r.history.trace == sys.history.trace;
    }
  }

  lemma ReportOnly(sys: System, ok: bool, order: seq<string>)
    requires Stable(sys.life)
    ensures var r := MoveLife(sys, ok, order); Stable(r.life) && r.history.trace == sys.history.trace
  {
    hide MoveStartup, MoveCommit, MoveDeactivation, Tickets, LifeFrame;
  }

  lemma {:induction false} StableRun(lim: Limits, workers: nat, run: Run, n: nat, m: nat)
    requires Reaches(lim, workers, run, m) && n <= m && Stable(run.At(n).life) && Uneventful(run.actions[n..m])
    ensures Stable(run.At(m).life)
    ensures LifecycleCalls(run.At(m).history.trace) == LifecycleCalls(run.At(n).history.trace)
  {
    hide Step, LifecycleCalls;
    if n < m {
      assert run.actions[n..m][..m - 1 - n] == run.actions[n..m - 1]
          && run.actions[n..m][m - 1 - n] == run.actions[m - 1];
      StableRun(lim, workers, run, n, m - 1);
      NextState(lim, workers, run, m - 1);
      StableStep(lim, run.At(m - 1), run.actions[m - 1]);
    }
  }

  /** Applying the current spec again succeeds, and neither that nor anything up to the next spec or
      teardown makes a lifecycle callback. */
  lemma RepeatedSpecSilent(lim: Limits, workers: nat, run: Run, n: nat, m: nat, spec: Spec)
    requires Reaches(lim, workers, run, m) && n < m && run.actions[n] == BeginApply(spec)
    requires Uneventful(run.actions[n + 1..m])
    requires var sys := run.At(n);
             sys.pair == Open && sys.life == Resting && Sendable(sys.core) && sys.core.current == Some(spec)
    ensures run.At(n + 1).life == Reporting(Applied(spec))
    ensures LifecycleCalls(run.At(m).history.trace) == LifecycleCalls(run.At(n).history.trace)
  {
    hide LifecycleCalls, Safe, Step, Uneventful;
    SafeRun(lim, workers, run, n);
    CurrentValid(lim, run.At(n), spec);
    NextState(lim, workers, run, n);
    BeginsSilently(lim, run.At(n), spec);
    StableRun(lim, workers, run, n + 1, m);
  }

  lemma BeginsSilently(lim: Limits, sys: System, spec: Spec)
    requires sys.pair == Open && sys.life == Resting && Sendable(sys.core) && sys.core.current == Some(spec)
             && ValidSpec(spec)
    ensures Step(lim, sys, BeginApply(spec)) == sys.(life := Reporting(Applied(spec)))
  {
    hide MoveInbound, MoveWorker, MoveApp, MoveLife, MoveRegistration, MovePair, MoveWire, ValidSpec;
  }

  lemma CurrentValid(lim: Limits, sys: System, spec: Spec)
    requires Safe(lim, sys) && sys.life == Resting && sys.core.current == Some(spec)
    ensures ValidSpec(spec)
  {
    hide ValidSpec, Watch, AccountsOk;
  }

  // Bound handlers.

  /** In every reachable state Work that passes its context check finds its handler bound, so a source
      open is never refused for a missing one. */
  lemma HandlersBound(lim: Limits, workers: nat, run: Run, n: nat, context: Context, fingerprint: string, kind: Kind,
                      expired: bool)
    requires Reaches(lim, workers, run, n)
    ensures var core := run.At(n).core;
            ValidateWorkContext(core, context, fingerprint, kind, expired).Valid? ==>
              kind in core.active[context.capability].handlers
    ensures forall job :: JudgeSourceOpen(lim, run.At(n).core, job, expired) != Reject(OpenNoHandler)
  {
    hide IsRun, Safe, ValidateWorkContext;
    SafeRun(lim, workers, run, n);
    var core := run.At(n).core;
    forall c, e | c in core.active && e in core.active[c].endpoints
      ensures core.active[c].endpoints[e].mode in core.active[c].handlers
    {
      GrantBound(lim, run.At(n), c, e);
    }
  }

  lemma GrantBound(lim: Limits, sys: System, c: string, e: string)
    requires Safe(lim, sys) && c in sys.core.active && e in sys.core.active[c].endpoints
    ensures sys.core.active[c].endpoints[e].mode in sys.core.active[c].handlers
  {
    hide Watch, AccountsOk, SpecsOk, Handlers, WorkersServed, LiveServed, Winding, AdmissionsOk, CountsOk, PairOk;
    GrantsFromSpec(sys.core.current.value.grants, c);
  }

  // Handlers are entered once.

  function EnterCount(trace: seq<Callback>): nat {
    if |trace| == 0 then 0 else EnterCount(trace[..|trace| - 1]) + One(trace[|trace| - 1].Enter?)
  }

  lemma CountsLast(trace: seq<Callback>, call: Callback)
    ensures EnterCount(trace + [call]) == EnterCount(trace) + One(call.Enter?)
  {
    assert (trace + [call])[..|trace|] == trace;
  }

  /** Every entry in the trace has its own ticket, and no job that may still enter a handler has entered one. */
  predicate EntriesOk(sys: System) {
    var entered := sys.history.entered;
    && EnterCount(sys.history.trace) == |entered| && NoRepeats(entered)
    && (forall t :: t in entered ==> 0 < t < sys.core.nextTicket)
    && (forall i :: 0 <= i < |sys.core.dispatch| ==> sys.core.dispatch[i].ticket !in entered)
    && (forall w :: 0 <= w < |sys.workers| && BeforeEntry(sys.workers[w]) ==> sys.workers[w].job.ticket !in entered)
  }

  /** The jobs that may still enter a handler are old ones, or have new tickets. */
  predicate EntriesKept(sys: System, r: System) {
    && r.workers == sys.workers && sys.core.nextTicket <= r.core.nextTicket
    && r.history.entered == sys.history.entered && EnterCount(r.history.trace) == EnterCount(sys.history.trace)
    && (forall job :: job in r.core.dispatch ==> job in sys.core.dispatch || job.ticket >= sys.core.nextTicket)
  }

  lemma EntriesStay(sys: System, r: System)
    requires EntriesOk(sys) && EntriesKept(sys, r)
    ensures EntriesOk(r)
  {
  }

  lemma EntriesArrive(sys: System, r: System)
    requires Arrives(sys.core, r.core) && r.workers == sys.workers && r.history.entered == sys.history.entered
             && r.history.trace == sys.history.trace
    ensures EntriesKept(sys, r)
  {
    hide UnopenedKept;
    forall job | job in r.core.dispatch ensures job in sys.core.dispatch || job.ticket >= sys.core.nextTicket {
      var i :| 0 <= i < |r.core.dispatch| && r.core.dispatch[i] == job;
      if i < |sys.core.dispatch| && r.core.dispatch != sys.core.dispatch {
        assert r.core.dispatch[i] == r.core.dispatch[..|sys.core.dispatch|][i];
      }
    }
  }

  lemma EntriesShrink(sys: System, r: System)
    requires TablesShrink(sys, r) && r.history.entered == sys.history.entered
             && EnterCount(r.history.trace) == EnterCount(sys.history.trace)
    ensures EntriesKept(sys, r)
  {
  }

  lemma EntriesWorker(lim: Limits, sys: System, w: nat, x: WorkerInput)
    requires EntriesOk(sys) && JobsOk(sys) && w < |sys.workers|
    ensures EntriesOk(MoveWorker(lim, sys, w, x))
  {
    hide MoveWorker, Granted, LiveKept, SamePair, SameSpec, SourcesUntouched, JobsFresh, EnterCount;
    var pc, r := sys.workers[w], MoveWorker(lim, sys, w, x);
    WorkerJobs(lim, sys, w, x);
    if Inside(pc) {
      CountsLast(sys.history.trace, Leave(pc.binding));
    } else if Inside(r.workers[w]) {
      CountsLast(sys.history.trace, Enter(r.workers[w].binding));
      assert BeforeEntry(pc) && r.workers[w].job == pc.job;
    } else {
      assert r.history.trace == sys.history.trace && r.history.entered == sys.history.entered;
    }
    forall v | 0 <= v < |r.workers| && BeforeEntry(r.workers[v])
      ensures r.workers[v].job.ticket !in r.history.entered
    {
      assert v != w ==> r.workers[v] == sys.workers[v];
    }
    forall i | 0 <= i < |r.core.dispatch| ensures r.core.dispatch[i].ticket !in r.history.entered {
      assert r.core.dispatch[i] in sys.core.dispatch;
    }
  }

  lemma LifeEntries(sys: System, ok: bool, order: seq<string>)
    ensures EnterCount(MoveLife(sys, ok, order).history.trace) == EnterCount(sys.history.trace)
  {
    hide EnterCount, MoveDeactivation, MoveStartup, MoveCommit, LifeFrame, StartupFrame;
    DeactivationEntries(sys, order);
    StartupEntries(sys, ok);
    CommitEntries(sys, ok);
  }

  lemma DeactivationEntries(sys: System, order: seq<string>)
    ensures EnterCount(MoveDeactivation(sys, order).history.trace) == EnterCount(sys.history.trace)
  {
    hide EnterCount, Deactivated, LifeFrame, Bindings, Enumerates, Tickets, LiveTickets, Deactivate;
    CountsLast(sys.history.trace, ClearSpec);
    if sys.life.Halting? && |sys.life.bindings| > 0 {
      CountsLast(sys.history.trace, Stop(sys.life.bindings[|sys.life.bindings| - 1]));
    }
  }

  lemma StartupEntries(sys: System, ok: bool)
    ensures EnterCount(MoveStartup(sys, ok).history.trace) == EnterCount(sys.history.trace)
  {
    hide EnterCount, StartupFrame;
    var trace := sys.history.trace;
    CountsLast(trace, ApplySpec);
    CountsLast(trace, ClearSpec);
    CountsLast(trace + [ApplySpec], ClearSpec);
    if sys.life.Starting? && sys.life.started < |sys.life.spec.grants| {
      CountsLast(trace, Start(sys.life.spec.grants[sys.life.started].binding));
    } else if sys.life.Unwinding? && 0 < sys.life.started <= |sys.life.spec.grants| {
      CountsLast(trace, Stop(sys.life.spec.grants[sys.life.started - 1].binding));
    }
  }

  lemma CommitEntries(sys: System, ok: bool)
    ensures EnterCount(MoveCommit(sys, ok).history.trace) == EnterCount(sys.history.trace)
  {
    hide EnterCount, LifeFrame;
    CountsLast(sys.history.trace, CommitSpec);
    if sys.life.Readying? && sys.life.called < |sys.life.spec.grants| {
      CountsLast(sys.history.trace, ReadyCall(sys.life.spec.grants[sys.life.called].binding));
    }
  }

  lemma EntriesStep(lim: Limits, sys: System, a: Action)
    requires EntriesOk(sys) && JobsOk(sys)
    ensures EntriesOk(Step(lim, sys, a))
  {
    hide MoveInbound, MoveWorker, MoveApp, MoveRequest, MoveLife, MoveRegistration, MovePair, MoveWire, EntriesOk,
      EntriesKept, JobsOk, Arrives, TablesShrink, EnterCount, SamePair, SameSpec, LiveKept, WorkerFrame;
    var r := Step(lim, sys, a);
    if a.WorkerMove? {
      if a.worker < |sys.workers| { EntriesWorker(lim, sys, a.worker, a.input); }
    } else {
      if OfReader(a) {
        ReaderArrives(lim, sys, a);
        EntriesArrive(sys, r);
      } else if OfApp(a) {
        AppArrives(lim, sys, a);
        EntriesArrive(sys, r);
      } else if a.Notify? {
        EntriesNotified(sys, r);
      } else {
        if a.LifeMove? { LifeEntries(sys, a.ok, a.order); }
        QuietShrinks(lim, sys, a);
        EntriesShrink(sys, r);
      }
      EntriesStay(sys, r);
    }
  }

  lemma EntriesNotified(sys: System, r: System)
    requires RequestFrame(sys, r)
    ensures EntriesKept(sys, r)
  {
  }

  lemma {:induction false} EntriesRun(lim: Limits, workers: nat, run: Run, n: nat)
    requires Reaches(lim, workers, run, n)
    ensures EntriesOk(run.At(n))
  {
    hide Step, IsRun, EntriesOk, CountsOk, PairOk, AccountsOk, LifetimesOk, SpecsOk, Told, JobsOk;
    FirstState(lim, workers, run);
    if n == 0 {
      NoneEntered(workers);
    } else {
      EntriesRun(lim, workers, run, n - 1);
      SafeRun(lim, workers, run, n - 1);
      NextState(lim, workers, run, n - 1);
      EntriesStep(lim, run.At(n - 1), run.actions[n - 1]);
    }
  }

  lemma NoneEntered(workers: nat)
    ensures EntriesOk(Initial(workers))
  {
  }

  /** In any run every handler entry in the trace has its own admitted job: no job enters a handler twice. */
  lemma EnteredOnce(lim: Limits, workers: nat, run: Run, n: nat)
    requires Reaches(lim, workers, run, n)
    ensures var history := run.At(n).history;
            && EnterCount(history.trace) == |history.entered| && NoRepeats(history.entered)
            && forall t :: t in history.entered ==> 0 < t < run.At(n).core.nextTicket
  {
    hide IsRun, EnterCount;
    EntriesRun(lim, workers, run, n);
  }
}
