/** Spec transactions against running handlers: every reachable callback trace is one the
    monitor accepts, and a session commits its specs in order. */
module Transactions {
  import opened Base
  import opened Fips180
  import opened Protocol
  import opened Results
  import opened Core
  import opened Machine
  import opened Threads
  import opened Lifetimes

  // Handlers in progress.

  function HandlerOf(pc: Worker): multiset<nat> { if Inside(pc) then multiset{pc.binding} else multiset{} }

  function Handlers(workers: seq<Worker>): multiset<nat> {
    if |workers| == 0 then multiset{} else Handlers(workers[..|workers| - 1]) + HandlerOf(workers[|workers| - 1])
  }

  lemma {:induction false} HandlersUpdate(workers: seq<Worker>, i: nat, pc: Worker)
    requires i < |workers|
    ensures HandlerOf(workers[i]) <= Handlers(workers)
    ensures Handlers(workers[i := pc]) == Handlers(workers) - HandlerOf(workers[i]) + HandlerOf(pc)
  {
    hide HandlerOf;
    var last := |workers| - 1;
    if i == last {
      assert workers[i := pc][..last] == workers[..last];
    } else {
      assert workers[i := pc][..last] == workers[..last][i := pc] && workers[i := pc][last] == workers[last];
      HandlersUpdate(workers[..last], i, pc);
    }
  }

  predicate NoneHolding(workers: seq<Worker>) {
    forall i :: 0 <= i < |workers| ==> !Holding(workers[i])
  }

  lemma {:induction false} NoHandlers(workers: seq<Worker>)
    requires NoneHolding(workers)
    ensures Handlers(workers) == multiset{}
  {
    if |workers| > 0 {
      NoHandlers(workers[..|workers| - 1]);
    }
  }

  // Specs, their bindings and the capability map.

  lemma {:induction false} GrantsFromSpec(grants: seq<Grant>, c: string)
    requires c in Grants(grants)
    ensures Grants(grants)[c] in grants && Grants(grants)[c].capability == c
  {
    if |grants| > 0 {
      var front, last := grants[..|grants| - 1], grants[|grants| - 1];
      if c in Grants(front) {
        GrantsFromSpec(front, c);
      }
    }
  }

  lemma {:induction false} GrantsOfSpecOnly(grants: seq<Grant>, c: string)
    requires forall k :: 0 <= k < |grants| ==> grants[k].capability != c
    ensures c !in Grants(grants)
  {
    if |grants| > 0 {
      GrantsOfSpecOnly(grants[..|grants| - 1], c);
    }
  }

  lemma {:induction false} GrantsComplete(grants: seq<Grant>, i: nat)
    requires forall a, b :: 0 <= a < b < |grants| ==> grants[a].capability != grants[b].capability
    requires i < |grants|
    ensures grants[i].capability in Grants(grants) && Grants(grants)[grants[i].capability] == grants[i]
  {
    var front, last := grants[..|grants| - 1], grants[|grants| - 1];
    if i < |grants| - 1 {
      GrantsComplete(front, i);
      assert front[i] == grants[i];
    } else {
      assert forall k :: 0 <= k < |front| ==> front[k] == grants[k] && front[k].capability != last.capability;
      GrantsOfSpecOnly(front, last.capability);
    }
  }

  /** An active capability is served by a binding the committed spec started. */
  lemma ActiveServed(spec: Spec, c: string)
    requires c in Grants(spec.grants)
    ensures Grants(spec.grants)[c].binding in Plan(spec)
  {
    GrantsFromSpec(spec.grants, c);
    var k :| 0 <= k < |spec.grants| && spec.grants[k] == Grants(spec.grants)[c];
    assert Plan(spec)[k] == Grants(spec.grants)[c].binding;
  }

  /** Deactivation finds exactly the bindings the spec started, each once. */
  lemma BindingsArePlan(spec: Spec, order: seq<string>)
    requires ValidSpec(spec) && Enumerates(order, Grants(spec.grants))
    ensures var bindings := Bindings(order, Grants(spec.grants));
            && NoRepeats(bindings)
            && forall b :: b in bindings <==> b in Plan(spec)
  {
    var active := Grants(spec.grants);
    var bindings := Bindings(order, active);
    forall i, j | 0 <= i < j < |bindings| ensures bindings[i] != bindings[j] {
      GrantsFromSpec(spec.grants, order[i]);
      GrantsFromSpec(spec.grants, order[j]);
    }
    forall b ensures b in bindings <==> b in Plan(spec) {
      if b in bindings {
        var i :| 0 <= i < |bindings| && bindings[i] == b;
        ActiveServed(spec, order[i]);
      }
      if b in Plan(spec) {
        var k :| 0 <= k < |spec.grants| && Plan(spec)[k] == b;
        GrantsComplete(spec.grants, k);
        var i :| 0 <= i < |order| && order[i] == spec.grants[k].capability;
        assert bindings[i] == b;
      }
    }
  }

  // The invariant.

  predicate Steady(core: State, life: Life) {
    if core.current.Some? then
      var spec := core.current.value;
      ValidSpec(spec) && core.active == Grants(spec.grants) && life == On(Plan(spec), Serving)
    else core.active == map[] && life.Off?
  }

  predicate Vacant(core: State) { core.current.None? && core.active == map[] }

  ghost predicate Winding(bindings: seq<nat>, hadSpec: bool, life: Life) {
    && NoRepeats(bindings)
    && (if hadSpec then life.On? && !life.stage.Building? && forall b :: b in bindings <==> b in life.running
        else bindings == [] && life.Off?)
  }

  predicate NextOk(next: Next) { next.ThenApply? ==> ValidSpec(next.spec) }

  /** Where the transaction stands fixes what the application has been told. */
  ghost predicate StageOk(core: State, pc: Lifecycle, life: Life) {
    match pc
    case Awaiting(bindings, hadSpec, next) => Vacant(core) && Winding(bindings, hadSpec, life) && NextOk(next)
    case Halting(bindings, hadSpec, next) => Vacant(core) && Winding(bindings, hadSpec, life) && NextOk(next)
    case Applying(spec) => Vacant(core) && life.Off? && ValidSpec(spec)
    case Starting(spec, n) =>
      Vacant(core) && ValidSpec(spec) && n <= |spec.grants| && life == On(Plan(spec)[..n], Building)
    case Unwinding(spec, n, _) =>
      Vacant(core) && ValidSpec(spec) && n <= |spec.grants| && life == On(Plan(spec)[..n], Building)
    case Settling(spec) => Vacant(core) && ValidSpec(spec) && life == On(Plan(spec), Building)
    case Abandoning => Vacant(core) && life.Off?
    case Readying(spec, _) => Steady(core, life) && core.current == Some(spec)
    case Quiescing(spec) => Steady(core, life) && ValidSpec(spec)
    case Checking(spec) => Steady(core, life) && ValidSpec(spec)
    case Clearing(next) => Steady(core, life) && NextOk(next)
    case Resting | Publishing(_) | Reporting(_) => Steady(core, life)
  }

  /** From the end of deactivation's wait until the next commit. */
  predicate Quiescent(pc: Lifecycle) {
    pc.Halting? || pc.Applying? || pc.Starting? || pc.Unwinding? || pc.Settling? || pc.Abandoning?
  }

  predicate WorkersServed(workers: seq<Worker>, pc: Lifecycle, life: Life) {
    && (forall i :: 0 <= i < |workers| && Holding(workers[i]) ==> Serves(life, workers[i].binding))
    && (Quiescent(pc) ==> NoneHolding(workers))
  }

  ghost predicate LiveServed(core: State, life: Life) {
    forall id :: id in core.sources.live ==> core.current.Some? && Serves(life, core.sources.live[id].binding)
  }

  ghost predicate LifetimesOk(sys: System) {
    && Watch(sys.history.trace).Some?
    && var m := Watch(sys.history.trace).value;
    && m.open == Handlers(sys.workers)
    && StageOk(sys.core, sys.life, m.life)
    && WorkersServed(sys.workers, sys.life, m.life)
    && LiveServed(sys.core, m.life)
    && (Dormant(sys.pair) ==> sys.life == Resting && sys.core.current.None?)
  }

  /** No session was ever installed, or the supervisor has torn it down. */
  predicate Dormant(pair: Pair) { pair.Unregistered? || pair.Registering? || pair.Over? }

  predicate SameCommitted(s: State, t: State) { t.current == s.current && t.active == s.active }

  // Preservation.

  /** Every source that is live afterwards was live before or opened on an active binding. */
  ghost predicate LiveFrom(s: State, t: State) {
    forall id :: id in t.sources.live ==>
      || (id in s.sources.live && t.sources.live[id].binding == s.sources.live[id].binding)
      || (exists c :: c in s.active && s.active[c].binding == t.sources.live[id].binding)
  }

  lemma GrantedServed(core: State, life: Life, pc: Lifecycle, b: nat)
    requires StageOk(core, pc, life) && LiveServed(core, life) && Granted(core, b)
    ensures Serves(life, b) && core.current.Some?
  {
    if c :| c in core.active && core.active[c].binding == b {
      ActiveServed(core.current.value, c);
    }
  }

  lemma LiveFromServed(s: State, t: State, life: Life, pc: Lifecycle)
    requires StageOk(s, pc, life) && LiveServed(s, life) && LiveFrom(s, t) && SameCommitted(s, t)
    ensures LiveServed(t, life)
  {
    hide StageOk;
    forall id | id in t.sources.live ensures t.current.Some? && Serves(life, t.sources.live[id].binding) {
      assert Granted(s, t.sources.live[id].binding);
      GrantedServed(s, life, pc, t.sources.live[id].binding);
    }
  }

  lemma StageKept(s: State, t: State, pc: Lifecycle, life: Life)
    requires StageOk(s, pc, life) && SameCommitted(s, t)
    ensures StageOk(t, pc, life)
  {
    hide ValidSpec, Grants, Winding;
  }

  /** Steps that make no callback and leave the workers and the lifecycle alone. */
  lemma SilentStep(sys: System, r: System)
    requires LifetimesOk(sys)
    requires r.history.trace == sys.history.trace && r.workers == sys.workers && r.life == sys.life
    requires SameCommitted(sys.core, r.core) && LiveFrom(sys.core, r.core) && (Dormant(r.pair) ==> Dormant(sys.pair))
    ensures LifetimesOk(r)
  {
    hide StageOk, WorkersServed, LiveServed, LiveFrom, Watch;
    var life := Watch(sys.history.trace).value.life;
    StageKept(sys.core, r.core, sys.life, life);
    LiveFromServed(sys.core, r.core, life, sys.life);
  }

  lemma ReceiveLive(lim: Limits, sys: System, sequence: nat, authentic: bool, frame: HostFrame, expired: bool,
                    wire: seq<Byte>)
    ensures LiveFrom(sys.core, Receive(lim, sys, sequence, authentic, frame, expired, wire).core)
  {
    hide ReaderFrame, Handle, Tickets, LiveFrom;
    LiveSame(sys.core, sys.core);
    LiveSame(sys.core, SignalTerminalFailure(sys.core));
    HandleLive(lim, sys.(wire := sys.wire.(workIn := sequence, heard := sys.wire.heard + [sequence])), frame, expired,
        wire);
  }

  lemma LiveSame(s: State, t: State)
    requires t.sources.live == s.sources.live
    ensures LiveFrom(s, t)
  {
  }

  lemma HandleLive(lim: Limits, sys: System, frame: HostFrame, expired: bool, wire: seq<Byte>)
    ensures LiveFrom(sys.core, Handle(lim, sys, frame, expired, wire).core)
  {
    hide ReaderFrame, EnqueueDispatch, EnqueueSourceOpen, GrantSourceCredit, HandleCancellation, AcknowledgeTerminal,
      Tickets, LiveFrom, Begin, Conclude, Credited, Owe, RejectedDispatch;
    LiveSame(sys.core, sys.core);
    match frame
    case WorkRequest(job) => LiveSame(sys.core, EnqueueDispatch(lim, sys.core, job.(ticket := 0, reservation := 0)).0);
    case OpenRequest(job) => OpenLive(lim, sys.core, job.(kind := SourceOpen), expired, wire);
    case CreditFrame(id, acknowledged, grant) => CreditLive(sys.core, id, acknowledged, grant);
    case CancelFrame(identity, reason) => CancelLive(lim, sys.core, identity, reason, wire);
    case AckFrame(identity, digest) => LiveSame(sys.core, AcknowledgeTerminal(sys.core, identity, digest).0);
    case EmptyFrame =>
    case HostError => LiveSame(sys.core, SignalTerminalFailure(sys.core));
  }

  lemma OpenLive(lim: Limits, s: State, job: Job, expired: bool, wire: seq<Byte>)
    ensures LiveFrom(s, EnqueueSourceOpen(lim, s, job, expired, wire).0)
  {
    hide CommitSourceTerminal, JudgeSourceOpen, ValidateWorkContext;
  }

  lemma CreditLive(s: State, id: string, acknowledged: nat, grant: Credit)
    ensures LiveFrom(s, GrantSourceCredit(s, id, acknowledged, grant).0)
  {
  }

  lemma CancelLive(lim: Limits, s: State, identity: Identity, reason: string, wire: seq<Byte>)
    ensures LiveFrom(s, HandleCancellation(lim, s, identity, reason, wire).0)
  {
    hide CommitSourceTerminal;
  }

  lemma ReaderLive(lim: Limits, sys: System)
    ensures LiveFrom(sys.core, MoveReader(lim, sys).core)
  {
    hide ReaderFrame, QueueWork, CommitTerminal, Tickets, Tell, Answer, LiveFrom;
    LiveSame(sys.core, MoveReader(lim, sys).core);
  }

  /** A worker comes to hold a binding only while it is granted, and enters only what it holds. */
  lemma WorkerStep(lim: Limits, sys: System, w: nat, x: WorkerInput)
    requires LifetimesOk(sys) && w < |sys.workers|
    ensures LifetimesOk(MoveWorker(lim, sys, w, x))
  {
    hide MoveWorker, StageOk, LiveServed, Granted, SamePair, Watch, Handlers, Observe;
    var r := MoveWorker(lim, sys, w, x);
    var pc, next, m := sys.workers[w], r.workers[w], Watch(sys.history.trace).value;
    HandlersUpdate(sys.workers, w, next);
    StageKept(sys.core, r.core, sys.life, m.life);
    assert LiveServed(r.core, m.life) by {
      LiveKeptFrom(sys.core, r.core);
      LiveFromServed(sys.core, r.core, m.life, sys.life);
    }
    if Granted(sys.core, if Holding(next) then next.binding else 0) {
      GrantedServed(sys.core, m.life, sys.life, if Holding(next) then next.binding else 0);
      VacantWhileQuiescent(sys.core, sys.life, m.life);
    }
    if Inside(pc) {
      LeaveObserved(sys.history.trace, pc.binding);
    } else if Inside(next) {
      EnterObserved(sys.history.trace, next.binding);
    } else {
      assert r.history.trace == sys.history.trace;
    }
  }

  lemma LiveKeptFrom(s: State, t: State)
    requires LiveKept(s, t)
    ensures LiveFrom(s, t)
  {
  }

  lemma VacantWhileQuiescent(core: State, pc: Lifecycle, life: Life)
    requires StageOk(core, pc, life)
    ensures Quiescent(pc) ==> core.current.None?
  {
  }

  lemma LeaveObserved(trace: seq<Callback>, b: nat)
    requires Watch(trace).Some? && b in Watch(trace).value.open
    ensures var m := Watch(trace).value;
            Watch(trace + [Leave(b)]) == Some(m.(open := m.open - multiset{b}))
  {
    WatchStep(trace, Leave(b));
  }

  lemma EnterObserved(trace: seq<Callback>, b: nat)
    requires Watch(trace).Some? && Serves(Watch(trace).value.life, b)
    ensures var m := Watch(trace).value;
            Watch(trace + [Enter(b)]) == Some(m.(open := m.open + multiset{b}))
  {
    WatchStep(trace, Enter(b));
  }

  lemma BeginStep(sys: System, spec: Spec)
    requires LifetimesOk(sys)
    ensures LifetimesOk(BeginSpec(sys, spec))
  {
    hide Watch, Handlers, ValidSpec, Tickets, Grants, Plan, NoneHolding;
  }

  lemma TeardownStep(sys: System)
    requires LifetimesOk(sys)
    ensures LifetimesOk(BeginTeardown(sys))
  {
    hide Watch, Handlers, ValidSpec, Grants, Plan, NoneHolding;
  }

  lemma LifeStep(sys: System, ok: bool, order: seq<string>)
    requires LifetimesOk(sys) && CountsOk(sys)
    ensures LifetimesOk(MoveLife(sys, ok, order))
  {
    hide Watch, Handlers, ValidSpec, Grants, Plan, NoneHolding, MoveDeactivation, MoveStartup, MoveCommit, CountsOk,
      LiveServed, LifeFrame, Winding;
    match sys.life
    case Clearing(_) | Awaiting(_, _, _) | Halting(_, _, _) => DeactivationStep(sys, order);
    case Applying(_) | Starting(_, _) | Unwinding(_, _, _) | Abandoning => StartupStep(sys, ok);
    case Settling(_) | Readying(_, _) | Publishing(_) => CommitStep(sys, ok);
    case Reporting(_) => ReportStep(sys, ok, order);
    case Resting | Quiescing(_) | Checking(_) =>
  }

  lemma ReportStep(sys: System, ok: bool, order: seq<string>)
    requires LifetimesOk(sys) && sys.life.Reporting?
    ensures LifetimesOk(MoveLife(sys, ok, order))
  {
    hide Watch, Handlers, LifeFrame, Steady, LiveServed, NoneHolding, Tickets, MoveDeactivation, MoveStartup,
      MoveCommit;
    var life := Watch(sys.history.trace).value.life;
    StageKept(sys.core, SignalFailure(sys.core), sys.life, life);
    LiveSame(sys.core, SignalFailure(sys.core));
    LiveFromServed(sys.core, SignalFailure(sys.core), life, sys.life);
  }

  lemma DeactivationStep(sys: System, order: seq<string>)
    requires LifetimesOk(sys) && CountsOk(sys) && (sys.life.Clearing? || sys.life.Awaiting? || sys.life.Halting?)
    ensures LifetimesOk(MoveDeactivation(sys, order))
  {
    hide LifetimesOk, StopTaking, Deactivated, CountsOk;
    match sys.life
    case Clearing(next) => StopTakingStep(sys, next, order);
    case Awaiting(_, _, _) => AwaitStep(sys, order);
    case Halting(bindings, hadSpec, next) =>
      if |bindings| > 0 { HaltStep(sys, order); } else { DeactivatedStep(sys, hadSpec, next); }
  }

  lemma StopTakingStep(sys: System, next: Next, order: seq<string>)
    requires LifetimesOk(sys) && sys.life == Clearing(next)
    ensures LifetimesOk(StopTaking(sys, next, order))
  {
    hide Watch, Handlers, ValidSpec, Grants, NoneHolding, LiveTickets, Tickets, Enumerates, Plan;
    var core := sys.core;
    if Enumerates(order, core.active) {
      if core.current.Some? {
        BindingsArePlan(core.current.value, order);
      } else {
        NothingToStop(order, core.active);
      }
    }
  }

  lemma NothingToStop(order: seq<string>, active: map<string, Grant>)
    requires active == map[] && Enumerates(order, active)
    ensures Bindings(order, active) == []
  {
    if |order| > 0 {
      FirstIsActive(order, active);
    }
  }

  lemma FirstIsActive(order: seq<string>, active: map<string, Grant>)
    requires |order| > 0 && Enumerates(order, active)
    ensures active != map[]
  {
    assert order[0] in active;
  }

  lemma SomeMember(s: seq<nat>)
    ensures s == [] || exists b :: b in s
  {
    if s != [] {
      assert s[0] in s;
    }
  }

  /** When the wait returns, no worker is in a handler or on its way into one. */
  lemma AwaitStep(sys: System, order: seq<string>)
    requires LifetimesOk(sys) && CountsOk(sys) && sys.life.Awaiting?
    ensures LifetimesOk(MoveDeactivation(sys, order))
  {
    hide Watch, Handlers, ValidSpec, CountsOk, StopTaking, Deactivated, LifeFrame, Winding;
    if Quiet(sys) {
      QuietMeansIdle(sys);
    }
  }

  lemma HaltStep(sys: System, order: seq<string>)
    requires LifetimesOk(sys) && sys.life.Halting? && |sys.life.bindings| > 0
    ensures LifetimesOk(MoveDeactivation(sys, order))
  {
    hide Watch, Handlers, ValidSpec, StopTaking, Deactivated, LifeFrame, Without;
    var bindings := sys.life.bindings;
    NoHandlers(sys.workers);
    WatchStep(sys.history.trace, Stop(bindings[|bindings| - 1]));
    forall b ensures b in bindings[..|bindings| - 1] <==> b in bindings && b != bindings[|bindings| - 1] {
      LastOut(bindings, b);
    }
  }

  lemma DeactivatedStep(sys: System, hadSpec: bool, next: Next)
    requires LifetimesOk(sys) && sys.life == Halting([], hadSpec, next)
    ensures LifetimesOk(Deactivated(if hadSpec then Log(sys, ClearSpec) else sys, next))
  {
    hide Watch, Handlers, ValidSpec, Without, LifeFrame, NoneHolding, Plan, Grants, NoRepeats, Deactivated;
    NoHandlers(sys.workers);
    WatchStep(sys.history.trace, ClearSpec);
    var life := Watch(sys.history.trace).value.life;
    if hadSpec {
      SomeMember(life.running);
      OffStep(Log(sys, ClearSpec), next);
    } else {
      OffStep(sys, next);
    }
  }

  /** With the application off the transaction goes on, reports, or ends the session. */
  lemma OffStep(sys: System, next: Next)
    requires Watch(sys.history.trace) == Some(Monitor(Off, Handlers(sys.workers))) && Vacant(sys.core) && NextOk(next)
    requires NoneHolding(sys.workers) && NoneLive(sys.core) && !Dormant(sys.pair)
    ensures LifetimesOk(Deactivated(sys, next))
  {
    hide Watch, Handlers, ValidSpec, LifeFrame;
  }

  lemma StartupStep(sys: System, ok: bool)
    requires LifetimesOk(sys)
    requires sys.life.Applying? || sys.life.Starting? || sys.life.Unwinding? || sys.life.Abandoning?
    ensures LifetimesOk(MoveStartup(sys, ok))
  {
    hide Watch, Handlers, LifeFrame, Without, ValidSpec, Plan, NoneHolding;
    NoHandlers(sys.workers);
    if sys.life.Applying? {
      WatchStep(sys.history.trace, ApplySpec);
      WatchStep(sys.history.trace + [ApplySpec], ClearSpec);
      assert Plan(sys.life.spec)[..0] == [];
    } else if sys.life.Starting? {
      StartStep(sys, ok);
    } else if sys.life.Unwinding? {
      UnwindStep(sys, ok);
    }
  }

  lemma StartStep(sys: System, ok: bool)
    requires LifetimesOk(sys) && sys.life.Starting?
    ensures LifetimesOk(MoveStartup(sys, ok))
  {
    hide Watch, Handlers, LifeFrame, ValidSpec, NoneHolding;
    var spec, n := sys.life.spec, sys.life.started;
    if n < |spec.grants| {
      WatchStep(sys.history.trace, Start(spec.grants[n].binding));
      NextStart(spec, n);
    } else {
      assert Plan(spec)[..n] == Plan(spec);
    }
  }

  /** An aborted candidate stops in exact reverse start order, then clears. */
  lemma UnwindStep(sys: System, ok: bool)
    requires LifetimesOk(sys) && sys.life.Unwinding?
    ensures LifetimesOk(MoveStartup(sys, ok))
  {
    hide Watch, Handlers, LifeFrame, Without, ValidSpec;
    NoHandlers(sys.workers);
    var spec, n := sys.life.spec, sys.life.started;
    if n > 0 {
      WatchStep(sys.history.trace, Stop(spec.grants[n - 1].binding));
      assert Plan(spec)[..n][..n - 1] == Plan(spec)[..n - 1];
    } else {
      WatchStep(sys.history.trace, ClearSpec);
    }
  }

  lemma NextStart(spec: Spec, n: nat)
    requires ValidSpec(spec) && n < |spec.grants|
    ensures spec.grants[n].binding !in Plan(spec)[..n]
    ensures Plan(spec)[..n] + [spec.grants[n].binding] == Plan(spec)[..n + 1]
  {
  }

  lemma CommitStep(sys: System, ok: bool)
    requires LifetimesOk(sys)
    requires sys.life.Settling? || sys.life.Readying? || sys.life.Publishing?
    ensures LifetimesOk(MoveCommit(sys, ok))
  {
    hide Watch, Handlers, LifeFrame, Without, Grants, ValidSpec, NoneHolding, Plan, CommitSection, Sendable;
    match sys.life
    case Settling(spec) => SettleStep(sys, spec);
    case Readying(spec, called) => if called < |spec.grants| { ReadyStep(sys, ok); }
    case Publishing(_) =>
  }

  lemma SettleStep(sys: System, spec: Spec)
    requires LifetimesOk(sys) && sys.life == Settling(spec)
    ensures LifetimesOk(CommitSection(sys, spec))
  {
    hide Watch, Handlers, LifeFrame, Without, Grants, ValidSpec, Sendable;
    WatchStep(sys.history.trace, CommitSpec);
    assert Plan(spec)[..|spec.grants|] == Plan(spec);
  }

  lemma ReadyStep(sys: System, ok: bool)
    requires LifetimesOk(sys) && sys.life.Readying? && sys.life.called < |sys.life.spec.grants|
    ensures LifetimesOk(MoveCommit(sys, ok))
  {
    hide Watch, Handlers, LifeFrame, Without, Grants, ValidSpec, NoneHolding, CommitSection;
    var spec, called := sys.life.spec, sys.life.called;
    assert Plan(spec)[called] in Plan(spec);
    WatchStep(sys.history.trace, ReadyCall(spec.grants[called].binding));
  }

  lemma LifetimesStep(lim: Limits, sys: System, a: Action)
    requires LifetimesOk(sys) && CountsOk(sys)
    ensures LifetimesOk(Step(lim, sys, a))
  {
    hide MoveInbound, MoveWorker, MoveApp, BeginSpec, BeginTeardown, SetFlags, MoveLife, MoveRegistration, MovePair,
      MoveWire, CountsOk, LifetimesOk, WorkerFrame, ReaderFrame, LifeFrame, PairFrame, WriterTouches, SamePair,
      SameSpec;
    if OfReader(a) || OfApp(a) || a.WorkerMove? {
      TrafficStep(lim, sys, a);
    } else if a.BeginApply? {
      BeginStep(sys, a.spec);
    } else if a.Teardown? {
      TeardownStep(sys);
    } else if a.LifeMove? {
      LifeStep(sys, a.ok, a.order);
    } else if OfRegistration(a) {
      RegistrationStep(lim, sys, a);
    } else if OfPair(a) {
      PairMoveStep(lim, sys, a);
    } else if OfWire(a) {
      WireStep(lim, sys, a);
    } else {
      FlagStep(sys, a);
    }
  }

  lemma TrafficStep(lim: Limits, sys: System, a: Action)
    requires LifetimesOk(sys)
    requires OfReader(a) || a.WorkerMove? || OfApp(a)
    ensures LifetimesOk(Step(lim, sys, a))
  {
    hide Receive, MoveReader, MoveWorker, MoveApp, MoveRequest, MoveLife, MoveRegistration, MovePair, MoveWire,
      LifetimesOk, WorkerFrame, SamePair, LiveFrom, LiveKept;
    if a.Inbound? {
      ReceiveLive(lim, sys, a.sequence, a.authentic, a.frame, a.expired, a.wire);
      SilentStep(sys, Step(lim, sys, a));
    } else if a.ReaderMove? {
      ReaderLive(lim, sys);
      SilentStep(sys, Step(lim, sys, a));
    } else if a.WorkerMove? {
      if a.worker < |sys.workers| { WorkerStep(lim, sys, a.worker, a.input); }
    } else {
      LiveKeptFrom(sys.core, Step(lim, sys, a).core);
      SilentStep(sys, Step(lim, sys, a));
    }
  }

  lemma FlagStep(sys: System, a: Action)
    requires LifetimesOk(sys)
    requires OfRequest(a) && !a.BeginApply? && !a.Teardown?
    ensures LifetimesOk(MoveRequest(sys, a))
  {
    hide Receive, MoveReader, MoveWorker, AppPublish, AppClose, BeginSpec, MoveLife, SetFlags, MovePair, MoveWire,
      LifetimesOk, LiveFrom, SamePair, ReaderFrame, WorkerFrame, LifeFrame;
    LiveSame(sys.core, MoveRequest(sys, a).core);
    SilentStep(sys, MoveRequest(sys, a));
  }

  lemma PairMoveStep(lim: Limits, sys: System, a: Action)
    requires LifetimesOk(sys)
    ensures LifetimesOk(MovePair(lim, sys, a))
  {
    hide LifetimesOk, LiveFrom, Tickets, LiveTickets, ReleaseAllTokens, JudgePair;
    var r := MovePair(lim, sys, a);
    assert LiveFrom(sys.core, r.core) by {
      assert r.core.sources.live == sys.core.sources.live || r.core.sources.live == map[];
      if r.core.sources.live == sys.core.sources.live {
        LiveSame(sys.core, r.core);
      } else {
        NoLive(sys.core, r.core);
      }
    }
    JudgeSpares(lim, sys);
    SilentStep(sys, r);
  }

  lemma JudgeSpares(lim: Limits, sys: System)
    ensures !Dormant(JudgePair(lim, sys).pair) || JudgePair(lim, sys).pair == sys.pair
    ensures JudgePair(lim, sys).core.link.session == sys.core.link.session
  {
  }

  lemma RegistrationStep(lim: Limits, sys: System, a: Action)
    requires LifetimesOk(sys)
    ensures LifetimesOk(MoveRegistration(lim, sys, a))
  {
    hide LifetimesOk, LiveFrom, Negotiated;
    var r := MoveRegistration(lim, sys, a);
    if r.core == sys.core {
      LiveSame(sys.core, r.core);
    } else {
      NoLive(sys.core, r.core);
    }
    SilentStep(sys, r);
  }

  lemma NoLive(s: State, t: State)
    requires t.sources.live == map[]
    ensures LiveFrom(s, t)
  {
  }

  lemma WireStep(lim: Limits, sys: System, a: Action)
    requires LifetimesOk(sys)
    ensures LifetimesOk(MoveWire(lim, sys, a))
  {
    hide LifetimesOk, LiveFrom, MoveWire;
    LiveSame(sys.core, MoveWire(lim, sys, a).core);
    SilentStep(sys, MoveWire(lim, sys, a));
  }

  // Committed specs.

  predicate InOrder(bootstrap: Spec, committed: seq<Spec>) {
    && (|committed| > 0 ==> committed[0] == bootstrap)
    && forall i, j :: 0 <= i < j < |committed| ==>
         committed[i].revision < committed[j].revision || committed[i] == committed[j]
  }

  predicate Follows(committed: seq<Spec>, spec: Spec) {
    |committed| > 0 ==> spec == committed[|committed| - 1] || spec.revision > committed[|committed| - 1].revision
  }

  predicate Pursues(next: Next, desired: Spec) { next.ThenApply? ==> next.spec == desired }

  /** A transaction in progress applies the desired spec. */
  predicate Targets(pc: Lifecycle, desired: Spec) {
    match pc
    case Quiescing(spec) => spec == desired
    case Checking(spec) => spec == desired
    case Clearing(next) => Pursues(next, desired)
    case Awaiting(_, _, next) => Pursues(next, desired)
    case Halting(_, _, next) => Pursues(next, desired)
    case Applying(spec) => spec == desired
    case Starting(spec, _) => spec == desired
    case Unwinding(spec, _, _) => spec == desired
    case Settling(spec) => spec == desired
    case _ => true
  }

  /** The desired spec pins what a retry may commit, even after a deactivation lost the current one. */
  predicate SpecsOk(bootstrap: Spec, sys: System) {
    var core, committed := sys.core, sys.history.committed;
    && InOrder(bootstrap, committed) && Targets(sys.life, core.desired)
    && (core.link.session ==> Pinned(bootstrap, core.current, core.desired, committed))
    && (!core.link.session ==> core.current.None?)
    && (sys.pair.Unregistered? || sys.pair.Registering? ==> committed == [] && core.current.None?)
  }

  predicate Pinned(bootstrap: Spec, current: Option<Spec>, desired: Spec, committed: seq<Spec>) {
    && Follows(committed, desired)
    && (|committed| == 0 ==> desired == bootstrap && current.None?)
    && (current.Some? ==> current.value == committed[|committed| - 1])
  }

  lemma SpecsStep(lim: Limits, sys: System, a: Action)
    requires SpecsOk(lim.bootstrap, sys) && PairOk(sys)
    ensures SpecsOk(lim.bootstrap, Step(lim, sys, a))
  {
    hide MoveInbound, MoveWorker, MoveApp, MoveRequest, MoveLife, MoveRegistration, MovePair, MoveWire, WorkerMoves,
      LiveKept, LifeFrame, PairOk, RequestFrame, AppFrame, WireFrame, SpecsOk, ReaderFrame, PairFrame, SamePair,
      SameSpec, WorkerFrame;
    if a.LifeMove? {
      SpecsLife(lim.bootstrap, sys, a.ok, a.order);
    } else if OfRegistration(a) {
      SpecsRegistration(lim, sys, a);
    } else if OfPair(a) {
      SpecsPair(lim, sys, a);
    } else if OfReader(a) || OfApp(a) || a.WorkerMove? {
      SpecsTraffic(lim, sys, a);
    } else if OfWire(a) {
      SpecsWire(lim, sys, a);
    } else {
      SpecsRequest(lim, sys, a);
    }
  }

  lemma SpecsTraffic(lim: Limits, sys: System, a: Action)
    requires SpecsOk(lim.bootstrap, sys)
    requires OfReader(a) || a.WorkerMove? || OfApp(a)
    ensures SpecsOk(lim.bootstrap, Step(lim, sys, a))
  {
    hide MoveInbound, MoveWorker, MoveApp, MoveRequest, MoveLife, MoveRegistration, MovePair, MoveWire,
      WorkerMoves, SpecsOk, LiveKept;
    SpecsUntouched(lim.bootstrap, sys, Step(lim, sys, a));
  }

  lemma SpecsRequest(lim: Limits, sys: System, a: Action)
    requires SpecsOk(lim.bootstrap, sys)
    ensures SpecsOk(lim.bootstrap, MoveRequest(sys, a))
  {
    hide BeginSpec, BeginTeardown, SetFlags, SpecsOk, RequestFrame, SamePair;
    if a.BeginApply? {
      SpecsBegin(lim.bootstrap, sys, a.spec);
    } else if a.Teardown? {
      SpecsTeardown(lim.bootstrap, sys);
    } else {
      SpecsFlags(lim, sys, a);
    }
  }

  lemma SpecsFlags(lim: Limits, sys: System, a: Action)
    requires SpecsOk(lim.bootstrap, sys)
    requires !a.BeginApply? && !a.Teardown?
    ensures SpecsOk(lim.bootstrap, MoveRequest(sys, a))
  {
    hide SetFlags, SpecsOk;
    SpecsUntouched(lim.bootstrap, sys, MoveRequest(sys, a));
  }

  lemma SpecsWire(lim: Limits, sys: System, a: Action)
    requires SpecsOk(lim.bootstrap, sys)
    ensures SpecsOk(lim.bootstrap, MoveWire(lim, sys, a))
  {
    hide MoveWire, SpecsOk;
    SpecsUntouched(lim.bootstrap, sys, MoveWire(lim, sys, a));
  }

  /** Most steps do not come near the specs. */
  lemma SpecsUntouched(bootstrap: Spec, sys: System, r: System)
    requires SpecsOk(bootstrap, sys) && SameSpec(sys.core, r.core) && r.core.link.session == sys.core.link.session
    requires r.history.committed == sys.history.committed && r.life == sys.life
    requires r.pair == sys.pair || (!r.pair.Unregistered? && !r.pair.Registering?)
    ensures SpecsOk(bootstrap, r)
  {
    hide InOrder, Follows, Targets;
  }

  lemma SpecsPair(lim: Limits, sys: System, a: Action)
    requires SpecsOk(lim.bootstrap, sys)
    ensures SpecsOk(lim.bootstrap, MovePair(lim, sys, a))
  {
    hide SpecsOk, Tickets, LiveTickets, ReleaseAllTokens, JudgePair;
    JudgeSpares(lim, sys);
    SpecsUntouched(lim.bootstrap, sys, MovePair(lim, sys, a));
  }

  /** A session begins with its bootstrap spec desired and nothing committed. */
  lemma SpecsRegistration(lim: Limits, sys: System, a: Action)
    requires SpecsOk(lim.bootstrap, sys) && PairOk(sys)
    ensures SpecsOk(lim.bootstrap, MoveRegistration(lim, sys, a))
  {
    hide Negotiated, AtRest;
  }

  lemma SpecsTeardown(bootstrap: Spec, sys: System)
    requires SpecsOk(bootstrap, sys)
    ensures SpecsOk(bootstrap, BeginTeardown(sys))
  {
    hide InOrder, Pinned;
  }

  lemma SpecsBegin(bootstrap: Spec, sys: System, spec: Spec)
    requires SpecsOk(bootstrap, sys)
    ensures SpecsOk(bootstrap, BeginSpec(sys, spec))
  {
    hide Tickets, ValidSpec;
  }

  lemma SpecsLife(bootstrap: Spec, sys: System, ok: bool, order: seq<string>)
    requires SpecsOk(bootstrap, sys) && PairOk(sys)
    ensures SpecsOk(bootstrap, MoveLife(sys, ok, order))
  {
    hide MoveDeactivation, MoveStartup, MoveCommit, InOrder, Pinned, AtRest, Tickets, LifeFrame;
    match sys.life
    case Clearing(_) | Awaiting(_, _, _) | Halting(_, _, _) => SpecsDeactivation(bootstrap, sys, order);
    case Applying(_) | Starting(_, _) | Unwinding(_, _, _) | Abandoning => SpecsStartup(bootstrap, sys, ok);
    case Settling(_) | Readying(_, _) | Publishing(_) => SpecsCommit(bootstrap, sys, ok);
    case Reporting(_) | Resting | Quiescing(_) | Checking(_) =>
  }

  lemma SpecsDeactivation(bootstrap: Spec, sys: System, order: seq<string>)
    requires SpecsOk(bootstrap, sys) && (sys.life.Clearing? || sys.life.Awaiting? || sys.life.Halting?)
    requires !sys.pair.Unregistered? && !sys.pair.Registering?
    ensures SpecsOk(bootstrap, MoveDeactivation(sys, order))
  {
    hide InOrder, StopTaking, Deactivated, LifeFrame;
    if sys.life.Clearing? {
      SpecsStopTaking(bootstrap, sys, sys.life.next, order);
    } else if sys.life.Halting? {
      SpecsDeactivated(bootstrap, sys, sys.life.next);
      SpecsDeactivated(bootstrap, Log(sys, ClearSpec), sys.life.next);
    }
  }

  lemma SpecsStopTaking(bootstrap: Spec, sys: System, next: Next, order: seq<string>)
    requires SpecsOk(bootstrap, sys) && sys.life == Clearing(next)
    ensures SpecsOk(bootstrap, StopTaking(sys, next, order))
  {
    hide InOrder, Follows, Tickets, LiveTickets, Enumerates, Bindings, LifeFrame;
  }

  lemma SpecsDeactivated(bootstrap: Spec, sys: System, next: Next)
    requires SpecsOk(bootstrap, sys) && sys.life.Halting? && sys.life.next == next
    ensures SpecsOk(bootstrap, Deactivated(sys, next))
  {
    hide InOrder, Follows, LifeFrame;
  }

  lemma SpecsStartup(bootstrap: Spec, sys: System, ok: bool)
    requires SpecsOk(bootstrap, sys)
    ensures SpecsOk(bootstrap, MoveStartup(sys, ok))
  {
    hide InOrder, Pinned, LifeFrame, MoveStartup, Targets;
    StartupKeepsTarget(sys, ok);
  }

  lemma StartupKeepsTarget(sys: System, ok: bool)
    requires Targets(sys.life, sys.core.desired)
    ensures Targets(MoveStartup(sys, ok).life, sys.core.desired)
  {
    hide LifeFrame;
  }

  lemma SpecsCommit(bootstrap: Spec, sys: System, ok: bool)
    requires SpecsOk(bootstrap, sys) && !sys.pair.Unregistered? && !sys.pair.Registering?
    ensures SpecsOk(bootstrap, MoveCommit(sys, ok))
  {
    hide Grants, InOrder, Follows, LifeFrame;
    if sys.life.Settling? && Sendable(sys.core) {
      AppendInOrder(bootstrap, sys.history.committed, sys.core.desired);
    }
  }

  lemma AppendInOrder(bootstrap: Spec, committed: seq<Spec>, spec: Spec)
    requires InOrder(bootstrap, committed) && Follows(committed, spec) && (|committed| == 0 ==> spec == bootstrap)
    ensures InOrder(bootstrap, committed + [spec]) && Follows(committed + [spec], spec)
  {
    var all, last := committed + [spec], |committed| - 1;
    forall i, j | 0 <= i < j < |all| ensures all[i].revision < all[j].revision || all[i] == all[j] {
      if j == |committed| {
        assert i == last || committed[i].revision < committed[last].revision || committed[i] == committed[last];
      }
    }
  }
}
