/** What holds in every state a run can reach. */
module Runs {
  import opened Base
  import opened Core
  import opened Tables
  import opened Machine
  import opened Threads
  import opened Accounts
  import opened Lifetimes
  import opened Transactions
  import opened Streams
  import opened Admissions

  ghost predicate Safe(lim: Limits, sys: System) {
    && CountsOk(sys) && PairOk(sys) && AccountsOk(lim, sys) && LifetimesOk(sys) && SpecsOk(lim.bootstrap, sys)
    && AdmissionsOk(sys)
  }

  lemma {:induction false} AllIdleCounts(workers: seq<Worker>)
    requires AllIdle(workers)
    ensures Count(workers, IsCounted) == 0 && Count(workers, IsBusy) == 0 && Handlers(workers) == multiset{}
  {
    if |workers| > 0 {
      AllIdleCounts(workers[..|workers| - 1]);
    }
  }

  lemma SafeStart(lim: Limits, workers: nat)
    ensures Safe(lim, Initial(workers))
  {
    hide TablesOk, Count, Handlers;
    var sys := Initial(workers);
    AllIdleCounts(sys.workers);
    assert TablesOk(lim, sys.core, 0) by { EmptyTables(lim, sys.core); }
  }

  lemma EmptyTables(lim: Limits, s: State)
    requires s.ledger == Ledger(map[], map[], 0) && s.outbox == Outbox([], 0, [], []) && s.dispatch == []
             && s.dispatchBytes == 0
    requires s.sources == Sources(map[], map[], 0)
    ensures TablesOk(lim, s, 0)
  {
    EmptyTotal(s.ledger.tokens, ReservedBytes);
    EmptyTotal(s.ledger.replay, EntryBytes);
    EmptyTotal(s.sources.live, LiveBytes);
    EmptyTotal(s.sources.closed, ClosedBytes);
  }

  lemma DisjointSources(lim: Limits, sys: System)
    requires AccountsOk(lim, sys)
    ensures Apart(sys.core.sources)
  {
  }

  lemma SafeStep(lim: Limits, sys: System, a: Action)
    requires Safe(lim, sys)
    ensures Safe(lim, Step(lim, sys, a))
  {
    hide Step, CountsOk, PairOk, AccountsOk, LifetimesOk, SpecsOk, AdmissionsOk, Apart;
    CountsStep(lim, sys, a);
    PairStep(lim, sys, a);
    AccountsStep(lim, sys, a);
    LifetimesStep(lim, sys, a);
    SpecsStep(lim, sys, a);
    DisjointSources(lim, sys);
    AdmissionsStep(lim, sys, a);
  }

  /** Every invariant holds in every reachable state. */
  lemma {:induction false} SafeRun(lim: Limits, workers: nat, run: Run, k: nat)
    requires Reaches(lim, workers, run, k)
    ensures Safe(lim, run.At(k))
  {
    hide Safe, Step;
    if k == 0 {
      SafeStart(lim, workers);
    } else {
      SafeRun(lim, workers, run, k - 1);
      NextState(lim, workers, run, k - 1);
      SafeStep(lim, run.At(k - 1), run.actions[k - 1]);
    }
  }

  // Accounting.

  /** The replay counter is exactly what is retained plus what is reserved, within both budgets. */
  lemma ReplayAccounting(lim: Limits, workers: nat, run: Run, n: nat)
    requires Reaches(lim, workers, run, n)
    ensures var ledger := run.At(n).core.ledger;
            && ledger.bytes == Total(ledger.tokens, ReservedBytes) + Total(ledger.replay, EntryBytes)
            && ledger.bytes <= lim.maxReplayBytes && |ledger.replay| + |ledger.tokens| <= lim.maxReplay
  {
    hide IsRun;
    SafeRun(lim, workers, run, n);
  }

  /** On an open pair the source counter is exactly what the live and closed sources hold; otherwise
      it may only be higher. Live sources are neither closed nor named like Work. */
  lemma SourceAccounting(lim: Limits, workers: nat, run: Run, n: nat)
    requires Reaches(lim, workers, run, n)
    ensures var (sys, sources) := (run.At(n), run.At(n).core.sources);
            var held := Total(sources.live, LiveBytes) + Total(sources.closed, ClosedBytes);
            && held <= sources.bytes <= lim.maxSourceBytes && (sys.pair == Open ==> sources.bytes == held)
            && |sources.live| <= lim.maxStreams && |sources.live| + |sources.closed| <= lim.maxTombstones
            && sources.live.Keys !! sources.closed.Keys && sources.live.Keys !! sys.core.ledger.tokens.Keys
  {
    hide IsRun;
    SafeRun(lim, workers, run, n);
  }

  /** The byte counters of both queues are their contents, within their bounds. */
  lemma QueueAccounting(lim: Limits, workers: nat, run: Run, n: nat)
    requires Reaches(lim, workers, run, n)
    ensures var core := run.At(n).core;
            && core.outbox.bytes == QueueBytes(core.outbox.queue) <= lim.maxWorkQueueBytes
            && |core.outbox.queue| <= lim.maxWorkQueue
            && core.dispatchBytes == JobBytes(core.dispatch) <= lim.maxDispatchBytes
            && |core.dispatch| <= lim.maxDispatch
  {
    hide IsRun;
    SafeRun(lim, workers, run, n);
  }

  /** No byte counter is ever asked for more than it holds, so no clamp or wrap-around is reached. */
  lemma NoUnderflow(lim: Limits, workers: nat, run: Run, n: nat, id: string)
    requires Reaches(lim, workers, run, n)
    ensures var core := run.At(n).core;
            && (id in core.ledger.tokens ==> core.ledger.tokens[id].reservation <= core.ledger.bytes)
            && (id in core.ledger.replay ==> core.ledger.replay[id].bytes <= core.ledger.bytes)
            && (id in core.sources.live ==> core.sources.live[id].bytes <= core.sources.bytes)
            && (id in core.sources.closed ==> core.sources.closed[id].bytes <= core.sources.bytes)
            && Total(core.ledger.tokens, ReservedBytes) <= core.ledger.bytes
            && (|core.outbox.queue| > 0 ==> core.outbox.queue[0].bytes <= core.outbox.bytes)
            && (|core.dispatch| > 0 ==> core.dispatch[0].bytes <= core.dispatchBytes)
  {
    hide IsRun;
    SafeRun(lim, workers, run, n);
    var core := run.At(n).core;
    if id in core.ledger.tokens { TotalRemove(core.ledger.tokens, ReservedBytes, id); }
    if id in core.ledger.replay { TotalRemove(core.ledger.replay, EntryBytes, id); }
    if id in core.sources.live { TotalRemove(core.sources.live, LiveBytes, id); }
    if id in core.sources.closed { TotalRemove(core.sources.closed, ClosedBytes, id); }
  }

  /** A session's commits begin with the bootstrap spec, never go back in revision, and two of one
      revision are the same spec. */
  lemma CommitsInOrder(lim: Limits, workers: nat, run: Run, n: nat)
    requires Reaches(lim, workers, run, n)
    ensures InOrder(lim.bootstrap, run.At(n).history.committed)
  {
    hide IsRun;
    SafeRun(lim, workers, run, n);
  }

  // Callbacks.

  /** Whatever the threads do, each handler call lies between the start of its capability and a stop,
      every stop and clear finds all handlers returned, and every clear all capabilities stopped. */
  lemma CallbacksBracketed(lim: Limits, workers: nat, run: Run, n: nat, k: nat, b: nat)
    requires Reaches(lim, workers, run, n)
    requires k < |run.At(n).history.trace|
    ensures var trace := run.At(n).history.trace;
            && (trace[k] == Enter(b) ==> exists i: nat :: StartedAt(trace, i, k, b))
            && (trace[k].Stop? || trace[k] == ClearSpec ==>
                  Occurs(trace[..k], Enter(b)) == Occurs(trace[..k], Leave(b)))
            && (trace[k] == ClearSpec ==> Occurs(trace[..k], Start(b)) == Occurs(trace[..k], Stop(b)))
  {
    hide IsRun;
    SafeRun(lim, workers, run, n);
    HandlersBracketed(run.At(n).history.trace, k, b);
  }

  /** From the end of deactivation's wait to the next commit no spec is current, and no worker is in a
      handler or bound to enter one, whatever became of the transaction; and the trace has no entry
      between a stop and the next commit. */
  lemma Quiescence(lim: Limits, workers: nat, run: Run, n: nat)
    requires Reaches(lim, workers, run, n)
    ensures var sys := run.At(n);
            && (Quiescent(sys.life) ==> sys.core.current.None?)
            && (sys.core.current.None? && !sys.life.Awaiting? ==> NoneHolding(sys.workers))
            && DrainedBeforeStops(sys.history.trace)
  {
    hide IsRun, NoneHolding;
    SafeRun(lim, workers, run, n);
    QuietWithoutSpec(run.At(n));
    QuietTrace(run.At(n).history.trace);
  }

  /** Without a current spec no capability serves, except to the handlers a deactivation waits for. */
  lemma QuietWithoutSpec(sys: System)
    requires LifetimesOk(sys)
    ensures Quiescent(sys.life) ==> sys.core.current.None?
    ensures sys.core.current.None? && !sys.life.Awaiting? ==> NoneHolding(sys.workers)
  {
    hide Watch, Handlers, ValidSpec, Grants, Plan, LiveServed, Winding;
  }

  ghost predicate DrainedBeforeStops(trace: seq<Callback>) {
    forall i, k :: 0 <= i < k < |trace| && trace[i].Stop? && trace[k].Enter? ==> !NoCommit(trace, i, k)
  }

  lemma QuietTrace(trace: seq<Callback>)
    requires Watch(trace).Some?
    ensures DrainedBeforeStops(trace)
  {
    forall i, k | 0 <= i < k < |trace| && trace[i].Stop? && trace[k].Enter? ensures !NoCommit(trace, i, k) {
      QuietUntilCommit(trace, i, k);
    }
  }

  /** Of two capabilities of one aborted candidate, the one started first is stopped last. */
  lemma UnwindsInReverse(lim: Limits, workers: nat, run: Run, n: nat, i: nat, j: nat, k: nat, a: nat, b: nat)
    requires Reaches(lim, workers, run, n)
    requires var trace := run.At(n).history.trace;
             && i < j < k < |trace| && trace[i] == Start(a) && trace[j] == Start(b) && trace[k] == Stop(a)
             && forall m :: i < m < k ==> trace[m] != Stop(a) && trace[m] != CommitSpec
    ensures var trace := run.At(n).history.trace;
            exists m :: i < m < k && trace[m] == Stop(b)
  {
    hide IsRun;
    SafeRun(lim, workers, run, n);
    ReverseOrder(run.At(n).history.trace, i, j, k, a, b);
  }

  /** When the supervisor is done, every start had its stop, every apply its clear and every entry
      its return; at any other time at most the running ones are unmatched. */
  lemma BalancedCallbacks(lim: Limits, workers: nat, run: Run, n: nat, b: nat)
    requires Reaches(lim, workers, run, n)
    ensures var trace := run.At(n).history.trace;
            && Occurs(trace, Stop(b)) <= Occurs(trace, Start(b)) <= Occurs(trace, Stop(b)) + 1
            && Occurs(trace, ClearSpec) <= Occurs(trace, ApplySpec) <= Occurs(trace, ClearSpec) + 1
            && Occurs(trace, Leave(b)) <= Occurs(trace, Enter(b))
    ensures var sys := run.At(n);
            sys.pair == Over ==>
              && Occurs(sys.history.trace, Start(b)) == Occurs(sys.history.trace, Stop(b))
              && Occurs(sys.history.trace, ApplySpec) == Occurs(sys.history.trace, ClearSpec)
              && Occurs(sys.history.trace, Enter(b)) == Occurs(sys.history.trace, Leave(b))
  {
    hide IsRun, Occurs, Watch, Count;
    SafeRun(lim, workers, run, n);
    var sys := run.At(n);
    Balanced(sys.history.trace, b);
    if sys.pair == Over {
      AllIdleCounts(sys.workers);
    }
  }

  // Sources.

  /** Every source admission of every run queues one rejecting result, or an accepting one, data
      numbered 1 to n, and at most one close that names n; only copies of the terminal follow. The
      acknowledged numbers do not decrease and stay below what was sent. */
  lemma SourceTranscripts(lim: Limits, workers: nat, run: Run, n: nat, ticket: nat)
    requires Reaches(lim, workers, run, n)
    requires ticket in run.At(n).history.stories
    ensures var story := run.At(n).history.stories[ticket]; WellTold(story) && AcksOk(story)
  {
    hide IsRun;
    SafeRun(lim, workers, run, n);
  }

  /** The credit left to a live source and what it published add up to what it was granted; a
      closed one remembers its last data number and the last acknowledgement. */
  lemma CreditConserved(lim: Limits, workers: nat, run: Run, n: nat, id: string)
    requires Reaches(lim, workers, run, n)
    ensures var (sources, stories) := (run.At(n).core.sources, run.At(n).history.stories);
            && (id in sources.live ==>
                  && sources.live[id].ticket in stories
                  && var (source, story) := (sources.live[id], stories[sources.live[id].ticket]);
                  && story.id == id
                  && source.credit.messages + PublishedMessages(story.frames) == story.granted.messages
                  && source.credit.bytes + PublishedBytes(story.frames) == story.granted.bytes
                  && source.sequence == Sent(story) && source.acknowledged == Acknowledged(story))
            && (id in sources.closed ==>
                  && sources.closed[id].ticket in stories
                  && var (tombstone, story) := (sources.closed[id], stories[sources.closed[id].ticket]);
                  && story.id == id && story.end.Some? && story.end.value < |story.frames|
                  && story.frames[story.end.value] == tombstone.frame
                  && tombstone.finalSequence == Sent(story) && tombstone.acknowledged == Acknowledged(story))
  {
    hide IsRun, PublishedMessages, PublishedBytes, StoryOk, CountsOk, PairOk, AccountsOk, LifetimesOk, SpecsOk;
    SafeRun(lim, workers, run, n);
  }
}
