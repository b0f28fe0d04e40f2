/** Retained terminals are write-once over whole runs, across any number of pairs. */
module Durable {
  import opened Base
  import opened Protocol
  import opened Core
  import opened Machine
  import opened Threads
  import opened Accounts
  import opened Transactions
  import opened Streams
  import opened Jobs
  import opened Ledgers
  import opened Runs
  import opened Works
  import opened Logs

  // Durability.

  /** No job of this id is younger than `ticket`. */
  ghost predicate OldJobs(sys: System, id: string, ticket: nat) {
    && (forall i :: 0 <= i < |sys.core.dispatch| ==> OldJob(sys.core.dispatch[i], id, ticket))
    && (forall w :: 0 <= w < |sys.workers| && HasJob(sys.workers[w]) ==> OldJob(sys.workers[w].job, id, ticket))
  }

  predicate OldJob(job: Job, id: string, ticket: nat) {
    job.workId == id ==> job.ticket < ticket
  }

  /** Every terminal queued for the id since the log had `n` frames is this one. */
  predicate OnlyRepeats(log: seq<WorkFrame>, n: nat, id: string, frame: WorkFrame) {
    forall k :: n <= k < |log| && TerminalOf(log[k].body) == Some(id) ==> log[k] == frame
  }

  /** The terminal retained in `start` is still there: the entry is the same, only its frame was queued
      as a terminal of the id meanwhile, and no job of the id was admitted. */
  ghost predicate Kept(start: System, sys: System, id: string) {
    && id in start.core.ledger.replay
    && var (entry, n) := (start.core.ledger.replay[id], |start.core.outbox.log|);
    && id in sys.core.ledger.replay && sys.core.ledger.replay[id] == entry
    && Releases(sys.history, id) == Releases(start.history, id) && sys.history.resets == start.history.resets
    && n <= |sys.core.outbox.log| && sys.core.outbox.log[..n] == start.core.outbox.log
    && OnlyRepeats(sys.core.outbox.log, n, id, entry.frame)
    && OldJobs(sys, id, start.core.nextTicket) && start.core.nextTicket <= sys.core.nextTicket
  }

  /** The first thing that freed it was an acknowledgement of exactly its digest, or the session's end. */
  predicate GivenUp(start: System, sys: System, id: string) {
    && id in start.core.ledger.replay
    && var n := |Releases(start.history, id)|;
    || sys.history.resets > start.history.resets
    || (|Releases(sys.history, id)| > n && Releases(sys.history, id)[n] == start.core.ledger.replay[id].digest)
  }

  lemma KeptStep(lim: Limits, start: System, sys: System, a: Action, id: string)
    requires Kept(start, sys, id)
    requires WorksOk(lim, sys) && JobsOk(sys)
    ensures Kept(start, Step(lim, sys, a), id) || GivenUp(start, Step(lim, sys, a), id)
  {
    hide Step, WorksOk, JobsOk, Effect, LogGrows, Releases, OldJobs, OnlyRepeats, Admissible;
    var r := Step(lim, sys, a);
    var e := StepEffect(lim, sys, a);
    EntryStep(lim, start, sys, r, e, id);
    LogStep(lim, sys, a);
    if !GivenUp(start, r, id) {
      LogKept(start, sys, r, id);
      JobsKept(lim, sys, a, e, id, start.core.nextTicket);
    }
  }

  lemma EntryStep(lim: Limits, start: System, sys: System, r: System, e: Event, id: string)
    requires Kept(start, sys, id) && Effect(lim, sys, r, e)
    ensures GivenUp(start, r, id) ||
              (&& id in r.core.ledger.replay && r.core.ledger.replay[id] == start.core.ledger.replay[id]
               && Releases(r.history, id) == Releases(start.history, id) && r.history.resets == start.history.resets)
    ensures sys.core.nextTicket <= r.core.nextTicket
  {
    hide Presents, Finishes, NoNewWork, EntryFor, OldJobs, OnlyRepeats;
  }

  lemma LogKept(start: System, sys: System, r: System, id: string)
    requires Kept(start, sys, id) && LogGrows(sys, r)
    ensures var n := |start.core.outbox.log|;
            && n <= |r.core.outbox.log| && r.core.outbox.log[..n] == start.core.outbox.log
            && OnlyRepeats(r.core.outbox.log, n, id, start.core.ledger.replay[id].frame)
  {
    hide Releases, OldJobs, TerminalOf;
    var n, before, after := |start.core.outbox.log|, sys.core.outbox.log, r.core.outbox.log;
    assert after[..|before|] == before;
    assert after[..n] == after[..|before|][..n];
    forall k | n <= k < |after|
        && TerminalOf(after[k].body) == Some(id) ensures after[k] == start.core.ledger.replay[id].frame {
      if k < |before| {
        assert after[k] == before[k];
      } else {
        assert Admissible(sys.core.ledger.replay, after[k]);
      }
    }
  }

  lemma JobsKept(lim: Limits, sys: System, a: Action, e: Event, id: string, ticket: nat)
    requires Effect(lim, sys, Step(lim, sys, a), e) && JobsOk(sys) && OldJobs(sys, id, ticket)
             && id in sys.core.ledger.replay
    ensures OldJobs(Step(lim, sys, a), id, ticket)
  {
    hide Step, JobsOk, Effect, OldJob;
    var r := Step(lim, sys, a);
    forall i | 0 <= i < |r.core.dispatch| ensures OldJob(r.core.dispatch[i], id, ticket) {
      QueueKept(lim, sys, r, e, id, ticket, i);
    }
    forall w | 0 <= w < |r.workers| && HasJob(r.workers[w]) ensures OldJob(r.workers[w].job, id, ticket) {
      HeldBefore(lim, sys, a, w);
    }
  }

  lemma QueueKept(lim: Limits, sys: System, r: System, e: Event, id: string, ticket: nat, i: nat)
    requires Effect(lim, sys, r, e) && OldJobs(sys, id, ticket) && id in sys.core.ledger.replay && i < |r.core.dispatch|
    ensures OldJob(r.core.dispatch[i], id, ticket)
  {
    hide Presents, Finishes, EntryFor;
  }

  lemma GivenUpStep(lim: Limits, start: System, sys: System, a: Action, id: string)
    requires GivenUp(start, sys, id)
    ensures GivenUp(start, Step(lim, sys, a), id)
  {
    hide Step, Presents, Finishes, NoNewWork, EntryFor;
    var e := StepEffect(lim, sys, a);
  }

  /** Once a terminal is retained it stays the same over any further run, any number of pairs, until its
      exact digest is acknowledged or the session is reset; meanwhile every terminal queued for the id is
      the retained frame, and no job of the id is admitted. */
  lemma {:induction false} TerminalDurable(lim: Limits, workers: nat, run: Run, n: nat, m: nat, id: string)
    requires Reaches(lim, workers, run, m) && n <= m && id in run.At(n).core.ledger.replay
    ensures Kept(run.At(n), run.At(m), id) || GivenUp(run.At(n), run.At(m), id)
  {
    hide Step, WorksOk, Kept, GivenUp, CountsOk, PairOk, AccountsOk, LifetimesOk, SpecsOk, Told;
    if n == m {
      SafeRun(lim, workers, run, n);
      KeptAtFirst(run.At(n), id);
    } else {
      TerminalDurable(lim, workers, run, n, m - 1, id);
      SafeRun(lim, workers, run, m - 1);
      WorksRun(lim, workers, run, m - 1);
      NextState(lim, workers, run, m - 1);
      if Kept(run.At(n), run.At(m - 1), id) {
        KeptStep(lim, run.At(n), run.At(m - 1), run.actions[m - 1], id);
      } else {
        GivenUpStep(lim, run.At(n), run.At(m - 1), run.actions[m - 1], id);
      }
    }
  }

  lemma KeptAtFirst(start: System, id: string)
    requires id in start.core.ledger.replay && JobsOk(start)
    ensures Kept(start, start, id)
  {
    hide JobsFresh;
  }
}
